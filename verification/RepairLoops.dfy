/**
 The repair loops of the code_hdl and code_fix blocks (app/modules/blocks/router.py) and the frozen-interface
 check behind the first (app/modules/blocks/hdl.py).  The model is any sequence of answers; the checks of
 instructions against an artifact are any functions of it.
 */
module RepairLoops {
  import opened Text
  import V = VerilogHeader

  const REPAIR_ROUNDS: nat := 2

  datatype Problem =
    | NoCode
    | NoEndmodule
    | Identical
    | Renamed(from: string, to: string)
    | InterfaceChanged(removed: seq<string>, added: seq<string>, expected: seq<string>)
    | BadDesign(text: string)
    | UnmetInstruction(text: string)
    | Unreported(text: string)

  datatype Findings = Findings(problems: seq<Problem>, warnings: seq<string>)

  /** One JSON answer, code fences already removed. */
  datatype Answer = Answer(code: string, compliance: string, language: string)

  function Or(s: string, fallback: string): string {
    if s != "" then s else fallback
  }

  function Without<T(==,!new)>(xs: seq<T>, ys: seq<T>): (r: seq<T>)
    ensures forall x :: x in r <==> x in xs && x !in ys
  {
    if xs == [] then [] else (if xs[0] in ys then [] else [xs[0]]) + Without(xs[1..], ys)
  }

  predicate Contains(s: string, word: string) {
    word <= s || (s != "" && Contains(s[1..], word))
  }

  // ----- the frozen interface ----------------------------------------------------------------------

  /** The name a repaired module is held to: the request's `top`, and only without one the design's own. */
  function FrozenTop(previous: string, top: string): string {
    Or(Strip(top), V.InferTop(previous))
  }

  /** The name is `top`, and where both can be read, its ports are those `previous` gives to `top`. */
  predicate KeepsInterface(code: string, previous: string, top: string) {
    && V.InferTop(Strip(code)) == top
    && var before, after := V.Ports(previous, top), V.Ports(Strip(code), top);
       before == [] || after == [] || before == after
  }

  /** A whole design, a different one, with that interface. */
  predicate IsRepair(code: string, previous: string, top: string) {
    && !Blank(code) && Contains(Strip(code), "endmodule") && Strip(code) != Strip(previous)
    && KeepsInterface(code, previous, top)
  }

  function TextProblems(fix: string, previous: string): seq<Problem> {
    (if Contains(fix, "endmodule") then [] else [NoEndmodule]) + (if fix == Strip(previous) then [Identical] else [])
  }

  function InterfaceProblems(fix: string, previous: string, name: string): seq<Problem> {
    var before, after := V.Ports(previous, name), V.Ports(fix, name);
    if V.InferTop(fix) != name then [Renamed(name, V.InferTop(fix))]
    else if before == [] || after == [] || before == after then []
    else [InterfaceChanged(Without(before, after), Without(after, before), before)]
  }

  function RtlFixProblems(code: string, previous: string, top: string): seq<Problem> {
    var fix := Strip(code);
    if fix == "" then [NoCode]
    else TextProblems(fix, previous) + InterfaceProblems(fix, previous, FrozenTop(previous, top))
  }

  method CheckInterface(fix: string, previous: string, name: string) returns (problems: seq<Problem>)
    ensures problems == InterfaceProblems(fix, previous, name)
  {
    var found := V.InferTop(fix);
    if found != name { return [Renamed(name, found)]; }
    var before := V.ModulePorts(previous, name);
    var after := V.ModulePorts(fix, name);
    if before != [] && after != [] && before != after {
      return [InterfaceChanged(Without(before, after), Without(after, before), before)];
    }
    return [];
  }

  method ValidateRtlFix(code: string, previous: string, top: string) returns (problems: seq<Problem>)
    ensures problems == RtlFixProblems(code, previous, top)
  {
    var fix := Strip(code);
    if fix == "" { return [NoCode]; }
    problems := [];
    if !Contains(fix, "endmodule") { problems := problems + [NoEndmodule]; }
    if fix == Strip(previous) { problems := problems + [Identical]; }
    assert problems == TextProblems(fix, previous);
    var interface := CheckInterface(fix, previous, FrozenTop(previous, top));
    problems := problems + interface;
  }

  lemma InterfaceIsKept(code: string, previous: string, name: string)
    ensures InterfaceProblems(Strip(code), previous, name) == [] <==> KeepsInterface(code, previous, name)
  {
  }

  lemma NoProblemOfText(fix: string, previous: string)
    ensures TextProblems(fix, previous) == [] <==> Contains(fix, "endmodule") && fix != Strip(previous)
  {
  }

  /** No problem is found exactly when the answer is a repair that keeps the interface. */
  lemma AcceptedIsRepair(code: string, previous: string, top: string)
    ensures RtlFixProblems(code, previous, top) == [] <==> IsRepair(code, previous, FrozenTop(previous, top))
  {
    NoProblemOfText(Strip(code), previous);
    InterfaceIsKept(code, previous, FrozenTop(previous, top));
  }

  /** Where both designs print a readable header for the kept module, the ports are the same. */
  lemma KeptPortsAreTheSame(code: string, previous: string,
                            at: nat, h: V.Header, r: string, at': nat, h': V.Header, r': string)
    requires KeepsInterface(code, previous, h.name)
    requires V.Declares(previous, at, h, r) && V.Readable(h)
    requires V.Declares(Strip(code), at', h', r') && V.Readable(h') && h'.name == h.name
    ensures h'.Names() == h.Names()
  {
    V.NameIsStripped(h.name);
    V.HeaderRoundTrip(previous, h.name, at, h, r);
    V.HeaderRoundTrip(Strip(code), h.name, at', h', r');
  }

  /** The request names no top, or the one the design to be repaired has. */
  predicate OwnTop(previous: string, top: string) {
    Strip(top) in {"", V.InferTop(previous)}
  }

  /** An accepted repair keeps the name and the readable ports of the design it was given iff that holds. */
  lemma KeepsItsOwnIff(code: string, previous: string, top: string)
    requires IsRepair(code, previous, FrozenTop(previous, top))
    ensures V.InferTop(Strip(code)) == V.InferTop(previous) <==> OwnTop(previous, top)
    ensures KeepsInterface(code, previous, V.InferTop(previous)) <==> OwnTop(previous, top)
  {
  }

  /** With a stale top every answer that keeps the design's own name is rejected. */
  lemma StaleTopRejectsTheOwnName(code: string, previous: string, top: string)
    requires !OwnTop(previous, top) && V.InferTop(Strip(code)) == V.InferTop(previous)
    ensures RtlFixProblems(code, previous, top) != []
  {
    AcceptedIsRepair(code, previous, top);
  }

  /** With a top the old design does not show the ports of, any ports are accepted under that name. */
  lemma UnreadTopFreesThePorts(code: string, previous: string, top: string)
    requires V.Ports(previous, top) == []
    ensures KeepsInterface(code, previous, top) <==> V.InferTop(Strip(code)) == top
  {
  }

  // ----- the rounds --------------------------------------------------------------------------------

  /** The design a repair round shows: the last answer that had any code, or the one to be repaired. */
  function Draft(previous: string, answers: seq<Answer>): string {
    if answers == [] then previous
    else Or(answers[|answers| - 1].code, Draft(previous, answers[..|answers| - 1]))
  }

  /** It is the code of the answer before `k`, when all from there on had none. */
  lemma {:induction false} DraftIsTheLastCode(previous: string, answers: seq<Answer>, k: nat)
    requires k <= |answers| && forall j :: k <= j < |answers| ==> answers[j].code == ""
    requires k > 0 ==> answers[k - 1].code != ""
    ensures Draft(previous, answers) == if k == 0 then previous else answers[k - 1].code
    decreases |answers|
  {
    if k < |answers| { DraftIsTheLastCode(previous, answers[..|answers| - 1], k); }
  }

  /** A request to the model: the design shown and the reasons the last draft was rejected. */
  datatype Prompt = Prompt(shown: string, rejected: seq<Problem>)

  function PromptFor(judge: Answer -> Findings, revise: bool, previous: string, earlier: seq<Answer>): Prompt {
    Prompt(if revise then Draft(previous, earlier) else previous,
           if earlier == [] then [] else judge(earlier[|earlier| - 1]).problems)
  }

  /** Every call but the last was rejected, and the last was accepted or the rounds are used up. */
  ghost predicate Stopped(judge: Answer -> Findings, answers: seq<Answer>, calls: nat) {
    && 1 <= calls <= REPAIR_ROUNDS + 1 <= |answers|
    && (forall k :: 0 <= k < calls - 1 ==> judge(answers[k]).problems != [])
    && (calls == REPAIR_ROUNDS + 1 || judge(answers[calls - 1]).problems == [])
  }

  ghost predicate Prompted(judge: Answer -> Findings, revise: bool, previous: string, answers: seq<Answer>,
                           prompts: seq<Prompt>) {
    |prompts| <= |answers| &&
    forall k :: 0 <= k < |prompts| ==> prompts[k] == PromptFor(judge, revise, previous, answers[..k])
  }

  /** Ask until nothing is wrong or the rounds are used up, telling the model each time what was. */
  method Ask(judge: Answer -> Findings, revise: bool, previous: string, answers: seq<Answer>)
    returns (found: Findings, calls: nat, prompts: seq<Prompt>)
    requires |answers| == REPAIR_ROUNDS + 1
    ensures Stopped(judge, answers, calls) && found == judge(answers[calls - 1])
    ensures |prompts| == calls && Prompted(judge, revise, previous, answers, prompts)
  {
    calls, prompts, found := 0, [], Findings([], []);
    var draft := previous;
    while calls < REPAIR_ROUNDS + 1
      invariant calls <= |answers| && |prompts| == calls
      invariant Prompted(judge, revise, previous, answers, prompts)
      invariant forall k :: 0 <= k < calls ==> judge(answers[k]).problems != []
      invariant draft == Draft(previous, answers[..calls])
      invariant found == if calls == 0 then Findings([], []) else judge(answers[calls - 1])
    {
      prompts := prompts + [Prompt(if revise then draft else previous, found.problems)];
      found := judge(answers[calls]);
      assert answers[..calls + 1][..calls] == answers[..calls];
      calls := calls + 1;
      if found.problems == [] { return; }
      draft := Or(answers[calls - 1].code, draft);
    }
  }

  // ----- the code_hdl block ------------------------------------------------------------------------

  /** What a code_hdl run is given.  `language` is one of the three HDLs; `changesPorts` is set when an
      instruction asks for a port. */
  datatype Job = Job(spec: string, top: string, feedback: string, previous: string,
                     changesPorts: bool, vhdl: bool)

  /** The checks a draft goes through besides the frozen interface. */
  datatype Checks = Checks(design: string -> Findings, unmet: string -> Findings, gaps: string -> seq<Problem>)

  /** Repair needs a design, a reason to repair it, and an interface that may stay as it is. */
  predicate Fixing(job: Job) {
    !Blank(job.feedback) && !Blank(job.previous) && !job.changesPorts
  }

  /** The name a repair is held to. */
  function TopOf(job: Job): string {
    FrozenTop(job.previous, job.top)
  }

  function Judged(job: Job, checks: Checks, a: Answer): Findings {
    var shape := if Fixing(job) then Findings(RtlFixProblems(a.code, job.previous, TopOf(job)), [])
                 else checks.design(a.code);
    Findings(shape.problems + (checks.unmet(a.code).problems + checks.gaps(a.compliance)),
             shape.warnings + checks.unmet(a.code).warnings)
  }

  /** A draft passes iff it passes each check: the frozen interface or the design's, the instructions, the report. */
  lemma PassingIsPassingAll(job: Job, checks: Checks, a: Answer)
    ensures Judged(job, checks, a) == Findings([], []) <==>
      && (if Fixing(job) then IsRepair(a.code, job.previous, TopOf(job)) else checks.design(a.code) == Findings([], []))
      && checks.unmet(a.code) == Findings([], []) && checks.gaps(a.compliance) == []
  {
    if Fixing(job) {
      TopIsKept(job);
      AcceptedIsRepair(a.code, job.previous, TopOf(job));
    }
  }

  /** What is wrong with a draft is all in the next prompt: the problems of each check, in their order. */
  lemma ProblemsAreKept(job: Job, checks: Checks, a: Answer, p: Problem)
    ensures p in Judged(job, checks, a).problems <==>
      || p in (if Fixing(job) then RtlFixProblems(a.code, job.previous, TopOf(job)) else checks.design(a.code).problems)
      || p in checks.unmet(a.code).problems || p in checks.gaps(a.compliance)
  {
  }

  function Judge(job: Job, checks: Checks): Answer -> Findings {
    a => Judged(job, checks, a)
  }

  datatype Result = Refused | Written(code: string, ok: bool)

  lemma TopIsKept(job: Job)
    requires Fixing(job)
    ensures FrozenTop(job.previous, TopOf(job)) == TopOf(job)
  {
  }

  /** The final report: whatever was found on the last draft or is still missed on the code written. */
  function Status(found: Findings, missed: Findings, gaps: seq<Problem>, vhdl: bool): (ok: bool)
    ensures ok <==> found == Findings([], []) && missed == Findings([], []) && gaps == [] && !vhdl
  {
    var all := missed.problems + gaps;
    var notes, cautions := Without(found.problems, all), Without(found.warnings, missed.warnings);
    assert found.problems != [] ==> found.problems[0] in found.problems;
    assert found.warnings != [] ==> found.warnings[0] in found.warnings;
    notes == [] && !vhdl && cautions == [] && all == [] && missed.warnings == []
  }

  predicate IsOutcome(job: Job, checks: Checks, last: Answer, r: Result) {
    && r.Written?
    && r.code == (if Fixing(job) && Blank(last.code) then job.previous else last.code)
    && (r.ok <==> Judged(job, checks, last) == Findings([], []) && !job.vhdl)
  }

  /** The interface kept is the design's own exactly when the request named no other top. */
  predicate KeepsOwnIff(job: Job, code: string) {
    && (V.InferTop(Strip(code)) == V.InferTop(job.previous) <==> OwnTop(job.previous, job.top))
    && (KeepsInterface(code, job.previous, V.InferTop(job.previous)) <==> OwnTop(job.previous, job.top))
  }

  method Finish(job: Job, checks: Checks, last: Answer, found: Findings) returns (r: Result)
    requires found == Judged(job, checks, last)
    ensures IsOutcome(job, checks, last, r)
    ensures Fixing(job) ==> !Blank(r.code)
    ensures Fixing(job) && r.ok ==> IsRepair(r.code, job.previous, TopOf(job)) && KeepsOwnIff(job, r.code)
  {
    var code := if Fixing(job) && Blank(last.code) then job.previous else last.code;
    var missed, gaps := checks.unmet(code), checks.gaps(last.compliance);
    r := Written(code, Status(found, missed, gaps, job.vhdl));
    if Fixing(job) {
      TopIsKept(job);
      AcceptedIsRepair(last.code, job.previous, TopOf(job));
      if r.ok { KeepsItsOwnIff(r.code, job.previous, job.top); }
    }
  }

  /**
   Status "ok" says exactly that the last answer passed every check without a warning (and is no VHDL).
   A repair then has the requested top's name and, where both can be read, the ports the given design shows
   for it, whatever rejected drafts came between; name and ports are the given design's own exactly when the
   request named no other top.  No repair ever writes blank code.
   */
  method GenerateCodeHdl(job: Job, checks: Checks, answers: seq<Answer>)
    returns (r: Result, calls: nat, prompts: seq<Prompt>)
    requires |answers| == REPAIR_ROUNDS + 1
    ensures r.Refused? <==> !Fixing(job) && Blank(job.spec)
    ensures r.Refused? ==> calls == 0
    ensures r.Written? ==> Stopped(Judge(job, checks), answers, calls) && IsOutcome(job, checks, answers[calls - 1], r)
    ensures |prompts| == calls && Prompted(Judge(job, checks), Fixing(job), job.previous, answers, prompts)
    ensures r.Written? && Fixing(job) ==> !Blank(r.code)
    ensures r.Written? && Fixing(job) && r.ok ==> IsRepair(r.code, job.previous, TopOf(job)) && KeepsOwnIff(job, r.code)
  {
    calls, prompts := 0, [];
    if !Fixing(job) && Blank(job.spec) { return Refused, calls, prompts; }
    var found;
    found, calls, prompts := Ask(Judge(job, checks), Fixing(job), job.previous, answers);
    r := Finish(job, checks, answers[calls - 1], found);
  }

  // ----- the code_fix block ------------------------------------------------------------------------

  function ShapeProblems(code: string, original: string): (problems: seq<Problem>)
    ensures problems == [] <==> !Blank(code) && Strip(code) != Strip(original)
  {
    if Blank(code) then [NoCode] else if Strip(code) == Strip(original) then [Identical] else []
  }

  /** The checks of a repaired program depend on the language it is taken to be in. */
  datatype CodeChecks = CodeChecks(unmet: (string, string) -> Findings, gaps: string -> seq<Problem>)

  function CheckLanguage(language: string, a: Answer): string {
    Or(Strip(language), Strip(a.language))
  }

  function JudgedFix(original: string, language: string, checks: CodeChecks, a: Answer): Findings {
    var missed := checks.unmet(a.code, CheckLanguage(language, a));
    Findings(ShapeProblems(a.code, original) + (missed.problems + checks.gaps(a.compliance)), missed.warnings)
  }

  lemma PassingAFixIsPassingAll(original: string, language: string, checks: CodeChecks, a: Answer)
    ensures JudgedFix(original, language, checks, a) == Findings([], []) <==>
      && !Blank(a.code) && Strip(a.code) != Strip(original)
      && checks.unmet(a.code, CheckLanguage(language, a)) == Findings([], []) && checks.gaps(a.compliance) == []
  {
  }

  function FixJudge(original: string, language: string, checks: CodeChecks): Answer -> Findings {
    a => JudgedFix(original, language, checks, a)
  }

  datatype FixResult = NoProgram | NoInstruction | Repaired(code: string, ok: bool)

  /** Never blank, never silently unchanged, and "ok" exactly when the last answer passed every check. */
  predicate IsFixed(original: string, language: string, checks: CodeChecks, last: Answer, r: FixResult) {
    && r.Repaired? && r.code == (if Blank(last.code) then original else last.code) && !Blank(r.code)
    && (r.ok <==> JudgedFix(original, language, checks, last) == Findings([], []))
    && (r.ok ==> Strip(r.code) != Strip(original))
  }

  method FinishFix(original: string, language: string, checks: CodeChecks, last: Answer, found: Findings)
    returns (r: FixResult)
    requires found == JudgedFix(original, language, checks, last) && !Blank(original)
    ensures IsFixed(original, language, checks, last, r)
  {
    var code := if Blank(last.code) then original else last.code;
    var missed, gaps := checks.unmet(code, CheckLanguage(language, last)), checks.gaps(last.compliance);
    r := Repaired(code, Status(found, missed, gaps, false));
  }

  method Repair(original: string, language: string, checks: CodeChecks, answers: seq<Answer>)
    returns (r: FixResult, calls: nat, prompts: seq<Prompt>)
    requires |answers| == REPAIR_ROUNDS + 1 && !Blank(original)
    ensures Stopped(FixJudge(original, language, checks), answers, calls)
    ensures r.Repaired? && IsFixed(original, language, checks, answers[calls - 1], r)
    ensures |prompts| == calls && Prompted(FixJudge(original, language, checks), false, original, answers, prompts)
  {
    var found;
    found, calls, prompts := Ask(FixJudge(original, language, checks), false, original, answers);
    r := FinishFix(original, language, checks, answers[calls - 1], found);
  }

  /** As for code_hdl, with nothing frozen: the program written is never blank and never silently unchanged. */
  method GenerateCodeFix(original: string, order: string, language: string, checks: CodeChecks, answers: seq<Answer>)
    returns (r: FixResult, calls: nat, prompts: seq<Prompt>)
    requires |answers| == REPAIR_ROUNDS + 1
    ensures r.NoProgram? <==> Blank(original)
    ensures r.NoInstruction? <==> !Blank(original) && Blank(order)
    ensures !r.Repaired? ==> calls == 0
    ensures r.Repaired? ==> Stopped(FixJudge(original, language, checks), answers, calls)
    ensures r.Repaired? ==> IsFixed(original, language, checks, answers[calls - 1], r)
    ensures |prompts| == calls && Prompted(FixJudge(original, language, checks), false, original, answers, prompts)
  {
    if Blank(original) { return NoProgram, 0, []; }
    if Blank(order) { return NoInstruction, 0, []; }
    r, calls, prompts := Repair(original, language, checks, answers);
  }
}
