/**
 The per-block agent: a plan/act/observe loop with three budgets, a policy gate, a growing
 transcript, a cooperative stop and an irrevocable detach (app/modules/session/block_agent.py).

 The model, the clock and the client are arbitrary: every await may return anything, raise, or be
 cancelled, and the session may stop or detach the loop while it is suspended.
 */
module BlockAgent {
  import opened Transcript
  import opened CanvasTools
  import Text

  datatype Policy = Policy(
    mayDelete: bool, mayRun: bool, mayRunExpensive: bool,
    maxSteps: nat, maxWallClock: int, maxBlockRuns: nat, maxExpensiveRuns: nat)

  const EXPENSIVE_BLOCK_TYPES := {"verilator", "yosys", "openroad", "openram", "opengcram",
                                  "analogue_simulator", "gpu", "cpu"}

  // ── What a provider's answer becomes ───────────────────────────────────────

  datatype Response =
    | FromAnthropic(content: seq<Block>, refused: bool, explanation: string)
    | FromOpenAi(text: string, calls: seq<ToolCall>)

  datatype LlmTurn = LlmTurn(text: string, calls: seq<ToolCall>, refusal: bool, raw: seq<Block>)

  function Identified(calls: seq<ToolCall>): seq<ToolCall> {
    seq(|calls|, i requires 0 <= i < |calls| =>
      if calls[i].id != "" then calls[i] else calls[i].(id := "call_" + Text.Decimal(i)))
  }

  /** The same call, under its own id if it has one. */
  predicate SameCall(given: ToolCall, kept: ToolCall) {
    kept.name == given.name && kept.args == given.args && kept.id != "" && (given.id != "" ==> kept.id == given.id)
  }

  /**
   A turn carries the provider's own calls: those of its kept content, or those it lists, in order and with only
   missing ids filled in.  A refusal carries none.
   */
  function TurnOf(r: Response): (turn: LlmTurn)
    ensures turn.raw != [] ==> CallsOf(turn.raw) == turn.calls
    ensures turn.refusal ==> turn.calls == []
    ensures turn.refusal <==> r.FromAnthropic? && r.refused
    ensures r.FromAnthropic? && !r.refused ==> turn.raw == r.content && turn.calls == CallsOf(r.content)
    ensures r.FromAnthropic? && !r.refused ==> turn.text == JoinedText(r.content)
    ensures r.FromAnthropic? && r.refused ==> turn.raw == [] && turn.text != ""
    ensures r.FromAnthropic? && r.refused && r.explanation != "" ==> turn.text == r.explanation
    ensures r.FromOpenAi? ==> turn.text == r.text && turn.raw == [] && |turn.calls| == |r.calls|
    ensures r.FromOpenAi? ==> forall i :: 0 <= i < |r.calls| ==> SameCall(r.calls[i], turn.calls[i])
  {
    match r
    case FromAnthropic(content, refused, explanation) =>
      if refused then LlmTurn(if explanation != "" then explanation else "the request was declined", [], true, [])
      else LlmTurn(JoinedText(content), CallsOf(content), false, content)
    case FromOpenAi(text, calls) => LlmTurn(text, Identified(calls), false, [])
  }

  // ── Metering ───────────────────────────────────────────────────────────────

  predicate IsRunTool(name: string) {
    name in RUN_TOOLS
  }

  /** `_is_expensive`: judged on the action when there is one, on the call's own arguments before. */
  predicate IsExpensive(blockName: string, blockType: string, call: ToolCall, action: Mapped) {
    && IsRunTool(call.name)
    && (var target := Text.Strip(Rendered(Get(if action.Action? then action.fields else call.args, "target_block")));
        target == "" || target == blockName)
    && blockType in EXPENSIVE_BLOCK_TYPES
  }

  /** The target is absent or a string, as the tool's schema declares it. */
  predicate PlainTarget(call: ToolCall) {
    Get(call.args, "target_block").Str?
  }

  /**
   The gate reads the arguments and the meter reads the action.  On a block whose name is trimmed,
   which is how the session names its agents, they agree exactly when the target is absent or a
   string, the block type is not metered, or the non-string prints as nothing or as the block name.
   */
  lemma DenialAndMeteringAgree(blockName: string, blockType: string, call: ToolCall)
    requires Text.Trimmed(blockName) && IsRunTool(call.name)
    requires FunctionCallToAction(call.name, call.args, [blockName]).Action?
    ensures IsExpensive(blockName, blockType, call, NotAnAction)
         == IsExpensive(blockName, blockType, call, FunctionCallToAction(call.name, call.args, [blockName]))
      <==> (|| PlainTarget(call)
            || blockType !in EXPENSIVE_BLOCK_TYPES
            || Text.Strip(Rendered(Get(call.args, "target_block"))) in {"", blockName})
  {
    ActionTarget(call.name, call.args, blockName);
  }

  /** A JSON null is read as another block's name by the gate and as this block by the meter. */
  lemma NullTargetEscapesTheGate()
    ensures exists blockName, call: ToolCall ::
      && Text.Trimmed(blockName) && blockName != ""
      && FunctionCallToAction(call.name, call.args, [blockName]).Action?
      && !IsExpensive(blockName, "openroad", call, NotAnAction)
      && IsExpensive(blockName, "openroad", call, FunctionCallToAction(call.name, call.args, [blockName]))
  {
    var call := ToolCall("c", "run_block", map["target_block" := Null]);
    assert !PlainTarget(call);
    assert Text.Strip("None") == "None";
    DenialAndMeteringAgree("b", "openroad", call);
    assert FunctionCallToAction(call.name, call.args, ["b"]).Action?;
  }

  // ── History ────────────────────────────────────────────────────────────────

  /** An action handed to the canvas, and what it was metered as. */
  datatype Handed = Handed(name: string, expensive: bool, plain: bool)

  /** What the canvas was handed, newest last. */
  datatype Ledger = Nothing | And(prev: Ledger, entry: Handed)

  function CountRuns(l: Ledger): nat {
    if l.Nothing? then 0 else CountRuns(l.prev) + if IsRunTool(l.entry.name) then 1 else 0
  }

  function CountExpensive(l: Ledger): nat {
    if l.Nothing? then 0 else CountExpensive(l.prev) + if l.entry.expensive then 1 else 0
  }

  predicate AllPlain(l: Ledger) {
    l.Nothing? || (l.entry.plain && AllPlain(l.prev))
  }

  predicate Deletes(l: Ledger) {
    l.And? && (l.entry.name == "delete_block" || Deletes(l.prev))
  }

  /** What `_deny` decides, as a function of what has been handed over since the budget was renewed. */
  predicate Denied(p: Policy, blockName: string, blockType: string, l: Ledger, call: ToolCall) {
    || (IsRunTool(call.name) &&
        (|| !p.mayRun
         || CountRuns(l) >= p.maxBlockRuns
         || (IsExpensive(blockName, blockType, call, NotAnAction) &&
             (!p.mayRunExpensive || CountExpensive(l) >= p.maxExpensiveRuns))))
    || (call.name == "delete_block" && !p.mayDelete)
  }

  /** The ledger after one call: a call that is allowed and names an action reaches the canvas once. */
  function Serve(p: Policy, blockName: string, blockType: string, l: Ledger, call: ToolCall): Ledger {
    var action := FunctionCallToAction(call.name, call.args, [blockName]);
    if Denied(p, blockName, blockType, l, call) || !action.Action? then l
    else And(l, Handed(call.name, IsExpensive(blockName, blockType, call, action), PlainTarget(call)))
  }

  function ServeAll(p: Policy, blockName: string, blockType: string, l: Ledger, calls: seq<ToolCall>): Ledger {
    if calls == [] then l
    else Serve(p, blockName, blockType, ServeAll(p, blockName, blockType, l, calls[..|calls| - 1]), calls[|calls| - 1])
  }

  lemma ServeNext(p: Policy, blockName: string, blockType: string, l: Ledger, calls: seq<ToolCall>, i: nat)
    requires i < |calls|
    ensures ServeAll(p, blockName, blockType, l, calls[..i + 1])
         == Serve(p, blockName, blockType, ServeAll(p, blockName, blockType, l, calls[..i]), calls[i])
  {
    assert calls[..i + 1][..i] == calls[..i];
  }

  /** `b` is `a` with nothing taken back: only more was handed over. */
  predicate Since(a: Ledger, b: Ledger) {
    b == a || (b.And? && Since(a, b.prev))
  }

  lemma {:induction false} SinceIsTransitive(a: Ledger, b: Ledger, c: Ledger)
    requires Since(a, b) && Since(b, c)
    ensures Since(a, c)
  {
    if c != b { SinceIsTransitive(a, b, c.prev); }
  }

  lemma {:induction false} ServingOnlyAdds(p: Policy, blockName: string, blockType: string, l: Ledger,
                                               calls: seq<ToolCall>)
    ensures Since(l, ServeAll(p, blockName, blockType, l, calls))
    decreases |calls|
  {
    if calls != [] { ServingOnlyAdds(p, blockName, blockType, l, calls[..|calls| - 1]); }
  }

  /** So the count of runs never falls within one budget. */
  lemma {:induction false} RunsOnlyGrow(a: Ledger, b: Ledger)
    requires Since(a, b)
    ensures CountRuns(a) <= CountRuns(b) && CountExpensive(a) <= CountExpensive(b)
  {
    if b != a { RunsOnlyGrow(a, b.prev); }
  }

  /** Every bound the policy sets on what reaches the canvas. */
  predicate WithinBudget(p: Policy, blockName: string, l: Ledger) {
    && CountExpensive(l) <= CountRuns(l) <= p.maxBlockRuns
    && (!p.mayRun ==> CountRuns(l) == 0)
    && (Deletes(l) ==> p.mayDelete)
    && (Text.Trimmed(blockName) && AllPlain(l) ==>
          && CountExpensive(l) <= p.maxExpensiveRuns
          && (!p.mayRunExpensive ==> CountExpensive(l) == 0))
  }

  /** No call the model can make, declared or not, takes the canvas past a budget. */
  lemma ServingKeepsBudgets(p: Policy, blockName: string, blockType: string, l: Ledger, call: ToolCall)
    requires WithinBudget(p, blockName, l)
    ensures WithinBudget(p, blockName, Serve(p, blockName, blockType, l, call))
  {
    if IsRunTool(call.name) && Text.Trimmed(blockName) && PlainTarget(call) {
      if FunctionCallToAction(call.name, call.args, [blockName]).Action? {
        DenialAndMeteringAgree(blockName, blockType, call);
      }
    }
  }

  /** What serving a call would add, if it were allowed. */
  function Entry(blockName: string, blockType: string, call: ToolCall): Handed {
    var action := FunctionCallToAction(call.name, call.args, [blockName]);
    Handed(call.name, IsExpensive(blockName, blockType, call, action), PlainTarget(call))
  }

  /** Nor is any call refused that would keep every bound: the gate refuses exactly what would break one. */
  lemma DeniedIffOverBudget(p: Policy, blockName: string, blockType: string, l: Ledger, call: ToolCall)
    requires WithinBudget(p, blockName, l) && Text.Trimmed(blockName) && AllPlain(l) && PlainTarget(call)
    requires FunctionCallToAction(call.name, call.args, [blockName]).Action?
    ensures Denied(p, blockName, blockType, l, call)
       <==> !WithinBudget(p, blockName, And(l, Entry(blockName, blockType, call)))
  {
    if IsRunTool(call.name) { DenialAndMeteringAgree(blockName, blockType, call); }
  }

  /** An ordinary run: no paid block, and an action of this canvas. */
  predicate OrdinaryRun(blockName: string, blockType: string, call: ToolCall) {
    && IsRunTool(call.name) && !IsExpensive(blockName, blockType, call, NotAnAction)
    && FunctionCallToAction(call.name, call.args, [blockName]).Action?
  }

  /** From a fresh budget the model gets all of it: n ordinary runs hand over the least of n and the limit. */
  lemma {:induction false} FreshBudgetIsServed(p: Policy, blockName: string, blockType: string, calls: seq<ToolCall>)
    requires p.mayRun && forall i :: 0 <= i < |calls| ==> OrdinaryRun(blockName, blockType, calls[i])
    ensures CountRuns(ServeAll(p, blockName, blockType, Nothing, calls))
         == if |calls| <= p.maxBlockRuns then |calls| else p.maxBlockRuns
    decreases |calls|
  {
    if calls != [] {
      var init, last := calls[..|calls| - 1], calls[|calls| - 1];
      FreshBudgetIsServed(p, blockName, blockType, init);
      OrdinaryRunIsServed(p, blockName, blockType, ServeAll(p, blockName, blockType, Nothing, init), last);
    }
  }

  lemma OrdinaryRunIsServed(p: Policy, blockName: string, blockType: string, l: Ledger, call: ToolCall)
    requires p.mayRun && OrdinaryRun(blockName, blockType, call)
    ensures CountRuns(Serve(p, blockName, blockType, l, call))
         == if CountRuns(l) < p.maxBlockRuns then CountRuns(l) + 1 else CountRuns(l)
  {
  }

  /** Any number of calls per turn, in any order. */
  lemma {:induction false} TurnsKeepBudgets(p: Policy, blockName: string, blockType: string, l: Ledger,
                                                calls: seq<ToolCall>)
    requires WithinBudget(p, blockName, l)
    ensures WithinBudget(p, blockName, ServeAll(p, blockName, blockType, l, calls))
    decreases |calls|
  {
    if calls != [] {
      TurnsKeepBudgets(p, blockName, blockType, l, calls[..|calls| - 1]);
      ServingKeepsBudgets(p, blockName, blockType,
                          ServeAll(p, blockName, blockType, l, calls[..|calls| - 1]), calls[|calls| - 1]);
    }
  }

  /**
   A call to the model: the instruction so far, what was sent after it, whether a stop had been asked for and the
   time was not up by the last look at the clock, and what came back.
   */
  datatype ModelCall = ModelCall(
    talk: Talk, last: Message, toolless: bool, stopping: bool, inTime: bool, answer: Outcome<LlmTurn>)

  /** Sends the canvas context, offers tools, and is never started after a stop or once the time is up. */
  predicate Ordinary(c: ModelCall) {
    Proper(c.talk) && c.last.System? && !c.toolless && !c.stopping && c.inTime
  }

  predicate WrapUpCall(c: ModelCall) {
    Proper(c.talk) && c.last.User? && c.toolless
  }

  /** Ordinary calls, then at most one tool-less wrap-up, the only one a stop may precede. */
  ghost predicate ProperCalls(calls: seq<ModelCall>, start: Talk) {
    forall i :: 0 <= i < |calls| ==>
      && Start(calls[i].talk) == start
      && (Ordinary(calls[i]) || (i == |calls| - 1 && WrapUpCall(calls[i])))
  }

  ghost predicate AllOrdinary(calls: seq<ModelCall>, start: Talk) {
    forall i :: 0 <= i < |calls| ==> Start(calls[i].talk) == start && Ordinary(calls[i])
  }

  /** What each call sent is legal iff `before` is. */
  ghost predicate SentAs(calls: seq<ModelCall>, before: seq<Message>) {
    forall i :: 0 <= i < |calls| ==>
      (Legal(Anthropic(Said(calls[i].talk) + [calls[i].last])) <==> Legal(Anthropic(before)))
  }

  /** Every call of an instruction sends what is as legal as the transcript the instruction found. */
  lemma CallsAreLegal(calls: seq<ModelCall>, start: Talk)
    requires ProperCalls(calls, start) && start.Opened?
    ensures SentAs(calls, start.before)
  {
    forall i | 0 <= i < |calls|
      ensures Legal(Anthropic(Said(calls[i].talk) + [calls[i].last])) <==> Legal(Anthropic(start.before))
    {
      SentIsLegal(calls[i].talk, calls[i].last);
    }
  }

  datatype RunState = Idle | Running | Finished | Stopped | Failed

  datatype Emission = Step(n: nat) | Report(state: RunState)

  /** Everything a loop ever sent to the client, newest last. */
  datatype Wire = Silence | Sent(prev: Wire, message: Emission)

  function LastStep(w: Wire): nat {
    match w
    case Silence => 0
    case Sent(prev, Step(n)) => n
    case Sent(prev, Report(_)) => LastStep(prev)
  }

  predicate Numbered(w: Wire) {
    w.Sent? ==> Numbered(w.prev) && (w.message.Step? ==> w.message.n == LastStep(w.prev) + 1)
  }

  function StepNumbers(w: Wire): seq<nat> {
    if w.Silence? then [] else StepNumbers(w.prev) + if w.message.Step? then [w.message.n] else []
  }

  /** Over a loop's whole life, resumes included, its steps are numbered 1, 2, 3 and so on. */
  lemma {:induction false} StepsAreConsecutive(w: Wire)
    requires Numbered(w)
    ensures |StepNumbers(w)| == LastStep(w)
    ensures forall i :: 0 <= i < |StepNumbers(w)| ==> StepNumbers(w)[i] == i + 1
  {
    if w.Sent? { StepsAreConsecutive(w.prev); }
  }

  datatype Outcome<T> = Returned(value: T) | Raised | Cancelled

  /** How the calls of one turn ended: all answered, `finish`, an exception, or a cancellation. */
  datatype Ending = Onward | Verdict | Error | Interrupted

  /** The results so far answer the calls in order. */
  ghost predicate InOrder(results: seq<Message>, calls: seq<ToolCall>) {
    && |results| <= |calls|
    && forall i :: 0 <= i < |results| ==> results[i].ToolEntry? && results[i].callId == calls[i].id
  }

  /** How far a turn got: all its calls, those before a `finish`, or those before one that broke off, and that one. */
  ghost predicate RanUpTo(done: Ending, log: Log, before: Log, calls: seq<ToolCall>, results: seq<Message>) {
    && |results| <= |calls|
    && match done
       case Onward => Lists(log, before, calls, results)
       case Verdict => Lists(log, before, calls, results) && |results| < |calls| && calls[|results|].name == "finish"
       case _ =>
         && |results| < |calls| && log.Ran? && log.call == calls[|results|] && !log.result.Returned?
         && (done.Error? <==> log.result.Raised?)
         && Reports(log.call, log.seen, log.result) && Lists(log.prev, before, calls, results)
  }

  /** The ledger after the last `n` calls on record. */
  function Tally(p: Policy, blockName: string, blockType: string, l: Ledger, log: Log, n: nat): Ledger {
    if n == 0 || log.NothingRun? then l
    else Serve(p, blockName, blockType, Tally(p, blockName, blockType, l, log.prev, n - 1), log.call)
  }

  function EndingOf(result: Outcome<Message>): Ending {
    match result
    case Returned(_) => Onward
    case Raised => Error
    case Cancelled => Interrupted
  }

  /** One call taken: `finish` leaves everything as it was, any other call is on record with what it returned. */
  ghost predicate Took(done: Ending, call: ToolCall, before: seq<Message>, results: seq<Message>, was: Log, log: Log) {
    if call.name == "finish" then done.Verdict? && log == was && results == before
    else
      && log.Ran? && log.prev == was && log.call == call && Reports(call, log.seen, log.result)
      && done == EndingOf(log.result)
      && results == if log.result.Returned? then before + [log.result.value] else before
  }

  lemma TookNext(p: Policy, blockName: string, blockType: string, l: Ledger, done: Ending, calls: seq<ToolCall>,
                 before: seq<Message>, results: seq<Message>, base: Log, was: Log, log: Log)
    requires |before| < |calls| && Lists(was, base, calls, before)
    requires Took(done, calls[|before|], before, results, was, log)
    ensures |results| == if done.Onward? then |before| + 1 else |before|
    ensures RanUpTo(done, log, base, calls, results)
    ensures var so := Tally(p, blockName, blockType, l, was, |before|);
            Tally(p, blockName, blockType, l, log, Reached(done, results))
              == if done.Verdict? then so else Serve(p, blockName, blockType, so, calls[|before|])
  {
    if done.Onward? {
      ListsNext(was, base, calls, before, log.seen, log.result.value);
    } else if done.Verdict? {
      assert log == was && results == before;
    } else {
      assert log.prev == was && results == before && Lists(log.prev, base, calls, results);
    }
  }

  lemma {:induction false} ListedIsServed(p: Policy, blockName: string, blockType: string, l: Ledger, log: Log,
                                          before: Log, calls: seq<ToolCall>, results: seq<Message>)
    requires |results| <= |calls| && Lists(log, before, calls, results)
    ensures Tally(p, blockName, blockType, l, log, |results|)
         == ServeAll(p, blockName, blockType, l, calls[..|results|])
    decreases |results|
  {
    if results != [] {
      var n := |results| - 1;
      ListedIsServed(p, blockName, blockType, l, log.prev, before, calls, results[..n]);
      ServeNext(p, blockName, blockType, l, calls, n);
    }
  }

  /** What was run is what was served, and answers it. */
  lemma TallyIsServed(p: Policy, blockName: string, blockType: string, l: Ledger, done: Ending, log: Log, before: Log,
                      calls: seq<ToolCall>, results: seq<Message>)
    requires RanUpTo(done, log, before, calls, results)
    ensures InOrder(results, calls) && Reached(done, results) <= |calls|
    ensures Tally(p, blockName, blockType, l, log, Reached(done, results))
         == ServeAll(p, blockName, blockType, l, calls[..Reached(done, results)])
  {
    var listed := if done.Onward? || done.Verdict? then log else log.prev;
    ListsInOrder(listed, before, calls, results);
    ListedIsServed(p, blockName, blockType, l, listed, before, calls, results);
    if !(done.Onward? || done.Verdict?) { ServeNext(p, blockName, blockType, l, calls, |results|); }
  }

  /** So they answer their calls. */
  lemma {:induction false} ListsInOrder(log: Log, before: Log, calls: seq<ToolCall>, results: seq<Message>)
    requires |results| <= |calls| && Lists(log, before, calls, results)
    ensures InOrder(results, calls)
    decreases |results|
  {
    if results != [] {
      var n := |results| - 1;
      ListsInOrder(log.prev, before, calls, results[..n]);
      forall i | 0 <= i < |results| ensures results[i].ToolEntry? && results[i].callId == calls[i].id {
        assert i < n ==> results[i] == results[..n][i];
      }
    }
  }

  /** How many calls of a turn were begun: an exception or a cancellation breaks off inside one. */
  function Reached(done: Ending, results: seq<Message>): nat {
    if done.Error? || done.Interrupted? then |results| + 1 else |results|
  }

  // ── What the client said ───────────────────────────────────────────────────

  /** One round trip to the client: whether it went well, and the text it gave. */
  type Reply = Outcome<(bool, string)>

  /**
   What a call returns, by what the client said meanwhile.  Without a round trip it is an error, or the call
   raised; else it is what was said, an error exactly where a canvas action failed, and a broken round trip
   breaks the call off.
   */
  predicate Reports(call: ToolCall, seen: seq<Reply>, r: Outcome<Message>) {
    && |seen| <= 1 && (r.Returned? ==> r.value.ToolEntry? && r.value.callId == call.id)
    && if seen == [] then !r.Cancelled? && (r.Returned? ==> r.value.isError)
       else
         && (r.Raised? <==> seen[0].Raised?) && (r.Cancelled? <==> seen[0].Cancelled?)
         && (r.Returned? ==>
               && r.value.isError == (call.name !in {"ask_user", "read_port_value"} && !seen[0].value.0)
               && (seen[0].value.1 != "" ==> r.value.content == seen[0].value.1))
  }

  /** The calls that were run, newest last. */
  datatype Log = NothingRun | Ran(prev: Log, call: ToolCall, seen: seq<Reply>, result: Outcome<Message>)

  /** From `before` to `log` the first calls were run in order and returned exactly these results. */
  ghost predicate Lists(log: Log, before: Log, calls: seq<ToolCall>, results: seq<Message>)
    requires |results| <= |calls|
  {
    if results == [] then log == before
    else
      var n := |results| - 1;
      && log.Ran? && log.call == calls[n] && log.result == Returned(results[n])
      && Reports(log.call, log.seen, log.result) && Lists(log.prev, before, calls, results[..n])
  }

  lemma ListsNext(log: Log, before: Log, calls: seq<ToolCall>, results: seq<Message>, seen: seq<Reply>, entry: Message)
    requires |results| < |calls| && Lists(log, before, calls, results)
    requires Reports(calls[|results|], seen, Returned(entry))
    ensures Lists(Ran(log, calls[|results|], seen, Returned(entry)), before, calls, results + [entry])
  {
    assert (results + [entry])[..|results|] == results;
  }

  /** How an instruction ended: with every turn answered, with a wrap-up request, or in the middle of a turn. */
  datatype Close = Settled | WrappedUp | LeftOpen(why: Ending)

  /** What each leaves behind the last answered turn.  A verdict is the model's `finish`. */
  predicate TailOf(close: Close, tail: seq<Message>) {
    match close
    case Settled => tail == []
    case WrappedUp => |tail| == 1 && tail[0].User?
    case LeftOpen(why) =>
      && !why.Onward? && |tail| == 1 && tail[0].Assistant? && tail[0].calls != [] && RawMatches(tail[0])
      && (why.Verdict? ==> exists i :: 0 <= i < |tail[0].calls| && tail[0].calls[i].name == "finish")
  }

  /** The three shapes are exclusive: an assistant turn is left iff the instruction broke off inside one. */
  lemma TailTellsTheEnding(close: Close, tail: seq<Message>)
    requires TailOf(close, tail)
    ensures Closing(tail)
    ensures (tail != [] && tail[0].Assistant?) <==> close.LeftOpen?
    ensures (tail != [] && tail[0].User?) <==> close.WrappedUp?
    ensures tail == [] <==> close.Settled?
  {
  }

  /**
   What the model calls of an instruction cost: one step each, all of them ordinary, but for the one tool-less
   call of a wrap-up, which comes last and costs none.
   */
  ghost predicate Spent(calls: seq<ModelCall>, start: Talk, steps: int, close: Close) {
    if close.WrappedUp? then
      && calls != [] && WrapUpCall(calls[|calls| - 1]) && Start(calls[|calls| - 1].talk) == start
      && AllOrdinary(calls[..|calls| - 1], start) && |calls| - 1 == steps
    else AllOrdinary(calls, start) && |calls| == steps
  }

  lemma SpentIsProper(calls: seq<ModelCall>, start: Talk, steps: int, close: Close)
    requires Spent(calls, start, steps, close)
    ensures ProperCalls(calls, start) && |calls| <= steps + 1
  {
    if close.WrappedUp? {
      var init := calls[..|calls| - 1];
      assert forall i :: 0 <= i < |init| ==> calls[i] == init[i];
    }
  }

  // ── What the model said ────────────────────────────────────────────────────

  /** A turn as the transcript keeps it. */
  function Kept(turn: LlmTurn): Message {
    Assistant(turn.text, turn.calls, turn.raw)
  }

  /** `talk` is what the call sent and then the very turn it got, answered. */
  predicate Follows(c: ModelCall, talk: Talk) {
    talk.Replied? && talk.prev == c.talk && c.answer.Returned? && talk.group.turn == Kept(c.answer.value)
  }

  /** Each call but the first sends what the one before sent, its turn, and the results. */
  ghost predicate Linked(calls: seq<ModelCall>) {
    && (calls != [] ==> calls[0].talk.Opened?)
    && forall i :: 0 <= i < |calls| - 1 ==> Follows(calls[i], calls[i + 1].talk)
  }

  ghost predicate Ready(calls: seq<ModelCall>, talk: Talk) {
    Linked(calls) && if calls == [] then talk.Opened? else Follows(calls[|calls| - 1], talk)
  }

  /** The last call was made on `talk` as it stands. */
  ghost predicate Asked(calls: seq<ModelCall>, talk: Talk) {
    calls != [] && Linked(calls) && calls[|calls| - 1].talk == talk
  }

  lemma AskedNext(calls: seq<ModelCall>, c: ModelCall)
    requires Ready(calls, c.talk)
    ensures Asked(calls + [c], c.talk)
  {
  }

  /** An answer that ends the instruction without leaving a turn: none, a refusal, or one without calls. */
  predicate EndsQuietly(answer: Outcome<LlmTurn>) {
    answer.Returned? ==> answer.value.refusal || answer.value.calls == []
  }

  /**
   What an instruction leaves is what the model said in it: every turn it answered with calls, once and in order,
   and behind them the turn it broke off in, if it did.
   */
  ghost predicate Told(calls: seq<ModelCall>, talk: Talk, close: Close, tail: seq<Message>) {
    match close
    case Settled => Ready(calls, talk) || (Asked(calls, talk) && EndsQuietly(calls[|calls| - 1].answer))
    case WrappedUp => Asked(calls, talk)
    case LeftOpen(_) =>
      var answer := if calls != [] then calls[|calls| - 1].answer else Raised;
      Asked(calls, talk) && answer.Returned? && tail == [Kept(answer.value)]
  }

  lemma ReadyIsNotAsked(calls: seq<ModelCall>, talk: Talk)
    requires Ready(calls, talk)
    ensures !Asked(calls, talk)
  {
    if calls != [] { assert talk.prev < talk; }
  }

  /**
   The outcome and the state that go with an ending.  A wrap-up finishes, answered or not; so do `finish` and a
   silent turn.  A refusal fails, a stop stops, and an exception or a cancellation leaves the loop as such.
   */
  ghost predicate EndsAs<T(!new)>(calls: seq<ModelCall>, talk: Talk, close: Close, r: Outcome<T>, state: RunState) {
    && (!r.Returned? ==> state == Running)
    && match close
       case WrappedUp =>
         && calls != [] && !r.Raised? && (r.Cancelled? <==> calls[|calls| - 1].answer.Cancelled?)
         && (r.Returned? ==> state == Finished)
       case LeftOpen(why) =>
         && (why.Verdict? ==> r.Returned? && state == Finished)
         && (why.Error? <==> r.Raised?) && (why.Interrupted? <==> r.Cancelled?)
       case Settled =>
         if !Asked(calls, talk) then r.Returned? && state == Stopped
         else match calls[|calls| - 1].answer
           case Returned(turn) => r.Returned? && state == if turn.refusal then Failed else Finished
           case Raised => r.Raised?
           case Cancelled => r.Cancelled?
  }

  /** What the loop reports in the end, by how it ended and what the model said last. */
  function FinalState(asked: bool, answer: Outcome<LlmTurn>, close: Close): (state: RunState)
    ensures state in {Finished, Stopped, Failed}
  {
    match close
    case WrappedUp => if answer.Cancelled? then Stopped else Finished
    case LeftOpen(why) => if why.Error? then Failed else if why.Interrupted? then Stopped else Finished
    case Settled =>
      if !asked || answer.Cancelled? then Stopped
      else if answer.Raised? || answer.value.refusal then Failed
      else Finished
  }

  /** The last answer, if there was one. */
  function LastAnswer(calls: seq<ModelCall>): Outcome<LlmTurn> {
    if calls == [] then Raised else calls[|calls| - 1].answer
  }

  lemma StateIsFinal<T(!new)>(calls: seq<ModelCall>, talk: Talk, close: Close, tail: seq<Message>, r: Outcome<T>,
                              state: RunState)
    requires EndsAs(calls, talk, close, r, state) && TailOf(close, tail)
    ensures (if r.Raised? then Failed else if state == Running then Stopped else state)
         == FinalState(Asked(calls, talk), LastAnswer(calls), close)
  {
  }

  datatype Budget = Left | StepBudget | TimeBudget

  /** The transcript an instruction leaves is legal iff the one it found was and no turn was left open. */
  lemma LeftAsItEnded(talk: Talk, close: Close, tail: seq<Message>)
    requires Proper(talk) && TailOf(close, tail)
    ensures Legal(Anthropic(Said(talk) + tail)) <==> Legal(Anthropic(Before(talk))) && !close.LeftOpen?
  {
    var ms := Said(talk) + tail;
    TailTellsTheEnding(close, tail);
    LeftBehind(talk, tail);
    TalkIsLegal(talk);
    if tail == [] {
      assert ms == Said(talk);
    } else {
      assert ms[|ms| - 1] == tail[0];
    }
  }

  /** A first instruction that ends with `finish`: everything was legal until then, and what is left is not. */
  lemma FinishLeavesItOpen()
    ensures exists talk, tail :: OpensUp(talk, tail)
  {
    var verdict := Assistant("", [ToolCall("c", "finish", map[])], []);
    assert verdict.calls[0].name == "finish";
    OpenTurnOpensUp(Opened([], "go"), verdict);
  }

  lemma OpenTurnOpensUp(talk: Talk, verdict: Message)
    requires Proper(talk) && Before(talk) == [] && TailOf(LeftOpen(Verdict), [verdict])
    ensures OpensUp(talk, [verdict])
  {
    NothingIsLegal();
    TalkTranslates(talk);
    TalkIsLegal(talk);
    LeftAsItEnded(talk, LeftOpen(Verdict), [verdict]);
  }

  lemma NothingIsLegal()
    ensures Legal(Anthropic([]))
  {
  }

  ghost predicate OpensUp(talk: Talk, tail: seq<Message>) {
    && Proper(talk) && Before(talk) == [] && TailOf(LeftOpen(Verdict), tail)
    && Legal(Anthropic(Said(talk))) && !Legal(Anthropic(Said(talk) + tail))
  }

  /** The order stands right behind the transcript found, in what each call sent and in what is left. */
  ghost predicate HeardOrder(calls: seq<ModelCall>, left: seq<Message>, before: seq<Message>, order: string) {
    && |before| < |left| && left[|before|] == User(order)
    && forall i :: 0 <= i < |calls| ==>
         |before| < |Said(calls[i].talk)| && Said(calls[i].talk)[|before|] == User(order)
  }

  lemma OrderIsHeard(calls: seq<ModelCall>, talk: Talk, tail: seq<Message>)
    requires ProperCalls(calls, Start(talk))
    ensures HeardOrder(calls, Said(talk) + tail, Before(talk), Start(talk).opening)
  {
    SaidOpens(talk);
    assert (Said(talk) + tail)[|Before(talk)|] == Said(talk)[|Before(talk)|];
    forall i | 0 <= i < |calls|
      ensures |Before(talk)| < |Said(calls[i].talk)|
      ensures Said(calls[i].talk)[|Before(talk)|] == User(Start(talk).opening)
    {
      SaidOpens(calls[i].talk);
    }
  }

  /** The order and the legality of everything one instruction sent, and of what it leaves to the next. */
  lemma InstructionIsLegal(calls: seq<ModelCall>, steps: int, talk: Talk, close: Close, tail: seq<Message>)
    requires Spent(calls, Start(talk), steps, close) && Proper(talk) && TailOf(close, tail)
    ensures ProperCalls(calls, Start(talk)) && |calls| <= steps + 1
    ensures SentAs(calls, Before(talk)) && HeardOrder(calls, Said(talk) + tail, Before(talk), Start(talk).opening)
    ensures Legal(Anthropic(Said(talk) + tail)) <==> Legal(Anthropic(Before(talk))) && !close.LeftOpen?
  {
    SpentIsProper(calls, Start(talk), steps, close);
    CallsAreLegal(calls, Start(talk));
    LeftAsItEnded(talk, close, tail);
    OrderIsHeard(calls, talk, tail);
  }

  /** `order` is what a user who gave `instruction` gets to have done: that, unless it is blank, and never nothing. */
  predicate Given(instruction: string, order: string) {
    (Text.Strip(instruction) != "" ==> order == Text.Strip(instruction)) && !Text.Blank(order)
  }

  function StockOrder(blockName: string, blockType: string): (order: string)
    ensures !Text.Blank(order)
  {
    var order := "Work on the \"" + blockName + "\" block (" + blockType + "). "
                 + "Start by reading what it and its neighbours already contain, then do "
                 + "whatever is needed to fulfil its objective well.";
    assert order[0] == 'W';
    order
  }

  class BlockAgentLoop {
    const blockName: string
    const blockType: string
    const policy: Policy

    var state: RunState
    var stepsUsed: nat
    var runsUsed: nat
    var expensiveRunsUsed: nat
    var messages: seq<Message>
    var seqNo: nat
    var startedAt: int
    /** The last reading of the clock. */
    ghost var readAt: int
    var stopping: bool
    var detached: bool

    /** Everything the client was sent, and everything it had been sent at the detach. */
    ghost var emitted: Wire
    ghost var lastWords: Wire
    /** Actions handed over since the budget was last renewed. */
    ghost var handed: Ledger
    /** What the client answered, and the calls it answered in. */
    ghost var observed: seq<Reply>
    ghost var log: Log
    /** The current instruction and its model calls. */
    ghost var talk: Talk
    ghost var calls: seq<ModelCall>

    ghost predicate Valid()
      reads this
    {
      && stepsUsed <= policy.maxSteps
      && Metered()
      && Numbered(emitted) && seqNo == LastStep(emitted)
      && (detached ==> emitted == lastWords)
      && NoSystem(messages)
    }

    /** The run budgets, counted on what the canvas was really handed. */
    ghost predicate Metered()
      reads this
    {
      && runsUsed == CountRuns(handed)
      && expensiveRunsUsed == CountExpensive(handed)
      && WithinBudget(policy, blockName, handed)
    }

    /** What the current instruction has appended, with `tail` still open. */
    ghost predicate Appended(tail: seq<Message>)
      reads this
    {
      && messages == Said(talk) + tail
      && Proper(talk)
    }

    constructor (blockName: string, blockType: string, policy: Policy)
      ensures Valid() && this.blockName == blockName && this.blockType == blockType && this.policy == policy
      ensures messages == [] && emitted == Silence && !stopping && !detached && state == Idle
      ensures Legal(Anthropic(messages))
    {
      this.blockName, this.blockType, this.policy := blockName, blockType, policy;
      state, stepsUsed, runsUsed, expensiveRunsUsed, messages, seqNo := Idle, 0, 0, 0, [], 0;
      startedAt, readAt, stopping, detached := 0, 0, false, false;
      emitted, lastWords, handed, observed, log := Silence, Silence, Nothing, [], NothingRun;
      talk, calls := Opened([], ""), [];
    }

    // ── lifecycle ────────────────────────────────────────────────────────────

    method Stop()
      requires Valid()
      modifies this`stopping
      ensures Valid() && stopping
    {
      stopping := true;
    }

    method Detach()
      requires Valid()
      modifies this`stopping, this`detached, this`lastWords
      ensures Valid() && stopping && detached
      ensures lastWords == emitted
    {
      stopping := true;
      detached := true;
      lastWords := emitted;
    }

    /** A fresh budget on the same transcript; step numbers keep counting. */
    method ResumeBudget()
      requires Valid()
      modifies this`stopping, this`stepsUsed, this`runsUsed, this`expensiveRunsUsed, this`handed
      ensures Valid() && !stopping && stepsUsed == 0 && runsUsed == 0 && expensiveRunsUsed == 0
      ensures handed == Nothing
    {
      stopping := false;
      stepsUsed, runsUsed, expensiveRunsUsed := 0, 0, 0;
      handed := Nothing;
    }

    /** Suspended: the session may stop or detach this loop, and nothing else. */
    method Suspend()
      requires Valid()
      modifies this`stopping, this`detached, this`lastWords
      ensures Valid()
      ensures old(stopping) ==> stopping
      ensures old(detached) ==> detached
    {
      var stop: bool := *;
      var detach: bool := *;
      if stop { Stop(); }
      if detach { Detach(); }
    }

    method Clock() returns (now: int)
      modifies this`readAt
      ensures now == readAt && now >= startedAt
    {
      now := *;
      if now < startedAt { now := startedAt; }
      readAt := now;
    }

    /** `elapsed`, with the clock at `now`. */
    function Elapsed(now: int): int
      reads this
    {
      if startedAt != 0 then now - startedAt else 0
    }

    /** By the last look at the clock the instruction has not run for the whole of its time. */
    ghost predicate InTime()
      reads this
    {
      if startedAt != 0 then readAt < startedAt + policy.maxWallClock else policy.maxWallClock > 0
    }

    method BudgetExhausted() returns (b: Budget)
      modifies this`readAt
      ensures b == StepBudget <==> stepsUsed >= policy.maxSteps
      ensures b == TimeBudget <==> stepsUsed < policy.maxSteps && !InTime()
    {
      if stepsUsed >= policy.maxSteps { return StepBudget; }
      var now := Clock();
      if Elapsed(now) >= policy.maxWallClock { return TimeBudget; }
      return Left;
    }

    // ── reporting ────────────────────────────────────────────────────────────

    method EmitStep()
      requires Valid()
      modifies this`seqNo, this`emitted, this`stopping, this`detached, this`lastWords
      ensures Valid()
      ensures old(stopping) ==> stopping
      ensures old(detached) ==> detached && emitted == old(emitted)
      ensures !old(detached) ==> emitted == Sent(old(emitted), Step(old(seqNo) + 1))
    {
      if detached { return; }
      seqNo := seqNo + 1;
      emitted := Sent(emitted, Step(seqNo));
      Suspend();
    }

    method ReportState()
      requires Valid()
      modifies this`emitted, this`stopping, this`detached, this`lastWords
      ensures Valid()
      ensures old(stopping) ==> stopping
      ensures old(detached) ==> detached && emitted == old(emitted)
      ensures !old(detached) ==> emitted == Sent(old(emitted), Report(state))
    {
      if detached { return; }
      emitted := Sent(emitted, Report(state));
      Suspend();
    }

    // ── the model ────────────────────────────────────────────────────────────

    /** One round trip to the model; what is sent is recorded together with the stop flag. */
    method CallModel(sent: seq<Message>, ghost last: Message, toolless: bool) returns (r: Outcome<LlmTurn>)
      requires Valid() && AllOrdinary(calls, Start(talk)) && Proper(talk)
      requires sent == Said(talk) + [last]
      requires if toolless then last.User? else last.System? && !stopping && InTime()
      modifies this`calls, this`stopping, this`detached, this`lastWords
      ensures Valid()
      ensures if toolless then ProperCalls(calls, Start(talk)) else AllOrdinary(calls, Start(talk))
      ensures old(stopping) ==> stopping
      ensures old(detached) ==> detached
      ensures calls == old(calls) + [ModelCall(talk, last, toolless, old(stopping), InTime(), r)]
      ensures r.Returned? ==> (r.value.raw != [] ==> CallsOf(r.value.raw) == r.value.calls)
    {
      ghost var stopped := stopping;
      Suspend();
      var response: Response := *;
      var failed: bool := *;
      var cancelled: bool := *;
      r := if cancelled then Cancelled else if failed then Raised else Returned(TurnOf(response));
      calls := calls + [ModelCall(talk, last, toolless, stopped, InTime(), r)];
    }

    /** Any round trip to the client. */
    method RoundTrip() returns (r: Reply)
      requires Valid()
      modifies this`stopping, this`detached, this`lastWords, this`observed
      ensures Valid() && observed == old(observed) + [r]
      ensures old(stopping) ==> stopping
      ensures old(detached) ==> detached
    {
      Suspend();
      var ok: bool := *;
      var text: string := *;
      var failed: bool := *;
      var cancelled: bool := *;
      r := if cancelled then Cancelled else if failed then Raised else Returned((ok, text));
      observed := observed + [r];
    }

    // ── tool dispatch ────────────────────────────────────────────────────────

    /** Whether the policy or a budget forbids this call. */
    predicate Deny(call: ToolCall)
      reads this
      ensures Metered() ==> Deny(call) == Denied(policy, blockName, blockType, handed, call)
    {
      || (IsRunTool(call.name) &&
          (|| !policy.mayRun
           || runsUsed >= policy.maxBlockRuns
           || (IsExpensive(blockName, blockType, call, NotAnAction) &&
               (!policy.mayRunExpensive || expensiveRunsUsed >= policy.maxExpensiveRuns))))
      || (call.name == "delete_block" && !policy.mayDelete)
    }

    /** Meters and records one action that passed the gate. */
    method Hand(call: ToolCall, action: Mapped)
      requires Valid() && !Deny(call)
      requires action == FunctionCallToAction(call.name, call.args, [blockName]) && action.Action?
      modifies this`runsUsed, this`expensiveRunsUsed, this`handed
      ensures Valid() && handed == Serve(policy, blockName, blockType, old(handed), call)
    {
      var expensive := IsExpensive(blockName, blockType, call, action);
      if IsRunTool(call.name) {
        runsUsed := runsUsed + 1;
        if expensive {
          expensiveRunsUsed := expensiveRunsUsed + 1;
        }
      }
      ServingKeepsBudgets(policy, blockName, blockType, handed, call);
      handed := Serve(policy, blockName, blockType, handed, call);
    }

    /** Runs one call; whatever happens on the canvas, the result answers that call. */
    method Dispatch(call: ToolCall) returns (r: Outcome<Message>, ghost seen: seq<Reply>)
      requires Valid()
      modifies this`seqNo, this`emitted, this`stopping, this`detached, this`lastWords,
               this`runsUsed, this`expensiveRunsUsed, this`handed, this`observed
      ensures Valid()
      ensures old(stopping) ==> stopping
      ensures old(detached) || old(seqNo) < seqNo
      ensures old(detached) ==> detached && emitted == old(emitted)
      ensures handed == Serve(policy, blockName, blockType, old(handed), call)
      ensures observed == old(observed) + seen && Reports(call, seen, r)
      ensures r.Returned? && Denied(policy, blockName, blockType, old(handed), call) ==> r.value.isError
    {
      EmitStep();
      if call.name == "ask_user" {
        r, seen := DispatchAsk(call);
        return;
      }
      if call.name == "read_port_value" {
        r, seen := DispatchRead(call);
        return;
      }
      if Deny(call) {
        EmitStep();
        return Returned(ToolEntry(call.id, "denied", true)), [];
      }
      r, seen := Act(call);
    }

    /** The action of a call that passed the gate, handed to the canvas and observed. */
    method Act(call: ToolCall) returns (r: Outcome<Message>, ghost seen: seq<Reply>)
      requires Valid() && !Deny(call) && call.name !in {"ask_user", "read_port_value"}
      modifies this`seqNo, this`emitted, this`stopping, this`detached, this`lastWords,
               this`runsUsed, this`expensiveRunsUsed, this`handed, this`observed
      ensures Valid()
      ensures old(stopping) ==> stopping
      ensures old(seqNo) <= seqNo
      ensures old(detached) ==> detached && emitted == old(emitted)
      ensures handed == Serve(policy, blockName, blockType, old(handed), call)
      ensures observed == old(observed) + seen && Reports(call, seen, r)
    {
      seen := [];
      var action := FunctionCallToAction(call.name, call.args, [blockName]);
      match action {
        case NotAnAction =>
          r := Returned(ToolEntry(call.id, call.name + " is not a canvas action.", true));
        case Rejected =>
          r := Raised;
        case Action(_) =>
          Hand(call, action);
          var observation := RoundTrip();
          seen := [observation];
          if !observation.Returned? {
            r := if observation.Raised? then Raised else Cancelled;
            return;
          }
          EmitStep();
          r := Returned(ToolEntry(call.id, observation.value.1, !observation.value.0));
      }
    }

    method DispatchAsk(call: ToolCall) returns (r: Outcome<Message>, ghost seen: seq<Reply>)
      requires Valid() && call.name == "ask_user"
      modifies this`seqNo, this`emitted, this`stopping, this`detached, this`lastWords, this`observed
      ensures Valid()
      ensures old(stopping) ==> stopping
      ensures old(seqNo) <= seqNo
      ensures old(detached) ==> detached && emitted == old(emitted)
      ensures observed == old(observed) + seen && Reports(call, seen, r)
    {
      if Text.Strip(Rendered(Get(call.args, "question"))) == "" {
        return Returned(ToolEntry(call.id, "ask_user needs a question.", true)), [];
      }
      var answer := RoundTrip();
      seen := [answer];
      if !answer.Returned? {
        r := if answer.Raised? then Raised else Cancelled;
        return;
      }
      EmitStep();
      var text := answer.value.1;
      r := Returned(ToolEntry(call.id, if text != "" then text else "(no answer - assume no and continue.)", false));
    }

    method DispatchRead(call: ToolCall) returns (r: Outcome<Message>, ghost seen: seq<Reply>)
      requires Valid() && call.name == "read_port_value"
      modifies this`seqNo, this`emitted, this`stopping, this`detached, this`lastWords, this`observed
      ensures Valid()
      ensures old(stopping) ==> stopping
      ensures old(seqNo) <= seqNo
      ensures old(detached) ==> detached && emitted == old(emitted)
      ensures observed == old(observed) + seen && Reports(call, seen, r)
    {
      if Text.Strip(Rendered(Get(call.args, "port_name"))) == "" {
        return Returned(ToolEntry(call.id, "read_port_value needs a port_name.", true)), [];
      }
      var content := RoundTrip();
      seen := [content];
      if !content.Returned? {
        r := if content.Raised? then Raised else Cancelled;
        return;
      }
      EmitStep();
      var text := content.value.1;
      r := Returned(ToolEntry(call.id, if text != "" then text else "(the port is empty)", false));
    }

    // ── run ──────────────────────────────────────────────────────────────────

    /** The model's own verdict. */
    method Finish()
      requires Valid()
      modifies this`state, this`seqNo, this`emitted, this`stopping, this`detached, this`lastWords
      ensures Valid() && state == Finished
      ensures old(stopping) ==> stopping
      ensures old(detached) ==> detached && emitted == old(emitted)
    {
      state := Finished;
      EmitStep();
    }

    /** Runs one call and puts it on record. */
    method RunCall(call: ToolCall) returns (r: Outcome<Message>)
      requires Valid()
      modifies this`seqNo, this`emitted, this`stopping, this`detached, this`lastWords,
               this`runsUsed, this`expensiveRunsUsed, this`handed, this`observed, this`log
      ensures Valid() && handed == Serve(policy, blockName, blockType, old(handed), call)
      ensures old(stopping) ==> stopping
      ensures old(detached) ==> detached && emitted == old(emitted)
      ensures log.Ran? && log == Ran(old(log), call, log.seen, r) && Reports(call, log.seen, r)
    {
      ghost var seen;
      r, seen := Dispatch(call);
      log := Ran(log, call, seen, r);
    }

    /** Takes a call: a verdict is recorded, any other call is run, and its result added to the others. */
    method TakeCall(call: ToolCall, before: seq<Message>) returns (done: Ending, results: seq<Message>)
      requires Valid()
      modifies this`seqNo, this`emitted, this`stopping, this`detached, this`lastWords,
               this`runsUsed, this`expensiveRunsUsed, this`handed, this`observed, this`log, this`state
      ensures Valid() && Took(done, call, before, results, old(log), log)
      ensures state == if done.Verdict? then Finished else old(state)
      ensures handed == if done.Verdict? then old(handed) else Serve(policy, blockName, blockType, old(handed), call)
      ensures old(stopping) ==> stopping
      ensures old(detached) ==> detached && emitted == old(emitted)
    {
      if call.name == "finish" {
        Finish();
        return Verdict, before;
      }
      var one := RunCall(call);
      return EndingOf(one), if one.Returned? then before + [one.value] else before;
    }

    /** Runs the calls of one turn in order, until one ends the instruction or breaks off. */
    method RunCalls(calls: seq<ToolCall>) returns (done: Ending, results: seq<Message>)
      requires Valid()
      modifies this`seqNo, this`emitted, this`stopping, this`detached, this`lastWords,
               this`runsUsed, this`expensiveRunsUsed, this`handed, this`observed, this`log, this`state
      ensures Valid() && (if done.Onward? then |results| == |calls| else |results| < |calls|)
      ensures RanUpTo(done, log, old(log), calls, results)
      ensures handed == Tally(policy, blockName, blockType, old(handed), log, Reached(done, results))
      ensures state == if done.Verdict? then Finished else old(state)
      ensures old(stopping) ==> stopping
      ensures old(detached) ==> detached && emitted == old(emitted)
    {
      done, results := Onward, [];
      for i := 0 to |calls|
        invariant Valid() && |results| == i && done.Onward? && state == old(state)
        invariant Lists(log, old(log), calls, results)
        invariant handed == Tally(policy, blockName, blockType, old(handed), log, i)
        invariant old(stopping) ==> stopping
        invariant old(detached) ==> detached && emitted == old(emitted)
      {
        ghost var was, before := log, results;
        done, results := TakeCall(calls[i], results);
        TookNext(policy, blockName, blockType, old(handed), done, calls, before, results, old(log), was, log);
        if !done.Onward? { return; }
      }
    }

    /** Dispatches the calls of one turn in order; `finish` ends the instruction on the spot. */
    method DispatchAll(calls: seq<ToolCall>) returns (done: Ending, results: seq<Message>)
      requires Valid()
      modifies this`seqNo, this`emitted, this`stopping, this`detached, this`lastWords,
               this`runsUsed, this`expensiveRunsUsed, this`handed, this`observed, this`log, this`state
      ensures Valid() && InOrder(results, calls)
      ensures if done.Onward? then |results| == |calls| else |results| < |calls|
      ensures RanUpTo(done, log, old(log), calls, results)
      ensures handed == ServeAll(policy, blockName, blockType, old(handed), calls[..Reached(done, results)])
      ensures done.Onward? ==> handed == ServeAll(policy, blockName, blockType, old(handed), calls)
      ensures Since(old(handed), handed)
      ensures done.Verdict? ==> calls[|results|].name == "finish"
      ensures state == if done.Verdict? then Finished else old(state)
      ensures old(stopping) ==> stopping
      ensures old(detached) ==> detached && emitted == old(emitted)
    {
      done, results := RunCalls(calls);
      TallyIsServed(policy, blockName, blockType, old(handed), done, log, old(log), calls, results);
      ServingOnlyAdds(policy, blockName, blockType, old(handed), calls[..Reached(done, results)]);
      assert calls[..|calls|] == calls;
    }

    /** The one tool-less call a spent budget is allowed. */
    method WrapUp(request: string) returns (r: Outcome<()>)
      requires Valid() && Appended([]) && AllOrdinary(calls, Start(talk)) && Ready(calls, talk)
      modifies this`messages, this`calls, this`seqNo, this`emitted, this`stopping, this`detached,
               this`lastWords, this`state
      ensures Valid() && Appended([User(request)]) && Asked(calls, talk)
      ensures exists c :: calls == old(calls) + [c] && WrapUpCall(c) && Start(c.talk) == Start(talk)
      ensures old(stopping) ==> stopping
      ensures old(detached) ==> detached && emitted == old(emitted)
      ensures r.Cancelled? <==> calls[|calls| - 1].answer.Cancelled?
      ensures if r.Returned? then state == Finished else r.Cancelled? && state == old(state)
    {
      EmitStep();
      var turn := Summarise(request);
      if turn.Cancelled? { return Cancelled; }
      state := Finished;
      EmitStep();
      return Returned(());
    }

    /** The request for a summary, and the call that sends it. */
    method Summarise(request: string) returns (answer: Outcome<LlmTurn>)
      requires Valid() && Appended([]) && AllOrdinary(calls, Start(talk)) && Ready(calls, talk)
      modifies this`messages, this`calls, this`stopping, this`detached, this`lastWords
      ensures Valid() && Appended([User(request)]) && Asked(calls, talk) && calls[|calls| - 1].answer == answer
      ensures exists c :: calls == old(calls) + [c] && WrapUpCall(c) && Start(c.talk) == Start(talk)
      ensures old(stopping) ==> stopping
      ensures old(detached) ==> detached
    {
      messages := messages + [User(request)];
      ghost var stopped := stopping;
      answer := CallModel(messages, User(request), true);
      ghost var c := ModelCall(talk, User(request), true, stopped, InTime(), answer);
      assert calls == old(calls) + [c] && WrapUpCall(c);
      AskedNext(old(calls), c);
    }

    /** Plan, act, observe, until a verdict, a budget, a stop or a failure. */
    method Loop() returns (r: Outcome<()>, ghost close: Close, ghost tail: seq<Message>)
      requires Valid() && Appended([]) && calls == [] && talk.Opened? && state == Running
      modifies this`readAt, this`stepsUsed, this`calls, this`seqNo, this`emitted, this`stopping, this`detached,
               this`lastWords, this`runsUsed, this`expensiveRunsUsed, this`handed, this`observed, this`log, this`state,
               this`messages, this`talk
      ensures Valid() && Appended(tail) && Start(talk) == old(Start(talk))
      ensures TailOf(close, tail) && EndsAs(calls, talk, close, r, state) && Told(calls, talk, close, tail)
      ensures Spent(calls, Start(talk), stepsUsed - old(stepsUsed), close) && Since(old(handed), handed)
      ensures close.WrappedUp? ==> stepsUsed >= policy.maxSteps || !InTime()
      ensures old(stopping) ==> stopping && calls == []
      ensures old(detached) ==> detached && emitted == old(emitted)
    {
      close, tail := Settled, [];
      while true
        invariant Valid() && Appended([]) && Ready(calls, talk) && state == Running
        invariant Start(talk) == old(Start(talk)) && AllOrdinary(calls, Start(talk))
        invariant |calls| == stepsUsed - old(stepsUsed) && Since(old(handed), handed)
        invariant old(stopping) ==> stopping && calls == []
        invariant old(detached) ==> detached && emitted == old(emitted)
        decreases policy.maxSteps - stepsUsed
      {
        ghost var before := handed;
        var going;
        going, r, close, tail := Pass();
        SinceIsTransitive(old(handed), before, handed);
        if !going { return; }
      }
    }

    /** One pass: a checkpoint, then at most one model call and the tool calls it asked for. */
    method Pass() returns (going: bool, r: Outcome<()>, ghost close: Close, ghost tail: seq<Message>)
      requires Valid() && Appended([]) && state == Running && AllOrdinary(calls, Start(talk)) && Ready(calls, talk)
      modifies this`readAt, this`stepsUsed, this`calls, this`seqNo, this`emitted, this`stopping, this`detached,
               this`lastWords, this`runsUsed, this`expensiveRunsUsed, this`handed, this`observed, this`log, this`state,
               this`messages, this`talk
      ensures Valid() && Appended(tail)
      ensures TailOf(close, tail) && Told(calls, talk, close, tail)
      ensures !going ==> EndsAs(calls, talk, close, r, state)
      ensures Start(talk) == old(Start(talk)) && Since(old(handed), handed)
      ensures Spent(calls, Start(talk), |old(calls)| + stepsUsed - old(stepsUsed), close)
      ensures old(calls) <= calls && |calls| <= |old(calls)| + 1
      ensures going ==> close.Settled? && stepsUsed == old(stepsUsed) + 1 && tail == [] && state == Running
      ensures going ==> Ready(calls, talk)
      ensures close.WrappedUp? ==> stepsUsed >= policy.maxSteps || !InTime()
      ensures old(stopping) ==> stopping && !going && calls == old(calls)
      ensures old(detached) ==> detached && emitted == old(emitted)
    {
      going, r, close, tail := Checkpoint();
      if going { going, r, close, tail := Advance(); }
    }

    /** The rest of the pass: the model is asked, and its answer acted on. */
    method Advance() returns (going: bool, r: Outcome<()>, ghost close: Close, ghost tail: seq<Message>)
      requires Valid() && Appended([]) && state == Running && AllOrdinary(calls, Start(talk)) && Ready(calls, talk)
      requires !stopping && InTime() && stepsUsed < policy.maxSteps
      modifies this`stepsUsed, this`calls, this`seqNo, this`emitted, this`stopping, this`detached, this`lastWords,
               this`runsUsed, this`expensiveRunsUsed, this`handed, this`observed, this`log, this`state,
               this`messages, this`talk
      ensures Valid() && Appended(tail) && !close.WrappedUp?
      ensures TailOf(close, tail) && Told(calls, talk, close, tail)
      ensures !going ==> EndsAs(calls, talk, close, r, state)
      ensures Start(talk) == old(Start(talk)) && Since(old(handed), handed)
      ensures AllOrdinary(calls, Start(talk)) && old(calls) <= calls && |calls| == |old(calls)| + 1
      ensures stepsUsed == old(stepsUsed) + 1
      ensures going ==> close.Settled? && tail == [] && state == Running && Ready(calls, talk)
      ensures old(detached) ==> detached && emitted == old(emitted)
    {
      going, close, tail := false, Settled, [];
      var answer := Ask();
      if !answer.Returned? {
        r := if answer.Raised? then Raised else Cancelled;
        return;
      }
      going, r, close, tail := React(answer.value);
    }

    /** The head of the loop: a stop ends the instruction, a spent budget wraps it up. */
    method Checkpoint() returns (going: bool, r: Outcome<()>, ghost close: Close, ghost tail: seq<Message>)
      requires Valid() && Appended([]) && state == Running && AllOrdinary(calls, Start(talk)) && Ready(calls, talk)
      modifies this`readAt, this`calls, this`seqNo, this`emitted, this`stopping, this`detached, this`lastWords,
               this`state, this`messages
      ensures Valid() && Appended(tail)
      ensures TailOf(close, tail) && Told(calls, talk, close, tail)
      ensures !going ==> EndsAs(calls, talk, close, r, state)
      ensures Spent(calls, Start(talk), |old(calls)|, close) && old(calls) <= calls && |calls| <= |old(calls)| + 1
      ensures going ==> calls == old(calls) && close.Settled? && state == Running && !stopping
      ensures going ==> stepsUsed < policy.maxSteps && InTime()
      ensures close.WrappedUp? ==> stepsUsed >= policy.maxSteps || !InTime()
      ensures old(stopping) ==> stopping && !going && calls == old(calls)
      ensures old(detached) ==> detached && emitted == old(emitted)
    {
      going, r, close, tail := false, Returned(()), Settled, [];
      ReadyIsNotAsked(calls, talk);
      if stopping {
        Halt();
        return;
      }
      var exhausted := BudgetExhausted();
      if exhausted == Left {
        going := true;
      } else {
        r, close, tail := WrapUpNow();
      }
    }

    /** The cooperative stop. */
    method Halt()
      requires Valid()
      modifies this`state, this`seqNo, this`emitted, this`stopping, this`detached, this`lastWords
      ensures Valid() && state == Stopped
      ensures old(stopping) ==> stopping
      ensures old(detached) ==> detached && emitted == old(emitted)
    {
      state := Stopped;
      EmitStep();
    }

    /** The wrap-up as the end of the instruction. */
    method WrapUpNow() returns (r: Outcome<()>, ghost close: Close, ghost tail: seq<Message>)
      requires Valid() && Appended([]) && state == Running && AllOrdinary(calls, Start(talk)) && Ready(calls, talk)
      modifies this`messages, this`calls, this`seqNo, this`emitted, this`stopping, this`detached,
               this`lastWords, this`state
      ensures Valid() && Appended(tail) && close.WrappedUp? && TailOf(close, tail) && Told(calls, talk, close, tail)
      ensures EndsAs(calls, talk, close, r, state)
      ensures Spent(calls, Start(talk), |old(calls)|, close) && old(calls) <= calls && |calls| == |old(calls)| + 1
      ensures old(stopping) ==> stopping
      ensures old(detached) ==> detached && emitted == old(emitted)
    {
      var request: string := *;
      r := WrapUp(request);
      close, tail := WrappedUp, [User(request)];
      assert calls[..|calls| - 1] == old(calls);
    }

    /** Acts on one answer: a refusal or a silent turn ends the instruction, calls are dispatched. */
    method React(turn: LlmTurn)
      returns (going: bool, r: Outcome<()>, ghost close: Close, ghost tail: seq<Message>)
      requires Valid() && Appended([]) && state == Running
      requires Asked(calls, talk) && calls[|calls| - 1].answer == Returned(turn)
      requires turn.raw != [] ==> CallsOf(turn.raw) == turn.calls
      modifies this`seqNo, this`emitted, this`stopping, this`detached, this`lastWords,
               this`runsUsed, this`expensiveRunsUsed, this`handed, this`observed, this`log, this`state,
               this`messages, this`talk
      ensures Valid() && Appended(tail)
      ensures TailOf(close, tail) && !close.WrappedUp? && (!going ==> EndsAs(calls, talk, close, r, state))
      ensures Told(calls, talk, close, tail) && (going ==> Ready(calls, talk))
      ensures turn.refusal || turn.calls == [] ==> !going && close.Settled?
      ensures Start(talk) == old(Start(talk)) && Since(old(handed), handed)
      ensures going ==> close.Settled? && tail == [] && state == Running
      ensures old(stopping) ==> stopping
      ensures old(detached) ==> detached && emitted == old(emitted)
    {
      going, r, close, tail := false, Returned(()), Settled, [];
      if turn.refusal {
        state := Failed;
        EmitStep();
        return;
      }
      if turn.text != "" { EmitStep(); }
      if turn.calls == [] {
        state := Finished;
        return;
      }
      going, r, close, tail := TakeTurn(turn);
    }

    /** A turn that calls tools: the instruction goes on behind its results, or breaks off inside it. */
    method TakeTurn(turn: LlmTurn)
      returns (going: bool, r: Outcome<()>, ghost close: Close, ghost tail: seq<Message>)
      requires Valid() && Appended([]) && state == Running && turn.calls != []
      requires Asked(calls, talk) && calls[|calls| - 1].answer == Returned(turn)
      requires turn.raw != [] ==> CallsOf(turn.raw) == turn.calls
      modifies this`seqNo, this`emitted, this`stopping, this`detached, this`lastWords,
               this`runsUsed, this`expensiveRunsUsed, this`handed, this`observed, this`log, this`state,
               this`messages, this`talk
      ensures Valid() && Appended(tail)
      ensures TailOf(close, tail) && !close.WrappedUp? && (!going ==> EndsAs(calls, talk, close, r, state))
      ensures Told(calls, talk, close, tail) && (going ==> Ready(calls, talk))
      ensures Start(talk) == old(Start(talk)) && Since(old(handed), handed)
      ensures if going then close.Settled? && state == Running else close.LeftOpen?
      ensures state == if !going && r.Returned? then Finished else Running
      ensures old(stopping) ==> stopping
      ensures old(detached) ==> detached && emitted == old(emitted)
    {
      var entry := Kept(turn);
      var done := ActOn(entry);
      going, r, close, tail := done.Onward?, Returned(()), Settled, [];
      if !going {
        close, tail := LeftOpen(done), [entry];
        r := if done.Verdict? then Returned(()) else if done.Error? then Raised else Cancelled;
      }
    }

    /** Spends a step on asking the model what to do next. */
    method Ask() returns (answer: Outcome<LlmTurn>)
      requires Valid() && Appended([]) && AllOrdinary(calls, Start(talk)) && Ready(calls, talk) && !stopping
      requires InTime() && stepsUsed < policy.maxSteps
      modifies this`stepsUsed, this`calls, this`seqNo, this`emitted, this`stopping, this`detached, this`lastWords
      ensures Valid() && AllOrdinary(calls, Start(talk)) && Asked(calls, talk) && calls[|calls| - 1].answer == answer
      ensures stepsUsed == old(stepsUsed) + 1 && |calls| == |old(calls)| + 1 && old(calls) <= calls
      ensures old(detached) ==> detached && emitted == old(emitted)
      ensures answer.Returned? ==> (answer.value.raw != [] ==> CallsOf(answer.value.raw) == answer.value.calls)
    {
      stepsUsed := stepsUsed + 1;
      var context: string := *;
      ghost var stopped := stopping;
      answer := CallModel(messages + [System(context)], System(context), false);
      AskedNext(old(calls), ModelCall(talk, System(context), false, stopped, InTime(), answer));
      var announce: bool := *;   // the requested model was not the one that ran
      if answer.Returned? && stepsUsed == 1 && announce { EmitStep(); }
    }

    /** Records a turn and dispatches its calls; the group is closed unless the instruction ends here. */
    method ActOn(entry: Message) returns (done: Ending)
      requires Valid() && Appended([]) && state == Running
      requires entry.Assistant? && entry.calls != [] && RawMatches(entry)
      modifies this`seqNo, this`emitted, this`stopping, this`detached, this`lastWords,
               this`runsUsed, this`expensiveRunsUsed, this`handed, this`observed, this`log, this`state,
               this`messages, this`talk
      ensures Valid() && Start(talk) == old(Start(talk)) && Since(old(handed), handed)
      ensures done.Onward? ==> handed == ServeAll(policy, blockName, blockType, old(handed), entry.calls)
      ensures Appended(if done.Onward? then [] else [entry])
      ensures if done.Onward? then talk.Replied? && talk.prev == old(talk) && talk.group.turn == entry
              else talk == old(talk)
      ensures done.Onward? ==> |talk.group.results| == |entry.calls|
      ensures done.Onward? ==> Lists(log, old(log), entry.calls, talk.group.results)
      ensures done.Verdict? ==> exists i :: 0 <= i < |entry.calls| && entry.calls[i].name == "finish"
      ensures old(stopping) ==> stopping
      ensures old(detached) ==> detached && emitted == old(emitted)
      ensures state == if done.Verdict? then Finished else Running
    {
      messages := messages + [entry];
      var results;
      done, results := DispatchAll(entry.calls);
      if done.Onward? {
        CloseGroup(Group(entry, results));
      }
    }

    /** The results of a turn join the transcript together. */
    method CloseGroup(g: Group)
      requires Valid() && Appended([g.turn]) && WellFormed(g)
      modifies this`messages, this`talk
      ensures Valid() && Appended([]) && messages == old(messages) + g.results
      ensures talk == Replied(old(talk), g) && Start(talk) == old(Start(talk))
    {
      messages := messages + g.results;
      talk := Replied(talk, g);
    }

    /**
     One instruction, from opening message to final report.

     Whatever the model and the client do: the calls that offered tools number exactly the steps spent, one
     tool-less call more comes last iff the instruction wrapped up, each sent a transcript exactly as legal as
     the one the instruction found, and what is left behind is legal iff that was and the instruction did not
     break off inside a turn (`finish`, an exception or a cancellation).  Nothing handed over is forgotten.
     */
    method Run(instruction: string) returns (ghost order: string, ghost close: Close, ghost tail: seq<Message>)
      requires Valid()
      modifies this
      ensures Valid() && state in {Finished, Stopped, Failed}
      ensures Given(instruction, order) && Start(talk) == Opened(old(messages), order)
      ensures HeardOrder(calls, messages, old(messages), order)
      ensures Appended(tail) && TailOf(close, tail)
      ensures state == FinalState(Asked(calls, talk), LastAnswer(calls), close)
      ensures close.WrappedUp? ==> stepsUsed >= policy.maxSteps || !InTime()
      ensures Spent(calls, Start(talk), stepsUsed - old(stepsUsed), close) && Since(old(handed), handed)
      ensures ProperCalls(calls, Start(talk)) && |calls| <= policy.maxSteps + 1
      ensures SentAs(calls, old(messages)) && Told(calls, talk, close, tail)
      ensures Legal(Anthropic(messages)) <==> Legal(Anthropic(old(messages))) && !close.LeftOpen?
      ensures old(stopping) ==> calls == []
      ensures old(detached) ==> detached && emitted == old(emitted)
    {
      var opening := OpeningFor(instruction);
      order := opening;
      Open(opening);
      assert old(detached) ==> detached && emitted == old(emitted);
      close, tail := RunLoop();
      InstructionIsLegal(calls, stepsUsed - old(stepsUsed), talk, close, tail);
    }

    /** The loop, and the state and the report it ends in. */
    method RunLoop() returns (ghost close: Close, ghost tail: seq<Message>)
      requires Valid() && Appended([]) && calls == [] && talk.Opened? && state == Running
      modifies this`readAt, this`stepsUsed, this`calls, this`seqNo, this`emitted, this`stopping, this`detached,
               this`lastWords, this`runsUsed, this`expensiveRunsUsed, this`handed, this`observed, this`log,
               this`state, this`messages, this`talk
      ensures Valid() && Appended(tail) && Start(talk) == old(Start(talk))
      ensures TailOf(close, tail) && Told(calls, talk, close, tail)
      ensures state == FinalState(Asked(calls, talk), LastAnswer(calls), close)
      ensures Spent(calls, Start(talk), stepsUsed - old(stepsUsed), close) && Since(old(handed), handed)
      ensures close.WrappedUp? ==> stepsUsed >= policy.maxSteps || !InTime()
      ensures old(stopping) ==> calls == []
      ensures old(detached) ==> detached && emitted == old(emitted)
    {
      var r;
      r, close, tail := Loop();
      StateIsFinal(calls, talk, close, tail, r, state);
      assert old(detached) ==> detached && emitted == old(emitted);
      Conclude(r.Raised?);
    }

    /** The exception handler and the final report, which is the last thing sent unless the loop was cut off. */
    method Conclude(raised: bool)
      requires Valid()
      modifies this`state, this`seqNo, this`emitted, this`stopping, this`detached, this`lastWords
      ensures Valid()
      ensures state == if raised then Failed else if old(state) == Running then Stopped else old(state)
      ensures !detached ==> emitted.Sent? && emitted.message == Report(state)
      ensures !raised && !old(detached) ==> emitted == Sent(old(emitted), Report(state))
      ensures old(detached) ==> detached && emitted == old(emitted)
    {
      if raised {
        state := Failed;
        EmitStep();
      }
      if state == Running { state := Stopped; }
      ReportState();
    }

    /** The start of the clock, the first report and the opening message. */
    method Open(opening: string)
      requires Valid()
      modifies this`readAt, this`startedAt, this`state, this`emitted, this`stopping, this`detached, this`lastWords,
               this`talk, this`calls, this`messages
      ensures Valid() && Appended([]) && calls == [] && state == Running
      ensures talk == Opened(old(messages), opening)
      ensures !old(detached) ==> emitted == Sent(old(emitted), Report(Running))
      ensures old(stopping) ==> stopping
      ensures old(detached) ==> detached && emitted == old(emitted)
    {
      startedAt := Clock();
      state := Running;
      ReportState();
      Begin(opening);
    }

    /** The user's order, or the stock one where that is blank. */
    method OpeningFor(instruction: string) returns (opening: string)
      ensures Given(instruction, opening)
    {
      opening := Text.Strip(instruction);
      if opening == "" { opening := StockOrder(blockName, blockType); }
    }

    /** Appends the instruction's opening message. */
    method Begin(opening: string)
      requires Valid()
      modifies this`talk, this`calls, this`messages
      ensures Valid() && Appended([]) && calls == []
      ensures talk == Opened(old(messages), opening)
    {
      talk, calls := Opened(messages, opening), [];
      messages := messages + [User(opening)];
      assert messages == Said(talk) + [];
    }
  }
}
