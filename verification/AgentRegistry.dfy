/**
 Which agent speaks for a block (app/modules/session/router.py): starting, replacing, stopping and
 resuming agents while their loops keep running and unwinding in between.  The receive loop handles
 one client message at a time; a loop may emit whenever the message in progress awaits.
 */
module AgentRegistry {

  type Block = string
  type LoopId = nat

  /** `silentAt` is how much had been sent when the loop was detached. */
  datatype Loop = Loop(block: Block, detached: bool, running: bool, seqNo: nat, silentAt: nat)

  /** A step a loop put on the wire. */
  datatype Frame = Frame(from: LoopId, block: Block, n: nat)

  /** The client message in progress, at its next await. */
  datatype Phase = Idle | Replacing(block: Block) | Stopping(rest: seq<Block>)

  datatype State = State(agents: map<Block, LoopId>, loops: map<LoopId, Loop>, wire: seq<Frame>, phase: Phase)

  const INITIAL := State(map[], map[], [], Idle)

  datatype Event =
    | Press(block: Block, name: string, allowed: bool)
    | Register(id: LoopId)
    | PressStop(targets: seq<Block>)
    | StopNext
    | UserMessage(block: Block)
    | Speak(id: LoopId)
    | RunEnds(id: LoopId)

  predicate Enabled(t: State, e: Event) {
    match e
    case Press(_, _, _) => t.phase.Idle?
    case Register(id) => t.phase.Replacing? && id !in t.loops
    case PressStop(_) => t.phase.Idle?
    case StopNext => t.phase.Stopping?
    case UserMessage(_) => t.phase.Idle?
    case Speak(id) => id in t.loops
    case RunEnds(id) => id in t.loops
  }

  /** `pop` then `detach`: the block has no agent and the old loop no voice. */
  function Dismissed(t: State, b: Block): State {
    if b !in t.agents then t
    else
      var id := t.agents[b];
      t.(agents := t.agents - {b},
         loops := if id in t.loops && !t.loops[id].detached
                  then t.loops[id := t.loops[id].(detached := true, silentAt := |t.wire|)] else t.loops)
  }

  function Registered(t: State, id: LoopId, b: Block): State {
    t.(agents := t.agents[b := id], loops := t.loops[id := Loop(b, false, true, 0, 0)], phase := Idle)
  }

  /** `_step`: a detached loop drops the frame and does not count it. */
  function Spoken(t: State, id: LoopId): State
    requires id in t.loops
  {
    var l := t.loops[id];
    if l.detached then t
    else t.(loops := t.loops[id := l.(seqNo := l.seqNo + 1)], wire := t.wire + [Frame(id, l.block, l.seqNo + 1)])
  }

  function Running(t: State, id: LoopId, running: bool): State
    requires id in t.loops
  {
    t.(loops := t.loops[id := t.loops[id].(running := running)])
  }

  function Apply(t: State, e: Event): State
    requires Enabled(t, e)
  {
    match e
    case Press(b, name, allowed) =>
      if b == "" || name == "" || !allowed then t else Dismissed(t, b).(phase := Replacing(b))
    case Register(id) => Registered(t, id, t.phase.block)
    case PressStop(targets) => t.(phase := Stopping(targets))
    case StopNext =>
      if t.phase.rest == [] then t.(phase := Idle)
      else Dismissed(t, t.phase.rest[0]).(phase := Stopping(t.phase.rest[1..]))
    case UserMessage(b) =>
      if b in t.agents && t.agents[b] in t.loops && !t.loops[t.agents[b]].running
      then Running(t, t.agents[b], true) else t
    case Speak(id) => Spoken(t, id)
    case RunEnds(id) => Running(t, id, false)
  }

  // ── What every step keeps ──────────────────────────────────────────────────

  /** A loop that is not detached is the one registered for its block. */
  ghost predicate OneVoice(t: State) {
    && (forall id :: id in t.loops && !t.loops[id].detached ==>
          t.loops[id].block in t.agents && t.agents[t.loops[id].block] == id)
    && (forall b :: b in t.agents ==>
          t.agents[b] in t.loops && t.loops[t.agents[b]].block == b && !t.loops[t.agents[b]].detached)
    && (t.phase.Replacing? ==> t.phase.block !in t.agents)
  }

  /** Every frame is numbered by a known loop, in increasing order, before that loop was detached. */
  ghost predicate Orderly(t: State) {
    && (forall i :: 0 <= i < |t.wire| ==> FrameOk(t, i))
    && (forall i, j :: 0 <= i < j < |t.wire| && t.wire[i].from == t.wire[j].from ==> t.wire[i].n < t.wire[j].n)
  }

  ghost predicate FrameOk(t: State, i: nat)
    requires i < |t.wire|
  {
    var f := t.wire[i];
    && f.from in t.loops && t.loops[f.from].block == f.block && f.n <= t.loops[f.from].seqNo
    && (t.loops[f.from].detached ==> i < t.loops[f.from].silentAt <= |t.wire|)
  }

  lemma DismissKeeps(t: State, b: Block)
    requires OneVoice(t) && Orderly(t)
    ensures OneVoice(Dismissed(t, b)) && Orderly(Dismissed(t, b)) && b !in Dismissed(t, b).agents
  {
    var t' := Dismissed(t, b);
    forall i | 0 <= i < |t'.wire| ensures FrameOk(t', i) { assert FrameOk(t, i); }
  }

  lemma SpeakKeeps(t: State, id: LoopId)
    requires OneVoice(t) && Orderly(t) && id in t.loops
    ensures OneVoice(Spoken(t, id)) && Orderly(Spoken(t, id))
  {
    var t' := Spoken(t, id);
    forall i | 0 <= i < |t'.wire| ensures FrameOk(t', i) {
      if i < |t.wire| { assert FrameOk(t, i) && t'.wire[i] == t.wire[i]; }
    }
    forall i, j | 0 <= i < j < |t'.wire| && t'.wire[i].from == t'.wire[j].from
      ensures t'.wire[i].n < t'.wire[j].n
    {
      assert FrameOk(t, i);
    }
  }

  lemma StepKeeps(t: State, e: Event)
    requires OneVoice(t) && Orderly(t) && Enabled(t, e)
    ensures OneVoice(Apply(t, e)) && Orderly(Apply(t, e))
  {
    var t' := Apply(t, e);
    match e {
      case Press(b, _, _) => DismissKeeps(t, b);
      case StopNext => if t.phase.rest != [] { DismissKeeps(t, t.phase.rest[0]); }
      case Speak(id) => SpeakKeeps(t, id);
      case Register(id) =>
      case PressStop(_) =>
      case UserMessage(_) =>
      case RunEnds(_) =>
    }
    if !e.Speak? {
      forall i | 0 <= i < |t'.wire| ensures FrameOk(t', i) { assert FrameOk(t, i); }
    }
  }

  /** From `t` to `u` exactly the loops of the blocks `gone` were silenced, and those blocks unregistered. */
  ghost predicate Silenced(t: State, u: State, gone: seq<Block>) {
    && u.agents == t.agents - (set b | b in gone) && u.loops.Keys == t.loops.Keys
    && (forall id :: id in t.loops ==> u.loops[id].block == t.loops[id].block)
    && (forall id :: id in t.loops ==> u.loops[id].detached == (t.loops[id].detached || t.loops[id].block in gone))
  }

  lemma DismissSilences(t: State, u: State, gone: seq<Block>, b: Block)
    requires Silenced(t, u, gone) && OneVoice(u)
    ensures Silenced(t, Dismissed(u, b), gone + [b])
  {
    assert forall c :: c in gone + [b] <==> c in gone || c == b;
  }

  /** Any event but a dismissal or a registration silences nothing. */
  lemma OthersSilenceNothing(t: State, u: State, gone: seq<Block>, e: Event)
    requires Silenced(t, u, gone) && Enabled(u, e) && u.phase.Stopping? && !e.StopNext?
    ensures Silenced(t, Apply(u, e), gone) && Apply(u, e).phase == u.phase
  {
    match e {
      case Speak(_) =>
      case RunEnds(_) =>
      case Press(_, _, _) =>
      case Register(_) =>
      case PressStop(_) =>
      case UserMessage(_) =>
    }
  }

  // ── Whole runs ─────────────────────────────────────────────────────────────

  ghost predicate Plays(states: seq<State>, events: seq<Event>) {
    && |states| == |events| + 1 && states[0] == INITIAL
    && forall i :: 0 <= i < |events| ==>
         Enabled(states[i], events[i]) && states[i + 1] == Apply(states[i], events[i])
  }

  lemma {:induction false} RunsKeep(states: seq<State>, events: seq<Event>, i: nat)
    requires Plays(states, events) && i < |states|
    ensures OneVoice(states[i]) && Orderly(states[i])
  {
    if i > 0 {
      RunsKeep(states, events, i - 1);
      StepKeeps(states[i - 1], events[i - 1]);
    }
  }

  /** In the middle of a stop, with loops speaking and ending in between, its first targets are done. */
  lemma {:induction false} StopIsUnderWay(states: seq<State>, events: seq<Event>, i: nat, j: nat, targets: seq<Block>)
    returns (n: nat)
    requires Plays(states, events) && i <= j < |states| && states[i].phase == Stopping(targets)
    requires forall k :: i <= k <= j ==> states[k].phase.Stopping?
    ensures n <= |targets| && states[j].phase.rest == targets[n..] && Silenced(states[i], states[j], targets[..n])
    decreases j
  {
    if i == j {
      n := 0;
      assert targets[..0] == [];
    } else {
      n := StopIsUnderWay(states, events, i, j - 1, targets);
      RunsKeep(states, events, j - 1);
      assert states[j] == Apply(states[j - 1], events[j - 1]) && states[j].phase.Stopping?;
      n := StopStep(states[i], states[j - 1], events[j - 1], targets, n);
    }
  }

  lemma StopStep(t: State, u: State, e: Event, targets: seq<Block>, n: nat) returns (m: nat)
    requires OneVoice(u) && Enabled(u, e) && u.phase.Stopping? && Apply(u, e).phase.Stopping?
    requires n <= |targets| && u.phase.rest == targets[n..] && Silenced(t, u, targets[..n])
    ensures m <= |targets| && Apply(u, e).phase.rest == targets[m..] && Silenced(t, Apply(u, e), targets[..m])
  {
    m := n;
    if e.StopNext? {
      assert u.phase.rest != [];
      assert targets[n..][0] == targets[n] && targets[n..][1..] == targets[n + 1..];
      DismissSilences(t, u, targets[..n], targets[n]);
      assert targets[..n + 1] == targets[..n] + [targets[n]];
      m := n + 1;
    } else {
      OthersSilenceNothing(t, u, targets[..n], e);
    }
  }

  lemma OnlyTheLastStepEndsAStop(u: State, e: Event)
    requires Enabled(u, e) && u.phase.Stopping? && !Apply(u, e).phase.Stopping?
    ensures u.phase.rest == [] && Apply(u, e) == u.(phase := Idle)
  {
  }

  /** Once it is over, a stop has silenced exactly the loops of its targets and unregistered exactly those blocks. */
  lemma StopReachesItsTargets(states: seq<State>, events: seq<Event>, i: nat, j: nat, targets: seq<Block>)
    requires Plays(states, events) && i < j < |states| && states[i].phase == Stopping(targets)
    requires (forall k :: i <= k < j ==> states[k].phase.Stopping?) && !states[j].phase.Stopping?
    ensures states[j].phase.Idle? && Silenced(states[i], states[j], targets)
  {
    var n := StopIsUnderWay(states, events, i, j - 1, targets);
    var u, e := states[j - 1], events[j - 1];
    OnlyTheLastStepEndsAStop(u, e);
    assert targets[n..] == [] && targets[..n] == targets;
  }

  // ── The paid gate ──────────────────────────────────────────────────────────

  /** Before `i` the Agent button of `b` was pressed by a user who may run agents. */
  ghost predicate Allowed(events: seq<Event>, i: nat, b: Block)
    requires i <= |events|
  {
    exists k :: 0 <= k < i && Admits(events[k], b)
  }

  predicate Admits(e: Event, b: Block) {
    e.Press? && e.block == b && e.allowed && e.name != "" && b != ""
  }

  /** Only a registration adds a loop, and only an allowed press leads to one. */
  lemma OnlyPressesLeadToLoops(t: State, e: Event)
    requires Enabled(t, e)
    ensures forall id :: id in Apply(t, e).loops ==>
      var b := Apply(t, e).loops[id].block;
      (id in t.loops && t.loops[id].block == b) || (t.phase.Replacing? && t.phase.block == b)
    ensures Apply(t, e).phase.Replacing? ==> t.phase == Apply(t, e).phase || Admits(e, Apply(t, e).phase.block)
  {
  }

  lemma AllowedStands(events: seq<Event>, i: nat, b: Block)
    requires 0 < i <= |events| && (Allowed(events, i - 1, b) || Admits(events[i - 1], b))
    ensures Allowed(events, i, b)
  {
  }

  lemma {:induction false} LoopsWereAllowed(states: seq<State>, events: seq<Event>, i: nat)
    requires Plays(states, events) && i < |states|
    ensures forall id :: id in states[i].loops ==> Allowed(events, i, states[i].loops[id].block)
    ensures states[i].phase.Replacing? ==> Allowed(events, i, states[i].phase.block)
  {
    if i > 0 {
      LoopsWereAllowed(states, events, i - 1);
      OnlyPressesLeadToLoops(states[i - 1], events[i - 1]);
      forall id | id in states[i].loops ensures Allowed(events, i, states[i].loops[id].block) {
        AllowedStands(events, i, states[i].loops[id].block);
      }
      if states[i].phase.Replacing? { AllowedStands(events, i, states[i].phase.block); }
    }
  }

  /** Behind every agent and every frame there is a press of that block's button by a user who may run agents. */
  lemma EveryAgentWasAllowed(states: seq<State>, events: seq<Event>, i: nat)
    requires Plays(states, events) && i < |states|
    ensures forall b :: b in states[i].agents ==> Allowed(events, i, b)
    ensures forall k :: 0 <= k < |states[i].wire| ==> Allowed(events, i, states[i].wire[k].block)
  {
    RunsKeep(states, events, i);
    LoopsWereAllowed(states, events, i);
    forall k | 0 <= k < |states[i].wire| ensures Allowed(events, i, states[i].wire[k].block) {
      assert FrameOk(states[i], k);
    }
  }

  lemma FirstFrameWasAllowed(states: seq<State>, events: seq<Event>, i: nat)
    requires Plays(states, events) && i < |states|
    ensures states[i].wire != [] ==> Allowed(events, i, states[i].wire[0].block)
  {
    EveryAgentWasAllowed(states, events, i);
  }

  /** So a user who may not run agents gets none, whatever is pressed, stopped or typed. */
  lemma NobodyElseGetsOne(states: seq<State>, events: seq<Event>, i: nat)
    requires Plays(states, events) && i < |states|
    requires forall k :: 0 <= k < i && events[k].Press? ==> !events[k].allowed
    ensures states[i].loops == map[] && states[i].agents == map[] && states[i].wire == []
  {
    LoopsWereAllowed(states, events, i);
    FirstFrameWasAllowed(states, events, i);
    EveryAgentWasAllowed(states, events, i);
    assert forall b :: !Allowed(events, i, b);
    assert states[i].loops.Keys == {} && states[i].agents.Keys == {};
  }

  // ── What the user gets ─────────────────────────────────────────────────────

  /** An allowed press gives the block the new loop, running and audible, and silences the one it had. */
  lemma PressStartsTheAgent(t: State, b: Block, name: string, id: LoopId)
    requires OneVoice(t) && t.phase.Idle? && b != "" && name != "" && id !in t.loops
    ensures var pressed := Apply(t, Press(b, name, true));
            && Enabled(pressed, Register(id))
            && var t' := Apply(pressed, Register(id));
               && t'.agents == t.agents[b := id] && t'.loops[id] == Loop(b, false, true, 0, 0) && t'.phase.Idle?
               && (b in t.agents ==> t'.loops[t.agents[b]].detached)
  {
  }

  /** A loop that has its voice is heard each time it speaks, under the next number. */
  lemma LiveLoopsAreHeard(t: State, id: LoopId)
    requires OneVoice(t) && id in t.loops && !t.loops[id].detached
    ensures var t' := Apply(t, Speak(id));
            && t'.wire == t.wire + [Frame(id, t.loops[id].block, t.loops[id].seqNo + 1)]
            && t'.loops[id].seqNo == t.loops[id].seqNo + 1 && t'.agents == t.agents
  {
  }

  /** A message after a run resumes the very same loop; during one, or to a block without an agent, it is refused. */
  lemma MessagesResumeFinishedAgents(t: State, b: Block)
    requires OneVoice(t) && t.phase.Idle?
    ensures b in t.agents ==>
              var ended := Apply(t, RunEnds(t.agents[b]));
              && !ended.loops[t.agents[b]].running
              && Apply(ended, UserMessage(b)).loops == t.loops[t.agents[b] := t.loops[t.agents[b]].(running := true)]
    ensures b !in t.agents || t.loops[t.agents[b]].running ==> Apply(t, UserMessage(b)) == t
  {
  }

  /** At any moment a block has at most one loop that can be heard, and it is the registered one. */
  lemma AtMostOneVoice(states: seq<State>, events: seq<Event>, i: nat, p: LoopId, q: LoopId)
    requires Plays(states, events) && i < |states|
    requires p in states[i].loops && q in states[i].loops
    requires !states[i].loops[p].detached && !states[i].loops[q].detached
    requires states[i].loops[p].block == states[i].loops[q].block
    ensures states[i].loops[p].block in states[i].agents
    ensures p == q == states[i].agents[states[i].loops[p].block]
  {
    RunsKeep(states, events, i);
  }

  lemma StepIsFinal(t: State, e: Event, id: LoopId)
    requires Enabled(t, e) && id in t.loops && t.loops[id].detached
    ensures id in Apply(t, e).loops && Apply(t, e).loops[id].detached
    ensures Apply(t, e).loops[id].silentAt == t.loops[id].silentAt
    ensures t.wire <= Apply(t, e).wire
    ensures forall k :: |t.wire| <= k < |Apply(t, e).wire| ==> Apply(t, e).wire[k].from != id
  {
  }

  /** Once replaced or stopped, a loop is never heard again, however long it takes to unwind. */
  lemma {:induction false} DetachedLoopsStaySilent(states: seq<State>, events: seq<Event>, i: nat, j: nat, id: LoopId)
    requires Plays(states, events) && i <= j < |states|
    requires id in states[i].loops && states[i].loops[id].detached
    ensures id in states[j].loops && states[j].loops[id].detached
    ensures |states[i].wire| <= |states[j].wire|
    ensures forall k :: |states[i].wire| <= k < |states[j].wire| ==> states[j].wire[k].from != id
    decreases j
  {
    if i < j {
      DetachedLoopsStaySilent(states, events, i, j - 1, id);
      StepIsFinal(states[j - 1], events[j - 1], id);
      var w, w' := states[j - 1].wire, states[j].wire;
      assert forall k :: 0 <= k < |w| ==> w'[k] == w[k];
    }
  }

  /** Two frames of one loop, however many instructions apart, are in increasing order. */
  lemma StepNumbersIncrease(states: seq<State>, events: seq<Event>, i: nat, j: nat, k: nat)
    requires Plays(states, events) && i < |states| && j < k < |states[i].wire|
    requires states[i].wire[j].from == states[i].wire[k].from
    ensures states[i].wire[j].n < states[i].wire[k].n
  {
    RunsKeep(states, events, i);
  }

  /** Between registering a loop and hearing from another one for its block, the first was dismissed. */
  lemma NewVoiceMeansOldOneDetached(states: seq<State>, events: seq<Event>, i: nat, old_: LoopId, new_: LoopId)
    requires Plays(states, events) && i < |states|
    requires old_ in states[i].loops && new_ in states[i].loops && old_ != new_
    requires states[i].loops[old_].block == states[i].loops[new_].block && !states[i].loops[new_].detached
    ensures states[i].loops[old_].detached
    ensures forall k :: states[i].loops[old_].silentAt <= k < |states[i].wire| ==> states[i].wire[k].from != old_
  {
    RunsKeep(states, events, i);
    var t := states[i];
    forall k | t.loops[old_].silentAt <= k < |t.wire| ensures t.wire[k].from != old_ { assert FrameOk(t, k); }
  }

  // ── The session's own registry ─────────────────────────────────────────────

  class Registry {
    var agents: map<Block, LoopId>
    var loops: map<LoopId, Loop>
    var wire: seq<Frame>
    ghost var phase: Phase

    ghost function View(): State
      reads this
    {
      State(agents, loops, wire, phase)
    }

    constructor ()
      ensures View() == INITIAL
    {
      agents, loops, wire, phase := map[], map[], [], Idle;
    }

    /** A press of the Agent button, up to the moment the old loop has been asked to go. */
    method StartBlockAgent(block: Block, name: string, entitled: bool) returns (registering: bool)
      requires phase.Idle? && OneVoice(View())
      modifies this
      ensures View() == Apply(old(View()), Press(block, name, entitled))
      ensures registering <==> block != "" && name != "" && entitled
      ensures registering <==> phase == Replacing(block)
      ensures !registering ==> View() == old(View())
    {
      if block == "" || name == "" { return false; }
      if !entitled { return false; }
      Dismiss(block);
      phase := Replacing(block);
      return true;
    }

    /** The rest of it, after the old loop had its moment to unwind. */
    method FinishStart(id: LoopId, block: Block)
      requires phase == Replacing(block) && id !in loops
      modifies this
      ensures View() == Apply(old(View()), Register(id))
    {
      loops := loops[id := Loop(block, false, true, 0, 0)];
      agents := agents[block := id];
      phase := Idle;
    }

    method Dismiss(block: Block)
      requires OneVoice(View())
      modifies this`agents, this`loops
      ensures View() == Dismissed(old(View()), block)
    {
      if block !in agents { return; }
      var id := agents[block];
      agents := agents - {block};
      loops := loops[id := loops[id].(detached := true, silentAt := |wire|)];
    }

    /** One target after another; each is given a moment in which any loop may still speak or end. */
    method StopBlockAgent(targets: seq<Block>)
      requires phase == Stopping(targets) && OneVoice(View()) && Orderly(View())
      modifies this
      ensures phase == Idle && OneVoice(View()) && Orderly(View())
      ensures Silenced(old(View()), View(), targets) && old(wire) <= wire
    {
      for n := 0 to |targets|
        invariant phase == Stopping(targets[n..]) && OneVoice(View()) && Orderly(View())
        invariant Silenced(old(View()), View(), targets[..n]) && old(wire) <= wire
      {
        assert targets[n..] == [targets[n]] + targets[n + 1..];
        DismissSilences(old(View()), View(), targets[..n], targets[n]);
        assert targets[..n + 1] == targets[..n] + [targets[n]];
        StopOne(targets[n], targets[n + 1..]);
        Unwind(old(View()), targets[..n + 1]);
      }
      assert targets[..|targets|] == targets;
      ghost var u := View();
      phase := Idle;
      forall i | 0 <= i < |wire| ensures FrameOk(View(), i) { assert FrameOk(u, i); }
    }

    method StopOne(block: Block, ghost rest: seq<Block>)
      requires phase.Stopping? && OneVoice(View()) && Orderly(View())
      modifies this
      ensures View() == Dismissed(old(View()), block).(phase := Stopping(rest))
      ensures OneVoice(View()) && Orderly(View())
    {
      ghost var t := View().(phase := Stopping([block] + rest));
      assert OneVoice(t) && Orderly(t) by {
        forall i | 0 <= i < |t.wire| ensures FrameOk(t, i) { assert FrameOk(View(), i); }
      }
      StepKeeps(t, StopNext);
      Dismiss(block);
      phase := Stopping(rest);
      assert ([block] + rest)[1..] == rest;
      assert View() == Apply(t, StopNext);
    }

    /** While the session waits, loops speak and end in any order. */
    method Unwind(ghost t: State, ghost gone: seq<Block>)
      requires phase.Stopping? && OneVoice(View()) && Orderly(View()) && Silenced(t, View(), gone)
      modifies this`loops, this`wire
      ensures OneVoice(View()) && Orderly(View()) && Silenced(t, View(), gone) && old(wire) <= wire
    {
      var moments: int := *;
      if moments < 0 { return; }
      for k := 0 to moments
        invariant OneVoice(View()) && Orderly(View()) && Silenced(t, View(), gone) && old(wire) <= wire
      {
        var id: LoopId := *;
        var speaks: bool := *;
        if id in loops {
          ghost var e := if speaks then Speak(id) else RunEnds(id);
          StepKeeps(View(), e);
          OthersSilenceNothing(t, View(), gone, e);
          if speaks { EmitStep(id); } else { EndRun(id); }
        }
      }
    }

    method EndRun(id: LoopId)
      requires id in loops
      modifies this`loops
      ensures View() == Apply(old(View()), RunEnds(id))
    {
      loops := loops[id := loops[id].(running := false)];
    }

    method EmitStep(id: LoopId)
      requires id in loops
      modifies this`loops, this`wire
      ensures View() == Apply(old(View()), Speak(id))
    {
      var l := loops[id];
      if l.detached { return; }
      loops := loops[id := l.(seqNo := l.seqNo + 1)];
      wire := wire + [Frame(id, l.block, l.seqNo + 1)];
    }

    method OnAgentUserMessage(block: Block) returns (resumed: bool)
      requires phase.Idle? && OneVoice(View())
      modifies this`loops
      ensures View() == Apply(old(View()), UserMessage(block))
      ensures resumed <==> block in agents && !old(loops)[agents[block]].running
    {
      if block !in agents { return false; }
      var id := agents[block];
      if loops[id].running { return false; }
      loops := loops[id := loops[id].(running := true)];
      return true;
    }
  }
}
