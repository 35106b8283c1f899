/**
 Serialized canvas edits (`act`, app/modules/session/router.py): the lock is held over the dispatch
 of every action and over the wait for an edit, but not over the wait for a run.  The lock is FIFO
 and is handed over directly, as `asyncio.Lock` does.
 */
module CanvasLock {
  import R = RequestTable

  type Agent = nat

  /** The idle and hard limits of an edit's wait, in seconds. */
  const EDIT_IDLE := 30
  const EDIT_HARD := 120

  /** An edit's wait is over within its hard limit, if timers are prompt. */
  lemma EditWaitsEndInTime(states: seq<R.Table>, events: seq<R.Event>, i: nat, j: nat, id: R.Id)
    requires R.PlaysLossily(states, events) && i < j < |states| && events[i] == R.Begin(id, EDIT_IDLE, EDIT_HARD)
    requires R.OnTime(states[j]) && id in states[j].waits
    ensures states[j].now <= states[i].now + EDIT_HARD
  {
    R.WaitsEndInTime(states, events, i, j, id, EDIT_IDLE, EDIT_HARD);
  }

  datatype Phase = Queued | Sending(until: int) | AwaitingEdit(until: int) | AwaitingRun

  /** When the lock was asked for, and how many tenures were ahead. */
  datatype Ticket = Ticket(asked: int, ahead: nat)

  /**
   `write` bounds a socket write.  `owner` and `started` are history: who took the lock last, and when each
   agent got it.
   */
  datatype State = State(
    write: nat, now: int, locked: bool, waiters: seq<Agent>, phase: map<Agent, Phase>,
    owner: Agent, tickets: map<Agent, Ticket>, started: map<Agent, int>)

  function Initial(write: nat): State {
    State(write, 0, false, [], map[], 0, map[], map[])
  }

  datatype Event = Ask(a: Agent) | Send(a: Agent, isRun: bool) | Leave(a: Agent) | Tick(d: nat)

  predicate InLock(p: Phase) {
    p.Sending? || p.AwaitingEdit?
  }

  /** A tick may not pass the limit of a write, nor of the edit being awaited (see `EditWaitsEndInTime`). */
  predicate Enabled(t: State, e: Event) {
    match e
    case Ask(a) => a !in t.phase
    case Send(a, _) => a in t.phase && t.phase[a].Sending?
    case Leave(a) => a in t.phase
    case Tick(d) => forall a :: a in t.phase ==>
      && (t.phase[a].Sending? ==> t.now + d <= t.phase[a].until)
      && (t.phase[a].AwaitingEdit? ==> t.now + d <= t.phase[a].until)
  }

  function Take(t: State, a: Agent): State {
    t.(locked := true, owner := a, phase := t.phase[a := Sending(t.now + t.write)],
       started := t.started[a := t.now])
  }

  function Release(t: State): State {
    if t.waiters == [] then t.(locked := false)
    else Take(t.(waiters := t.waiters[1..]), t.waiters[0])
  }

  function IndexOf(waiters: seq<Agent>, a: Agent): (k: nat)
    requires a in waiters
    ensures k < |waiters| && waiters[k] == a
  {
    if waiters[0] == a then 0 else 1 + IndexOf(waiters[1..], a)
  }

  function Removed(waiters: seq<Agent>, a: Agent): seq<Agent> {
    if a in waiters then var k := IndexOf(waiters, a); waiters[..k] + waiters[k + 1..] else waiters
  }

  /** The end of the queue, for an agent that finds the lock taken. */
  function Queue(t: State, a: Agent): State {
    t.(waiters := t.waiters + [a], phase := t.phase[a := Queued],
       tickets := t.tickets[a := Ticket(t.now, |t.waiters| + 1)])
  }

  function Apply(t: State, e: Event): State
    requires Enabled(t, e)
  {
    match e
    case Ask(a) =>
      if !t.locked then Take(t.(tickets := t.tickets[a := Ticket(t.now, 0)]), a)
      else Queue(t, a)
    case Send(a, isRun) =>
      if isRun then Release(t.(phase := t.phase[a := AwaitingRun]))
      else t.(phase := t.phase[a := AwaitingEdit(t.now + EDIT_HARD)])
    case Leave(a) =>
      var t' := t.(phase := t.phase - {a});
      if InLock(t.phase[a]) then Release(t')
      else if t.phase[a].Queued? then t'.(waiters := Removed(t.waiters, a))
      else t'
    case Tick(d) => t.(now := t.now + d)
  }

  // ── What every step keeps ──────────────────────────────────────────────────

  ghost predicate Distinct(s: seq<Agent>) {
    forall i, j :: 0 <= i < j < |s| ==> s[i] != s[j]
  }

  /** The lock is held by exactly its owner, and the queue is exactly the queued agents. */
  ghost predicate Mutex(t: State) {
    && (forall a :: a in t.phase && InLock(t.phase[a]) ==> t.locked && a == t.owner)
    && (t.locked ==> t.owner in t.phase && InLock(t.phase[t.owner]))
    && (!t.locked ==> t.waiters == [])
    && Distinct(t.waiters)
    && (forall a :: a in t.waiters <==> a in t.phase && t.phase[a].Queued?)
  }

  /** No later than this the lock changes hands. */
  function FreeBy(t: State): int {
    if t.owner !in t.phase then t.now
    else match t.phase[t.owner]
      case Sending(until) => until + EDIT_HARD
      case AwaitingEdit(until) => until
      case _ => t.now
  }

  /** The longest that `n` tenures can take: a write and an edit's wait each. */
  function Tenures(write: nat, n: nat): int {
    if n == 0 then 0 else Tenures(write, n - 1) + write + EDIT_HARD
  }

  lemma {:induction false} TenuresAdd(write: nat, n: nat)
    ensures Tenures(write, n) == n * (write + EDIT_HARD)
  {
    if n > 0 { TenuresAdd(write, n - 1); }
  }

  function Latest(write: nat, ticket: Ticket): int {
    ticket.asked + Tenures(write, ticket.ahead)
  }

  /** With the lock free again by `from`, everyone in the queue has it by the latest time on their ticket. */
  ghost predicate OnSchedule(write: nat, from: int, waiters: seq<Agent>, tickets: map<Agent, Ticket>) {
    forall i :: 0 <= i < |waiters| && waiters[i] in tickets ==>
      from + Tenures(write, i) <= Latest(write, tickets[waiters[i]])
  }

  /** Everyone who has left the queue had the lock in time. */
  ghost predicate Punctual(t: State) {
    && t.phase.Keys <= t.tickets.Keys && t.started.Keys <= t.tickets.Keys
    && forall a :: a in t.phase && !t.phase[a].Queued? ==>
         a in t.started && t.started[a] <= Latest(t.write, t.tickets[a])
  }

  ghost predicate Timely(t: State) {
    && (forall a :: a in t.phase && t.phase[a].AwaitingEdit? ==> t.now <= t.phase[a].until <= t.now + EDIT_HARD)
    && (forall a :: a in t.phase && t.phase[a].Sending? ==> t.now <= t.phase[a].until <= t.now + t.write)
    && Punctual(t) && OnSchedule(t.write, FreeBy(t), t.waiters, t.tickets)
  }

  lemma RemovedAt(waiters: seq<Agent>, a: Agent)
    requires a in waiters
    ensures |Removed(waiters, a)| == |waiters| - 1
    ensures forall i :: 0 <= i < |waiters| - 1 ==>
      Removed(waiters, a)[i] == waiters[if i < IndexOf(waiters, a) then i else i + 1]
  {
    var k := IndexOf(waiters, a);
    assert Removed(waiters, a) == waiters[..k] + waiters[k + 1..];
  }

  lemma ScheduleFromEarlier(write: nat, from: int, earlier: int, waiters: seq<Agent>, tickets: map<Agent, Ticket>)
    requires OnSchedule(write, from, waiters, tickets) && earlier <= from
    ensures OnSchedule(write, earlier, waiters, tickets)
  {
  }

  lemma ScheduleOfTheRest(write: nat, from: int, waiters: seq<Agent>, tickets: map<Agent, Ticket>)
    requires OnSchedule(write, from, waiters, tickets) && waiters != []
    ensures OnSchedule(write, from + write + EDIT_HARD, waiters[1..], tickets)
  {
    var rest := waiters[1..];
    forall i | 0 <= i < |rest| && rest[i] in tickets
      ensures from + write + EDIT_HARD + Tenures(write, i) <= Latest(write, tickets[rest[i]])
    {
      assert rest[i] == waiters[i + 1];
    }
  }

  lemma ScheduleOfOneMore(write: nat, from: int, waiters: seq<Agent>, tickets: map<Agent, Ticket>, a: Agent, now: int)
    requires OnSchedule(write, from, waiters, tickets) && a !in waiters && from <= now + write + EDIT_HARD
    ensures OnSchedule(write, from, waiters + [a], tickets[a := Ticket(now, |waiters| + 1)])
  {
    var all, tickets' := waiters + [a], tickets[a := Ticket(now, |waiters| + 1)];
    forall i | 0 <= i < |all| && all[i] in tickets'
      ensures from + Tenures(write, i) <= Latest(write, tickets'[all[i]])
    {
      if i < |waiters| { assert all[i] == waiters[i] && waiters[i] in waiters; }
    }
  }

  lemma ScheduleWithout(write: nat, from: int, waiters: seq<Agent>, tickets: map<Agent, Ticket>, a: Agent)
    requires OnSchedule(write, from, waiters, tickets) && a in waiters
    ensures OnSchedule(write, from, Removed(waiters, a), tickets)
  {
    RemovedAt(waiters, a);
    var left := Removed(waiters, a);
    forall i | 0 <= i < |left| && left[i] in tickets
      ensures from + Tenures(write, i) <= Latest(write, tickets[left[i]])
    {
      var k := if i < IndexOf(waiters, a) then i else i + 1;
      assert left[i] == waiters[k] && Tenures(write, i) <= Tenures(write, k);
    }
  }

  lemma RemovedIsDistinct(waiters: seq<Agent>, a: Agent)
    requires Distinct(waiters) && a in waiters
    ensures Distinct(Removed(waiters, a))
  {
    RemovedAt(waiters, a);
  }

  lemma RemovedMember(waiters: seq<Agent>, a: Agent, b: Agent)
    requires Distinct(waiters) && a in waiters
    ensures b in Removed(waiters, a) <==> b in waiters && b != a
  {
    RemovedAt(waiters, a);
    var k, r := IndexOf(waiters, a), Removed(waiters, a);
    if b in waiters && b != a {
      var i :| 0 <= i < |waiters| && waiters[i] == b;
      assert r[if i < k then i else i - 1] == b;
    }
    if b in r {
      var i :| 0 <= i < |r| && r[i] == b;
      assert waiters[if i < k then i else i + 1] == b;
    }
  }

  /** A state whose tenant has just left: nobody is in the lock, everyone behind it is on schedule. */
  ghost predicate Vacated(t: State) {
    && t.locked && Distinct(t.waiters)
    && (forall a :: a in t.phase ==> !InLock(t.phase[a]))
    && (forall a :: a in t.waiters <==> a in t.phase && t.phase[a].Queued?)
    && Punctual(t) && OnSchedule(t.write, t.now, t.waiters, t.tickets)
  }

  lemma ReleaseKeepsMutex(t: State)
    requires Vacated(t)
    ensures Mutex(Release(t))
  {
    if t.waiters != [] {
      var w, rest := t.waiters[0], t.waiters[1..];
      assert w in t.waiters;
      forall b ensures b in rest <==> b in t.waiters && b != w {
        if b in t.waiters && b != w {
          var k :| 0 <= k < |t.waiters| && t.waiters[k] == b;
          assert rest[k - 1] == b;
        }
      }
    }
  }

  /** The head of the queue is due: it gets the lock now. */
  lemma HeadIsInTime(t: State)
    requires Vacated(t) && t.waiters != []
    ensures t.waiters[0] in t.tickets && t.now <= Latest(t.write, t.tickets[t.waiters[0]])
  {
    assert t.waiters[0] in t.waiters;
    assert Tenures(t.write, 0) == 0;
  }

  lemma TakeKeepsTimely(t: State, a: Agent)
    requires Punctual(t) && a in t.tickets && t.now <= Latest(t.write, t.tickets[a])
    requires forall b :: b in t.phase ==> !InLock(t.phase[b])
    requires OnSchedule(t.write, t.now + t.write + EDIT_HARD, t.waiters, t.tickets)
    ensures Timely(Take(t, a))
  {
    assert FreeBy(Take(t, a)) == t.now + t.write + EDIT_HARD;
  }

  /** Handing the lock over, or freeing it. */
  lemma ReleaseKeeps(t: State)
    requires Vacated(t)
    ensures Mutex(Release(t)) && Timely(Release(t))
  {
    ReleaseKeepsMutex(t);
    if t.waiters != [] {
      HeadIsInTime(t);
      ScheduleOfTheRest(t.write, t.now, t.waiters, t.tickets);
      TakeKeepsTimely(t.(waiters := t.waiters[1..]), t.waiters[0]);
    }
  }

  lemma QueueKeepsMutex(t: State, a: Agent)
    requires Mutex(t) && t.locked && a !in t.phase
    ensures Mutex(Queue(t, a))
  {
    assert a !in t.waiters;
  }

  lemma QueueKeepsTimely(t: State, a: Agent)
    requires Mutex(t) && Timely(t) && t.locked && a !in t.phase
    ensures Timely(Queue(t, a))
  {
    assert a !in t.waiters;
    ScheduleOfOneMore(t.write, FreeBy(t), t.waiters, t.tickets, a, t.now);
    assert FreeBy(Queue(t, a)) == FreeBy(t);
  }

  lemma AskKeeps(t: State, a: Agent)
    requires Mutex(t) && Timely(t) && Enabled(t, Ask(a))
    ensures Mutex(Apply(t, Ask(a))) && Timely(Apply(t, Ask(a)))
  {
    if t.locked {
      QueueKeepsMutex(t, a);
      QueueKeepsTimely(t, a);
    } else {
      TakeKeepsTimely(t.(tickets := t.tickets[a := Ticket(t.now, 0)]), a);
    }
  }

  /** An agent that holds the lock stops doing so, gone or awaiting its run: what is left to release. */
  lemma TenantGone(t: State, a: Agent, phase: map<Agent, Phase>)
    requires Mutex(t) && Timely(t) && a in t.phase && InLock(t.phase[a])
    requires phase == t.phase - {a} || phase == t.phase[a := AwaitingRun]
    ensures Vacated(t.(phase := phase))
  {
    assert t.owner == a && t.now <= FreeBy(t);
    ScheduleFromEarlier(t.write, FreeBy(t), t.now, t.waiters, t.tickets);
    StillPunctual(t, a, phase);
    forall b ensures b in t.waiters <==> b in phase && phase[b].Queued? {
      assert b in t.waiters <==> b in t.phase && t.phase[b].Queued?;
    }
  }

  lemma StillPunctual(t: State, a: Agent, phase: map<Agent, Phase>)
    requires Punctual(t) && a in t.phase && !t.phase[a].Queued?
    requires phase == t.phase - {a} || phase == t.phase[a := AwaitingRun]
    ensures Punctual(t.(phase := phase))
  {
    forall b | b in phase && !phase[b].Queued?
      ensures b in t.started && t.started[b] <= Latest(t.write, t.tickets[b])
    {
      assert b in t.phase && !t.phase[b].Queued?;
    }
  }

  lemma EditKeeps(t: State, a: Agent)
    requires Mutex(t) && Timely(t) && Enabled(t, Send(a, false))
    ensures Mutex(Apply(t, Send(a, false))) && Timely(Apply(t, Send(a, false)))
  {
    var t' := Apply(t, Send(a, false));
    assert FreeBy(t') <= FreeBy(t);
  }

  lemma SendKeeps(t: State, a: Agent, isRun: bool)
    requires Mutex(t) && Timely(t) && Enabled(t, Send(a, isRun))
    ensures Mutex(Apply(t, Send(a, isRun))) && Timely(Apply(t, Send(a, isRun)))
  {
    if isRun {
      TenantGone(t, a, t.phase[a := AwaitingRun]);
      ReleaseKeeps(t.(phase := t.phase[a := AwaitingRun]));
    } else {
      EditKeeps(t, a);
    }
  }

  lemma LeaveKeeps(t: State, a: Agent)
    requires Mutex(t) && Timely(t) && Enabled(t, Leave(a))
    ensures Mutex(Apply(t, Leave(a))) && Timely(Apply(t, Leave(a)))
  {
    if InLock(t.phase[a]) {
      TenantGone(t, a, t.phase - {a});
      ReleaseKeeps(t.(phase := t.phase - {a}));
    } else if t.phase[a].Queued? {
      AbandonKeeps(t, a);
    }
  }

  lemma AbandonKeepsMutex(t: State, a: Agent)
    requires Mutex(t) && a in t.phase && t.phase[a].Queued?
    ensures Mutex(t.(phase := t.phase - {a}, waiters := Removed(t.waiters, a)))
  {
    RemovedIsDistinct(t.waiters, a);
    var t' := t.(phase := t.phase - {a}, waiters := Removed(t.waiters, a));
    forall b ensures b in t'.waiters <==> b in t'.phase && t'.phase[b].Queued? {
      RemovedMember(t.waiters, a, b);
    }
  }

  lemma AbandonKeepsTimely(t: State, a: Agent, left: seq<Agent>)
    requires Mutex(t) && Timely(t) && a in t.phase && t.phase[a].Queued?
    requires OnSchedule(t.write, FreeBy(t), left, t.tickets)
    ensures Timely(t.(phase := t.phase - {a}, waiters := left))
  {
    assert a in t.waiters && t.owner != a;
    assert FreeBy(t.(phase := t.phase - {a}, waiters := left)) == FreeBy(t);
  }

  lemma AbandonKeeps(t: State, a: Agent)
    requires Mutex(t) && Timely(t) && a in t.phase && t.phase[a].Queued?
    ensures Mutex(Apply(t, Leave(a))) && Timely(Apply(t, Leave(a)))
  {
    var left := Removed(t.waiters, a);
    assert a in t.waiters;
    ScheduleWithout(t.write, FreeBy(t), t.waiters, t.tickets, a);
    AbandonKeepsMutex(t, a);
    AbandonKeepsTimely(t, a, left);
    assert Apply(t, Leave(a)) == t.(phase := t.phase - {a}, waiters := left);
  }

  lemma StepKeeps(t: State, e: Event)
    requires Mutex(t) && Timely(t) && Enabled(t, e)
    ensures Mutex(Apply(t, e)) && Timely(Apply(t, e))
  {
    match e {
      case Ask(a) => AskKeeps(t, a);
      case Send(a, isRun) => SendKeeps(t, a, isRun);
      case Leave(a) => LeaveKeeps(t, a);
      case Tick(_) =>
    }
  }

  // ── Whole runs ─────────────────────────────────────────────────────────────

  ghost predicate Plays(states: seq<State>, events: seq<Event>) {
    && |states| == |events| + 1 && states[0] == Initial(states[0].write)
    && forall i :: 0 <= i < |events| ==>
         Enabled(states[i], events[i]) && states[i + 1] == Apply(states[i], events[i])
  }

  lemma {:induction false} RunsKeep(states: seq<State>, events: seq<Event>, i: nat)
    requires Plays(states, events) && i < |states|
    ensures Mutex(states[i]) && Timely(states[i])
  {
    if i > 0 {
      RunsKeep(states, events, i - 1);
      StepKeeps(states[i - 1], events[i - 1]);
    }
  }

  lemma RunGoesOn(states: seq<State>, events: seq<Event>, e: Event)
    requires Plays(states, events) && Enabled(states[|events|], e)
    ensures Plays(states + [Apply(states[|events|], e)], events + [e])
  {
  }

  /**
   Over every interleaving of agents: two edits are never awaited at once, nothing is dispatched
   while an edit is awaited, and a run in flight does not hold the lock.
   */
  lemma EditsAreSerialized(states: seq<State>, events: seq<Event>, i: nat, a: Agent, b: Agent)
    requires Plays(states, events) && i < |states|
    requires a in states[i].phase && states[i].phase[a].AwaitingEdit?
    requires b in states[i].phase && b != a
    ensures !states[i].phase[b].AwaitingEdit? && !states[i].phase[b].Sending?
    ensures !Enabled(states[i], Send(b, true)) && !Enabled(states[i], Send(b, false))
    ensures states[i].phase[b].AwaitingRun? ==> states[i].locked && states[i].owner != b
  {
    RunsKeep(states, events, i);
  }

  /** An agent that found `ahead` tenures in front of it gets the lock within that many writes and hard limits. */
  lemma LockIsGrantedInTime(states: seq<State>, events: seq<Event>, i: nat, a: Agent)
    requires Plays(states, events) && i < |states|
    requires a in states[i].phase && !states[i].phase[a].Queued?
    ensures a in states[i].tickets && a in states[i].started
    ensures states[i].started[a]
         <= states[i].tickets[a].asked + states[i].tickets[a].ahead * (states[i].write + EDIT_HARD)
  {
    RunsKeep(states, events, i);
    TenuresAdd(states[i].write, states[i].tickets[a].ahead);
  }

  /** Nobody still waiting has been passed over: its turn can always come in time. */
  lemma NobodyStarves(states: seq<State>, events: seq<Event>, i: nat, k: nat)
    requires Plays(states, events) && i < |states| && k < |states[i].waiters|
    ensures states[i].waiters[k] in states[i].tickets
    ensures states[i].now + Tenures(states[i].write, k)
         <= Latest(states[i].write, states[i].tickets[states[i].waiters[k]])
  {
    RunsKeep(states, events, i);
    assert states[i].waiters[k] in states[i].waiters;
  }
}
