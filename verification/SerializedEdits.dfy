/**
 The lock of `CanvasLock` over the waits of `RequestTable` (`act`, app/modules/session/router.py): an edit keeps
 the lock for as long as its wait is in the table, and leaves it in the stretch in which that wait ends.  What
 bounds a tenure is then the wait's own timers.
 */
module SerializedEdits {
  import L = CanvasLock
  import R = RequestTable
  import opened Common

  /** `edits` names the request each awaited edit waits for. */
  datatype Session = Session(lock: L.State, table: R.Table, edits: map<L.Agent, R.Id>)

  function Initial(write: nat): Session {
    Session(L.Initial(write), R.EMPTY, map[])
  }

  /**
   `Edit` begins the wait of an edit that has been written; `Return` is any event of the table that ends the
   wait of `a`, and `Serve` one that ends no edit's wait.
   */
  datatype Event =
    | Ask(a: L.Agent)
    | Run(a: L.Agent)
    | Leave(a: L.Agent)
    | Edit(a: L.Agent, id: R.Id)
    | Serve(r: R.Event)
    | Return(a: L.Agent, r: R.Event)
    | Tick(d: nat)

  /** Every edit is still waited for in `t`. */
  ghost predicate Held(edits: map<L.Agent, R.Id>, t: R.Table) {
    forall a :: a in edits ==> edits[a] in t.waits
  }

  function BeginEdit(id: R.Id): R.Event {
    R.Begin(id, L.EDIT_IDLE, L.EDIT_HARD)
  }

  /** Timers are prompt and socket writes bounded; nothing is said of how long an edit may be awaited. */
  ghost predicate Enabled(s: Session, e: Event) {
    match e
    case Ask(a) => L.Enabled(s.lock, L.Ask(a))
    case Run(a) => L.Enabled(s.lock, L.Send(a, true))
    case Leave(a) => a in s.lock.phase && a !in s.edits
    case Edit(a, id) => L.Enabled(s.lock, L.Send(a, false)) && R.Enabled(s.table, BeginEdit(id))
    case Serve(r) => R.Enabled(s.table, r) && !r.Tick? && Held(s.edits, R.Apply(s.table, r))
    case Return(a, r) =>
      && R.Enabled(s.table, r) && !r.Tick?
      && a in s.lock.phase && a in s.edits && s.edits[a] !in R.Apply(s.table, r).waits
    case Tick(d) =>
      && (forall a :: a in s.lock.phase && s.lock.phase[a].Sending? ==> s.lock.now + d <= s.lock.phase[a].until)
      && R.OnTime(R.Apply(s.table, R.Tick(d)))
  }

  /** An edit whose idle window passed during its own write is given up at once. */
  function Began(s: Session, a: L.Agent, id: R.Id): Session
    requires L.Enabled(s.lock, L.Send(a, false)) && R.Enabled(s.table, BeginEdit(id))
  {
    var t := R.Apply(s.table, BeginEdit(id));
    if id in t.waits then Session(L.Apply(s.lock, L.Send(a, false)), t, s.edits[a := id])
    else Session(L.Apply(s.lock, L.Leave(a)), t, s.edits - {a})
  }

  ghost function Apply(s: Session, e: Event): Session
    requires Enabled(s, e)
  {
    match e
    case Ask(a) => s.(lock := L.Apply(s.lock, L.Ask(a)))
    case Run(a) => s.(lock := L.Apply(s.lock, L.Send(a, true)))
    case Leave(a) => s.(lock := L.Apply(s.lock, L.Leave(a)))
    case Edit(a, id) => Began(s, a, id)
    case Serve(r) => s.(table := R.Apply(s.table, r))
    case Return(a, r) => Session(L.Apply(s.lock, L.Leave(a)), R.Apply(s.table, r), s.edits - {a})
    case Tick(d) => s.(lock := s.lock.(now := s.lock.now + d), table := R.Apply(s.table, R.Tick(d)))
  }

  /** One clock, and one wait for every edit that holds the lock, with the deadline the lock counts on. */
  ghost predicate Linked(s: Session) {
    && s.lock.now == s.table.now
    && (forall a :: a in s.edits <==> Awaits(s.lock, a))
    && (forall a :: a in s.edits ==> Waited(s.table, s.edits[a], s.lock.phase[a].until))
  }

  predicate Awaits(l: L.State, a: L.Agent) {
    a in l.phase && l.phase[a].AwaitingEdit?
  }

  ghost predicate Waited(t: R.Table, id: R.Id, until: int) {
    id in t.waits && id in t.futures && id in t.log.terms && t.log.terms[id].deadline == until
  }

  ghost predicate Kept(s: Session) {
    Linked(s) && R.Coherent(s.table) && L.Mutex(s.lock) && L.Timely(s.lock)
  }

  /** Whoever is in the lock, no other agent's edit is awaited: so an event of the table ends one at most. */
  lemma NobodyElse(s: Session, a: L.Agent)
    requires Kept(s) && a in s.lock.phase && L.InLock(s.lock.phase[a])
    ensures forall b :: b in s.edits ==> b == a
  {
    forall b | b in s.edits ensures b == a { assert Awaits(s.lock, b); }
  }

  /** A wait that goes on keeps its deadline. */
  lemma StillWaited(t: R.Table, r: R.Event, id: R.Id, until: int)
    requires R.Coherent(t) && R.Enabled(t, r) && Waited(t, id, until) && id in R.Apply(t, r).waits
    ensures Waited(R.Apply(t, r), id, until)
  {
    R.HistoryStands(t, r, id);
  }

  lemma TableKeeps(s: Session, r: R.Event)
    requires Kept(s) && R.Enabled(s.table, r) && Held(s.edits, R.Apply(s.table, r))
    ensures R.Coherent(R.Apply(s.table, r))
    ensures forall a :: a in s.edits ==> Waited(R.Apply(s.table, r), s.edits[a], s.lock.phase[a].until)
  {
    R.StepKeepsCoherence(s.table, r);
    forall a | a in s.edits ensures Waited(R.Apply(s.table, r), s.edits[a], s.lock.phase[a].until) {
      StillWaited(s.table, r, s.edits[a], s.lock.phase[a].until);
    }
  }

  lemma OnlyTicksMoveTime(t: R.Table, r: R.Event)
    requires R.Enabled(t, r) && !r.Tick?
    ensures R.Apply(t, r).now == t.now
  {
  }

  /** The bound on a tenure, from the wait alone: time that passes no timer passes no edit's limit. */
  lemma TicksRespectEdits(s: Session, d: nat)
    requires Kept(s) && Enabled(s, Tick(d))
    ensures L.Enabled(s.lock, L.Tick(d))
  {
    forall a | a in s.edits ensures s.lock.now + d <= s.lock.phase[a].until {
      assert R.Sound(s.table, s.edits[a], s.table.waits[s.edits[a]]);
    }
  }

  /** No time has passed, and for all but `a` the same edits are awaited, until the same times. */
  ghost predicate SameEdits(l: L.State, l': L.State, a: L.Agent) {
    && l'.now == l.now
    && forall b :: b != a ==>
         (Awaits(l, b) <==> Awaits(l', b)) && (Awaits(l, b) ==> l'.phase[b] == l.phase[b])
  }

  lemma ReleaseTouchesNoEdit(l: L.State, a: L.Agent)
    requires forall b :: b in l.waiters ==> b in l.phase && l.phase[b].Queued?
    ensures SameEdits(l, L.Release(l), a)
    ensures Awaits(l, a) <==> Awaits(L.Release(l), a)
    ensures Awaits(l, a) ==> L.Release(l).phase[a] == l.phase[a]
    ensures a in l.phase <==> a in L.Release(l).phase
  {
    if l.waiters != [] { assert l.waiters[0] in l.waiters; }
  }

  lemma LeaveTouchesNoOther(l: L.State, a: L.Agent)
    requires L.Mutex(l) && a in l.phase
    ensures SameEdits(l, L.Apply(l, L.Leave(a)), a) && !Awaits(L.Apply(l, L.Leave(a)), a)
  {
    var l' := l.(phase := l.phase - {a});
    if L.InLock(l.phase[a]) { ReleaseTouchesNoEdit(l', a); }
  }

  lemma SendTouchesNoOther(l: L.State, a: L.Agent, isRun: bool)
    requires L.Mutex(l) && L.Enabled(l, L.Send(a, isRun))
    ensures var l' := L.Apply(l, L.Send(a, isRun));
            && SameEdits(l, l', a) && (Awaits(l', a) <==> !isRun)
            && (!isRun ==> l'.phase[a].until == l.now + L.EDIT_HARD)
  {
    if isRun { ReleaseTouchesNoEdit(l.(phase := l.phase[a := L.AwaitingRun]), a); }
  }

  /** The links after `a` has moved: it awaits no edit, or the one it has just begun. */
  lemma StillLinked(s: Session, l: L.State, t: R.Table, a: L.Agent, edits: map<L.Agent, R.Id>)
    requires Linked(s) && SameEdits(s.lock, l, a) && t.now == s.table.now
    requires forall b :: b in s.edits && b != a ==> Waited(t, s.edits[b], s.lock.phase[b].until)
    requires edits - {a} == s.edits - {a} && (a in edits <==> Awaits(l, a))
    requires a in edits ==> Waited(t, edits[a], l.phase[a].until)
    ensures Linked(Session(l, t, edits))
  {
    forall b | b != a ensures (b in edits <==> b in s.edits) && (b in edits ==> edits[b] == s.edits[b]) {
      assert b in edits <==> b in edits - {a};
      assert b in s.edits <==> b in s.edits - {a};
      if b in edits { assert (edits - {a})[b] == (s.edits - {a})[b]; }
    }
  }

  /** A move at the lock alone. */
  lemma LockMoveKeeps(s: Session, e: L.Event, a: L.Agent)
    requires Kept(s) && L.Enabled(s.lock, e) && a !in s.edits
    requires SameEdits(s.lock, L.Apply(s.lock, e), a) && !Awaits(L.Apply(s.lock, e), a)
    ensures Kept(s.(lock := L.Apply(s.lock, e)))
  {
    L.StepKeeps(s.lock, e);
    StillLinked(s, L.Apply(s.lock, e), s.table, a, s.edits);
  }

  lemma AskKeeps(s: Session, a: L.Agent)
    requires Kept(s) && Enabled(s, Ask(a))
    ensures Kept(s.(lock := L.Apply(s.lock, L.Ask(a))))
  {
    LockMoveKeeps(s, L.Ask(a), a);
  }

  lemma RunKeeps(s: Session, a: L.Agent)
    requires Kept(s) && Enabled(s, Run(a))
    ensures Kept(s.(lock := L.Apply(s.lock, L.Send(a, true))))
  {
    SendTouchesNoOther(s.lock, a, true);
    LockMoveKeeps(s, L.Send(a, true), a);
  }

  lemma LeaveKeeps(s: Session, a: L.Agent)
    requires Kept(s) && Enabled(s, Leave(a))
    ensures Kept(s.(lock := L.Apply(s.lock, L.Leave(a))))
  {
    LeaveTouchesNoOther(s.lock, a);
    LockMoveKeeps(s, L.Leave(a), a);
  }

  lemma EditKeeps(s: Session, a: L.Agent, id: R.Id)
    requires Kept(s) && Enabled(s, Edit(a, id))
    ensures Kept(Began(s, a, id))
  {
    var t := R.Apply(s.table, BeginEdit(id));
    R.StepKeepsCoherence(s.table, BeginEdit(id));
    OnlyTicksMoveTime(s.table, BeginEdit(id));
    R.BeginSetsTerms(s.table, id, L.EDIT_IDLE, L.EDIT_HARD);
    if id in t.waits {
      EditBegins(s, a, id, t);
    } else {
      EditEnds(s, a, t);
    }
  }

  lemma EditBegins(s: Session, a: L.Agent, id: R.Id, t: R.Table)
    requires Kept(s) && L.Enabled(s.lock, L.Send(a, false)) && R.Coherent(t) && t.now == s.table.now
    requires Waited(t, id, s.lock.now + L.EDIT_HARD)
    ensures Kept(Session(L.Apply(s.lock, L.Send(a, false)), t, s.edits[a := id]))
  {
    NobodyElse(s, a);
    SendTouchesNoOther(s.lock, a, false);
    L.StepKeeps(s.lock, L.Send(a, false));
    assert s.edits[a := id] - {a} == s.edits - {a};
    StillLinked(s, L.Apply(s.lock, L.Send(a, false)), t, a, s.edits[a := id]);
  }

  /** The edit of `a`, if it has got as far as a wait, is over, and `a` leaves. */
  lemma EditEnds(s: Session, a: L.Agent, t: R.Table)
    requires Kept(s) && R.Coherent(t) && t.now == s.table.now
    requires a in s.lock.phase && L.InLock(s.lock.phase[a])
    ensures Kept(Session(L.Apply(s.lock, L.Leave(a)), t, s.edits - {a}))
  {
    NobodyElse(s, a);
    LeaveTouchesNoOther(s.lock, a);
    L.StepKeeps(s.lock, L.Leave(a));
    assert (s.edits - {a}) - {a} == s.edits - {a};
    StillLinked(s, L.Apply(s.lock, L.Leave(a)), t, a, s.edits - {a});
  }

  lemma ServeKeeps(s: Session, r: R.Event)
    requires Kept(s) && Enabled(s, Serve(r))
    ensures Kept(s.(table := R.Apply(s.table, r)))
  {
    TableKeeps(s, r);
    OnlyTicksMoveTime(s.table, r);
  }

  lemma ReturnKeeps(s: Session, a: L.Agent, r: R.Event)
    requires Kept(s) && Enabled(s, Return(a, r))
    ensures Kept(Session(L.Apply(s.lock, L.Leave(a)), R.Apply(s.table, r), s.edits - {a}))
  {
    R.StepKeepsCoherence(s.table, r);
    OnlyTicksMoveTime(s.table, r);
    assert Awaits(s.lock, a);
    EditEnds(s, a, R.Apply(s.table, r));
  }

  lemma TickKeeps(s: Session, d: nat)
    requires Kept(s) && Enabled(s, Tick(d))
    ensures Kept(s.(lock := L.Apply(s.lock, L.Tick(d)), table := R.Apply(s.table, R.Tick(d))))
  {
    TicksRespectEdits(s, d);
    TableKeeps(s, R.Tick(d));
    L.StepKeeps(s.lock, L.Tick(d));
  }

  /** Every event keeps both machines in order, and each edit's wait in step with its tenure. */
  lemma StepKeeps(s: Session, e: Event)
    requires Kept(s) && Enabled(s, e)
    ensures Kept(Apply(s, e))
  {
    match e {
      case Ask(a) => AskKeeps(s, a);
      case Run(a) => RunKeeps(s, a);
      case Leave(a) => LeaveKeeps(s, a);
      case Edit(a, id) => EditKeeps(s, a, id);
      case Serve(r) => ServeKeeps(s, r);
      case Return(a, r) => ReturnKeeps(s, a, r);
      case Tick(d) => TickKeeps(s, d);
    }
  }

  /** What an event is to the lock. */
  ghost function Move(s: Session, e: Event): Option<L.Event>
    requires Enabled(s, e)
  {
    match e
    case Ask(a) => Some(L.Ask(a))
    case Run(a) => Some(L.Send(a, true))
    case Leave(a) => Some(L.Leave(a))
    case Edit(a, id) =>
      Some(if id in R.Apply(s.table, BeginEdit(id)).waits then L.Send(a, false) else L.Leave(a))
    case Serve(_) => None
    case Return(a, _) => Some(L.Leave(a))
    case Tick(d) => Some(L.Tick(d))
  }

  lemma EventsMoveTheLock(s: Session, e: Event)
    requires Kept(s) && Enabled(s, e)
    ensures Move(s, e).None? ==> Apply(s, e).lock == s.lock
    ensures Move(s, e).Some? ==>
      L.Enabled(s.lock, Move(s, e).value) && Apply(s, e).lock == L.Apply(s.lock, Move(s, e).value)
  {
    if e.Tick? { TicksRespectEdits(s, e.d); }
  }

  // ── Whole runs ─────────────────────────────────────────────────────────────

  ghost predicate Plays(states: seq<Session>, events: seq<Event>) {
    && |states| == |events| + 1 && states[0] == Initial(states[0].lock.write)
    && forall i :: 0 <= i < |events| ==>
         Enabled(states[i], events[i]) && states[i + 1] == Apply(states[i], events[i])
  }

  lemma {:induction false} RunsKeep(states: seq<Session>, events: seq<Event>, i: nat)
    requires Plays(states, events) && i < |states|
    ensures Kept(states[i])
  {
    if i > 0 {
      RunsKeep(states, events, i - 1);
      StepKeeps(states[i - 1], events[i - 1]);
    }
  }

  /** Of all the waits in the table one edit's at most, and only while its agent holds the lock. */
  lemma OneEditIsAwaited(states: seq<Session>, events: seq<Event>, i: nat, a: L.Agent, b: L.Agent)
    requires Plays(states, events) && i < |states| && a in states[i].edits && b in states[i].edits
    ensures a == b && states[i].lock.locked && states[i].lock.owner == a && states[i].edits[a] in states[i].table.waits
  {
    RunsKeep(states, events, i);
    assert Awaits(states[i].lock, a) && Awaits(states[i].lock, b);
  }

  /** Behind every run of the session is a run of the lock, with nothing assumed of how long an edit takes. */
  lemma {:induction false} LockRunBehind(states: seq<Session>, events: seq<Event>, i: nat)
    returns (locks: seq<L.State>, moves: seq<L.Event>)
    requires Plays(states, events) && i < |states|
    ensures L.Plays(locks, moves) && locks[|moves|] == states[i].lock
  {
    if i == 0 {
      return [states[0].lock], [];
    }
    locks, moves := LockRunBehind(states, events, i - 1);
    var s, e := states[i - 1], events[i - 1];
    RunsKeep(states, events, i - 1);
    EventsMoveTheLock(s, e);
    if Move(s, e).Some? {
      L.RunGoesOn(locks, moves, Move(s, e).value);
      locks, moves := locks + [states[i].lock], moves + [Move(s, e).value];
    }
  }

  /** An agent that found `ahead` tenures in front of it gets the lock within that many writes and hard limits. */
  lemma LockIsGrantedInTime(states: seq<Session>, events: seq<Event>, i: nat, a: L.Agent)
    requires Plays(states, events) && i < |states|
    requires a in states[i].lock.phase && !states[i].lock.phase[a].Queued?
    ensures a in states[i].lock.tickets && a in states[i].lock.started
    ensures states[i].lock.started[a] <= states[i].lock.tickets[a].asked
         + states[i].lock.tickets[a].ahead * (states[i].lock.write + L.EDIT_HARD)
  {
    var locks, moves := LockRunBehind(states, events, i);
    L.LockIsGrantedInTime(locks, moves, |moves|, a);
  }

  /** Nobody still waiting has been passed over: its turn can always come in time. */
  lemma NobodyStarves(states: seq<Session>, events: seq<Event>, i: nat, k: nat)
    requires Plays(states, events) && i < |states| && k < |states[i].lock.waiters|
    ensures states[i].lock.waiters[k] in states[i].lock.tickets
    ensures var l := states[i].lock;
            l.now + L.Tenures(l.write, k) <= L.Latest(l.write, l.tickets[l.waiters[k]])
  {
    var locks, moves := LockRunBehind(states, events, i);
    L.NobodyStarves(locks, moves, |moves|, k);
  }
}
