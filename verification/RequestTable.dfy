/**
 The session's request/reply protocol with the client (app/modules/session/router.py): five maps
 keyed by request id, and a wait with two clocks.  Each stretch of code between two awaits is one
 event; replies, progress notes, timeouts, cancellations and a disconnect interleave freely.
 */
module RequestTable {
  import Text

  type Id = nat

  datatype Reply = Reply(ok: bool, text: string)

  datatype Future = Waiting | Done(reply: Reply)

  /** `Sending`: `_dispatch_client` awaits the socket.  `Parked`: `_await_client` awaits a wake-up. */
  datatype Wait = Sending | Parked(deadline: int, idle: int, wakeAt: int)

  /** `Crashed` is the KeyError a `_last_seen` lookup would raise on a missing id. */
  datatype Ending = Answered(reply: Reply) | GaveUp | Interrupted | Crashed

  /** What a wait was promised when it began. */
  datatype Terms = Terms(deadline: int, idle: int)

  /**
   The five maps, the futures (which outlive them: a waiter holds its own reference) and the waits;
   then history: each request's last sign of life, the terms of its wait, how that ended, and which
   entries belong to no wait any more.
   */
  datatype Table = Table(now: int, maps: Maps, futures: map<Id, Future>, waits: map<Id, Wait>, log: Log)

  datatype Maps = Maps(
    pending: set<Id>, progress: map<Id, bool>, lastSeen: map<Id, int>, owner: map<Id, string>, status: map<Id, string>)

  datatype Log = Log(beat: map<Id, int>, terms: map<Id, Terms>, ended: map<Id, Ending>, leaked: set<Id>)

  const CLEARED := Maps({}, map[], map[], map[], map[])
  const EMPTY := Table(0, CLEARED, map[], map[], Log(map[], map[], map[], {}))

  datatype Event =
    | Dispatch(id: Id, ownerBlock: string)
    | Begin(id: Id, idle: int, hard: int)
    | Wake(id: Id)
    | Note(id: Id, subStatus: string)
    | Resolve(id: Id, reply: Reply)
    | Disconnect(reason: string)
    | CancelParked(id: Id)
    | CancelSending(id: Id)
    | Tick(d: nat)

  function Min(a: int, b: int): int { if a <= b then a else b }

  /** Why a parked wait may resume: its future, its event, or its timer. */
  predicate CanWake(t: Table, id: Id)
    requires id in t.waits && t.waits[id].Parked? && id in t.futures
  {
    t.futures[id].Done? || (id in t.maps.progress && t.maps.progress[id]) || t.now >= t.waits[id].wakeAt
  }

  predicate Enabled(t: Table, e: Event) {
    match e
    case Dispatch(id, _) => id !in t.futures
    case Begin(id, idle, hard) => id in t.waits && t.waits[id].Sending? && idle > 0 && hard > 0
    case Wake(id) => id in t.waits && t.waits[id].Parked? && id in t.futures && CanWake(t, id)
    case CancelParked(id) => id in t.waits && t.waits[id].Parked?
    case CancelSending(id) => id in t.waits && t.waits[id].Sending?
    case _ => true
  }

  /** The `finally` of `_await_client`. */
  function Without(m: Maps, id: Id): Maps {
    Maps(m.pending - {id}, m.progress - {id}, m.lastSeen - {id}, m.owner - {id}, m.status - {id})
  }

  function End(t: Table, id: Id, how: Ending): Table {
    t.(maps := Without(t.maps, id), waits := t.waits - {id}, log := t.log.(ended := t.log.ended[id := how]))
  }

  /** One pass of the wait loop: both clocks are read afresh, then the wait parks or gives up. */
  function Pass(t: Table, id: Id, deadline: int, idle: int): Table {
    if t.now >= deadline then End(t, id, GaveUp)
    else if id !in t.maps.lastSeen then End(t, id, Crashed)
    else if idle - (t.now - t.maps.lastSeen[id]) <= 0 then End(t, id, GaveUp)
    else Park(t, id, deadline, idle, t.now + Min(idle - (t.now - t.maps.lastSeen[id]), deadline - t.now))
  }

  function Park(t: Table, id: Id, deadline: int, idle: int, wakeAt: int): Table {
    t.(maps := t.maps.(progress := t.maps.progress[id := false]),
       waits := t.waits[id := Parked(deadline, idle, wakeAt)])
  }

  function FailedFutures(t: Table, reply: Reply): map<Id, Future> {
    map id | id in t.futures :: if id in t.maps.pending && t.futures[id].Waiting? then Done(reply) else t.futures[id]
  }

  function Noted(status: map<Id, string>, id: Id, sub: string): map<Id, string> {
    if sub == "" || (id in status && status[id] == sub) then status else status[id := sub]
  }

  function Owned(owner: map<Id, string>, id: Id, block: string): map<Id, string> {
    if block != "" then owner[id := block] else owner
  }

  function Dispatched(t: Table, id: Id, block: string): Table {
    t.(maps := Maps(t.maps.pending + {id}, t.maps.progress[id := false], t.maps.lastSeen[id := t.now],
                    Owned(t.maps.owner, id, block), t.maps.status),
       futures := t.futures[id := Waiting], waits := t.waits[id := Sending],
       log := t.log.(beat := t.log.beat[id := t.now]))
  }

  /** `setdefault` on the two maps the loop reads. */
  function Defaulted(m: Maps, id: Id, now: int): Maps {
    m.(progress := if id in m.progress then m.progress else m.progress[id := false],
       lastSeen := if id in m.lastSeen then m.lastSeen else m.lastSeen[id := now])
  }

  function Ready(t: Table, id: Id, terms: Terms): Table {
    t.(maps := Defaulted(t.maps, id, t.now), log := t.log.(terms := t.log.terms[id := terms]))
  }

  function Begun(t: Table, id: Id, idle: int, hard: int): Table {
    Pass(Ready(t, id, Terms(t.now + hard, idle)), id, t.now + hard, idle)
  }

  function Woken(t: Table, id: Id): Table
    requires Enabled(t, Wake(id))
  {
    if t.futures[id].Done? then End(t, id, Answered(t.futures[id].reply))
    else Pass(t, id, t.waits[id].deadline, t.waits[id].idle)
  }

  function Beaten(t: Table, id: Id, sub: string): Table {
    if id !in t.maps.progress then t
    else t.(maps := t.maps.(lastSeen := t.maps.lastSeen[id := t.now], progress := t.maps.progress[id := true],
                            status := Noted(t.maps.status, id, sub)),
            log := t.log.(beat := t.log.beat[id := t.now]))
  }

  function Resolved(t: Table, id: Id, reply: Reply): Table {
    if id in t.maps.pending && id in t.futures && t.futures[id].Waiting?
    then t.(futures := t.futures[id := Done(reply)]) else t
  }

  function Disconnected(t: Table, reply: Reply): Table {
    t.(futures := FailedFutures(t, reply), maps := CLEARED, log := t.log.(leaked := {}))
  }

  function SendCancelled(t: Table, id: Id): Table {
    t.(waits := t.waits - {id},
       log := t.log.(ended := t.log.ended[id := Interrupted],
                     leaked := if id in t.maps.progress then t.log.leaked + {id} else t.log.leaked))
  }

  function Apply(t: Table, e: Event): Table
    requires Enabled(t, e)
  {
    match e
    case Dispatch(id, block) => Dispatched(t, id, block)
    case Begin(id, idle, hard) => Begun(t, id, idle, hard)
    case Wake(id) => Woken(t, id)
    case Note(id, sub) => Beaten(t, id, Text.Strip(sub))
    case Resolve(id, reply) => Resolved(t, id, reply)
    case Disconnect(reason) => Disconnected(t, Reply(false, reason))
    case CancelParked(id) => End(t, id, Interrupted)
    case CancelSending(id) => SendCancelled(t, id)
    case Tick(d) => t.(now := t.now + d)
  }

  // ── Coherence ──────────────────────────────────────────────────────────────

  /** The five maps, the futures and the waits agree about which requests exist. */
  ghost predicate KeysAgree(t: Table) {
    && t.maps.progress.Keys == t.maps.lastSeen.Keys
    && t.maps.pending <= t.maps.progress.Keys
    && t.maps.owner.Keys <= t.maps.progress.Keys && t.maps.status.Keys <= t.maps.progress.Keys
    && t.maps.progress.Keys <= t.waits.Keys + t.log.leaked && t.log.leaked <= t.maps.progress.Keys
    && t.waits.Keys <= t.futures.Keys && t.log.leaked <= t.futures.Keys && t.log.ended.Keys <= t.futures.Keys
    && t.waits.Keys !! t.log.ended.Keys && t.log.leaked <= t.log.ended.Keys
    && t.log.beat.Keys == t.futures.Keys && t.log.terms.Keys <= t.futures.Keys
  }

  /** What holds of one live wait. */
  ghost predicate Sound(t: Table, id: Id, w: Wait) {
    && id in t.futures && id in t.log.beat
    && (t.futures[id].Waiting? ==> id in t.maps.pending)
    && (id in t.maps.pending ==> id in t.maps.lastSeen && t.maps.lastSeen[id] == t.log.beat[id])
    && (w.Sending? && id in t.maps.lastSeen ==> id in t.maps.pending)
    && (w.Sending? <==> id !in t.log.terms)
    && (w.Parked? ==> t.log.terms[id] == Terms(w.deadline, w.idle) && w.wakeAt <= w.deadline)
    && (w.Parked? && id in t.maps.lastSeen ==> w.wakeAt <= t.maps.lastSeen[id] + w.idle)
  }

  /** Coherence, but for the wait `but` that an event is in the middle of changing. */
  ghost predicate CoherentBut(t: Table, but: set<Id>) {
    && KeysAgree(t)
    && (forall id :: id in t.waits && id !in but ==> Sound(t, id, t.waits[id]))
    && (forall id :: id in t.maps.lastSeen ==> t.maps.lastSeen[id] <= t.now)
    && (forall id :: id in t.log.ended ==> EndedWell(t, id))
  }

  ghost predicate EndedWell(t: Table, id: Id)
    requires id in t.log.ended
  {
    && t.log.ended[id] != Crashed
    && (t.log.ended[id].Answered? ==> id in t.futures && t.futures[id] == Done(t.log.ended[id].reply))
  }

  ghost predicate Coherent(t: Table) {
    CoherentBut(t, {})
  }

  lemma EndKeepsCoherence(t: Table, id: Id, how: Ending)
    requires CoherentBut(t, {id}) && id in t.waits && how != Crashed
    requires how.Answered? ==> t.futures[id] == Done(how.reply)
    ensures Coherent(End(t, id, how))
  {
    var t' := End(t, id, how);
    forall i | i in t'.waits ensures Sound(t', i, t'.waits[i]) { assert Sound(t, i, t.waits[i]); }
    forall i | i in t'.log.ended ensures EndedWell(t', i) { assert i != id ==> EndedWell(t, i); }
  }

  lemma ParkKeepsCoherence(t: Table, id: Id, deadline: int, idle: int, wakeAt: int)
    requires CoherentBut(t, {id}) && id in t.waits && id in t.maps.lastSeen
    requires t.futures[id].Waiting? ==> id in t.maps.pending
    requires id in t.maps.pending ==> t.maps.lastSeen[id] == t.log.beat[id]
    requires id in t.log.terms && t.log.terms[id] == Terms(deadline, idle)
    requires wakeAt <= deadline && wakeAt <= t.maps.lastSeen[id] + idle
    ensures Coherent(Park(t, id, deadline, idle, wakeAt))
  {
    var t' := Park(t, id, deadline, idle, wakeAt);
    assert t'.maps.progress.Keys == t.maps.progress.Keys && t'.waits.Keys == t.waits.Keys;
    forall i | i in t'.waits ensures Sound(t', i, t'.waits[i]) {
      assert i != id ==> Sound(t, i, t.waits[i]);
    }
    forall i | i in t'.log.ended ensures EndedWell(t', i) { assert EndedWell(t, i); }
  }

  /** About to pass the head of the loop: the wait need not be `Sound` yet when it has only just begun. */
  ghost predicate MayPass(t: Table, id: Id, terms: Terms) {
    && CoherentBut(t, {id}) && id in t.waits && id in t.maps.lastSeen
    && (t.futures[id].Waiting? ==> id in t.maps.pending)
    && (id in t.maps.pending ==> t.maps.lastSeen[id] == t.log.beat[id])
    && id in t.log.terms && t.log.terms[id] == terms
  }

  lemma PassKeepsCoherence(t: Table, id: Id, terms: Terms)
    requires MayPass(t, id, terms)
    ensures Coherent(Pass(t, id, terms.deadline, terms.idle))
  {
    var deadline, idle := terms.deadline, terms.idle;
    if t.now >= deadline || idle - (t.now - t.maps.lastSeen[id]) <= 0 {
      assert Pass(t, id, deadline, idle) == End(t, id, GaveUp);
      EndKeepsCoherence(t, id, GaveUp);
    } else {
      var wakeAt := t.now + Min(idle - (t.now - t.maps.lastSeen[id]), deadline - t.now);
      assert Pass(t, id, deadline, idle) == Park(t, id, deadline, idle, wakeAt);
      ParkKeepsCoherence(t, id, deadline, idle, wakeAt);
    }
  }

  lemma ReadyKeepsCoherence(t: Table, id: Id, terms: Terms)
    requires Coherent(t) && id in t.waits
    ensures CoherentBut(Ready(t, id, terms), {id})
  {
    var t' := Ready(t, id, terms);
    forall i | i in t'.waits && i != id ensures Sound(t', i, t'.waits[i]) { assert Sound(t, i, t.waits[i]); }
    forall i | i in t'.log.ended ensures EndedWell(t', i) { assert EndedWell(t, i); }
  }

  lemma ReadyMayPass(t: Table, id: Id, terms: Terms)
    requires Coherent(t) && id in t.waits
    ensures MayPass(Ready(t, id, terms), id, terms)
  {
    assert Sound(t, id, t.waits[id]);
    ReadyKeepsCoherence(t, id, terms);
  }

  lemma BeginKeepsCoherence(t: Table, id: Id, idle: int, hard: int)
    requires Coherent(t) && Enabled(t, Begin(id, idle, hard))
    ensures Coherent(Begun(t, id, idle, hard))
  {
    var terms := Terms(t.now + hard, idle);
    ReadyMayPass(t, id, terms);
    PassKeepsCoherence(Ready(t, id, terms), id, terms);
    assert Begun(t, id, idle, hard) == Pass(Ready(t, id, terms), id, terms.deadline, terms.idle);
  }

  lemma WakeKeepsCoherence(t: Table, id: Id)
    requires Coherent(t) && Enabled(t, Wake(id))
    ensures Coherent(Woken(t, id))
  {
    assert Sound(t, id, t.waits[id]);
    if t.futures[id].Done? {
      EndKeepsCoherence(t, id, Answered(t.futures[id].reply));
    } else {
      PassKeepsCoherence(t, id, Terms(t.waits[id].deadline, t.waits[id].idle));
    }
  }

  lemma DispatchKeepsCoherence(t: Table, id: Id, block: string)
    requires Coherent(t) && id !in t.futures
    ensures Coherent(Dispatched(t, id, block))
  {
    var t' := Dispatched(t, id, block);
    forall i | i in t'.waits ensures Sound(t', i, t'.waits[i]) { assert i != id ==> Sound(t, i, t.waits[i]); }
    forall i | i in t'.log.ended ensures EndedWell(t', i) { assert EndedWell(t, i); }
  }

  lemma NoteKeepsCoherence(t: Table, id: Id, sub: string)
    requires Coherent(t)
    ensures Coherent(Beaten(t, id, sub))
  {
    var t' := Beaten(t, id, sub);
    forall i | i in t'.waits ensures Sound(t', i, t'.waits[i]) { assert Sound(t, i, t.waits[i]); }
    forall i | i in t'.log.ended ensures EndedWell(t', i) { assert EndedWell(t, i); }
  }

  lemma ResolveKeepsCoherence(t: Table, id: Id, reply: Reply)
    requires Coherent(t)
    ensures Coherent(Resolved(t, id, reply))
  {
    var t' := Resolved(t, id, reply);
    forall i | i in t'.waits ensures Sound(t', i, t'.waits[i]) { assert Sound(t, i, t.waits[i]); }
    forall i | i in t'.log.ended ensures EndedWell(t', i) { assert EndedWell(t, i); }
  }

  lemma DisconnectKeepsCoherence(t: Table, reply: Reply)
    requires Coherent(t)
    ensures Coherent(Disconnected(t, reply))
  {
    var t' := Disconnected(t, reply);
    forall i | i in t'.waits ensures Sound(t', i, t'.waits[i]) { assert Sound(t, i, t.waits[i]); }
    forall i | i in t'.log.ended ensures EndedWell(t', i) { assert EndedWell(t, i); }
  }

  lemma CancelKeepsCoherence(t: Table, id: Id)
    requires Coherent(t) && Enabled(t, CancelSending(id))
    ensures Coherent(SendCancelled(t, id))
  {
    var t' := SendCancelled(t, id);
    forall i | i in t'.waits ensures Sound(t', i, t'.waits[i]) { assert Sound(t, i, t.waits[i]); }
    forall i | i in t'.log.ended ensures EndedWell(t', i) { assert i != id ==> EndedWell(t, i); }
  }

  lemma TickKeepsCoherence(t: Table, d: nat)
    requires Coherent(t)
    ensures Coherent(t.(now := t.now + d))
  {
    var t' := t.(now := t.now + d);
    forall i | i in t'.waits ensures Sound(t', i, t'.waits[i]) { assert Sound(t, i, t.waits[i]); }
    forall i | i in t'.log.ended ensures EndedWell(t', i) { assert EndedWell(t, i); }
  }

  lemma StepKeepsCoherence(t: Table, e: Event)
    requires Coherent(t) && Enabled(t, e)
    ensures Coherent(Apply(t, e))
  {
    match e {
      case Dispatch(id, block) => DispatchKeepsCoherence(t, id, block);
      case Begin(id, idle, hard) => BeginKeepsCoherence(t, id, idle, hard);
      case Wake(id) => WakeKeepsCoherence(t, id);
      case Note(id, sub) => NoteKeepsCoherence(t, id, Text.Strip(sub));
      case Resolve(id, reply) => ResolveKeepsCoherence(t, id, reply);
      case Disconnect(reason) => DisconnectKeepsCoherence(t, Reply(false, reason));
      case CancelParked(id) => EndKeepsCoherence(t, id, Interrupted);
      case CancelSending(id) => CancelKeepsCoherence(t, id);
      case Tick(d) => TickKeepsCoherence(t, d);
    }
  }

  // ── The two clocks ─────────────────────────────────────────────────────────

  lemma PassGivesUp(t: Table, id: Id, deadline: int, idle: int)
    requires id in t.maps.lastSeen && id !in t.log.ended
    requires id in Pass(t, id, deadline, idle).log.ended
    ensures Pass(t, id, deadline, idle).log.ended[id] == GaveUp
    ensures t.now >= deadline || t.now - t.maps.lastSeen[id] >= idle
  {
  }

  lemma WakeGivesUp(t: Table, id: Id)
    requires Coherent(t) && Enabled(t, Wake(id))
    requires id in Woken(t, id).log.ended && !Woken(t, id).log.ended[id].Answered?
    ensures Woken(t, id).log.ended[id] == GaveUp && t.futures[id].Waiting?
    ensures id in Woken(t, id).log.terms && JustifiedIn(t, id, Woken(t, id).log.terms[id])
  {
    assert Sound(t, id, t.waits[id]);
    PassGivesUp(t, id, t.waits[id].deadline, t.waits[id].idle);
  }

  lemma BeginGivesUp(t: Table, id: Id, idle: int, hard: int)
    requires Coherent(t) && Enabled(t, Begin(id, idle, hard))
    requires id in Begun(t, id, idle, hard).log.ended
    ensures Begun(t, id, idle, hard).log.ended[id] == GaveUp
    ensures id in Begun(t, id, idle, hard).log.terms && JustifiedIn(t, id, Begun(t, id, idle, hard).log.terms[id])
  {
    assert Sound(t, id, t.waits[id]);
    var r := Ready(t, id, Terms(t.now + hard, idle));
    PassGivesUp(r, id, t.now + hard, idle);
  }

  lemma OnlyClocksGiveUp(t: Table, e: Event, id: Id)
    requires Coherent(t) && Enabled(t, e) && id in t.waits
    requires id in Apply(t, e).log.ended && Apply(t, e).log.ended[id] in {GaveUp, Crashed}
    ensures (e.Begin? || e.Wake?) && e.id == id
  {
    match e {
      case Begin(i, _, _) =>
      case Wake(i) =>
      case Dispatch(_, _) =>
      case Note(_, _) =>
      case Resolve(_, _) =>
      case Disconnect(_) =>
      case CancelParked(_) =>
      case CancelSending(_) =>
      case Tick(_) =>
    }
  }

  /** The deadline has passed, or a whole idle window since the last recorded sign of life. */
  ghost predicate JustifiedIn(t: Table, id: Id, terms: Terms)
    requires id in t.log.beat
  {
    t.now >= terms.deadline || t.now - t.log.beat[id] >= terms.idle
  }

  /**
   A wait gives up only at the hard deadline it began with or after a full idle window without a
   recorded sign of life, whatever was interleaved with it; and it never crashes.
   */
  lemma GivingUpIsJustified(t: Table, e: Event, id: Id)
    requires Coherent(t) && Enabled(t, e) && id in t.waits
    requires id in Apply(t, e).log.ended && Apply(t, e).log.ended[id] in {GaveUp, Crashed}
    ensures Apply(t, e).log.ended[id] == GaveUp && (e.Wake? ==> t.futures[id].Waiting?)
    ensures id in Apply(t, e).log.terms && id in t.log.beat && JustifiedIn(t, id, Apply(t, e).log.terms[id])
  {
    OnlyClocksGiveUp(t, e, id);
    if e.Begin? {
      BeginGivesUp(t, id, e.idle, e.hard);
    } else {
      WakeGivesUp(t, id);
    }
  }

  /** Progress that reaches a wait still missing its reply is always recorded, and always nudges it. */
  lemma ProgressIsRecorded(t: Table, id: Id, sub: string)
    requires Coherent(t) && id in t.waits && t.futures[id].Waiting?
    ensures var t' := Apply(t, Note(id, sub));
            t'.log.beat[id] == t'.maps.lastSeen[id] == t.now && t'.maps.progress[id]
  {
    assert Sound(t, id, t.waits[id]);
  }

  /** The first reply to a live request completes it and touches nothing else; a parked wait may then wake to it. */
  lemma ReplyCompletesItsRequest(t: Table, id: Id, r: Reply)
    requires Coherent(t) && id in t.waits && t.futures[id].Waiting?
    ensures var t' := Apply(t, Resolve(id, r));
            && t' == t.(futures := t'.futures) && t'.futures.Keys == t.futures.Keys && t'.futures[id] == Done(r)
            && forall other :: other in t.futures && other != id ==> t'.futures[other] == t.futures[other]
    ensures var t' := Apply(t, Resolve(id, r));
            t.waits[id].Parked? ==>
              && Enabled(t', Wake(id))
              && id !in Apply(t', Wake(id)).waits && Apply(t', Wake(id)).log.ended[id] == Answered(r)
  {
    assert Sound(t, id, t.waits[id]);
  }

  /** Any other reply is dropped: the request was answered before, is unknown, or has left the maps. */
  lemma OtherRepliesAreDropped(t: Table, id: Id, r: Reply)
    requires Coherent(t) && (id in t.futures && t.futures[id].Waiting? ==> id !in t.maps.pending)
    ensures Apply(t, Resolve(id, r)) == t
    ensures id !in t.waits || t.futures[id].Done?
  {
    if id in t.waits { assert Sound(t, id, t.waits[id]); }
  }

  /** A wait still without its reply gives up when it wakes exactly at its deadline or after a silent idle window. */
  lemma GivesUpIff(t: Table, id: Id)
    requires Coherent(t) && Enabled(t, Wake(id)) && t.futures[id].Waiting?
    ensures id in t.log.terms && id in t.log.beat
    ensures id in Apply(t, Wake(id)).log.ended <==> JustifiedIn(t, id, t.log.terms[id])
    ensures id in Apply(t, Wake(id)).waits <==> !JustifiedIn(t, id, t.log.terms[id])
  {
    assert Sound(t, id, t.waits[id]);
  }

  /** A wait that begins gives up at once exactly after a send longer than its idle window. */
  lemma BeginGivesUpIff(t: Table, id: Id, idle: int, hard: int)
    requires Coherent(t) && Enabled(t, Begin(id, idle, hard))
    ensures id in t.log.beat
    ensures var t' := Apply(t, Begin(id, idle, hard));
            && (id in t'.log.ended <==> id in t.maps.pending && t.now - t.log.beat[id] >= idle)
            && (id in t'.waits <==> id !in t'.log.ended)
  {
    assert Sound(t, id, t.waits[id]);
  }

  /** A disconnect answers every wait that has no reply yet with the failure, and no other. */
  lemma DisconnectAnswersEveryWait(t: Table, reason: string)
    requires Coherent(t)
    ensures var t' := Apply(t, Disconnect(reason));
            && t'.waits == t.waits && t'.maps == CLEARED
            && forall id :: id in t.waits ==>
                 t'.futures[id] == if t.futures[id].Waiting? then Done(Reply(false, reason)) else t.futures[id]
  {
    forall id | id in t.waits ensures t.futures[id].Waiting? ==> id in t.maps.pending {
      assert Sound(t, id, t.waits[id]);
    }
  }

  /** A request belongs to the block it was made for, if any. */
  lemma RequestsAreOwned(t: Table, id: Id, block: string)
    requires KeysAgree(t) && Enabled(t, Dispatch(id, block))
    ensures var owner := Apply(t, Dispatch(id, block)).maps.owner;
            && owner - {id} == t.maps.owner && (id in owner <==> block != "") && (id in owner ==> owner[id] == block)
  {
    assert id !in t.maps.progress && id !in t.maps.owner;
  }

  /** It does as long as it is in the maps, and no other event gives it an owner. */
  lemma OwnersStand(t: Table, e: Event, id: Id)
    requires KeysAgree(t) && Enabled(t, e) && !e.Dispatch?
    ensures var owner := Apply(t, e).maps.owner;
            && (id in owner ==> id in t.maps.owner && owner[id] == t.maps.owner[id])
            && (id in t.maps.owner && id in Apply(t, e).maps.progress ==> id in owner)
  {
    match e {
      case Begin(_, _, _) =>
      case Wake(_) =>
      case Dispatch(_, _) =>
      case Note(_, _) =>
      case Resolve(_, _) =>
      case Disconnect(_) =>
      case CancelParked(_) =>
      case CancelSending(_) =>
      case Tick(_) =>
    }
  }

  /** The status kept for a live request is its last note that says anything; nobody else's changes. */
  lemma NoteIsKept(t: Table, id: Id, sub: string)
    requires id in t.maps.progress
    ensures var before, after := t.maps.status, Apply(t, Note(id, sub)).maps.status;
            && after - {id} == before - {id}
            && if Text.Strip(sub) != "" then id in after && after[id] == Text.Strip(sub) else after == before
  {
  }

  /** A reply that is in when the wait wakes is what the wait returns. */
  lemma ReplyInTimeIsReturned(t: Table, id: Id)
    requires Coherent(t) && Enabled(t, Wake(id)) && t.futures[id].Done?
    ensures id !in Apply(t, Wake(id)).waits
    ensures Apply(t, Wake(id)).log.ended[id] == Answered(t.futures[id].reply)
  {
  }

  /** Not so at the head of the wait: a send slower than the idle window loses a reply already in. */
  lemma SlowSendLosesTheReply(t: Table, id: Id, idle: int, hard: int)
    requires Coherent(t) && Enabled(t, Begin(id, idle, hard)) && t.futures[id].Done?
    ensures var t' := Apply(t, Begin(id, idle, hard));
      (id in t'.log.ended && t'.log.ended[id] == GaveUp) <==> (id in t.maps.pending && t.now - t.log.beat[id] >= idle)
  {
    assert Sound(t, id, t.waits[id]);
  }

  /** First replies, outcomes and terms stand: no later event replaces one. */
  ghost predicate Stands(t: Table, t': Table, id: Id)
    requires id in t.futures
  {
    && id in t'.futures && (t.futures[id].Done? ==> t'.futures[id] == t.futures[id])
    && (id in t.log.ended ==> id in t'.log.ended && t'.log.ended[id] == t.log.ended[id])
    && (id in t.log.terms ==> id in t'.log.terms && t'.log.terms[id] == t.log.terms[id])
  }

  lemma HistoryStands(t: Table, e: Event, id: Id)
    requires Coherent(t) && Enabled(t, e) && id in t.futures
    ensures Stands(t, Apply(t, e), id)
  {
    match e {
      case Begin(i, idle, hard) =>
        assert Sound(t, i, t.waits[i]);
        var r := Ready(t, i, Terms(t.now + hard, idle));
        assert Stands(t, r, id) && i !in t.log.ended;
        PassStands(r, i, t.now + hard, idle, id);
      case Wake(i) =>
        if t.futures[i].Waiting? { PassStands(t, i, t.waits[i].deadline, t.waits[i].idle, id); }
      case Dispatch(_, _) =>
      case Note(_, _) =>
      case Resolve(_, _) =>
      case Disconnect(_) =>
      case CancelParked(_) =>
      case CancelSending(_) =>
      case Tick(_) =>
    }
  }

  lemma PassStands(t: Table, i: Id, deadline: int, idle: int, id: Id)
    requires id in t.futures && i !in t.log.ended
    ensures Stands(t, Pass(t, i, deadline, idle), id)
  {
  }

  /** Equal but for which progress events happen to be set. */
  ghost predicate SameButFlags(a: Table, b: Table) {
    a.maps.progress.Keys == b.maps.progress.Keys && b == a.(maps := a.maps.(progress := b.maps.progress))
  }

  /** Setting or losing a wake-up changes nothing but when a wait next looks at its clocks. */
  lemma LostWakeUpsAreHarmless(a: Table, b: Table, e: Event)
    requires SameButFlags(a, b) && Enabled(a, e) && Enabled(b, e)
    ensures SameButFlags(Apply(a, e), Apply(b, e))
  {
    match e {
      case Begin(id, idle, hard) => BeginIgnoresFlags(a, b, id, idle, hard);
      case Wake(id) => WakeIgnoresFlags(a, b, id);
      case CancelParked(id) => EndIgnoresFlags(a, b, id, Interrupted);
      case Dispatch(_, _) =>
      case Note(_, _) =>
      case Resolve(_, _) =>
      case Disconnect(_) =>
      case CancelSending(_) =>
      case Tick(_) =>
    }
  }

  lemma BeginIgnoresFlags(a: Table, b: Table, id: Id, idle: int, hard: int)
    requires SameButFlags(a, b)
    ensures SameButFlags(Begun(a, id, idle, hard), Begun(b, id, idle, hard))
  {
    var terms := Terms(a.now + hard, idle);
    PassIgnoresFlags(Ready(a, id, terms), Ready(b, id, terms), id, a.now + hard, idle);
  }

  lemma WakeIgnoresFlags(a: Table, b: Table, id: Id)
    requires SameButFlags(a, b) && Enabled(a, Wake(id)) && Enabled(b, Wake(id))
    ensures SameButFlags(Woken(a, id), Woken(b, id))
  {
    if a.futures[id].Done? {
      EndIgnoresFlags(a, b, id, Answered(a.futures[id].reply));
    } else {
      PassIgnoresFlags(a, b, id, a.waits[id].deadline, a.waits[id].idle);
    }
  }

  lemma PassIgnoresFlags(a: Table, b: Table, id: Id, deadline: int, idle: int)
    requires SameButFlags(a, b)
    ensures SameButFlags(Pass(a, id, deadline, idle), Pass(b, id, deadline, idle))
  {
    EndIgnoresFlags(a, b, id, GaveUp);
    EndIgnoresFlags(a, b, id, Crashed);
  }

  lemma EndIgnoresFlags(a: Table, b: Table, id: Id, how: Ending)
    requires SameButFlags(a, b)
    ensures SameButFlags(End(a, id, how), End(b, id, how))
  {
    assert (a.maps.progress - {id}).Keys == a.maps.progress.Keys - {id} == (b.maps.progress - {id}).Keys;
  }

  /** Time does not pass a timer that is due. */
  ghost predicate OnTime(t: Table) {
    forall id :: id in t.waits && t.waits[id].Parked? ==> t.now <= t.waits[id].wakeAt
  }

  /** Every event but a late tick keeps the timers due in the future. */
  lemma EventsKeepOnTime(t: Table, e: Event)
    requires Coherent(t) && Enabled(t, e) && OnTime(t)
    requires e.Tick? ==> OnTime(Apply(t, e))
    ensures OnTime(Apply(t, e))
  {
    match e {
      case Begin(i, _, _) =>
      case Dispatch(_, _) =>
      case Wake(i) =>
      case Note(_, _) =>
      case Resolve(_, _) =>
      case Disconnect(_) =>
      case CancelParked(_) =>
      case CancelSending(_) =>
      case Tick(_) =>
    }
  }

  /** So no wait outlives its hard deadline, or an idle window after the last sign of life. */
  lemma OnTimeWaitsAreBounded(t: Table, id: Id)
    requires Coherent(t) && OnTime(t) && id in t.waits && t.waits[id].Parked?
    ensures t.now <= t.log.terms[id].deadline
    ensures t.futures[id].Waiting? ==> t.now <= t.log.beat[id] + t.log.terms[id].idle
  {
    assert Sound(t, id, t.waits[id]);
  }

  // ── Whole runs ─────────────────────────────────────────────────────────────

  ghost predicate Plays(states: seq<Table>, events: seq<Event>) {
    && |states| == |events| + 1 && states[0] == EMPTY
    && forall i :: 0 <= i < |events| ==>
         Enabled(states[i], events[i]) && states[i + 1] == Apply(states[i], events[i])
  }

  /** A run in which, after every event, any wake-up may have been lost or set for no reason. */
  ghost predicate PlaysLossily(states: seq<Table>, events: seq<Event>) {
    && |states| == |events| + 1 && states[0] == EMPTY
    && forall i :: 0 <= i < |events| ==>
         Enabled(states[i], events[i]) && SameButFlags(Apply(states[i], events[i]), states[i + 1])
  }

  /** None need be lost, so what holds of every lossy run holds of every run. */
  lemma NoLossIsARun(states: seq<Table>, events: seq<Event>)
    requires Plays(states, events)
    ensures PlaysLossily(states, events)
  {
  }

  /** Over whole runs the same events have the same outcome, however many wake-ups are lost on the way. */
  lemma {:induction false} LossyRunsAgree(states: seq<Table>, lossy: seq<Table>, events: seq<Event>, i: nat)
    requires Plays(states, events) && PlaysLossily(lossy, events) && i < |states|
    ensures SameButFlags(states[i], lossy[i])
  {
    if i > 0 {
      LossyRunsAgree(states, lossy, events, i - 1);
      LostWakeUpsAreHarmless(states[i - 1], lossy[i - 1], events[i - 1]);
      var a, b, c := states[i], Apply(lossy[i - 1], events[i - 1]), lossy[i];
      assert SameButFlags(a, b) && SameButFlags(b, c);
    }
  }

  lemma FlagsKeepCoherence(a: Table, b: Table)
    requires Coherent(a) && SameButFlags(a, b)
    ensures Coherent(b)
  {
    forall id | id in b.waits ensures Sound(b, id, b.waits[id]) { assert Sound(a, id, a.waits[id]); }
    forall id | id in b.log.ended ensures EndedWell(b, id) { assert EndedWell(a, id); }
  }

  /** Coherence holds under every interleaving of any number of requests, lost wake-ups included. */
  lemma {:induction false} RunsAreCoherent(states: seq<Table>, events: seq<Event>, i: nat)
    requires PlaysLossily(states, events) && i < |states|
    ensures Coherent(states[i])
  {
    if i > 0 {
      RunsAreCoherent(states, events, i - 1);
      StepKeepsCoherence(states[i - 1], events[i - 1]);
      FlagsKeepCoherence(Apply(states[i - 1], events[i - 1]), states[i]);
    }
  }

  /**
   The two clocks over whole runs: however requests interleave and whatever wake-ups are lost, a wait that
   ends neither answered nor interrupted ended on terms it had from its beginning, at its deadline or after a
   silent idle window.
   */
  lemma NoRunGivesUpEarly(states: seq<Table>, events: seq<Event>, i: nat, id: Id)
    requires PlaysLossily(states, events) && i < |events| && id in states[i].waits && id in states[i + 1].log.ended
    requires !states[i + 1].log.ended[id].Answered? && !states[i + 1].log.ended[id].Interrupted?
    ensures states[i + 1].log.ended[id] == GaveUp
    ensures id in states[i + 1].log.terms && id in states[i].log.beat
    ensures JustifiedIn(states[i], id, states[i + 1].log.terms[id])
    ensures id in states[i].log.terms ==> states[i + 1].log.terms[id] == states[i].log.terms[id]
  {
    RunsAreCoherent(states, events, i);
    GivingUpIsJustified(states[i], events[i], id);
    assert id in states[i].futures;
    HistoryStands(states[i], events[i], id);
  }

  /** The wait for `id` has been answered with `r`: it returns that when it wakes, unless it is cancelled first. */
  ghost predicate Heard(t: Table, id: Id, r: Reply) {
    && id in t.futures && t.futures[id] == Done(r)
    && if id in t.waits then t.waits[id].Parked? && Enabled(t, Wake(id))
       else id in t.log.ended && t.log.ended[id] in {Answered(r), Interrupted}
  }

  lemma HeardStaysHeard(t: Table, e: Event, id: Id, r: Reply)
    requires Coherent(t) && Enabled(t, e) && Heard(t, id, r)
    ensures Heard(Apply(t, e), id, r)
  {
    HistoryStands(t, e, id);
    match e {
      case Begin(_, _, _) =>
      case Wake(_) =>
      case Dispatch(_, _) =>
      case Note(_, _) =>
      case Resolve(_, _) =>
      case Disconnect(_) =>
      case CancelParked(_) =>
      case CancelSending(_) =>
      case Tick(_) =>
    }
  }

  /**
   No reply to a parked wait is lost: from then on, in every run, the wait can wake to that reply, has returned
   it, or was cancelled.  It never gives up.
   */
  lemma {:induction false} NoReplyIsLost(states: seq<Table>, events: seq<Event>, i: nat, j: nat, id: Id, r: Reply)
    requires PlaysLossily(states, events) && i < j < |states| && events[i] == Resolve(id, r)
    requires id in states[i].waits && states[i].waits[id].Parked?
    requires id in states[i].futures && states[i].futures[id].Waiting?
    ensures Heard(states[j], id, r)
  {
    var t, e := states[j - 1], events[j - 1];
    RunsAreCoherent(states, events, j - 1);
    if i == j - 1 {
      ReplyCompletesItsRequest(t, id, r);
    } else {
      NoReplyIsLost(states, events, i, j - 1, id, r);
      HeardStaysHeard(t, e, id, r);
    }
    assert SameButFlags(Apply(t, e), states[j]);
  }

  lemma {:induction false} TermsStand(states: seq<Table>, events: seq<Event>, i: nat, j: nat, id: Id)
    requires PlaysLossily(states, events) && i <= j < |states|
    requires id in states[i].futures && id in states[i].log.terms
    ensures id in states[j].futures && id in states[j].log.terms && states[j].log.terms[id] == states[i].log.terms[id]
  {
    if i < j {
      TermsStand(states, events, i, j - 1, id);
      RunsAreCoherent(states, events, j - 1);
      HistoryStands(states[j - 1], events[j - 1], id);
      assert SameButFlags(Apply(states[j - 1], events[j - 1]), states[j]);
    }
  }

  lemma BeginSetsTerms(t: Table, id: Id, idle: int, hard: int)
    requires Coherent(t) && Enabled(t, Begin(id, idle, hard))
    ensures var t' := Apply(t, Begin(id, idle, hard));
            id in t'.futures && id in t'.log.terms && t'.log.terms[id] == Terms(t.now + hard, idle)
  {
    assert Sound(t, id, t.waits[id]);
  }

  /** With prompt timers, a wait that has begun is over once its hard limit has passed. */
  lemma WaitsEndInTime(states: seq<Table>, events: seq<Event>, i: nat, j: nat, id: Id, idle: int, hard: int)
    requires PlaysLossily(states, events) && i < j < |states| && events[i] == Begin(id, idle, hard)
    requires OnTime(states[j]) && id in states[j].waits
    ensures states[j].now <= states[i].now + hard
  {
    RunsAreCoherent(states, events, i);
    RunsAreCoherent(states, events, j);
    BeginSetsTerms(states[i], id, idle, hard);
    TermsStand(states, events, i + 1, j, id);
    assert Sound(states[j], id, states[j].waits[id]);
    OnTimeWaitsAreBounded(states[j], id);
  }

  predicate AllEmpty(t: Table) {
    && t.maps.pending == {} && t.maps.progress == map[] && t.maps.lastSeen == map[]
    && t.maps.owner == map[] && t.maps.status == map[]
  }

  lemma {:induction false} OnlyCancelledSendsLeak(states: seq<Table>, events: seq<Event>, i: nat)
    requires PlaysLossily(states, events) && i < |states|
    requires forall k :: 0 <= k < |events| ==> !events[k].CancelSending?
    ensures states[i].log.leaked == {}
  {
    if i > 0 {
      OnlyCancelledSendsLeak(states, events, i - 1);
      LeakStep(states[i - 1], events[i - 1]);
    }
  }

  /** Before `i`, a send was cancelled whose entries were in the maps, and nothing disconnected since. */
  ghost predicate SendLost(states: seq<Table>, events: seq<Event>, i: nat)
    requires |states| == |events| + 1 && i < |states|
  {
    exists k :: 0 <= k < i && LostAt(states, events, k) && forall j :: k < j < i ==> !events[j].Disconnect?
  }

  predicate LostAt(states: seq<Table>, events: seq<Event>, k: nat)
    requires k < |events| && k < |states|
  {
    events[k].CancelSending? && events[k].id in states[k].maps.progress
  }

  lemma LeakStep(t: Table, e: Event)
    requires Enabled(t, e)
    ensures Apply(t, e).log.leaked ==
      if e.Disconnect? then {}
      else if e.CancelSending? && e.id in t.maps.progress then t.log.leaked + {e.id}
      else t.log.leaked
  {
    match e {
      case Begin(_, _, _) =>
      case Wake(_) =>
      case Dispatch(_, _) =>
      case Note(_, _) =>
      case Resolve(_, _) =>
      case Disconnect(_) =>
      case CancelParked(_) =>
      case CancelSending(_) =>
      case Tick(_) =>
    }
  }

  lemma SendLostStep(states: seq<Table>, events: seq<Event>, i: nat)
    requires |states| == |events| + 1 && 0 < i < |states|
    ensures SendLost(states, events, i) <==>
      LostAt(states, events, i - 1) || (SendLost(states, events, i - 1) && !events[i - 1].Disconnect?)
  {
    if SendLost(states, events, i - 1) && !events[i - 1].Disconnect? {
      var k :| 0 <= k < i - 1 && LostAt(states, events, k) && forall j :: k < j < i - 1 ==> !events[j].Disconnect?;
      assert forall j :: k < j < i ==> !events[j].Disconnect?;
    }
  }

  lemma {:induction false} LeaksAreLostSends(states: seq<Table>, events: seq<Event>, i: nat)
    requires PlaysLossily(states, events) && i < |states|
    ensures states[i].log.leaked != {} <==> SendLost(states, events, i)
  {
    if i > 0 {
      LeaksAreLostSends(states, events, i - 1);
      SendLostStep(states, events, i);
      LeakStep(states[i - 1], events[i - 1]);
      assert LostAt(states, events, i - 1) ==> events[i - 1].id in states[i].log.leaked;
    }
  }

  /**
   Once every wait has ended, the five maps are empty exactly when no agent was cancelled while
   `_dispatch_client` still awaited the socket, or the session disconnected after the last time one was.
   */
  lemma DrainedMapsAreEmpty(states: seq<Table>, events: seq<Event>, i: nat)
    requires PlaysLossily(states, events) && i < |states| && states[i].waits == map[]
    ensures AllEmpty(states[i]) <==> !SendLost(states, events, i)
  {
    RunsAreCoherent(states, events, i);
    LeaksAreLostSends(states, events, i);
    var t := states[i];
    assert t.waits.Keys == {};
    if t.log.leaked == {} {
      assert t.maps.progress.Keys == {} && t.maps.lastSeen.Keys == {};
      assert t.maps.owner.Keys == {} && t.maps.status.Keys == {};
    } else {
      assert t.maps.progress.Keys != {};
    }
  }

  /** The leak is real: one request, cancelled during its send. */
  lemma CancelledSendLeaks()
    ensures exists states: seq<Table>, events: seq<Event> ::
      Plays(states, events) && states[|events|].waits == map[] && !AllEmpty(states[|events|])
  {
    var t1 := Apply(EMPTY, Dispatch(0, ""));
    var t2 := Apply(t1, CancelSending(0));
    var states, events := [EMPTY, t1, t2], [Dispatch(0, ""), CancelSending(0)];
    assert 0 in t2.maps.pending && t2.waits == map[];
    assert Plays(states, events);
  }

  /** A port read whose send takes a whole idle window, the reply arriving meanwhile. */
  function SlowSend(r: Reply): Table {
    Apply(Apply(Apply(EMPTY, Dispatch(0, "")), Resolve(0, r)), Tick(12))
  }

  lemma SlowSendGivesUp(r: Reply)
    ensures var t := SlowSend(r);
            && Enabled(t, Begin(0, 12, 12)) && t.futures == map[0 := Done(r)]
            && Apply(t, Begin(0, 12, 12)).futures == t.futures
            && Apply(t, Begin(0, 12, 12)).log.ended == map[0 := GaveUp]
  {
    var t := SlowSend(r);
    assert t.futures == map[0 := Done(r)] && t.maps.lastSeen == map[0 := 0] && t.now == 12;
  }

  /** So is the lost reply. */
  lemma SlowSendIsReached(r: Reply)
    ensures exists states: seq<Table>, events: seq<Event> ::
      && Plays(states, events) && states[|events|].futures == map[0 := Done(r)]
      && states[|events|].log.ended == map[0 := GaveUp]
  {
    SlowSendGivesUp(r);
    var t1 := Apply(EMPTY, Dispatch(0, ""));
    var t2 := Apply(t1, Resolve(0, r));
    var t3, t4 := SlowSend(r), Apply(SlowSend(r), Begin(0, 12, 12));
    var states := [EMPTY, t1, t2, t3, t4];
    var events := [Dispatch(0, ""), Resolve(0, r), Tick(12), Begin(0, 12, 12)];
    assert Plays(states, events);
  }

  // ── The session's own maps ─────────────────────────────────────────────────

  class Requests {
    var now: int
    var pending: set<Id>
    var progress: map<Id, bool>
    var lastSeen: map<Id, int>
    var owner: map<Id, string>
    var status: map<Id, string>
    var futures: map<Id, Future>
    var waits: map<Id, Wait>
    ghost var log: Log

    ghost function View(): Table
      reads this
    {
      Table(now, Maps(pending, progress, lastSeen, owner, status), futures, waits, log)
    }

    constructor ()
      ensures View() == EMPTY
    {
      now, pending, progress, lastSeen := 0, {}, map[], map[];
      owner, status, futures, waits := map[], map[], map[], map[];
      log := Log(map[], map[], map[], {});
    }

    method DispatchClient(id: Id, ownerBlock: string)
      requires id !in futures
      modifies this
      ensures View() == Dispatched(old(View()), id, ownerBlock)
    {
      futures := futures[id := Waiting];
      pending := pending + {id};
      progress := progress[id := false];
      lastSeen := lastSeen[id := now];
      log := log.(beat := log.beat[id := now]);
      owner := Owned(owner, id, ownerBlock);
      waits := waits[id := Sending];
    }

    /** The head of `_await_client`, up to its first suspension. */
    method BeginWait(id: Id, idle: int, hard: int)
      requires Coherent(View()) && Enabled(View(), Begin(id, idle, hard))
      modifies this
      ensures View() == Begun(old(View()), id, idle, hard)
    {
      if id !in progress { progress := progress[id := false]; }
      if id !in lastSeen { lastSeen := lastSeen[id := now]; }
      log := log.(terms := log.terms[id := Terms(now + hard, idle)]);
      CheckClocks(id, now + hard, idle);
    }

    /** One turn of its loop after a wake-up: a reply that is in is returned before any clock is read. */
    method ResumeWait(id: Id)
      requires Coherent(View()) && Enabled(View(), Wake(id))
      modifies this
      ensures View() == Woken(old(View()), id)
    {
      assert Sound(View(), id, waits[id]);
      if futures[id].Done? {
        Forget(id, Answered(futures[id].reply));
      } else {
        CheckClocks(id, waits[id].deadline, waits[id].idle);
      }
    }

    method CheckClocks(id: Id, deadline: int, idle: int)
      requires id in lastSeen
      modifies this
      ensures View() == Pass(old(View()), id, deadline, idle)
    {
      if now >= deadline {
        Forget(id, GaveUp);
        return;
      }
      var idleLeft := idle - (now - lastSeen[id]);
      if idleLeft <= 0 {
        Forget(id, GaveUp);
        return;
      }
      progress := progress[id := false];
      waits := waits[id := Parked(deadline, idle, now + Min(idleLeft, deadline - now))];
    }

    method Forget(id: Id, ghost how: Ending)
      modifies this
      ensures View() == End(old(View()), id, how)
    {
      pending, progress, lastSeen := pending - {id}, progress - {id}, lastSeen - {id};
      owner, status, waits := owner - {id}, status - {id}, waits - {id};
      log := log.(ended := log.ended[id := how]);
    }

    method NoteProgress(id: Id, subStatus: string)
      modifies this`lastSeen, this`progress, this`status, this`log
      ensures View() == Beaten(old(View()), id, Text.Strip(subStatus))
    {
      if id !in progress { return; }
      lastSeen := lastSeen[id := now];
      log := log.(beat := log.beat[id := now]);
      progress := progress[id := true];
      var sub := Text.Strip(subStatus);
      if sub == "" || (id in status && sub == status[id]) { return; }
      status := status[id := sub];
    }

    method ResolvePending(id: Id, reply: Reply)
      modifies this`futures
      ensures View() == Resolved(old(View()), id, reply)
    {
      if id in pending && id in futures && futures[id].Waiting? {
        futures := futures[id := Done(reply)];
      }
    }

    /** A disconnect: every outstanding request is answered, then the maps are cleared. */
    method FailPending(reason: string)
      requires pending <= futures.Keys
      modifies this
      ensures View() == Disconnected(old(View()), Reply(false, reason))
    {
      FailFutures(Reply(false, reason));
      pending, progress, lastSeen, owner, status := {}, map[], map[], map[], map[];
      log := log.(leaked := {});
    }

    method FailFutures(reply: Reply)
      requires pending <= futures.Keys
      modifies this`futures
      ensures futures == FailedFutures(old(View()), reply)
    {
      var left := pending;
      while left != {}
        invariant left <= pending
        invariant futures.Keys == old(futures).Keys
        invariant forall id :: id in futures ==>
          futures[id] == if id in pending && id !in left && old(futures)[id].Waiting? then Done(reply)
                         else old(futures)[id]
        decreases left
      {
        var id :| id in left;
        if futures[id].Waiting? {
          futures := futures[id := Done(reply)];
        }
        left := left - {id};
      }
    }

    method CancelWait(id: Id)
      modifies this
      ensures View() == End(old(View()), id, Interrupted)
    {
      Forget(id, Interrupted);
    }
  }
}
