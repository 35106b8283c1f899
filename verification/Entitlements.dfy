/**
 What a user's plan allows (app/core/entitlements.py): a short-lived hot cache in front of the backend and
 a week-long last-known-good copy behind it.  The backend, the clock and every cache failure are inputs.
 */
module Entitlements {
  import opened Common

  const BLOCK_AGENT := "block_agent"

  type Rights = set<string>

  /** The settings the policy depends on. */
  datatype Policy = Policy(hotTtl: nat, lkgTtl: nat, fallbackAllows: bool, enforced: bool)

  datatype Entry = Entry(expires: int, rights: Rights)

  datatype Tier = Hot | LastKnownGood

  /** The explicit backend answers, newest last, and which of their two cache writes went through. */
  datatype History =
    | Silent
    | Answered(prev: History, user: string, rights: Rights, at: int, hotWritten: bool, lkgWritten: bool)

  datatype Store = Store(hot: map<string, Entry>, lkg: map<string, Entry>, history: History)

  const EMPTY := Store(map[], map[], Silent)

  // ----- the backend's reply -----------------------------------------------------------------------

  datatype Body = NotJson | UnexpectedShape | Data(entitlements: Option<Rights>)

  datatype Reply = Unreachable | Response(status: int, body: Body)

  /** None means "could not get an answer", never "no rights"; a missing list is an explicit empty one. */
  function Fetched(reply: Reply): Option<Rights> {
    match reply
    case Unreachable => None
    case Response(status, body) =>
      if status >= 400 || !body.Data? then None
      else Some(if body.entitlements.Some? then body.entitlements.value else {})
  }

  // ----- the resolver ------------------------------------------------------------------------------

  /**
   Everything outside one resolution: the time it starts, the time the backend has answered or given up (when
   the caches are written and the last-known-good copy is read), what can be read and written, and the reply.
   */
  datatype Look = Look(now: int, later: int, readable: set<Tier>, written: set<Tier>, reply: Reply)

  datatype Source = FromHot | FromBackend | FromLastKnownGood | FromFallback

  datatype Resolution = Resolution(rights: Rights, source: Source)

  /** When a resolution reads a tier. */
  function ReadAt(tier: Tier, look: Look): int {
    if tier.Hot? then look.now else look.later
  }

  function Read(s: Store, tier: Tier, user: string, look: Look): Option<Rights> {
    var entries := if tier.Hot? then s.hot else s.lkg;
    if tier in look.readable && user in entries && ReadAt(tier, look) < entries[user].expires
    then Some(entries[user].rights) else None
  }

  function Written(s: Store, p: Policy, user: string, rights: Rights, look: Look): Store {
    Store(
      if Hot in look.written then s.hot[user := Entry(look.later + p.hotTtl, rights)] else s.hot,
      if LastKnownGood in look.written then s.lkg[user := Entry(look.later + p.lkgTtl, rights)] else s.lkg,
      Answered(s.history, user, rights, look.later, Hot in look.written, LastKnownGood in look.written))
  }

  /** The store after one resolution: only an explicit answer, yes or no, is written, and to both tiers. */
  function After(s: Store, p: Policy, user: string, refresh: bool, look: Look): Store {
    if !refresh && Read(s, Hot, user, look).Some? then s
    else match Fetched(look.reply)
      case Some(rights) => Written(s, p, user, rights, look)
      case None => s
  }

  function Resolve(s: Store, p: Policy, user: string, refresh: bool, look: Look): Resolution {
    if !refresh && Read(s, Hot, user, look).Some? then Resolution(Read(s, Hot, user, look).value, FromHot)
    else match Fetched(look.reply)
      case Some(rights) => Resolution(rights, FromBackend)
      case None =>
        if Read(s, LastKnownGood, user, look).Some?
        then Resolution(Read(s, LastKnownGood, user, look).value, FromLastKnownGood)
        else Resolution(if p.fallbackAllows then {BLOCK_AGENT} else {}, FromFallback)
  }

  // ----- what counts as an answer ------------------------------------------------------------------

  /** The backend said something about the user: it did not fail, did not reject us, and sent what was asked for. */
  predicate Answers(reply: Reply) {
    reply.Response? && reply.status < 400 && reply.body.Data?
  }

  function Unanswered(look: Look): Look {
    look.(reply := Unreachable)
  }

  /** An error of either kind, a body that is no JSON and one of the wrong shape are all no answer at all. */
  lemma RejectionsAreSilence(s: Store, p: Policy, user: string, refresh: bool, look: Look)
    requires !Answers(look.reply)
    ensures Resolve(s, p, user, refresh, look) == Resolve(s, p, user, refresh, Unanswered(look))
    ensures After(s, p, user, refresh, look) == After(s, p, user, refresh, Unanswered(look)) == s
  {
  }

  /** An answer that is asked for is what is returned, remembered and written; a missing list means no rights. */
  lemma AnswersAreHeard(s: Store, p: Policy, user: string, refresh: bool, look: Look)
    requires Answers(look.reply) && (refresh || Read(s, Hot, user, look).None?)
    ensures var rights := if look.reply.body.entitlements.Some? then look.reply.body.entitlements.value else {};
            && Resolve(s, p, user, refresh, look) == Resolution(rights, FromBackend)
            && LastAnswer(After(s, p, user, refresh, look).history, user) == Some(rights)
            && forall tier :: tier in look.written ==>
                 LastWritten(After(s, p, user, refresh, look).history, tier, user) == Some((rights, look.later))
  {
  }

  // ----- what the caches stand for -----------------------------------------------------------------

  /** The most recent explicit answer about `user`. */
  function LastAnswer(h: History, user: string): Option<Rights> {
    match h
    case Silent => None
    case Answered(prev, u, rights, _, _, _) => if u == user then Some(rights) else LastAnswer(prev, user)
  }

  /** The most recent explicit answer about `user` that reached a tier, and when. */
  function LastWritten(h: History, tier: Tier, user: string): Option<(Rights, int)> {
    match h
    case Silent => None
    case Answered(prev, u, rights, at, hotWritten, lkgWritten) =>
      if u == user && (if tier.Hot? then hotWritten else lkgWritten) then Some((rights, at))
      else LastWritten(prev, tier, user)
  }

  /** Every answer about `user` reached both tiers. */
  predicate AllWritten(h: History, user: string) {
    h.Answered? ==> (h.user == user ==> h.hotWritten && h.lkgWritten) && AllWritten(h.prev, user)
  }

  ghost predicate Mirrors(entries: map<string, Entry>, h: History, tier: Tier, ttl: nat) {
    && (forall user :: user in entries <==> LastWritten(h, tier, user).Some?)
    && forall user :: user in entries ==>
         && entries[user].rights == LastWritten(h, tier, user).value.0
         && entries[user].expires == LastWritten(h, tier, user).value.1 + ttl
  }

  ghost predicate Faithful(s: Store, p: Policy) {
    Mirrors(s.hot, s.history, Hot, p.hotTtl) && Mirrors(s.lkg, s.history, LastKnownGood, p.lkgTtl)
  }

  lemma ResolvingKeepsFaith(s: Store, p: Policy, user: string, refresh: bool, look: Look)
    requires Faithful(s, p)
    ensures Faithful(After(s, p, user, refresh, look), p)
  {
    var t := After(s, p, user, refresh, look);
    forall u ensures u in t.hot <==> LastWritten(t.history, Hot, u).Some?
             ensures u in t.lkg <==> LastWritten(t.history, LastKnownGood, u).Some?
    {
      assert u in s.hot <==> LastWritten(s.history, Hot, u).Some?;
      assert u in s.lkg <==> LastWritten(s.history, LastKnownGood, u).Some?;
    }
  }

  lemma {:induction false} WrittenIsLast(h: History, tier: Tier, user: string)
    requires AllWritten(h, user)
    ensures LastWritten(h, tier, user).Some? <==> LastAnswer(h, user).Some?
    ensures LastAnswer(h, user).Some? ==> LastWritten(h, tier, user).value.0 == LastAnswer(h, user).value
    ensures LastWritten(h, tier, user) == LastWritten(h, Hot, user)
  {
    if h.Answered? && h.user != user { WrittenIsLast(h.prev, tier, user); }
  }

  /** Every answer that is not the fallback is the latest thing the backend said about this user. */
  lemma AnswersAreTheLatest(s: Store, p: Policy, user: string, refresh: bool, look: Look)
    requires Faithful(s, p) && AllWritten(s.history, user)
    ensures var r, t := Resolve(s, p, user, refresh, look), After(s, p, user, refresh, look);
            !r.source.FromFallback? ==> LastAnswer(t.history, user) == Some(r.rights)
  {
    WrittenIsLast(s.history, Hot, user);
    WrittenIsLast(s.history, LastKnownGood, user);
  }

  function Ttl(p: Policy, tier: Tier): nat {
    if tier.Hot? then p.hotTtl else p.lkgTtl
  }

  /** Writes that fail only let a tier lag: it still answers with the last answer that reached it. */
  lemma CachesOnlyRepeatTheBackend(s: Store, p: Policy, tier: Tier, user: string, look: Look)
    requires Faithful(s, p) && Read(s, tier, user, look).Some?
    ensures var w := LastWritten(s.history, tier, user);
            && w.Some? && Read(s, tier, user, look).value == w.value.0
            && ReadAt(tier, look) < w.value.1 + Ttl(p, tier)
  {
    assert user in (if tier.Hot? then s.hot else s.lkg);
  }

  predicate Live(entries: map<string, Entry>, user: string, now: int) {
    user in entries && now < entries[user].expires
  }

  /** The fallback answers only when the backend is silent and no last-known-good copy can be read. */
  lemma FallbackIsTheLastResort(s: Store, p: Policy, user: string, refresh: bool, look: Look)
    requires Resolve(s, p, user, refresh, look).source.FromFallback?
    ensures Fetched(look.reply).None? && (LastKnownGood in look.readable ==> !Live(s.lkg, user, look.later))
  {
  }

  /** Whatever the hot cache may still serve, the last-known-good copy holds too, unexpired and equal. */
  ghost predicate BackedUp(s: Store, user: string, now: int) {
    Live(s.hot, user, now) ==> Live(s.lkg, user, now) && s.lkg[user].rights == s.hot[user].rights
  }

  /** That is so in every store, at every moment, exactly when the hot entries live no longer. */
  lemma BackedUpIffHotIsShorter(p: Policy)
    ensures p.hotTtl <= p.lkgTtl <==>
      forall s: Store, user, now :: Faithful(s, p) && AllWritten(s.history, user) ==> BackedUp(s, user, now)
  {
    if p.hotTtl <= p.lkgTtl {
      forall s: Store, user, now | Faithful(s, p) && AllWritten(s.history, user) ensures BackedUp(s, user, now) {
        WrittenIsLast(s.history, Hot, user);
        WrittenIsLast(s.history, LastKnownGood, user);
        assert user in s.hot <==> user in s.lkg;
      }
    } else {
      var look := Look(0, 0, {}, {Hot, LastKnownGood}, Response(200, Data(None)));
      var s := After(EMPTY, p, "u", false, look);
      ResolvingKeepsFaith(EMPTY, p, "u", false, look);
      assert AllWritten(s.history, "u");
      assert !BackedUp(s, "u", p.lkgTtl);
    }
  }

  // ----- the gate ----------------------------------------------------------------------------------

  /** One gate decision: the first look, and the look past the hot cache that a refusal triggers. */
  datatype Request = Request(user: string, first: Look, again: Look)

  predicate FirstLookGrants(s: Store, p: Policy, q: Request) {
    BLOCK_AGENT in Resolve(s, p, q.user, false, q.first).rights
  }

  function AfterGate(s: Store, p: Policy, q: Request): Store {
    if !p.enforced then s
    else
      var s1 := After(s, p, q.user, false, q.first);
      if FirstLookGrants(s, p, q) then s1 else After(s1, p, q.user, true, q.again)
  }

  /** The look the decision rests on, and the store it is taken against. */
  function DecidingLook(s: Store, p: Policy, q: Request): Look {
    if FirstLookGrants(s, p, q) then q.first else q.again
  }

  function AtDecision(s: Store, p: Policy, q: Request): Store {
    if FirstLookGrants(s, p, q) then s else After(s, p, q.user, false, q.first)
  }

  function Deciding(s: Store, p: Policy, q: Request): Resolution {
    Resolve(AtDecision(s, p, q), p, q.user, !FirstLookGrants(s, p, q), DecidingLook(s, p, q))
  }

  predicate Granted(s: Store, p: Policy, q: Request) {
    p.enforced ==> BLOCK_AGENT in Deciding(s, p, q).rights
  }

  function OnlyAnswers(q: Request): Request {
    q.(first := if Answers(q.first.reply) then q.first else Unanswered(q.first),
       again := if Answers(q.again.reply) then q.again else Unanswered(q.again))
  }

  /** The gate makes no difference between a backend that rejects us and one that cannot be reached. */
  lemma GateHearsOnlyAnswers(s: Store, p: Policy, q: Request)
    ensures Granted(s, p, q) == Granted(s, p, OnlyAnswers(q))
    ensures AfterGate(s, p, q) == AfterGate(s, p, OnlyAnswers(q))
  {
    var s1 := After(s, p, q.user, false, q.first);
    if !Answers(q.first.reply) { RejectionsAreSilence(s, p, q.user, false, q.first); }
    if !Answers(q.again.reply) { RejectionsAreSilence(s1, p, q.user, true, q.again); }
  }

  /** An outage that finds no copy to read goes by the configured fallback. */
  lemma OutageFollowsTheSetting(s: Store, p: Policy, q: Request)
    requires p.enforced && !Answers(q.first.reply) && !Answers(q.again.reply)
    requires Read(s, Hot, q.user, q.first).None? && Read(s, LastKnownGood, q.user, q.first).None?
    requires Read(s, LastKnownGood, q.user, q.again).None?
    ensures Granted(s, p, q) <==> p.fallbackAllows
    ensures AfterGate(s, p, q) == s
  {
  }

  /** A paying user with a readable copy is let in however long the backend is away, or rejects us. */
  lemma OutageSparesPayingUsers(s: Store, p: Policy, q: Request)
    requires p.enforced && !Answers(q.first.reply) && Read(s, Hot, q.user, q.first).None?
    requires Read(s, LastKnownGood, q.user, q.first).Some?
    requires BLOCK_AGENT in Read(s, LastKnownGood, q.user, q.first).value
    ensures Granted(s, p, q)
  {
  }

  /** With the switch off everyone is let in, and nothing is asked or written. */
  lemma SwitchedOffLetsEveryoneIn(s: Store, p: Policy, q: Request)
    requires !p.enforced
    ensures Granted(s, p, q) && AfterGate(s, p, q) == s
  {
  }

  function Run(p: Policy, requests: seq<Request>): Store {
    if requests == [] then EMPTY
    else AfterGate(Run(p, requests[..|requests| - 1]), p, requests[|requests| - 1])
  }

  /** Both cache writes of every answer about `user` succeed. */
  predicate WritesSucceed(requests: seq<Request>, user: string) {
    forall i :: 0 <= i < |requests| && requests[i].user == user ==>
      requests[i].first.written == {Hot, LastKnownGood} && requests[i].again.written == {Hot, LastKnownGood}
  }

  lemma {:induction false} RunsKeepFaith(p: Policy, requests: seq<Request>, user: string)
    ensures Faithful(Run(p, requests), p)
    ensures WritesSucceed(requests, user) ==> AllWritten(Run(p, requests).history, user)
  {
    if requests != [] {
      var init, q := requests[..|requests| - 1], requests[|requests| - 1];
      RunsKeepFaith(p, init, user);
      var s := Run(p, init);
      ResolvingKeepsFaith(s, p, q.user, false, q.first);
      ResolvingKeepsFaith(After(s, p, q.user, false, q.first), p, q.user, true, q.again);
      assert WritesSucceed(requests, user) ==> WritesSucceed(init, user);
    }
  }

  /** The gate opens only on the latest explicit answer being a yes, or on a fallback nothing contradicts. */
  lemma GrantsAreJustified(p: Policy, requests: seq<Request>, q: Request)
    requires p.enforced && WritesSucceed(requests + [q], q.user) && Granted(Run(p, requests), p, q)
    ensures var s, t := Run(p, requests), Run(p, requests + [q]);
            || (LastAnswer(t.history, q.user).Some? && BLOCK_AGENT in LastAnswer(t.history, q.user).value)
            || (Deciding(s, p, q).source.FromFallback? && p.fallbackAllows)
  {
    assert (requests + [q])[..|requests|] == requests;
    assert forall i :: 0 <= i < |requests| ==> requests[i] == (requests + [q])[i];
    assert (requests + [q])[|requests|] == q;
    var s := Run(p, requests);
    RunsKeepFaith(p, requests, q.user);
    AnswersAreTheLatest(s, p, q.user, false, q.first);
    var s1 := After(s, p, q.user, false, q.first);
    ResolvingKeepsFaith(s, p, q.user, false, q.first);
    AnswersAreTheLatest(s1, p, q.user, true, q.again);
  }

  /** No answer about `user` in `later` beyond `earlier` is a yes. */
  predicate NoYesSince(earlier: History, later: History, user: string) {
    later == earlier ||
    (later.Answered? && (later.user == user ==> BLOCK_AGENT !in later.rights) && NoYesSince(earlier, later.prev, user))
  }

  lemma {:induction false} NoStaysNo(earlier: History, later: History, user: string)
    requires NoYesSince(earlier, later, user)
    requires LastAnswer(earlier, user).Some? && BLOCK_AGENT !in LastAnswer(earlier, user).value
    ensures LastAnswer(later, user).Some? && BLOCK_AGENT !in LastAnswer(later, user).value
  {
    if later != earlier && later.user != user { NoStaysNo(earlier, later.prev, user); }
  }

  /**
   After an explicit no, nothing grants the agent until an explicit yes, except the fallback, which is
   reached only when the backend is silent and the last-known-good copy has expired or cannot be read.
   */
  lemma StaleYesNeverOutlivesNo(p: Policy, requests: seq<Request>, q: Request, no: History)
    requires p.enforced && WritesSucceed(requests + [q], q.user) && Granted(Run(p, requests), p, q)
    requires LastAnswer(no, q.user).Some? && BLOCK_AGENT !in LastAnswer(no, q.user).value
    requires NoYesSince(no, Run(p, requests + [q]).history, q.user)
    ensures Deciding(Run(p, requests), p, q).source.FromFallback? && p.fallbackAllows
    ensures var s, look := AtDecision(Run(p, requests), p, q), DecidingLook(Run(p, requests), p, q);
            Fetched(look.reply).None? && (LastKnownGood in look.readable ==> !Live(s.lkg, q.user, look.later))
  {
    GrantsAreJustified(p, requests, q);
    NoStaysNo(no, Run(p, requests + [q]).history, q.user);
    var s := Run(p, requests);
    FallbackIsTheLastResort(AtDecision(s, p, q), p, q.user, !FirstLookGrants(s, p, q), DecidingLook(s, p, q));
  }

  /** A user who has just paid is let in at once whenever the backend can be asked. */
  lemma FreshYesIsHeardAtOnce(s: Store, p: Policy, q: Request)
    requires p.enforced && Fetched(q.again.reply).Some? && BLOCK_AGENT in Fetched(q.again.reply).value
    ensures Granted(s, p, q)
  {
  }

  /** The look that decides finds a yes in a cache or at the backend, not merely in the fallback. */
  predicate GrantedOnAnswer(s: Store, p: Policy, q: Request) {
    BLOCK_AGENT in Deciding(s, p, q).rights && !Deciding(s, p, q).source.FromFallback?
  }

  /** With the gate enforced and a denying fallback every grant is of that kind. */
  lemma GrantsRestOnAnswers(s: Store, p: Policy, q: Request)
    requires p.enforced && !p.fallbackAllows
    ensures Granted(s, p, q) <==> GrantedOnAnswer(s, p, q)
  {
  }

  /** A request at or after `now` that hears nothing from the backend. */
  predicate SilentFrom(q: Request, user: string, now: int) {
    && q.user == user && Fetched(q.first.reply).None? && Fetched(q.again.reply).None?
    && now <= q.first.now && now <= q.first.later && now <= q.again.now && now <= q.again.later
  }

  /** A tier still holds an answer that reached it and says yes. */
  predicate HoldsYes(h: History, p: Policy, tier: Tier, user: string, now: int) {
    var w := LastWritten(h, tier, user);
    w.Some? && BLOCK_AGENT in w.value.0 && now < w.value.1 + Ttl(p, tier)
  }

  lemma CachedYesIsHeld(s: Store, p: Policy, q: Request, now: int)
    requires Faithful(s, p) && SilentFrom(q, q.user, now)
    requires GrantedOnAnswer(s, p, q)
    ensures exists tier :: HoldsYes(s.history, p, tier, q.user, now)
  {
    var look := DecidingLook(s, p, q);
    assert AtDecision(s, p, q) == s;
    var tier := if Deciding(s, p, q).source.FromHot? then Hot else LastKnownGood;
    assert Read(s, tier, q.user, look).Some?;
    CachesOnlyRepeatTheBackend(s, p, tier, q.user, look);
    assert HoldsYes(s.history, p, tier, q.user, now);
  }

  /** What asks a tier alone: only it can be read, and the backend is silent. */
  function Asking(tier: Tier, user: string, now: int): Request {
    var look := Look(now, now, {tier}, {}, Unreachable);
    Request(user, look, look)
  }

  lemma HeldYesIsServed(s: Store, p: Policy, tier: Tier, user: string, now: int)
    requires Faithful(s, p) && HoldsYes(s.history, p, tier, user, now)
    ensures var q := Asking(tier, user, now);
            SilentFrom(q, user, now) && GrantedOnAnswer(s, p, q)
  {
    var q := Asking(tier, user, now);
    assert user in (if tier.Hot? then s.hot else s.lkg);
    assert Read(s, tier, user, q.first).Some?;
  }

  /**
   Exactly when a silent backend can still be outvoted by a cache: from `now` on some request is granted on a
   cached yes iff some tier holds a yes that reached it and has not expired.
   */
  lemma CachedGrantIff(s: Store, p: Policy, user: string, now: int)
    requires Faithful(s, p)
    ensures (exists q :: SilentFrom(q, user, now) && GrantedOnAnswer(s, p, q))
            <==> exists tier :: HoldsYes(s.history, p, tier, user, now)
    ensures p.enforced && !p.fallbackAllows ==>
              ((exists q :: SilentFrom(q, user, now) && Granted(s, p, q))
               <==> exists tier :: HoldsYes(s.history, p, tier, user, now))
  {
    forall q | SilentFrom(q, user, now) && GrantedOnAnswer(s, p, q)
      ensures exists tier :: HoldsYes(s.history, p, tier, user, now)
    {
      CachedYesIsHeld(s, p, q, now);
    }
    forall tier | HoldsYes(s.history, p, tier, user, now)
      ensures exists q :: SilentFrom(q, user, now) && GrantedOnAnswer(s, p, q)
    {
      HeldYesIsServed(s, p, tier, user, now);
    }
    if p.enforced && !p.fallbackAllows {
      forall q | SilentFrom(q, user, now) ensures Granted(s, p, q) <==> GrantedOnAnswer(s, p, q) {
        GrantsRestOnAnswers(s, p, q);
      }
    }
  }

  /** The latest explicit answer about `user` did not reach this tier. */
  predicate MissedLast(h: History, tier: Tier, user: string) {
    match h
    case Silent => false
    case Answered(prev, u, _, _, hotWritten, lkgWritten) =>
      if u == user then !(if tier.Hot? then hotWritten else lkgWritten) else MissedLast(prev, tier, user)
  }

  lemma {:induction false} LastReachedUnlessMissed(h: History, tier: Tier, user: string)
    requires LastAnswer(h, user).Some? && !MissedLast(h, tier, user)
    ensures LastWritten(h, tier, user).Some? && LastWritten(h, tier, user).value.0 == LastAnswer(h, user).value
  {
    if h.user != user { LastReachedUnlessMissed(h.prev, tier, user); }
  }

  /**
   A stale yes outlives a real no exactly so: after any run whose latest answer about the user is a no, a cached
   yes can still be granted from `now` on iff the no missed a tier in which an earlier yes has not expired.
   */
  lemma StaleYesOutlivesNoIff(p: Policy, requests: seq<Request>, user: string, now: int)
    requires LastAnswer(Run(p, requests).history, user).Some?
    requires BLOCK_AGENT !in LastAnswer(Run(p, requests).history, user).value
    ensures var s := Run(p, requests);
            (exists q :: SilentFrom(q, user, now) && GrantedOnAnswer(s, p, q))
            <==> exists tier :: MissedLast(s.history, tier, user) && HoldsYes(s.history, p, tier, user, now)
  {
    var s := Run(p, requests);
    RunsKeepFaith(p, requests, user);
    CachedGrantIff(s, p, user, now);
    forall tier | HoldsYes(s.history, p, tier, user, now) ensures MissedLast(s.history, tier, user) {
      if !MissedLast(s.history, tier, user) { LastReachedUnlessMissed(s.history, tier, user); }
    }
  }

  /** One such run: a yes, a no whose long-lived overwrite fails, and a silent backend once the hot entry is gone. */
  lemma LostOverwriteOutlivesNo(p: Policy)
    requires p.enforced && !p.fallbackAllows && p.hotTtl == 300 && p.lkgTtl == 604800
    ensures var yes := Look(0, 0, {}, {Hot, LastKnownGood}, Response(200, Data(Some({BLOCK_AGENT}))));
            var no := Look(400, 400, {Hot, LastKnownGood}, {Hot}, Response(200, Data(None)));
            var down := Look(800, 800, {Hot, LastKnownGood}, {Hot, LastKnownGood}, Unreachable);
            var s := After(After(EMPTY, p, "u", false, yes), p, "u", false, no);
            && LastAnswer(s.history, "u") == Some({}) && Granted(s, p, Request("u", down, down))
  {
    var yes := Look(0, 0, {}, {Hot, LastKnownGood}, Response(200, Data(Some({BLOCK_AGENT}))));
    var s := After(EMPTY, p, "u", false, yes);
    assert s.hot == map["u" := Entry(300, {BLOCK_AGENT})] && s.lkg == map["u" := Entry(604800, {BLOCK_AGENT})];
  }

  // ----- the code ----------------------------------------------------------------------------------

  class Resolver {
    const policy: Policy
    var hot: map<string, Entry>
    var lkg: map<string, Entry>
    ghost var history: History

    ghost function State(): Store
      reads this
    {
      Store(hot, lkg, history)
    }

    constructor (p: Policy)
      ensures policy == p && State() == EMPTY
    {
      policy, hot, lkg, history := p, map[], map[], Silent;
    }

    method CacheRead(tier: Tier, user: string, look: Look) returns (r: Option<Rights>)
      ensures r == Read(State(), tier, user, look)
    {
      if tier !in look.readable { return None; }
      var entries := if tier.Hot? then hot else lkg;
      if user !in entries || entries[user].expires <= ReadAt(tier, look) { return None; }
      return Some(entries[user].rights);
    }

    method CacheWrite(user: string, rights: Rights, look: Look)
      modifies this
      ensures State() == Written(old(State()), policy, user, rights, look)
    {
      if Hot in look.written { hot := hot[user := Entry(look.later + policy.hotTtl, rights)]; }
      if LastKnownGood in look.written { lkg := lkg[user := Entry(look.later + policy.lkgTtl, rights)]; }
      history := Answered(history, user, rights, look.later, Hot in look.written, LastKnownGood in look.written);
    }

    method GetEntitlements(user: string, refresh: bool, look: Look) returns (r: Rights, ghost source: Source)
      modifies this
      ensures State() == After(old(State()), policy, user, refresh, look)
      ensures Resolution(r, source) == Resolve(old(State()), policy, user, refresh, look)
    {
      if !refresh {
        var cached := CacheRead(Hot, user, look);
        if cached.Some? { return cached.value, FromHot; }
      }
      var fetched := Fetched(look.reply);
      if fetched.Some? {
        CacheWrite(user, fetched.value, look);
        return fetched.value, FromBackend;
      }
      var good := CacheRead(LastKnownGood, user, look);
      if good.Some? { return good.value, FromLastKnownGood; }
      return if policy.fallbackAllows then {BLOCK_AGENT} else {}, FromFallback;
    }

    method MayRunBlockAgents(q: Request) returns (granted: bool)
      modifies this
      ensures State() == AfterGate(old(State()), policy, q)
      ensures granted == Granted(old(State()), policy, q)
    {
      if !policy.enforced { return true; }
      var rights, source := GetEntitlements(q.user, false, q.first);
      if BLOCK_AGENT in rights { return true; }
      rights, source := GetEntitlements(q.user, true, q.again);
      return BLOCK_AGENT in rights;
    }
  }
}
