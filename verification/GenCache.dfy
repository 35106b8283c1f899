/** The bounded time-to-live cache for generated tool code (app/modules/blocks/router.py). */
module GenCache {
  import opened Common

  const TTL := 3600
  const MAX: nat := 256

  datatype Entry = Entry(at: int, value: string)

  /** Every put so far, newest last. */
  datatype Puts = Never | Then(prev: Puts, key: string, entry: Entry)

  function LastPut(h: Puts, key: string): Option<Entry> {
    match h
    case Never => None
    case Then(prev, k, e) => if k == key then Some(e) else LastPut(prev, key)
  }

  /** The distinct other keys put since `key` itself was last put. */
  function OthersSince(h: Puts, key: string): set<string> {
    match h
    case Never => {}
    case Then(prev, k, _) => if k == key then {} else OthersSince(prev, key) + {k}
  }

  /** The distinct other keys put at `from` or later. */
  function OthersFrom(h: Puts, key: string, from: int): set<string> {
    match h
    case Never => {}
    case Then(prev, k, e) => OthersFrom(prev, key, from) + if k != key && e.at >= from then {k} else {}
  }

  /** Puts happened in order of time, none after `now`. */
  predicate Ordered(h: Puts, now: int) {
    h.Then? ==> h.entry.at <= now && Ordered(h.prev, h.entry.at)
  }

  /** No two puts share an instant. */
  predicate Strict(h: Puts) {
    h.Then? ==> Strict(h.prev) && Ordered(h.prev, h.entry.at - 1)
  }

  lemma {:induction false} OthersAreEarlier(h: Puts, key: string, from: int, now: int)
    requires Ordered(h, now) && now < from
    ensures OthersFrom(h, key, from) == {}
  {
    if h.Then? { OthersAreEarlier(h.prev, key, from, h.entry.at); }
  }

  lemma {:induction false} LastPutIsPast(h: Puts, key: string, now: int)
    requires Ordered(h, now) && LastPut(h, key).Some?
    ensures LastPut(h, key).value.at <= now
  {
    if h.key != key { LastPutIsPast(h.prev, key, h.entry.at); }
  }

  /** On a strictly increasing clock, "at that instant or later" is "since". */
  lemma {:induction false} StrictClockMeansSince(h: Puts, key: string, now: int)
    requires Ordered(h, now) && Strict(h) && LastPut(h, key).Some?
    ensures OthersFrom(h, key, LastPut(h, key).value.at) == OthersSince(h, key)
  {
    if h.key == key {
      OthersAreEarlier(h.prev, key, h.entry.at, h.entry.at - 1);
    } else {
      StrictClockMeansSince(h.prev, key, h.entry.at);
      LastPutIsPast(h.prev, key, h.entry.at);
    }
  }

  /** A key whose own last put is no older counts among the others. */
  lemma {:induction false} LaterPutsAreOthers(h: Puts, key: string, other: string, from: int)
    requires key != other && LastPut(h, other).Some? && LastPut(h, other).value.at >= from
    ensures other in OthersFrom(h, key, from)
  {
    if h.key != other { LaterPutsAreOthers(h.prev, key, other, from); }
  }

  lemma {:induction false} SubsetIsSmaller(a: set<string>, b: set<string>)
    requires a <= b
    ensures |a| <= |b|
  {
    if a != {} {
      var x :| x in a;
      SubsetIsSmaller(a - {x}, b - {x});
    }
  }

  /** The cache holds a key exactly as last put, or has a reason not to. */
  ghost predicate Explained(cache: map<string, Entry>, h: Puts, now: int, key: string) {
    match LastPut(h, key)
    case None => key !in cache
    case Some(e) => if key in cache then cache[key] == e else now - e.at > TTL || |OthersFrom(h, key, e.at)| >= MAX
  }

  ghost predicate Refines(cache: map<string, Entry>, h: Puts, now: int) {
    |cache| <= MAX && Ordered(h, now) && forall key :: Explained(cache, h, now, key)
  }

  /** Evicting the oldest entry of a full cache: 256 distinct others are no older, counting the new one. */
  lemma EvictionIsExplained(cache: map<string, Entry>, h: Puts, now: int, key: string, oldest: string, e: Entry)
    requires Refines(cache, h, now) && |cache| >= MAX && key !in cache && now <= e.at
    requires oldest in cache && forall k :: k in cache ==> cache[oldest].at <= cache[k].at
    ensures LastPut(h, oldest) == Some(cache[oldest])
    ensures |OthersFrom(Then(h, key, e), oldest, cache[oldest].at)| >= MAX
  {
    var others, from := cache.Keys - {oldest}, cache[oldest].at;
    assert Explained(cache, h, now, oldest);
    forall k | k in others ensures k in OthersFrom(h, oldest, from) {
      assert Explained(cache, h, now, k);
      LaterPutsAreOthers(h, oldest, k, from);
    }
    LastPutIsPast(h, oldest, now);
    var since := OthersFrom(Then(h, key, e), oldest, from);
    assert others + {key} <= since;
    SubsetIsSmaller(others + {key}, since);
    assert |cache.Keys| == |cache|;
  }

  lemma PutStaysExplained(cache: map<string, Entry>, h: Puts, now: int, key: string, e: Entry, k: string,
                          gone: set<string>)
    requires Refines(cache, h, now) && now <= e.at && k != key
    requires k in gone ==> LastPut(h, k).Some? && |OthersFrom(Then(h, key, e), k, LastPut(h, k).value.at)| >= MAX
    ensures Explained((cache - gone)[key := e], Then(h, key, e), e.at, k)
  {
    assert Explained(cache, h, now, k);
    if LastPut(h, k).Some? {
      var from := LastPut(h, k).value.at;
      SubsetIsSmaller(OthersFrom(h, k, from), OthersFrom(Then(h, key, e), k, from));
    }
  }

  lemma SizeWithout(m: map<string, Entry>, key: string)
    requires key in m
    ensures |m - {key}| == |m| - 1
  {
    assert (m - {key}).Keys == m.Keys - {key};
  }

  lemma SizeWith(m: map<string, Entry>, key: string, e: Entry)
    ensures |m[key := e]| == if key in m then |m| else |m| + 1
  {
    assert m[key := e].Keys == m.Keys + {key};
    if key in m { assert m[key := e].Keys == m.Keys; }
  }

  class Cache {
    var entries: map<string, Entry>
    ghost var puts: Puts
    ghost var clock: int

    ghost predicate Valid()
      reads this
    {
      Refines(entries, puts, clock)
    }

    constructor ()
      ensures Valid() && puts == Never
    {
      entries, puts, clock := map[], Never, 0;
    }

    /** A hit is the value of the key's latest put, no older than the TTL; a miss has one of three reasons. */
    method Get(key: string, now: int) returns (r: Option<string>)
      requires Valid() && clock <= now
      modifies this`entries, this`clock
      ensures Valid() && clock == now
      ensures r.Some? ==> LastPut(puts, key).Some? && LastPut(puts, key).value.value == r.value
      ensures r.Some? ==> now - LastPut(puts, key).value.at <= TTL
      ensures r.None? && LastPut(puts, key).Some? ==>
                now - LastPut(puts, key).value.at > TTL
                || |OthersFrom(puts, key, LastPut(puts, key).value.at)| >= MAX
      ensures old(key in entries && now - entries[key].at <= TTL) ==> r.Some?
    {
      assert Explained(entries, puts, clock, key);
      ghost var before := clock;
      clock := now;
      OrderedLater(puts, before, now);
      assert forall k :: Explained(entries, puts, before, k) ==> Explained(entries, puts, now, k);
      if key !in entries { return None; }
      var e := entries[key];
      if now - e.at > TTL {
        entries := entries - {key};
        assert forall k :: Explained(old(entries), puts, now, k) ==> Explained(entries, puts, now, k);
        return None;
      }
      return Some(e.value);
    }

    /** `min` over the entries by time. */
    method Oldest() returns (oldest: string)
      requires entries != map[]
      ensures oldest in entries && forall k :: k in entries ==> entries[oldest].at <= entries[k].at
    {
      oldest :| oldest in entries;
      var rest := entries.Keys - {oldest};
      while rest != {}
        invariant rest <= entries.Keys && oldest in entries
        invariant forall k :: k in entries && k !in rest ==> entries[oldest].at <= entries[k].at
        decreases rest
      {
        var k :| k in rest;
        if entries[k].at < entries[oldest].at { oldest := k; }
        rest := rest - {k};
      }
    }

    method Put(key: string, value: string, now: int)
      requires Valid() && clock <= now
      modifies this
      ensures Valid() && clock == now && puts == Then(old(puts), key, Entry(now, value))
      ensures key in entries && entries[key] == Entry(now, value)
    {
      ghost var gone: set<string> := {};
      ghost var e := Entry(now, value);
      if |entries| >= MAX && key !in entries {
        var oldest := Oldest();
        EvictionIsExplained(entries, puts, clock, key, oldest, e);
        gone := {oldest};
        entries := entries - {oldest};
        SizeWithout(old(entries), oldest);
      }
      assert entries == old(entries) - gone;
      ghost var next, history := entries[key := e], Then(puts, key, e);
      forall k | k != key ensures Explained(next, history, now, k) {
        PutStaysExplained(old(entries), puts, clock, key, e, k, gone);
      }
      OrderedLater(puts, clock, now);
      entries := entries[key := Entry(now, value)];
      puts, clock := Then(puts, key, e), now;
      SizeWith(old(entries) - gone, key, e);
      assert Explained(entries, puts, clock, key);
    }
  }

  lemma OrderedLater(h: Puts, now: int, later: int)
    requires Ordered(h, now) && now <= later
    ensures Ordered(h, later)
  {
  }
}
