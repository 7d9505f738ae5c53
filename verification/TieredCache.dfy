/** The session cache in front of the replicated exact cache, with its counters. */
module TieredCache {
  import opened Wrappers
  import opened CacheMember
  import opened CachePool
  import Faults = CacheFaults
  import L1 = SessionCache
  import L2 = ExactCache

  datatype Tier = First | Second
  datatype Found = Found(value: Value, tier: Tier)

  /** Both tiers as values. */
  datatype Tiers = Tiers(store: map<Key, L1.L1Entry>, pool: Pool)

  /** The value a lookup answers with comes from an entry with these dependencies: a live session entry, or one all members agree on. */
  ghost predicate AnswersFrom(t: Tiers, key: Key, now: int, net: Network, value: Value, deps: seq<Hash>) {
    if L1.Live(t.store, key, now) then t.store[key].value == value && t.store[key].deps == deps
    else Faults.Consensus(t.pool, key, now, net, value, deps)
  }

  /** What a lookup does to both tiers, and what it answers; `ttl` is the session's own default. */
  function Looked(t: Tiers, o: Options, ttl: int, key: Key, now: int, net: Network, cleanup: Network, removal: Network)
    : (r: (Tiers, Outcome<Option<Found>>))
    requires |t.pool.members| > 0
    ensures |r.0.pool.members| == |t.pool.members|
  {
    if L1.Live(t.store, key, now) then (t, Done(Some(Found(t.store[key].value, First))))
    else
      var store := t.store - {key};
      var (pool, answer) := Lookup(t.pool, o, key, now, net, cleanup);
      match answer
      case Unavailable => (Tiers(store, pool), Unavailable)
      case Done(Miss) => (Tiers(store, pool), Done(None))
      case Done(StaleEverywhere) =>
        (Tiers(store, Broadcast(pool, o, Deletes(pool, key), removal, now)),
         WriteOutcome(pool, o, Deletes(pool, key), removal, now, None))
      case Done(Hit(value, deps)) =>
        (Tiers(store[key := L1.L1Entry(value, deps, now + ttl)], pool), Done(Some(Found(value, Second))))
  }

  class TieredContextCache {
    const l1: L1.L1SessionCache
    const l2: L2.RedisExactCache
    var l1Hits: nat
    var l2Hits: nat
    var misses: nat
    var stale: nat
    var writes: nat
    var invalidations: nat

    constructor (l1: L1.L1SessionCache, l2: L2.RedisExactCache)
      ensures this.l1 == l1 && this.l2 == l2 && Lookups() == 0 && stale == 0 && writes == 0 && invalidations == 0
    {
      this.l1, this.l2 := l1, l2;
      l1Hits, l2Hits, misses, stale, writes, invalidations := 0, 0, 0, 0, 0, 0;
    }

    function Lookups(): nat
      reads this
    {
      l1Hits + l2Hits + misses
    }

    function View(): Tiers
      reads l1, l2
    {
      Tiers(l1.store, l2.View())
    }

    /**
      Both tiers move, and the answer is, as Looked says; every completed lookup is counted once, as a
      hit of its tier or as a miss, and stale answers of the replicas are counted beside.
     */
    method Get(key: Key, now: int, net: Network, cleanup: Network, removal: Network) returns (r: Outcome<Option<Found>>)
      requires l2.Valid()
      modifies this, l1, l2
      ensures l2.Valid()
      ensures (View(), r) == Looked(old(View()), l2.options, l1.defaultTtl, key, now, net, cleanup, removal)
      ensures r.Done? ==> Lookups() == old(Lookups()) + 1
      ensures r.Done? ==> misses == old(misses) + (if r.value.None? then 1 else 0)
      ensures r.Done? ==> l1Hits == old(l1Hits) + (if r.value.Some? && r.value.value.tier == First then 1 else 0)
      ensures stale == old(stale) + if !L1.Live(old(l1.store), key, now)
                                       && Lookup(old(l2.View()), l2.options, key, now, net, cleanup).1 == Done(StaleEverywhere) then 1 else 0
      ensures writes == old(writes)
    {
      hide Lookup, Broadcast, Deletes;
      var first := l1.Get(key, now);
      if first.Some? {
        l1Hits := l1Hits + 1;
        return Done(Some(Found(first.value, First)));
      }
      var second := l2.Get(key, now, net, cleanup);
      if second.Unavailable? { return Unavailable; }
      match second.value {
        case Miss =>
          misses := misses + 1;
          return Done(None);
        case StaleEverywhere =>
          stale := stale + 1;
          assert l1.store - {key} == l1.store;
          var removed := RemoveStale(key, now, removal);
          if removed.Unavailable? { return Unavailable; }
          misses := misses + 1;
          return Done(None);
        case Hit(value, deps) =>
          l2Hits := l2Hits + 1;
          l1.Set(key, value, deps, None, now);
          return Done(Some(Found(value, Second)));
      }
    }

    /** The delete that follows a stale answer. */
    method RemoveStale(key: Key, now: int, removal: Network) returns (r: Outcome<()>)
      requires l2.Valid()
      modifies this`invalidations, l1, l2
      ensures l2.Valid() && l1.store == old(l1.store) - {key}
      ensures l2.View() == Broadcast(old(l2.View()), l2.options, Deletes(old(l2.View()), key), removal, now)
      ensures r == WriteOutcome(old(l2.View()), l2.options, Deletes(old(l2.View()), key), removal, now, ())
    {
      hide Broadcast, Deletes, WriteOutcome;
      r := Remove(key, now, removal);
    }

    /** The replicas first: when they refuse, the session does not keep the value either. */
    method Set(key: Key, value: Value, deps: seq<Hash>, ttl: Option<int>, now: int, net: Network) returns (r: Outcome<()>)
      requires l2.Valid()
      modifies this, l1, l2
      ensures l2.Valid()
      ensures View() == Kept(old(View()), l2.options, l1.defaultTtl, key, value, deps, ttl, now, net)
      ensures r.Unavailable? ==> l1.store == old(l1.store) && writes == old(writes)
      ensures r.Done? ==> writes == old(writes) + 1
                          && l1.store == old(l1.store)[key := L1.L1Entry(value, deps, now + if ttl.Some? then ttl.value else l1.defaultTtl)]
    {
      var stored := l2.Set(key, value, deps, if ttl.Some? then ttl.value else 0, now, net);
      if stored.Unavailable? { return Unavailable; }
      l1.Set(key, value, deps, ttl, now);
      writes := writes + 1;
      return Done(());
    }

    method Remove(key: Key, now: int, net: Network) returns (r: Outcome<()>)
      requires l2.Valid()
      modifies this`invalidations, l1, l2
      ensures l2.Valid() && l2.View() == Next(old(l2.View()), l2.options, Delete(key, now, net))
      ensures l1.store == old(l1.store) - {key}
      ensures r == WriteOutcome(old(l2.View()), l2.options, Deletes(old(l2.View()), key), net, now, ())
      ensures r.Done? ==> invalidations == old(invalidations) + (if key in old(l1.store) then 1 else 0)
                                           + (if SomeRemoved(old(l2.View()), key, net, now) then 1 else 0)
    {
      var first := l1.Remove(key);
      var second := l2.Remove(key, now, net);
      if second.Unavailable? { return Unavailable; }
      invalidations := invalidations + (if first then 1 else 0) + (if second.value then 1 else 0);
      return Done(());
    }

    method InvalidateHash(dep: Hash, now: int, net: Network) returns (r: Outcome<nat>, replies: seq<seq<Key>>)
      requires l2.Valid()
      modifies this`invalidations, l1, l2
      ensures l2.Valid() && Replies(old(l2.View()), dep, replies)
      ensures l2.View() == Next(old(l2.View()), l2.options, Invalidate(dep, replies, now, net))
      ensures l1.store == L1.Without(old(l1.store), dep)
      ensures r.Done? ==> invalidations == old(invalidations) + r.value
      ensures r.Done? ==> r.value == |old(l1.store)| - |l1.store|
                                     + MostRemoved(old(l2.View()), dep, replies, net, now, |old(l2.View()).members|)
    {
      var first := l1.InvalidateHash(dep);
      var second;
      second, replies := l2.InvalidateHash(dep, now, net);
      if second.Unavailable? { return Unavailable, replies; }
      invalidations := invalidations + first + second.value;
      return Done(first + second.value), replies;
    }
  }

  /** What a set does to both tiers. */
  ghost function Kept(t: Tiers, o: Options, defaultTtl: int, key: Key, value: Value, deps: seq<Hash>, ttl: Option<int>, now: int, net: Network)
    : (r: Tiers)
    requires |t.pool.members| > 0
    ensures |r.pool.members| == |t.pool.members|
  {
    var a := Store(key, value, deps, if ttl.Some? then ttl.value else 0, now, net);
    var lists := ToAll(t.pool, SetCommands(key, Entry(value, deps, a.ttl, now)));
    Tiers(if WriteOutcome(t.pool, o, lists, net, now, ()).Unavailable? then t.store
          else t.store[key := L1.L1Entry(value, deps, now + if ttl.Some? then ttl.value else defaultTtl)],
          Next(t.pool, o, a))
  }

  // ---------------------------------------------------------------- what a lookup answers

  /** A lookup answers exactly when a live session entry or the consensus of all members gives the value. */
  lemma AnsweredIff(t: Tiers, o: Options, ttl: int, key: Key, now: int, net: Network, cleanup: Network, removal: Network, value: Value)
    requires |t.pool.members| > 0
    ensures var r := Looked(t, o, ttl, key, now, net, cleanup, removal).1;
            (r.Done? && r.value.Some? && r.value.value.value == value) <==> exists deps :: AnswersFrom(t, key, now, net, value, deps)
  {
    if L1.Live(t.store, key, now) {
      assert AnswersFrom(t, key, now, net, t.store[key].value, t.store[key].deps);
    } else {
      forall v, deps
        ensures Lookup(t.pool, o, key, now, net, cleanup).1 == Done(Hit(v, deps)) <==> AnswersFrom(t, key, now, net, v, deps)
      {
        Faults.HitIffConsensus(t.pool, o, key, now, net, cleanup, v, deps);
      }
      var answer := Lookup(t.pool, o, key, now, net, cleanup).1;
      if answer.Done? && answer.value.Hit? { assert AnswersFrom(t, key, now, net, answer.value.value, answer.value.deps); }
    }
  }
}
