/** Runs of both cache tiers under any faults: what an update of a hash or the loss of a key rules out for good. */
module TieredRuns {
  import opened Wrappers
  import opened CacheMember
  import opened CachePool
  import opened TieredCache
  import Faults = CacheFaults
  import L1 = SessionCache

  /** The operations of the tiered cache, and anything any other client or server does to the replicas. */
  datatype TierAction =
    | Find(key: Key, now: int, net: Network, cleanup: Network, removal: Network)
    | Put(key: Key, value: Value, deps: seq<Hash>, ttl: Option<int>, now: int, net: Network)
    | Drop(key: Key, now: int, net: Network)
    | Forget(dep: Hash, replies: seq<seq<Key>>, now: int, net: Network)
    | Elsewhere(action: Action)

  ghost function TierNext(t: Tiers, o: Options, ttl: int, a: TierAction): (r: Tiers)
    requires |t.pool.members| > 0
    ensures |r.pool.members| == |t.pool.members|
  {
    match a
    case Find(key, now, net, cleanup, removal) => Looked(t, o, ttl, key, now, net, cleanup, removal).0
    case Put(key, value, deps, ttl', now, net) => Kept(t, o, ttl, key, value, deps, ttl', now, net)
    case Drop(key, now, net) => Tiers(t.store - {key}, Next(t.pool, o, Delete(key, now, net)))
    case Forget(dep, replies, now, net) => Tiers(L1.Without(t.store, dep), Next(t.pool, o, Invalidate(dep, replies, now, net)))
    case Elsewhere(action) => t.(pool := Next(t.pool, o, action))
  }

  ghost function TierRun(t: Tiers, o: Options, ttl: int, acts: seq<TierAction>): (r: Tiers)
    requires |t.pool.members| > 0
    ensures |r.pool.members| == |t.pool.members|
    decreases |acts|
  {
    if acts == [] then t else TierRun(TierNext(t, o, ttl, acts[0]), o, ttl, acts[1..])
  }

  /** No session entry depends on the hash, and one member redirects it. */
  ghost predicate Retired(t: Tiers, h: Hash, i: nat) {
    && i < |t.pool.members| && Redirects(t.pool.members[i], h)
    && forall k :: k in t.store ==> h !in t.store[k].deps
  }

  /** The action neither builds anything new on the hash nor declares it current again. */
  predicate LeavesRetired(a: TierAction, h: Hash) {
    && (a.Put? ==> h !in a.deps)
    && !(a.Elsewhere? && a.action.Redirect? && a.action.from == h && a.action.to == h)
  }

  lemma RedirectedIsNoConsensus(p: Pool, i: nat, h: Hash, key: Key, now: int, net: Network, value: Value, deps: seq<Hash>)
    requires i < |p.members| && Redirects(p.members[i], h)
    ensures Faults.Consensus(p, key, now, net, value, deps) ==> h !in deps
  {
    if Faults.Consensus(p, key, now, net, value, deps) { assert Servable(p.members[i], key, now); }
  }

  lemma RetiredIsNotAnswered(t: Tiers, h: Hash, i: nat, key: Key, now: int, net: Network, value: Value, deps: seq<Hash>)
    requires Retired(t, h, i) && AnswersFrom(t, key, now, net, value, deps)
    ensures h !in deps
  {
    RedirectedIsNoConsensus(t.pool, i, h, key, now, net, value, deps);
  }

  lemma LookupKeepsRetired(t: Tiers, o: Options, ttl: int, key: Key, now: int, net: Network, cleanup: Network, removal: Network, h: Hash, i: nat)
    requires Retired(t, h, i)
    ensures Retired(Looked(t, o, ttl, key, now, net, cleanup, removal).0, h, i)
  {
    if !L1.Live(t.store, key, now) {
      var (pool, answer) := Lookup(t.pool, o, key, now, net, cleanup);
      Faults.NextKeepsRedirect(t.pool, o, CachePool.Find(key, now, net, cleanup), i, h);
      Faults.DeletesKeepRedirect(pool, o, key, removal, now, i, h);
      if answer.Done? && answer.value.Hit? {
        Faults.HitIffConsensus(t.pool, o, key, now, net, cleanup, answer.value.value, answer.value.deps);
        assert AnswersFrom(t, key, now, net, answer.value.value, answer.value.deps);
        RetiredIsNotAnswered(t, h, i, key, now, net, answer.value.value, answer.value.deps);
      }
    }
  }

  lemma StepKeepsRetired(t: Tiers, o: Options, ttl: int, a: TierAction, h: Hash, i: nat)
    requires Retired(t, h, i) && LeavesRetired(a, h)
    ensures Retired(TierNext(t, o, ttl, a), h, i)
  {
    match a {
      case Find(key, now, net, cleanup, removal) => LookupKeepsRetired(t, o, ttl, key, now, net, cleanup, removal, h, i);
      case Put(key, value, deps, ttl', now, net) =>
        Faults.NextKeepsRedirect(t.pool, o, Store(key, value, deps, if ttl'.Some? then ttl'.value else 0, now, net), i, h);
      case Drop(key, now, net) => Faults.NextKeepsRedirect(t.pool, o, Delete(key, now, net), i, h);
      case Forget(dep, replies, now, net) => Faults.NextKeepsRedirect(t.pool, o, Invalidate(dep, replies, now, net), i, h);
      case Elsewhere(action) => Faults.NextKeepsRedirect(t.pool, o, action, i, h);
    }
  }

  lemma {:induction false} RunKeepsRetired(t: Tiers, o: Options, ttl: int, acts: seq<TierAction>, h: Hash, i: nat)
    requires Retired(t, h, i) && forall a :: a in acts ==> LeavesRetired(a, h)
    ensures Retired(TierRun(t, o, ttl, acts), h, i)
    decreases |acts|
  {
    if acts != [] {
      assert acts[0] in acts;
      StepKeepsRetired(t, o, ttl, acts[0], h, i);
      forall a | a in acts[1..] ensures LeavesRetired(a, h) { assert a in acts; }
      RunKeepsRetired(TierNext(t, o, ttl, acts[0]), o, ttl, acts[1..], h, i);
    }
  }

  /**
    Once the session is clear of a hash and one member redirects it, then whatever fails or recovers and
    whatever other clients do, no tier answers from anything that depends on it, until something is put
    that names it or it is redirected to itself.
   */
  lemma RetiredHashIsNeverServed(t: Tiers, o: Options, ttl: int, acts: seq<TierAction>, h: Hash, i: nat,
                                 key: Key, now: int, net: Network, value: Value, deps: seq<Hash>)
    requires Retired(t, h, i) && forall a :: a in acts ==> LeavesRetired(a, h)
    requires AnswersFrom(TierRun(t, o, ttl, acts), key, now, net, value, deps)
    ensures h !in deps
  {
    RunKeepsRetired(t, o, ttl, acts, h, i);
    RetiredIsNotAnswered(TierRun(t, o, ttl, acts), h, i, key, now, net, value, deps);
  }

  // ---------------------------------------------------------------- late sets

  /**
    A set that still names a retired hash: no lookup of the replicas gives it, but the session does,
    exactly when the set went through and its time to live has not passed.
   */
  lemma LateSetIsAnsweredIff(t: Tiers, o: Options, defaultTtl: int, h: Hash, i: nat, key: Key, value: Value, deps: seq<Hash>,
                             ttl: Option<int>, now: int, net: Network, later: int, reading: Network)
    requires Retired(t, h, i) && h in deps
    ensures var lists := ToAll(t.pool, SetCommands(key, Entry(value, deps, if ttl.Some? then ttl.value else 0, now)));
            AnswersFrom(TierNext(t, o, defaultTtl, Put(key, value, deps, ttl, now, net)), key, later, reading, value, deps)
            <==> WriteOutcome(t.pool, o, lists, net, now, ()).Done? && later < now + if ttl.Some? then ttl.value else defaultTtl
  {
    var a := Store(key, value, deps, if ttl.Some? then ttl.value else 0, now, net);
    var t' := TierNext(t, o, defaultTtl, Put(key, value, deps, ttl, now, net));
    Faults.NextKeepsRedirect(t.pool, o, a, i, h);
    assert t'.pool == Next(t.pool, o, a);
    RedirectedIsNoConsensus(t'.pool, i, h, key, later, reading, value, deps);
  }

  // ---------------------------------------------------------------- keys that are gone

  /** The session has lost the key, and so has one member. */
  ghost predicate Gone(t: Tiers, key: Key, i: nat) {
    i < |t.pool.members| && key !in t.store && key !in t.pool.members[i].entries
  }

  predicate NeverSets(a: TierAction, key: Key) {
    !(a.Put? && a.key == key) && !(a.Elsewhere? && a.action.Store? && a.action.key == key)
  }

  ghost predicate WithoutSet(cs: seq<Command>, key: Key) {
    forall c :: c in cs && c.Set? ==> c.key != key
  }

  lemma {:induction false} AppliedKeepsAbsent(m: Member, cs: seq<Command>, key: Key)
    requires WithoutSet(cs, key) && key !in m.entries
    ensures key !in Applied(m, cs).entries
    decreases |cs|
  {
    if cs != [] {
      assert cs[0] in cs;
      AppliedKeepsAbsent(Exec(m, cs[0]), cs[1..], key);
    }
  }

  lemma BroadcastKeepsAbsent(p: Pool, o: Options, lists: seq<seq<Command>>, net: Network, now: int, i: nat, key: Key)
    requires |lists| == |p.members| && i < |p.members| && key !in p.members[i].entries && WithoutSet(lists[i], key)
    ensures key !in Broadcast(p, o, lists, net, now).members[i].entries
  {
    if !Open(p, i, now) {
      var cs := lists[i][..Took(lists[i], ReachOf(net, i))];
      forall c | c in cs ensures c in lists[i] { }
      AppliedKeepsAbsent(p.members[i], cs, key);
    }
  }

  lemma {:induction false} DepCommandsSetNothing(owner: Key, deps: seq<Hash>, key: Key)
    ensures WithoutSet(DepCommands(owner, deps), key)
    decreases |deps|
  {
    if deps != [] { DepCommandsSetNothing(owner, deps[1..], key); }
  }

  lemma {:induction false} RemCommandsSetNothing(owner: Key, deps: seq<Hash>, key: Key)
    ensures WithoutSet(RemCommands(owner, deps), key)
    decreases |deps|
  {
    if deps != [] { RemCommandsSetNothing(owner, deps[1..], key); }
  }

  lemma {:induction false} DelCommandsSetNothing(keys: seq<Key>, key: Key)
    ensures WithoutSet(DelCommands(keys), key)
    decreases |keys|
  {
    if keys != [] { DelCommandsSetNothing(keys[1..], key); }
  }

  lemma DeletesKeepAbsent(p: Pool, o: Options, dropped: Key, net: Network, now: int, i: nat, key: Key)
    requires i < |p.members| && key !in p.members[i].entries
    ensures key !in Broadcast(p, o, Deletes(p, dropped), net, now).members[i].entries
  {
    RemCommandsSetNothing(dropped, DepsOf(p.members[i], dropped), key);
    BroadcastKeepsAbsent(p, o, Deletes(p, dropped), net, now, i, key);
  }

  /** Only a store under the key brings its entry back to a member. */
  lemma NextKeepsAbsent(p: Pool, o: Options, a: Action, i: nat, key: Key)
    requires i < |p.members| && key !in p.members[i].entries && !(a.Store? && a.key == key)
    ensures key !in Next(p, o, a).members[i].entries
  {
    hide Broadcast, Deletes, DepCommands, Invalidations;
    match a {
      case Find(k, now, net, cleanup) =>
        DeletesKeepAbsent(p.(until := Circuits(p, o, Reads(p, k, now), net, now)), o, k, cleanup, now, i, key);
      case Store(k, value, deps, ttl, now, net) =>
        DepCommandsSetNothing(k, Entry(value, deps, ttl, now).deps, key);
        BroadcastKeepsAbsent(p, o, ToAll(p, SetCommands(k, Entry(value, deps, ttl, now))), net, now, i, key);
      case Delete(k, now, net) => DeletesKeepAbsent(p, o, k, net, now, i, key);
      case Invalidate(h, replies, now, net) =>
        if Replies(p, h, replies) {
          DelCommandsSetNothing(replies[i], key);
          BroadcastKeepsAbsent(p, o, Invalidations(p, h, replies), net, now, i, key);
        }
      case Redirect(from, to, now, net) => BroadcastKeepsAbsent(p, o, ToAll(p, [HSet(from, to)]), net, now, i, key);
      case Record(path, hash, now, net) => BroadcastKeepsAbsent(p, o, ToAll(p, [HSetFile(path, hash)]), net, now, i, key);
      case Ask(path, now, net) =>
      case Evict(j, k, now) =>
    }
  }

  /** A key that is gone misses, and the miss keeps it gone. */
  lemma GoneMisses(t: Tiers, o: Options, ttl: int, key: Key, i: nat, asked: Key, now: int, net: Network, cleanup: Network, removal: Network)
    requires Gone(t, key, i)
    ensures var (t', r) := Looked(t, o, ttl, asked, now, net, cleanup, removal);
            Gone(t', key, i) && (asked == key && r.Done? ==> r.value == None)
  {
    if !L1.Live(t.store, asked, now) {
      hide Lookup, Broadcast, Deletes;
      var (pool, answer) := Lookup(t.pool, o, asked, now, net, cleanup);
      NextKeepsAbsent(t.pool, o, CachePool.Find(asked, now, net, cleanup), i, key);
      DeletesKeepAbsent(pool, o, asked, removal, now, i, key);
      if answer.Done? && answer.value.Hit? {
        Faults.HitIffConsensus(t.pool, o, asked, now, net, cleanup, answer.value.value, answer.value.deps);
        assert Servable(t.pool.members[i], asked, now);
      }
    }
  }

  lemma StepKeepsGone(t: Tiers, o: Options, ttl: int, a: TierAction, key: Key, i: nat)
    requires Gone(t, key, i) && NeverSets(a, key)
    ensures Gone(TierNext(t, o, ttl, a), key, i)
  {
    match a {
      case Find(k, now, net, cleanup, removal) => GoneMisses(t, o, ttl, key, i, k, now, net, cleanup, removal);
      case Put(k, value, deps, ttl', now, net) =>
        NextKeepsAbsent(t.pool, o, Store(k, value, deps, if ttl'.Some? then ttl'.value else 0, now, net), i, key);
      case Drop(k, now, net) => NextKeepsAbsent(t.pool, o, Delete(k, now, net), i, key);
      case Forget(dep, replies, now, net) => NextKeepsAbsent(t.pool, o, Invalidate(dep, replies, now, net), i, key);
      case Elsewhere(action) => NextKeepsAbsent(t.pool, o, action, i, key);
    }
  }

  lemma {:induction false} RunKeepsGone(t: Tiers, o: Options, ttl: int, acts: seq<TierAction>, key: Key, i: nat)
    requires Gone(t, key, i) && forall a :: a in acts ==> NeverSets(a, key)
    ensures Gone(TierRun(t, o, ttl, acts), key, i)
    decreases |acts|
  {
    if acts != [] {
      assert acts[0] in acts;
      StepKeepsGone(t, o, ttl, acts[0], key, i);
      forall a | a in acts[1..] ensures NeverSets(a, key) { assert a in acts; }
      RunKeepsGone(TierNext(t, o, ttl, acts[0]), o, ttl, acts[1..], key, i);
    }
  }

  /** Once the session and a single member have lost a key, it misses until somebody stores it again. */
  lemma GoneUntilStored(t: Tiers, o: Options, ttl: int, acts: seq<TierAction>, key: Key, i: nat, now: int,
                        net: Network, cleanup: Network, removal: Network)
    requires Gone(t, key, i) && forall a :: a in acts ==> NeverSets(a, key)
    ensures var r := Looked(TierRun(t, o, ttl, acts), o, ttl, key, now, net, cleanup, removal).1;
            r.Done? ==> r.value == None
  {
    RunKeepsGone(t, o, ttl, acts, key, i);
    GoneMisses(TierRun(t, o, ttl, acts), o, ttl, key, i, key, now, net, cleanup, removal);
  }
}
