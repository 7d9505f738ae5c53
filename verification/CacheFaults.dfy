/** What the exact cache guarantees under any pattern of member failures, open circuits, cut writes and recoveries. */
module CacheFaults {
  import opened CacheMember
  import opened CachePool

  /** Every configured member is reachable, answers the whole read, and would itself serve this very entry. */
  ghost predicate Consensus(p: Pool, key: Key, now: int, net: Network, value: Value, deps: seq<Hash>) {
    forall i :: 0 <= i < |p.members| ==>
      && !Open(p, i, now)
      && Answered(ReadCommands(p.members[i], key, now), ReachOf(net, i))
      && Servable(p.members[i], key, now)
      && key in p.members[0].entries && p.members[i].entries[key] == p.members[0].entries[key]
      && p.members[i].entries[key].value == value && p.members[i].entries[key].deps == deps
  }

  /** A lookup answers with an entry exactly when all members agree on it: a hit is consensus, and consensus is a hit. */
  lemma HitIffConsensus(p: Pool, o: Options, key: Key, now: int, net: Network, cleanup: Network, value: Value, deps: seq<Hash>)
    requires |p.members| > 0
    ensures Lookup(p, o, key, now, net, cleanup).1 == Done(Hit(value, deps)) <==> Consensus(p, key, now, net, value, deps)
  {
    if Consensus(p, key, now, net, value, deps) {
      ConsensusHits(p, o, key, now, net, cleanup, value, deps);
    }
    if Lookup(p, o, key, now, net, cleanup).1 == Done(Hit(value, deps)) {
      HitIsJudged(p, o, key, now, net, cleanup, value, deps);
      JudgedIsConsensus(p, key, now, net, value, deps);
    }
  }

  /** A hit needs every member to have answered, and the readings to be judged a hit. */
  lemma HitIsJudged(p: Pool, o: Options, key: Key, now: int, net: Network, cleanup: Network, value: Value, deps: seq<Hash>)
    requires |p.members| > 0 && Lookup(p, o, key, now, net, cleanup).1 == Done(Hit(value, deps))
    ensures AllFulfilled(p, Reads(p, key, now), net, now) && Judged(p, key, now) == Keep(Hit(value, deps))
  {
  }

  lemma JudgedIsConsensus(p: Pool, key: Key, now: int, net: Network, value: Value, deps: seq<Hash>)
    requires |p.members| > 0 && AllFulfilled(p, Reads(p, key, now), net, now) && Judged(p, key, now) == Keep(Hit(value, deps))
    ensures Consensus(p, key, now, net, value, deps)
  {
    var sent := Reads(p, key, now);
    assert !SomeStale(p, key, now) && AllSame(p, key);
    forall i | 0 <= i < |p.members|
      ensures Fulfilled(p, sent, net, now, i) && Servable(p.members[i], key, now)
    {
      ReadIsFreshIffServable(p.members[i], key, now);
    }
  }

  lemma ConsensusIsJudged(p: Pool, key: Key, now: int, net: Network, value: Value, deps: seq<Hash>)
    requires |p.members| > 0 && Consensus(p, key, now, net, value, deps)
    ensures Judged(p, key, now) == Keep(Hit(value, deps))
  {
    assert key in p.members[0].entries && p.members[0].entries[key].Stored?;
    forall i | 0 <= i < |p.members| ensures !ReadMember(p.members[i], key, now).stale {
      ReadIsFreshIffServable(p.members[i], key, now);
    }
    assert !SomeStale(p, key, now) && AllSame(p, key) && !AllAbsent(p, key);
  }

  lemma ConsensusHits(p: Pool, o: Options, key: Key, now: int, net: Network, cleanup: Network, value: Value, deps: seq<Hash>)
    requires |p.members| > 0 && Consensus(p, key, now, net, value, deps)
    ensures Lookup(p, o, key, now, net, cleanup).1 == Done(Hit(value, deps))
  {
    var sent := Reads(p, key, now);
    assert !Open(p, 0, now);
    forall i | 0 <= i < |p.members| ensures Fulfilled(p, sent, net, now, i) { }
    assert Fulfilled(p, sent, net, now, 0);
    ConsensusIsJudged(p, key, now, net, value, deps);
  }

  // ---------------------------------------------------------------- redirects

  ghost predicate KeepsRedirects(cs: seq<Command>, dep: Hash) {
    HSet(dep, dep) !in cs
  }

  lemma BroadcastKeepsRedirect(p: Pool, o: Options, lists: seq<seq<Command>>, net: Network, now: int, i: nat, dep: Hash)
    requires |lists| == |p.members| && i < |p.members| && Redirects(p.members[i], dep) && KeepsRedirects(lists[i], dep)
    ensures Redirects(Broadcast(p, o, lists, net, now).members[i], dep)
  {
    if !Open(p, i, now) {
      var cs := lists[i][..Took(lists[i], ReachOf(net, i))];
      forall c | c in cs ensures c in lists[i] { }
      RedirectPersists(p.members[i], cs, dep);
    }
  }

  lemma {:induction false} DepCommandsKeep(key: Key, deps: seq<Hash>, dep: Hash)
    ensures KeepsRedirects(DepCommands(key, deps), dep)
    decreases |deps|
  {
    if deps != [] { DepCommandsKeep(key, deps[1..], dep); }
  }

  lemma {:induction false} RemCommandsKeep(key: Key, deps: seq<Hash>, dep: Hash)
    ensures KeepsRedirects(RemCommands(key, deps), dep)
    decreases |deps|
  {
    if deps != [] { RemCommandsKeep(key, deps[1..], dep); }
  }

  lemma {:induction false} DelCommandsKeep(keys: seq<Key>, dep: Hash)
    ensures KeepsRedirects(DelCommands(keys), dep)
    decreases |keys|
  {
    if keys != [] { DelCommandsKeep(keys[1..], dep); }
  }

  lemma DeletesKeepRedirect(p: Pool, o: Options, key: Key, net: Network, now: int, i: nat, dep: Hash)
    requires i < |p.members| && Redirects(p.members[i], dep)
    ensures Redirects(Broadcast(p, o, Deletes(p, key), net, now).members[i], dep)
  {
    RemCommandsKeep(key, DepsOf(p.members[i], key), dep);
    BroadcastKeepsRedirect(p, o, Deletes(p, key), net, now, i, dep);
  }

  /** A redirect of `dep` on a member survives every action but the redirect of `dep` to itself. */
  lemma NextKeepsRedirect(p: Pool, o: Options, a: Action, i: nat, dep: Hash)
    requires i < |p.members| && Redirects(p.members[i], dep)
    requires !(a.Redirect? && a.from == dep && a.to == dep)
    ensures Redirects(Next(p, o, a).members[i], dep)
  {
    hide Broadcast, Deletes, DepCommands, Invalidations;
    match a {
      case Find(key, now, net, cleanup) =>
        DeletesKeepRedirect(p.(until := Circuits(p, o, Reads(p, key, now), net, now)), o, key, cleanup, now, i, dep);
      case Store(key, value, deps, ttl, now, net) =>
        DepCommandsKeep(key, Entry(value, deps, ttl, now).deps, dep);
        BroadcastKeepsRedirect(p, o, ToAll(p, SetCommands(key, Entry(value, deps, ttl, now))), net, now, i, dep);
      case Delete(key, now, net) => DeletesKeepRedirect(p, o, key, net, now, i, dep);
      case Invalidate(h, replies, now, net) =>
        if Replies(p, h, replies) {
          DelCommandsKeep(replies[i], dep);
          BroadcastKeepsRedirect(p, o, Invalidations(p, h, replies), net, now, i, dep);
        }
      case Redirect(from, to, now, net) => BroadcastKeepsRedirect(p, o, ToAll(p, [HSet(from, to)]), net, now, i, dep);
      case Record(path, hash, now, net) => BroadcastKeepsRedirect(p, o, ToAll(p, [HSetFile(path, hash)]), net, now, i, dep);
      case Ask(path, now, net) =>
      case Evict(j, key, now) =>
    }
  }

  lemma {:induction false} RunKeepsRedirect(p: Pool, o: Options, acts: seq<Action>, i: nat, dep: Hash)
    requires i < |p.members| && Redirects(p.members[i], dep)
    requires forall a :: a in acts ==> !(a.Redirect? && a.from == dep && a.to == dep)
    ensures Redirects(Run(p, o, acts).members[i], dep)
    decreases |acts|
  {
    if acts != [] {
      NextKeepsRedirect(p, o, acts[0], i, dep);
      forall a | a in acts[1..] ensures a in acts { }
      RunKeepsRedirect(Next(p, o, acts[0]), o, acts[1..], i, dep);
    }
  }

  /** The update took effect on the member, whether or not the client heard back. */
  predicate Reached(p: Pool, net: Network, now: int, i: nat, from: Hash, to: Hash) {
    i < |p.members| && !Open(p, i, now) && Took([HSet(from, to)], ReachOf(net, i)) == 1
  }

  /**
    Once an update of `dep` has reached a single member, then whatever fails or recovers afterwards,
    nothing depending on `dep` is served until `dep` is redirected to itself.
   */
  lemma SupersededDependencyIsNeverServed(p: Pool, o: Options, dep: Hash, to: Hash, at: int, net: Network, i: nat,
                                          acts: seq<Action>, key: Key, now: int, reading: Network, cleanup: Network)
    requires dep != to && Reached(p, net, at, i, dep, to)
    requires forall a :: a in acts ==> !(a.Redirect? && a.from == dep && a.to == dep)
    ensures var q := Run(Next(p, o, Redirect(dep, to, at, net)), o, acts);
            var answer := Lookup(q, o, key, now, reading, cleanup).1;
            answer.Done? && answer.value.Hit? ==> dep !in answer.value.deps
  {
    var p1 := Next(p, o, Redirect(dep, to, at, net));
    AppliedOne(p.members[i], HSet(dep, to));
    assert [HSet(dep, to)][..1] == [HSet(dep, to)];
    assert Redirects(p1.members[i], dep);
    RunKeepsRedirect(p1, o, acts, i, dep);
    var q := Run(p1, o, acts);
    var answer := Lookup(q, o, key, now, reading, cleanup).1;
    if answer.Done? && answer.value.Hit? {
      HitIffConsensus(q, o, key, now, reading, cleanup, answer.value.value, answer.value.deps);
      assert Servable(q.members[i], key, now);
    }
  }
}
