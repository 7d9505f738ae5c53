/**
  The exact cache when every command succeeds: the replicas stay identical and behave as one member,
  and how far that member agrees with a plain map of entries plus a hash registry.
 */
module CacheRefinement {
  import opened Wrappers
  import opened CacheMember
  import opened CachePool

  /** No command is cut and the server drops nothing by itself. */
  predicate Healthy(a: Action) {
    match a
    case Find(_, _, net, cleanup) => net == [] && cleanup == []
    case Store(_, _, _, _, _, net) => net == []
    case Delete(_, _, net) => net == []
    case Invalidate(_, _, _, net) => net == []
    case Redirect(_, _, _, net) => net == []
    case Record(_, _, _, net) => net == []
    case Ask(_, _, net) => net == []
    case Evict(_, _, _) => false
  }

  ghost predicate AllAre(p: Pool, m: Member) {
    |p.members| > 0 && p.until == map[] && forall i :: 0 <= i < |p.members| ==> p.members[i] == m
  }

  // ---------------------------------------------------------------- one member

  ghost function Removed(m: Member, key: Key): Member {
    Applied(m, DeleteCommands(m, key))
  }

  function AnswerOf(m: Member, key: Key, now: int): Answer {
    var r := ReadMember(m, key, now);
    if r.raw.None? then Miss
    else if r.stale then StaleEverywhere
    else if r.raw.value.Stored? then Hit(r.raw.value.value, r.raw.value.deps) else Miss
  }

  ghost function Step(m: Member, a: Action): Member {
    match a
    case Find(key, now, _, _) => if ReadMember(m, key, now).stale then Removed(m, key) else m
    case Store(key, value, deps, ttl, now, _) => Applied(m, SetCommands(key, Entry(value, deps, ttl, now)))
    case Delete(key, _, _) => Removed(m, key)
    case Invalidate(dep, replies, _, _) => m.(entries := m.entries - Indexed(m, dep), index := m.index - {dep})
    case Redirect(from, to, _, _) => Exec(m, HSet(from, to))
    case Record(path, hash, _, _) => Exec(m, HSetFile(path, hash))
    case Ask(_, _, _) => m
    case Evict(_, _, _) => m
  }

  /** The servers' replies to the index query are what the index holds. */
  ghost predicate Honest(m: Member, n: nat, a: Action) {
    a.Invalidate? ==> |a.replies| == n && forall i :: 0 <= i < n ==> Lists(a.replies[i], Indexed(m, a.dep))
  }

  lemma HealthyBroadcast(p: Pool, o: Options, m: Member, lists: seq<seq<Command>>, now: int, after: Member)
    requires AllAre(p, m) && |lists| == |p.members|
    requires forall i :: 0 <= i < |lists| ==> Applied(m, lists[i]) == after
    ensures AllAre(Broadcast(p, o, lists, [], now), after)
  {
    var q := Broadcast(p, o, lists, [], now);
    forall i | 0 <= i < |p.members| ensures q.members[i] == after && Fulfilled(p, lists, [], now, i) {
      assert lists[i][..Took(lists[i], All)] == lists[i];
    }
    assert q.until == map[];
  }

  lemma HealthyLookup(p: Pool, o: Options, m: Member, key: Key, now: int)
    requires AllAre(p, m)
    ensures Lookup(p, o, key, now, [], []).1 == Done(AnswerOf(m, key, now))
    ensures AllAre(Lookup(p, o, key, now, [], []).0, Step(m, Find(key, now, [], [])))
  {
    var sent := Reads(p, key, now);
    forall i | 0 <= i < |p.members| ensures Fulfilled(p, sent, [], now, i) { }
    assert Fulfilled(p, sent, [], now, 0);
    var q := p.(until := Circuits(p, o, sent, [], now));
    assert q.until == map[];
    assert p.members[0] == m;
    if ReadMember(m, key, now).stale {
      assert SomeStale(p, key, now) by { assert ReadMember(p.members[0], key, now).stale; }
      HealthyBroadcast(q, o, m, Deletes(q, key), now, Removed(m, key));
    } else {
      assert !SomeStale(p, key, now);
    }
  }

  /** The recorded hash read from identical reachable members. */
  lemma HealthyFileHash(p: Pool, o: Options, m: Member, path: Path, now: int)
    requires AllAre(p, m)
    ensures FileHash(p, o, path, now, []) == (p, Done(FileAt(m, path)))
  {
    var sent := ToAll(p, [HGetFile(path)]);
    forall i | 0 <= i < |p.members| ensures Fulfilled(p, sent, [], now, i) { }
    assert Fulfilled(p, sent, [], now, 0);
    assert Circuits(p, o, sent, [], now) == map[];
    assert !NoneActive(p, now) by { assert !Open(p, 0, now); }
  }

  /** With every command answered, N identical replicas move to N identical replicas, as one member would. */
  lemma HealthyStep(p: Pool, o: Options, m: Member, a: Action)
    requires AllAre(p, m) && Healthy(a) && Honest(m, |p.members|, a)
    ensures AllAre(Next(p, o, a), Step(m, a))
  {
    match a {
      case Find(key, now, net, cleanup) => HealthyLookup(p, o, m, key, now);
      case Store(key, value, deps, ttl, now, net) =>
        HealthyBroadcast(p, o, m, ToAll(p, SetCommands(key, Entry(value, deps, ttl, now))), now, Step(m, a));
      case Delete(key, now, net) => HealthyBroadcast(p, o, m, Deletes(p, key), now, Step(m, a));
      case Invalidate(dep, replies, now, net) =>
        assert Replies(p, dep, replies);
        forall i | 0 <= i < |p.members| ensures Applied(m, InvalidateCommands(dep, replies[i])) == Step(m, a) {
          InvalidateEffect(m, dep, replies[i]);
        }
        HealthyBroadcast(p, o, m, Invalidations(p, dep, replies), now, Step(m, a));
      case Redirect(from, to, now, net) =>
        AppliedOne(m, HSet(from, to));
        HealthyBroadcast(p, o, m, ToAll(p, [HSet(from, to)]), now, Step(m, a));
      case Record(path, hash, now, net) =>
        AppliedOne(m, HSetFile(path, hash));
        HealthyBroadcast(p, o, m, ToAll(p, [HSetFile(path, hash)]), now, Step(m, a));
      case Ask(path, now, net) => HealthyFileHash(p, o, m, path, now);
    }
  }

  ghost function Steps(m: Member, acts: seq<Action>): Member
    decreases |acts|
  {
    if acts == [] then m else Steps(Step(m, acts[0]), acts[1..])
  }

  /** Every action of the run is healthy and its replies are honest where it runs. */
  ghost predicate HealthyRun(m: Member, n: nat, acts: seq<Action>)
    decreases |acts|
  {
    acts == [] || (Healthy(acts[0]) && Honest(m, n, acts[0]) && HealthyRun(Step(m, acts[0]), n, acts[1..]))
  }

  lemma StepKeepsIndex(m: Member, a: Action)
    requires IndexComplete(m)
    ensures IndexComplete(Step(m, a))
  {
    match a {
      case Find(key, _, _, _) => DeleteKeepsIndex(m, key);
      case Store(key, value, deps, ttl, now, _) => SetKeepsIndex(m, key, Entry(value, deps, ttl, now));
      case Delete(key, _, _) => DeleteKeepsIndex(m, key);
      case Invalidate(dep, _, _, _) => InvalidatedIndex(m, dep);
      case Redirect(from, to, _, _) => SameEntries(m, Step(m, a));
      case Record(path, hash, _, _) => SameEntries(m, Step(m, a));
      case Ask(_, _, _) =>
      case Evict(_, _, _) =>
    }
  }

  lemma SameEntries(m: Member, m': Member)
    requires IndexComplete(m) && m'.entries == m.entries && m'.index == m.index
    ensures IndexComplete(m')
  {
    forall k, d | k in m'.entries && d in DepsOf(m', k) ensures k in Indexed(m', d) {
      assert k in m.entries && d in DepsOf(m, k);
      assert k in Indexed(m, d);
    }
  }

  lemma InvalidatedIndex(m: Member, dep: Hash)
    requires IndexComplete(m)
    ensures IndexComplete(m.(entries := m.entries - Indexed(m, dep), index := m.index - {dep}))
  {
    var m' := m.(entries := m.entries - Indexed(m, dep), index := m.index - {dep});
    forall k, d | k in m'.entries && d in DepsOf(m', k) ensures k in Indexed(m', d) {
      assert k in m.entries && d in DepsOf(m, k);
      assert k in Indexed(m, d);
    }
  }

  /** Over a whole healthy run the replicas stay identical, equal to one member, with a complete index. */
  lemma {:induction false} ReplicasRefineOneMember(p: Pool, o: Options, m: Member, acts: seq<Action>)
    requires AllAre(p, m) && IndexComplete(m) && HealthyRun(m, |p.members|, acts)
    ensures AllAre(Run(p, o, acts), Steps(m, acts)) && IndexComplete(Steps(m, acts))
    decreases |acts|
  {
    if acts != [] {
      HealthyStep(p, o, m, acts[0]);
      StepKeepsIndex(m, acts[0]);
      ReplicasRefineOneMember(Next(p, o, acts[0]), o, Step(m, acts[0]), acts[1..]);
    }
  }

  lemma DependentsAreIndexed(m: Member, key: Key, dep: Hash)
    requires IndexComplete(m)
    ensures key in m.entries && dep in DepsOf(m, key) ==> key in Indexed(m, dep)
  {
  }

  /** After a healthy run, invalidating a hash leaves no entry on any member that depends on it. */
  lemma InvalidationIsComplete(p: Pool, o: Options, m: Member, acts: seq<Action>, dep: Hash, replies: seq<seq<Key>>, now: int,
                               i: nat, key: Key)
    requires AllAre(p, m) && IndexComplete(m) && HealthyRun(m, |p.members|, acts)
    requires Replies(Run(p, o, acts), dep, replies) && i < |p.members|
    requires key in Next(Run(p, o, acts), o, Invalidate(dep, replies, now, [])).members[i].entries
    ensures dep !in DepsOf(Next(Run(p, o, acts), o, Invalidate(dep, replies, now, [])).members[i], key)
  {
    ReplicasRefineOneMember(p, o, m, acts);
    var q, n := Run(p, o, acts), Steps(m, acts);
    var a := Invalidate(dep, replies, now, []);
    HealthyStep(q, o, n, a);
    assert q.members[i] == n;
    DependentsAreIndexed(n, key, dep);
  }

  /** A lookup right after a healthy set hits exactly when the entry is alive and no dependency was redirected before. */
  lemma SetThenGetIff(p: Pool, o: Options, m: Member, key: Key, value: Value, deps: seq<Hash>, ttl: int, now: int, later: int)
    requires AllAre(p, m)
    ensures var q := Next(p, o, Store(key, value, deps, ttl, now, []));
            Lookup(q, o, key, later, [], []).1 == Done(Hit(value, Unique(deps)))
            <==> (ttl > 0 ==> later < now + ttl) && forall d :: d in deps ==> !Redirects(m, d)
  {
    var a := Store(key, value, deps, ttl, now, []);
    var raw := Entry(value, deps, ttl, now);
    HealthyStep(p, o, m, a);
    var m' := Step(m, a);
    HealthyLookup(Next(p, o, a), o, m', key, later);
    SetEffect(m, key, raw);
    UniqueKeepsTheSet(deps);
    ReadIsFreshIffServable(m', key, later);
    forall d ensures d in deps ==> (Redirects(m', d) <==> Redirects(m, d)) { }
    if Servable(m', key, later) {
      forall d | d in deps ensures !Redirects(m, d) { assert d in raw.deps; }
    }
  }

  // ---------------------------------------------------------------- against a plain map

  /** The abstract cache: what was stored last under each key, and which hashes were redirected. */
  datatype Plain = Plain(entries: map<Key, Raw>, registry: map<Hash, Hash>)

  function PlainMember(s: Plain): Member {
    Member(s.entries, map[], s.registry, map[])
  }

  ghost predicate DependsOn(raw: Raw, dep: Hash) {
    raw.Stored? && dep in raw.deps
  }

  ghost function PlainStep(s: Plain, a: Action): Plain {
    match a
    case Find(key, now, _, _) => if ReadMember(PlainMember(s), key, now).stale then s.(entries := s.entries - {key}) else s
    case Store(key, value, deps, ttl, now, _) =>
      Plain(s.entries[key := Entry(value, deps, ttl, now)],
            s.registry + map d | d in deps && d !in s.registry :: d)
    case Delete(key, _, _) => s.(entries := s.entries - {key})
    case Invalidate(dep, _, _, _) => s.(entries := map k | k in s.entries && !DependsOn(s.entries[k], dep) :: s.entries[k])
    case Redirect(from, to, _, _) => s.(registry := s.registry[from := to])
    case _ => s
  }

  ghost function PlainSteps(s: Plain, acts: seq<Action>): Plain
    decreases |acts|
  {
    if acts == [] then s else PlainSteps(PlainStep(s, acts[0]), acts[1..])
  }

  /** The member holds nothing the plain map does not hold, under the same registry. */
  ghost predicate Within(m: Member, s: Plain) {
    m.registry == s.registry && forall k :: k in m.entries ==> k in s.entries && m.entries[k] == s.entries[k]
  }

  lemma {:induction false} RedirectsDecideReading(m: Member, n: Member, deps: seq<Hash>)
    requires m.registry == n.registry
    ensures FirstRedirected(m, deps) == FirstRedirected(n, deps)
    decreases |deps|
  {
    if deps != [] { RedirectsDecideReading(m, n, deps[1..]); }
  }

  lemma SameReading(m: Member, s: Plain, key: Key, now: int)
    requires m.registry == s.registry && key in m.entries && key in s.entries && m.entries[key] == s.entries[key]
    ensures ReadMember(m, key, now) == ReadMember(PlainMember(s), key, now)
  {
    if m.entries[key].Stored? { RedirectsDecideReading(m, PlainMember(s), m.entries[key].deps); }
  }

  /** What a store does to entries and registry, and to nothing else that reading depends on. */
  lemma StoreEffect(m: Member, s: Plain, a: Action)
    requires a.Store? && m.registry == s.registry
    ensures Step(m, a).registry == PlainStep(s, a).registry && Step(m, a).entries == m.entries[a.key := Entry(a.value, a.deps, a.ttl, a.now)]
  {
    StoreRegisters(m, a);
    hide Step;
    assert Step(m, a).registry.Keys == PlainStep(s, a).registry.Keys;
  }

  lemma StoreRegisters(m: Member, a: Action)
    requires a.Store?
    ensures Step(m, a).entries == m.entries[a.key := Entry(a.value, a.deps, a.ttl, a.now)]
    ensures forall d :: d in Step(m, a).registry <==> d in m.registry || d in a.deps
    ensures forall d :: d in Step(m, a).registry ==> Step(m, a).registry[d] == if d in m.registry then m.registry[d] else d
  {
    SetEffect(m, a.key, Entry(a.value, a.deps, a.ttl, a.now));
    UniqueKeepsTheSet(a.deps);
  }

  lemma StepWithin(m: Member, s: Plain, a: Action)
    requires Within(m, s) && IndexComplete(m)
    ensures Within(Step(m, a), PlainStep(s, a))
  {
    match a {
      case Find(key, now, _, _) =>
        DeleteEffect(m, key);
        if key in m.entries { SameReading(m, s, key, now); }
      case Store(_, _, _, _, _, _) => StoreEffect(m, s, a);
      case Delete(key, _, _) => DeleteEffect(m, key);
      case Invalidate(dep, _, _, _) =>
        forall k | k in Step(m, a).entries ensures !DependsOn(s.entries[k], dep) {
          assert k in m.entries && k !in Indexed(m, dep);
          DependentsAreIndexed(m, k, dep);
        }
      case Redirect(_, _, _, _) =>
      case _ =>
    }
  }

  /** Every hit of the cache is a hit of the plain map, with the same value: the index never makes it serve more. */
  lemma {:induction false} HitsArePlainHits(m: Member, s: Plain, acts: seq<Action>, key: Key, now: int)
    requires Within(m, s) && IndexComplete(m)
    ensures AnswerOf(Steps(m, acts), key, now).Hit? ==>
              AnswerOf(PlainMember(PlainSteps(s, acts)), key, now) == AnswerOf(Steps(m, acts), key, now)
    decreases |acts|
  {
    if acts == [] {
      if key in m.entries { SameReading(m, s, key, now); }
    } else {
      StepWithin(m, s, acts[0]);
      StepKeepsIndex(m, acts[0]);
      HitsArePlainHits(Step(m, acts[0]), PlainStep(s, acts[0]), acts[1..], key, now);
    }
  }

  /** An index entry left behind by an earlier value of the key: the current entry does not depend on the hash. */
  ghost predicate NoStray(m: Member, dep: Hash) {
    forall k :: k in m.entries && k in Indexed(m, dep) ==> DependsOn(m.entries[k], dep)
  }

  /** From agreement, an invalidation stays in agreement with the plain map exactly when no stray index entry names a live key. */
  lemma InvalidateAgreesIff(m: Member, s: Plain, a: Action)
    requires a.Invalidate? && m.entries == s.entries && IndexComplete(m)
    ensures Step(m, a).entries == PlainStep(s, a).entries <==> NoStray(m, a.dep)
  {
    var left, plain := Step(m, a).entries, PlainStep(s, a).entries;
    forall k | k in m.entries ensures DependsOn(m.entries[k], a.dep) ==> k in Indexed(m, a.dep) {
      if DependsOn(m.entries[k], a.dep) { assert a.dep in DepsOf(m, k); }
    }
    if NoStray(m, a.dep) {
      assert left == plain;
    } else {
      var k :| k in m.entries && k in Indexed(m, a.dep) && !DependsOn(m.entries[k], a.dep);
      assert k in plain && k !in left;
    }
  }

  /** Every other operation keeps agreement as it is. */
  lemma OthersAgree(m: Member, s: Plain, a: Action)
    requires !a.Invalidate? && m.entries == s.entries && m.registry == s.registry
    ensures Step(m, a).entries == PlainStep(s, a).entries && Step(m, a).registry == PlainStep(s, a).registry
  {
    match a {
      case Find(key, now, _, _) =>
        DeleteEffect(m, key);
        if key in m.entries { SameReading(m, s, key, now); }
      case Store(_, _, _, _, _, _) => StoreEffect(m, s, a);
      case Delete(key, _, _) => DeleteEffect(m, key);
      case _ =>
    }
  }

  function TwoStores(key: Key, value: Value, first: Hash, second: Hash, now: int): seq<Action> {
    [Store(key, value, [first], 0, now, []), Store(key, value, [second], 0, now, [])]
  }

  lemma TwoSteps(m: Member, s: Plain, a: Action, b: Action)
    ensures Steps(m, [a, b]) == Step(Step(m, a), b)
    ensures PlainSteps(s, [a, b]) == PlainStep(PlainStep(s, a), b)
  {
    assert [a, b][1..] == [b] && [b][1..] == [];
    assert Steps(Step(Step(m, a), b), []) == Step(Step(m, a), b);
    assert Steps(Step(m, a), [b]) == Steps(Step(Step(m, a), b), []);
    assert PlainSteps(PlainStep(s, a), [b]) == PlainSteps(PlainStep(PlainStep(s, a), b), []);
  }

  lemma SecondStoreLeavesAStray(m: Member, key: Key, value: Value, first: Hash, second: Hash, now: int)
    requires first != second && m.entries == map[] && Indexed(m, first) == {}
    ensures var m' := Step(Step(m, Store(key, value, [first], 0, now, [])), Store(key, value, [second], 0, now, []));
            && m'.entries == map[key := Stored(1, value, [second], now, 0)]
            && Indexed(m', first) == {key} && !NoStray(m', first)
  {
    var m1 := Step(m, Store(key, value, [first], 0, now, []));
    StoreOneDep(m, key, value, first, now, first);
    StoreOneDep(m1, key, value, second, now, first);
    var m2 := Step(m1, Store(key, value, [second], 0, now, []));
    assert key in m2.entries && key in Indexed(m2, first);
  }

  lemma StoreOneDep(m: Member, key: Key, value: Value, dep: Hash, now: int, d: Hash)
    ensures var m' := Step(m, Store(key, value, [dep], 0, now, []));
            && m'.entries == m.entries[key := Stored(1, value, [dep], now, 0)]
            && Indexed(m', d) == if d == dep then Indexed(m, d) + {key} else Indexed(m, d)
  {
    UniqueOfOne(dep);
    SetEffect(m, key, Entry(value, [dep], 0, now));
  }

  lemma TwoStoresLeaveAStray(key: Key, value: Value, first: Hash, second: Hash, now: int)
    requires first != second
    ensures var m := Steps(NOTHING, TwoStores(key, value, first, second, now));
            && m.entries == map[key := Stored(1, value, [second], now, 0)]
            && Indexed(m, first) == {key} && !NoStray(m, first)
    ensures var s := PlainSteps(Plain(map[], map[]), TwoStores(key, value, first, second, now));
            s.entries == map[key := Stored(1, value, [second], now, 0)] && s.registry == map[first := first, second := second]
  {
    TwoSteps(NOTHING, Plain(map[], map[]), Store(key, value, [first], 0, now, []), Store(key, value, [second], 0, now, []));
    SecondStoreLeavesAStray(NOTHING, key, value, first, second, now);
    PlainTwoStores(key, value, first, second, now);
  }

  lemma PlainTwoStores(key: Key, value: Value, first: Hash, second: Hash, now: int)
    requires first != second
    ensures PlainStep(PlainStep(Plain(map[], map[]), Store(key, value, [first], 0, now, [])), Store(key, value, [second], 0, now, []))
            == Plain(map[key := Stored(1, value, [second], now, 0)], map[first := first, second := second])
  {
    hide PlainStep;
    PlainStoresOne(Plain(map[], map[]), key, value, first, now);
    PlainStoresOne(PlainStep(Plain(map[], map[]), Store(key, value, [first], 0, now, [])), key, value, second, now);
  }

  lemma PlainStoresOne(s: Plain, key: Key, value: Value, dep: Hash, now: int)
    requires dep !in s.registry
    ensures PlainStep(s, Store(key, value, [dep], 0, now, []))
            == Plain(s.entries[key := Stored(1, value, [dep], now, 0)], s.registry[dep := dep])
  {
    UniqueOfOne(dep);
    assert s.registry + (map d | d in [dep] && d !in s.registry :: d) == s.registry[dep := dep];
  }

  lemma UniqueOfOne(dep: Hash)
    ensures Unique([dep]) == [dep]
  {
    assert [dep][..0] == [];
  }

  /** The plain map alone is not what the cache implements: a key stored again with other dependencies is dropped too early. */
  lemma PlainMapIsNotExact(key: Key, value: Value, first: Hash, second: Hash, now: int)
    requires first != second
    ensures var m := Steps(NOTHING, TwoStores(key, value, first, second, now));
            var s := PlainSteps(Plain(map[], map[]), TwoStores(key, value, first, second, now));
            var a := Invalidate(first, [[key]], now, []);
            && Honest(m, 1, a)
            && AnswerOf(Step(m, a), key, now) == Miss
            && AnswerOf(PlainMember(PlainStep(s, a)), key, now) == Hit(value, [second])
  {
    TwoStoresLeaveAStray(key, value, first, second, now);
    var m := Steps(NOTHING, TwoStores(key, value, first, second, now));
    var s := PlainSteps(Plain(map[], map[]), TwoStores(key, value, first, second, now));
    var a := Invalidate(first, [[key]], now, []);
    assert key in Indexed(m, first);
    PlainStillServes(s, key, value, first, second, now, a);
  }

  lemma PlainStillServes(s: Plain, key: Key, value: Value, first: Hash, second: Hash, now: int, a: Action)
    requires first != second && a.Invalidate? && a.dep == first
    requires s.entries == map[key := Stored(1, value, [second], now, 0)] && s.registry == map[first := first, second := second]
    ensures AnswerOf(PlainMember(PlainStep(s, a)), key, now) == Hit(value, [second])
  {
    var s' := PlainStep(s, a);
    assert key in s'.entries;
    ReadIsFreshIffServable(PlainMember(s'), key, now);
  }

  // ---------------------------------------------------------------- runs on which the plain map is exact

  /** The key is stored with the same set of dependencies every time. */
  ghost predicate FixedDeps(acts: seq<Action>, depsOf: map<Key, set<Hash>>) {
    forall a :: a in acts && a.Store? ==> a.key in depsOf && forall d :: d in a.deps <==> d in depsOf[a.key]
  }

  ghost predicate SoundIndex(m: Member, depsOf: map<Key, set<Hash>>) {
    && (forall d, k :: k in Indexed(m, d) ==> k in depsOf && d in depsOf[k])
    && (forall k :: k in m.entries ==> m.entries[k].Stored? && k in depsOf && forall d :: d in m.entries[k].deps <==> d in depsOf[k])
  }

  lemma StepKeepsSound(m: Member, a: Action, depsOf: map<Key, set<Hash>>)
    requires SoundIndex(m, depsOf) && FixedDeps([a], depsOf)
    ensures SoundIndex(Step(m, a), depsOf)
  {
    match a {
      case Find(key, _, _, _) => RemovalKeepsSound(m, key, depsOf);
      case Store(key, value, deps, ttl, now, _) =>
        assert a in [a];
        StoreKeepsSound(m, a, depsOf);
      case Delete(key, _, _) => RemovalKeepsSound(m, key, depsOf);
      case _ =>
        forall d, k | k in Indexed(Step(m, a), d) ensures k in depsOf && d in depsOf[k] {
          assert k in Indexed(m, d);
        }
    }
  }

  lemma StoreIndexes(m: Member, a: Action)
    requires a.Store?
    ensures Step(m, a).entries == m.entries[a.key := Entry(a.value, a.deps, a.ttl, a.now)]
    ensures forall d :: Indexed(Step(m, a), d) == if d in a.deps then Indexed(m, d) + {a.key} else Indexed(m, d)
    ensures forall d :: d in Entry(a.value, a.deps, a.ttl, a.now).deps <==> d in a.deps
  {
    SetEffect(m, a.key, Entry(a.value, a.deps, a.ttl, a.now));
    UniqueKeepsTheSet(a.deps);
  }

  lemma StoreKeepsSound(m: Member, a: Action, depsOf: map<Key, set<Hash>>)
    requires SoundIndex(m, depsOf) && a.Store? && a.key in depsOf && forall d :: d in a.deps <==> d in depsOf[a.key]
    ensures SoundIndex(Step(m, a), depsOf)
  {
    hide Step, Indexed;
    StoreIndexes(m, a);
    forall d, k | k in Indexed(Step(m, a), d) ensures k in depsOf && d in depsOf[k] {
      if k != a.key { assert k in Indexed(m, d); }
    }
  }

  lemma RemovalKeepsSound(m: Member, key: Key, depsOf: map<Key, set<Hash>>)
    requires SoundIndex(m, depsOf)
    ensures SoundIndex(Removed(m, key), depsOf)
  {
    DeleteEffect(m, key);
    forall d, k | k in Indexed(Removed(m, key), d) ensures k in depsOf && d in depsOf[k] {
      assert k in Indexed(m, d);
    }
  }

  lemma {:induction false} PlainMapStaysExact(m: Member, s: Plain, acts: seq<Action>, depsOf: map<Key, set<Hash>>)
    requires m.entries == s.entries && m.registry == s.registry && IndexComplete(m)
    requires SoundIndex(m, depsOf) && FixedDeps(acts, depsOf)
    ensures Steps(m, acts).entries == PlainSteps(s, acts).entries && Steps(m, acts).registry == PlainSteps(s, acts).registry
    decreases |acts|
  {
    if acts != [] {
      var a := acts[0];
      if a.Invalidate? {
        forall k | k in m.entries && k in Indexed(m, a.dep) ensures DependsOn(m.entries[k], a.dep) { }
        InvalidateAgreesIff(m, s, a);
      } else {
        OthersAgree(m, s, a);
      }
      StepKeepsIndex(m, a);
      StepKeepsSound(m, a, depsOf);
      assert FixedDeps(acts[1..], depsOf);
      PlainMapStaysExact(Step(m, a), PlainStep(s, a), acts[1..], depsOf);
    }
  }

  /** Equal entries and registry mean equal answers. */
  lemma AgreementIsObservable(m: Member, s: Plain, key: Key, now: int)
    requires m.entries == s.entries && m.registry == s.registry
    ensures AnswerOf(m, key, now) == AnswerOf(PlainMember(s), key, now)
  {
    if key in m.entries { SameReading(m, s, key, now); }
  }

  /** When each key always comes with the same dependencies, every lookup after any run answers as the plain map plus registry does. */
  lemma PlainMapIsExact(m: Member, s: Plain, acts: seq<Action>, depsOf: map<Key, set<Hash>>, key: Key, now: int)
    requires m.entries == s.entries && m.registry == s.registry && IndexComplete(m)
    requires SoundIndex(m, depsOf) && FixedDeps(acts, depsOf)
    ensures AnswerOf(Steps(m, acts), key, now) == AnswerOf(PlainMember(PlainSteps(s, acts)), key, now)
    ensures Steps(m, acts).entries == PlainSteps(s, acts).entries && Steps(m, acts).registry == PlainSteps(s, acts).registry
  {
    PlainMapStaysExact(m, s, acts, depsOf);
    AgreementIsObservable(Steps(m, acts), PlainSteps(s, acts), key, now);
  }

  // ---------------------------------------------------------------- where replicas part

  /** Two members no command can tell apart: an absent index set and an empty one are the same. */
  ghost predicate Alike(m: Member, n: Member) {
    m.entries == n.entries && m.registry == n.registry && m.files == n.files && forall d :: Indexed(m, d) == Indexed(n, d)
  }

  ghost predicate AllAlike(p: Pool) {
    forall i, j :: 0 <= i < |p.members| && 0 <= j < |p.members| ==> Alike(p.members[i], p.members[j])
  }

  /** The members of `gone` have dropped the entry, the others have not. */
  function Dropped(p: Pool, key: Key, gone: set<nat>): Pool {
    p.(members := seq(|p.members|, i requires 0 <= i < |p.members| =>
                        if i in gone then Exec(p.members[i], Del(key)) else p.members[i]))
  }

  function Evictions(key: Key, now: int, gone: seq<nat>): seq<Action> {
    seq(|gone|, i requires 0 <= i < |gone| => Evict(gone[i], key, now))
  }

  function Numbers(xs: seq<nat>): set<nat> {
    set x | x in xs
  }

  /** Every such state is reached by the servers expiring the entry, in any order. */
  lemma {:induction false} EvictionsDrop(p: Pool, o: Options, m: Member, key: Key, now: int, done: set<nat>, gone: seq<nat>)
    requires AllAre(p, m) && key in m.entries && m.entries[key].Stored? && Expired(m.entries[key], now)
    requires forall i :: i in gone ==> i < |p.members|
    ensures Run(Dropped(p, key, done), o, Evictions(key, now, gone)) == Dropped(p, key, done + Numbers(gone))
    decreases |gone|
  {
    if gone == [] {
      assert done + Numbers(gone) == done;
    } else {
      assert gone[0] in gone;
      OneMoreDropped(p, o, m, key, now, done, gone[0]);
      assert Evictions(key, now, gone)[1..] == Evictions(key, now, gone[1..]);
      forall i | i in gone[1..] ensures i < |p.members| { assert i in gone; }
      EvictionsDrop(p, o, m, key, now, done + {gone[0]}, gone[1..]);
      assert gone == [gone[0]] + gone[1..];
      assert done + {gone[0]} + Numbers(gone[1..]) == done + Numbers(gone);
      hide Dropped, Next;
    }
  }

  lemma OneMoreDropped(p: Pool, o: Options, m: Member, key: Key, now: int, done: set<nat>, i: nat)
    requires AllAre(p, m) && i < |p.members| && key in m.entries && m.entries[key].Stored? && Expired(m.entries[key], now)
    ensures Next(Dropped(p, key, done), o, Evict(i, key, now)) == Dropped(p, key, done + {i})
  {
    assert m.entries - {key} - {key} == m.entries - {key};
    assert Next(Dropped(p, key, done), o, Evict(i, key, now)).members == Dropped(p, key, done + {i}).members;
  }

  /** What a complete delete leaves on a member that still had the entry, and on one that had dropped it. */
  lemma DeleteAfterDrop(p: Pool, o: Options, m: Member, key: Key, gone: set<nat>, now: int, i: nat)
    requires AllAre(p, m) && i < |p.members|
    ensures var q := Next(Dropped(p, key, gone), o, Delete(key, now, []));
            && q.members[i].entries == m.entries - {key} && q.members[i].registry == m.registry && q.members[i].files == m.files
            && forall d :: Indexed(q.members[i], d) == if i !in gone && d in DepsOf(m, key) then Indexed(m, d) - {key} else Indexed(m, d)
  {
    var p1 := Dropped(p, key, gone);
    var cs := DeleteCommands(p1.members[i], key);
    assert cs[..Took(cs, All)] == cs && !Open(p1, i, now);
    DeleteEffect(p1.members[i], key);
    assert m.entries - {key} - {key} == m.entries - {key};
  }

  /**
    When some servers have expired an entry and it is then deleted on all of them, with every command
    answered, the replicas are alike afterwards if and only if none or all had dropped it, or no
    dependency of the entry indexes the key.
   */
  lemma EvictionKeepsReplicasIff(p: Pool, o: Options, m: Member, key: Key, gone: set<nat>, now: int)
    requires AllAre(p, m) && forall i :: i in gone ==> i < |p.members|
    ensures AllAlike(Next(Dropped(p, key, gone), o, Delete(key, now, [])))
            <==> gone == {} || (forall i :: 0 <= i < |p.members| ==> i in gone)
                 || (forall d :: d in DepsOf(m, key) ==> key !in Indexed(m, d))
  {
    var q := Next(Dropped(p, key, gone), o, Delete(key, now, []));
    forall i: nat | i < |p.members| ensures LostAt(m, q.members[i], key, i in gone) {
      DeleteAfterDrop(p, o, m, key, gone, now, i);
    }
    hide Next, Dropped;
    AlikeAfterLossIff(q, m, key, gone);
  }

  /** What is left on a member after the entry was deleted; one that had dropped it before keeps its index. */
  ghost predicate LostAt(m: Member, n: Member, key: Key, dropped: bool) {
    && n.entries == m.entries - {key} && n.registry == m.registry && n.files == m.files
    && forall d :: Indexed(n, d) == if !dropped && d in DepsOf(m, key) then Indexed(m, d) - {key} else Indexed(m, d)
  }

  lemma AlikeAfterLossIff(q: Pool, m: Member, key: Key, gone: set<nat>)
    requires forall i: nat :: i < |q.members| ==> LostAt(m, q.members[i], key, i in gone)
    requires forall i :: i in gone ==> i < |q.members|
    ensures AllAlike(q) <==> gone == {} || (forall i :: 0 <= i < |q.members| ==> i in gone)
                             || (forall d :: d in DepsOf(m, key) ==> key !in Indexed(m, d))
  {
    hide Alike, LostAt;
    if gone == {} || (forall i :: 0 <= i < |q.members| ==> i in gone) || (forall d :: d in DepsOf(m, key) ==> key !in Indexed(m, d)) {
      forall i: nat, j: nat | i < |q.members| && j < |q.members| ensures Alike(q.members[i], q.members[j]) {
        assert LostAt(m, q.members[i], key, i in gone) && LostAt(m, q.members[j], key, j in gone);
        BothLost(m, q.members[i], q.members[j], key, i in gone, j in gone);
      }
    }
    if AllAlike(q) && gone != {} && exists d :: d in DepsOf(m, key) && key in Indexed(m, d) {
      var i :| i in gone;
      var d :| d in DepsOf(m, key) && key in Indexed(m, d);
      forall j: nat | j < |q.members| ensures j in gone {
        assert LostAt(m, q.members[i], key, i in gone) && LostAt(m, q.members[j], key, j in gone);
        LeftBehindShows(m, q.members[i], q.members[j], key, j in gone, d);
      }
    }
  }

  lemma BothLost(m: Member, a: Member, b: Member, key: Key, first: bool, second: bool)
    requires LostAt(m, a, key, first) && LostAt(m, b, key, second)
    requires first == second || forall d :: d in DepsOf(m, key) ==> key !in Indexed(m, d)
    ensures Alike(a, b)
  {
  }

  lemma LeftBehindShows(m: Member, a: Member, b: Member, key: Key, second: bool, d: Hash)
    requires LostAt(m, a, key, true) && LostAt(m, b, key, second) && Alike(a, b)
    requires d in DepsOf(m, key) && key in Indexed(m, d)
    ensures second
  {
    assert Indexed(a, d) == Indexed(b, d);
  }

  /** In particular an entry with a complete index, expired on one of two replicas, splits them for good. */
  lemma EvictionSplitsReplicas(p: Pool, o: Options, m: Member, key: Key, dep: Hash, now: int)
    requires AllAre(p, m) && |p.members| >= 2 && IndexComplete(m)
    requires key in m.entries && dep in DepsOf(m, key) && Expired(m.entries[key], now)
    ensures !AllAlike(Next(Next(p, o, Evict(0, key, now)), o, Delete(key, now, [])))
  {
    DependentsAreIndexed(m, key, dep);
    var gone: set<nat> := {0};
    assert p.members[0] == m;
    assert Next(p, o, Evict(0, key, now)).members == Dropped(p, key, gone).members;
    EvictionKeepsReplicasIff(p, o, m, key, gone, now);
    assert 0 in gone && !(1 in gone);
  }
}
