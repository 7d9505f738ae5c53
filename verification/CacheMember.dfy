/**
  One Redis member of the exact cache: cached entries, the reverse dependency index, the registry of
  superseded hashes and the registry of file hashes, changed only by single commands.
 */
module CacheMember {
  import opened Wrappers

  type Key = nat
  type Path = nat
  type Value = nat

  /** Content hashes are injective; a deleted file has a revision of its own. */
  datatype Hash = Content(digest: nat) | Deleted(path: Path)

  /** A stored text: either it parses to an entry record of some version, or it does not parse. */
  datatype Raw =
    | Stored(version: nat, value: Value, deps: seq<Hash>, createdAt: int, ttl: int)
    | Unparsable(text: nat)

  datatype Member = Member(
    entries: map<Key, Raw>,
    index: map<Hash, set<Key>>,
    registry: map<Hash, Hash>,
    files: map<Path, Hash>)

  const NOTHING: Member := Member(map[], map[], map[], map[])

  datatype Command =
    | Get(key: Key)
    | Set(key: Key, raw: Raw)
    | Del(key: Key)
    | SMembers(dep: Hash)
    | SAdd(dep: Hash, key: Key)
    | SRem(dep: Hash, key: Key)
    | DelIndex(dep: Hash)
    | HGet(dep: Hash)
    | HSetNx(dep: Hash)
    | HSet(from: Hash, to: Hash)
    | HGetFile(path: Path)
    | HSetFile(path: Path, hash: Hash)

  function Indexed(m: Member, dep: Hash): set<Key> {
    if dep in m.index then m.index[dep] else {}
  }

  function Exec(m: Member, c: Command): Member {
    match c
    case Set(key, raw) => m.(entries := m.entries[key := raw])
    case Del(key) => m.(entries := m.entries - {key})
    case SAdd(dep, key) => m.(index := m.index[dep := Indexed(m, dep) + {key}])
    case SRem(dep, key) => m.(index := m.index[dep := Indexed(m, dep) - {key}])
    case DelIndex(dep) => m.(index := m.index - {dep})
    case HSetNx(dep) => if dep in m.registry then m else m.(registry := m.registry[dep := dep])
    case HSet(from, to) => m.(registry := m.registry[from := to])
    case HSetFile(path, hash) => m.(files := m.files[path := hash])
    case _ => m
  }

  function Applied(m: Member, cs: seq<Command>): Member
    decreases |cs|
  {
    if cs == [] then m else Applied(Exec(m, cs[0]), cs[1..])
  }

  // ---------------------------------------------------------------- the command lists

  /** Dependencies without repeats, in order of first appearance. */
  function Unique(deps: seq<Hash>): seq<Hash>
    decreases |deps|
  {
    if deps == [] then []
    else
      var init := Unique(deps[..|deps| - 1]);
      var last := deps[|deps| - 1];
      if last in init then init else init + [last]
  }

  lemma {:induction false} UniqueKeepsTheSet(deps: seq<Hash>)
    ensures forall d :: d in Unique(deps) <==> d in deps
    ensures forall i, j :: 0 <= i < j < |Unique(deps)| ==> Unique(deps)[i] != Unique(deps)[j]
    decreases |deps|
  {
    if deps != [] {
      UniqueKeepsTheSet(deps[..|deps| - 1]);
      assert deps == deps[..|deps| - 1] + [deps[|deps| - 1]];
    }
  }

  function DepCommands(key: Key, deps: seq<Hash>): seq<Command>
    decreases |deps|
  {
    if deps == [] then [] else [HSetNx(deps[0]), SAdd(deps[0], key)] + DepCommands(key, deps[1..])
  }

  function SetCommands(key: Key, raw: Raw): seq<Command> {
    [Set(key, raw)] + if raw.Stored? then DepCommands(key, raw.deps) else []
  }

  function RemCommands(key: Key, deps: seq<Hash>): seq<Command>
    decreases |deps|
  {
    if deps == [] then [] else [SRem(deps[0], key)] + RemCommands(key, deps[1..])
  }

  /** The dependencies of the stored entry; an absent or unparsable one has none. */
  function DepsOf(m: Member, key: Key): seq<Hash> {
    if key in m.entries && m.entries[key].Stored? then m.entries[key].deps else []
  }

  function DeleteCommands(m: Member, key: Key): seq<Command> {
    [Get(key)] + RemCommands(key, DepsOf(m, key)) + [Del(key)]
  }

  function DelCommands(keys: seq<Key>): seq<Command>
    decreases |keys|
  {
    if keys == [] then [] else [Del(keys[0])] + DelCommands(keys[1..])
  }

  /** `keys` is the reply to SMEMBERS, in whatever order the server gives it. */
  function InvalidateCommands(dep: Hash, keys: seq<Key>): seq<Command> {
    [SMembers(dep)] + DelCommands(keys) + [DelIndex(dep)]
  }

  ghost predicate Lists(keys: seq<Key>, s: set<Key>) {
    forall k :: k in keys <==> k in s
  }

  // ---------------------------------------------------------------- what complete lists do

  lemma {:induction false} AppliedConcat(m: Member, cs: seq<Command>, ds: seq<Command>)
    ensures Applied(m, cs + ds) == Applied(Applied(m, cs), ds)
    decreases |cs|
  {
    if cs == [] {
      assert cs + ds == ds;
    } else {
      assert (cs + ds)[1..] == cs[1..] + ds;
      AppliedConcat(Exec(m, cs[0]), cs[1..], ds);
    }
  }

  lemma AppliedOne(m: Member, c: Command)
    ensures Applied(m, [c]) == Exec(m, c)
  {
    assert [c][1..] == [];
    assert Applied(Exec(m, c), []) == Exec(m, c);
  }

  ghost predicate DepsAdded(m: Member, m': Member, key: Key, deps: seq<Hash>) {
    && m'.entries == m.entries && m'.files == m.files
    && (forall d :: d in m'.registry <==> d in m.registry || d in deps)
    && (forall d :: d in m'.registry ==> m'.registry[d] == if d in m.registry then m.registry[d] else d)
    && (forall d :: Indexed(m', d) == if d in deps then Indexed(m, d) + {key} else Indexed(m, d))
  }

  lemma {:induction false} DepCommandsAdd(m: Member, key: Key, deps: seq<Hash>)
    ensures DepsAdded(m, Applied(m, DepCommands(key, deps)), key, deps)
    decreases |deps|
  {
    if deps != [] {
      var m1 := WithDep(m, key, deps[0]);
      AppliedConcat(m, [HSetNx(deps[0]), SAdd(deps[0], key)], DepCommands(key, deps[1..]));
      OneDepAdded(m, key, deps[0]);
      DepCommandsAdd(m1, key, deps[1..]);
      DepsAddedCompose(m, m1, Applied(m1, DepCommands(key, deps[1..])), key, deps[0], deps[1..]);
      assert deps == [deps[0]] + deps[1..];
    }
  }

  function WithDep(m: Member, key: Key, dep: Hash): Member {
    Exec(Exec(m, HSetNx(dep)), SAdd(dep, key))
  }

  lemma OneDepAdded(m: Member, key: Key, dep: Hash)
    ensures DepsAdded(m, WithDep(m, key, dep), key, [dep])
    ensures Applied(m, [HSetNx(dep), SAdd(dep, key)]) == WithDep(m, key, dep)
  {
    assert [HSetNx(dep), SAdd(dep, key)][1..] == [SAdd(dep, key)];
    AppliedOne(Exec(m, HSetNx(dep)), SAdd(dep, key));
  }

  lemma DepsAddedCompose(m: Member, m1: Member, m2: Member, key: Key, dep: Hash, rest: seq<Hash>)
    requires DepsAdded(m, m1, key, [dep]) && DepsAdded(m1, m2, key, rest)
    ensures DepsAdded(m, m2, key, [dep] + rest)
  {
    forall d ensures Indexed(m2, d) == if d in [dep] + rest then Indexed(m, d) + {key} else Indexed(m, d) {
      assert Indexed(m1, d) == if d in [dep] then Indexed(m, d) + {key} else Indexed(m, d);
    }
  }

  /** A complete set: the entry is there, every dependency is registered and indexed, old redirects stay. */
  lemma SetEffect(m: Member, key: Key, raw: Raw)
    requires raw.Stored?
    ensures DepsAdded(m.(entries := m.entries[key := raw]), Applied(m, SetCommands(key, raw)), key, raw.deps)
  {
    assert SetCommands(key, raw)[1..] == DepCommands(key, raw.deps);
    DepCommandsAdd(Exec(m, Set(key, raw)), key, raw.deps);
  }

  ghost predicate DepsRemoved(m: Member, m': Member, key: Key, deps: seq<Hash>) {
    && m'.entries == m.entries && m'.files == m.files && m'.registry == m.registry
    && (forall d :: Indexed(m', d) == if d in deps then Indexed(m, d) - {key} else Indexed(m, d))
  }

  lemma {:induction false} RemCommandsRemove(m: Member, key: Key, deps: seq<Hash>)
    ensures DepsRemoved(m, Applied(m, RemCommands(key, deps)), key, deps)
    decreases |deps|
  {
    if deps != [] {
      var m1 := Exec(m, SRem(deps[0], key));
      RemCommandsRemove(m1, key, deps[1..]);
      OneDepRemoved(m, m1, Applied(m1, RemCommands(key, deps[1..])), key, deps);
      assert RemCommands(key, deps)[1..] == RemCommands(key, deps[1..]);
      hide DepsRemoved;
    }
  }

  lemma OneDepRemoved(m: Member, m1: Member, m2: Member, key: Key, deps: seq<Hash>)
    requires deps != [] && m1 == Exec(m, SRem(deps[0], key)) && DepsRemoved(m1, m2, key, deps[1..])
    ensures DepsRemoved(m, m2, key, deps)
  {
    assert deps == [deps[0]] + deps[1..];
  }

  /** A complete delete: the entry is gone, and the key leaves the index of the entry's own dependencies only. */
  lemma DeleteEffect(m: Member, key: Key)
    ensures DepsRemoved(m.(entries := m.entries - {key}), Applied(m, DeleteCommands(m, key)), key, DepsOf(m, key))
  {
    var rems := RemCommands(key, DepsOf(m, key));
    var m1 := Applied(m, rems);
    RemCommandsRemove(m, key, DepsOf(m, key));
    assert DeleteCommands(m, key)[1..] == rems + [Del(key)];
    AppliedConcat(m, rems, [Del(key)]);
    AppliedOne(m1, Del(key));
    DropAfterRemoval(m, m1, key, DepsOf(m, key));
  }

  lemma DropAfterRemoval(m: Member, m1: Member, key: Key, deps: seq<Hash>)
    requires DepsRemoved(m, m1, key, deps)
    ensures DepsRemoved(m.(entries := m.entries - {key}), m1.(entries := m1.entries - {key}), key, deps)
  {
    forall d ensures Indexed(m1, d) == if d in deps then Indexed(m, d) - {key} else Indexed(m, d) { }
  }

  lemma {:induction false} DelCommandsRemove(m: Member, keys: seq<Key>)
    ensures Applied(m, DelCommands(keys)) == m.(entries := m.entries - set k | k in keys)
    decreases |keys|
  {
    if keys != [] {
      assert DelCommands(keys)[1..] == DelCommands(keys[1..]);
      DelCommandsRemove(Exec(m, Del(keys[0])), keys[1..]);
      assert keys == [keys[0]] + keys[1..];
      assert (m.entries - {keys[0]}) - (set k | k in keys[1..]) == m.entries - set k | k in keys;
    }
  }

  /** A complete invalidation removes exactly the indexed entries and the index set, in whatever order. */
  lemma InvalidateEffect(m: Member, dep: Hash, keys: seq<Key>)
    requires Lists(keys, Indexed(m, dep))
    ensures Applied(m, InvalidateCommands(dep, keys)) == m.(entries := m.entries - Indexed(m, dep), index := m.index - {dep})
  {
    var cs := InvalidateCommands(dep, keys);
    assert cs[1..] == DelCommands(keys) + [DelIndex(dep)];
    AppliedConcat(m, DelCommands(keys), [DelIndex(dep)]);
    DelCommandsRemove(m, keys);
    AppliedOne(Applied(m, DelCommands(keys)), DelIndex(dep));
    assert (set k | k in keys) == Indexed(m, dep);
  }

  // ---------------------------------------------------------------- the index

  /** Every stored entry's key is in the index of each of its dependencies. */
  ghost predicate IndexComplete(m: Member) {
    forall k, d :: k in m.entries && d in DepsOf(m, k) ==> k in Indexed(m, d)
  }

  lemma SetKeepsIndex(m: Member, key: Key, raw: Raw)
    requires IndexComplete(m) && raw.Stored?
    ensures IndexComplete(Applied(m, SetCommands(key, raw)))
  {
    SetEffect(m, key, raw);
    var m' := Applied(m, SetCommands(key, raw));
    forall k, d | k in m'.entries && d in DepsOf(m', k) ensures k in Indexed(m', d) {
      if k != key {
        assert k in m.entries && d in DepsOf(m, k);
        assert k in Indexed(m, d);
      }
    }
  }

  lemma DeleteKeepsIndex(m: Member, key: Key)
    requires IndexComplete(m)
    ensures IndexComplete(Applied(m, DeleteCommands(m, key)))
  {
    DeleteEffect(m, key);
    var m' := Applied(m, DeleteCommands(m, key));
    forall k, d | k in m'.entries && d in DepsOf(m', k) ensures k in Indexed(m', d) {
      assert k in m.entries && d in DepsOf(m, k);
      assert k in Indexed(m, d);
    }
  }

  // ---------------------------------------------------------------- sets that are cut

  lemma {:induction false} DepCommandsLength(key: Key, deps: seq<Hash>)
    ensures |DepCommands(key, deps)| == 2 * |deps|
    decreases |deps|
  {
    if deps != [] { DepCommandsLength(key, deps[1..]); }
  }

  /** After `k` commands the first k/2 dependencies are indexed, no others. */
  lemma {:induction false} CutDepCommands(m: Member, key: Key, deps: seq<Hash>, k: nat, d: Hash)
    requires k <= |DepCommands(key, deps)| && k / 2 <= |deps|
    ensures var m' := Applied(m, DepCommands(key, deps)[..k]);
            && m'.entries == m.entries
            && Indexed(m', d) == if d in deps[..k / 2] then Indexed(m, d) + {key} else Indexed(m, d)
    decreases |deps|
  {
    hide *;
    if k < 2 {
      CutBeforeIndexing(m, key, deps, k);
    } else {
      DepCommandsLength(key, deps);
      DepCommandsLength(key, deps[1..]);
      CutDepCommands(WithDep(m, key, deps[0]), key, deps[1..], k - 2, d);
      FirstDepThenCut(m, key, deps, k);
      DepIndexes(m, key, deps[0], d);
      assert deps[..k / 2] == [deps[0]] + deps[1..][..(k - 2) / 2];
    }
  }

  lemma CutBeforeIndexing(m: Member, key: Key, deps: seq<Hash>, k: nat)
    requires k < 2 && k <= |DepCommands(key, deps)|
    ensures var m' := Applied(m, DepCommands(key, deps)[..k]); m'.entries == m.entries && forall d :: Indexed(m', d) == Indexed(m, d)
  {
    if k == 0 {
      assert DepCommands(key, deps)[..0] == [];
    } else {
      assert DepCommands(key, deps)[..1] == [HSetNx(deps[0])];
      AppliedOne(m, HSetNx(deps[0]));
    }
  }

  lemma DepIndexes(m: Member, key: Key, dep: Hash, d: Hash)
    ensures WithDep(m, key, dep).entries == m.entries
    ensures Indexed(WithDep(m, key, dep), d) == if d == dep then Indexed(m, d) + {key} else Indexed(m, d)
  {
  }

  lemma FirstDepThenCut(m: Member, key: Key, deps: seq<Hash>, k: nat)
    requires deps != [] && 2 <= k <= |DepCommands(key, deps)|
    ensures Applied(m, DepCommands(key, deps)[..k]) == Applied(WithDep(m, key, deps[0]), DepCommands(key, deps[1..])[..k - 2])
  {
    var rest := DepCommands(key, deps[1..]);
    assert DepCommands(key, deps)[..k] == [HSetNx(deps[0]), SAdd(deps[0], key)] + rest[..k - 2];
    AppliedConcat(m, [HSetNx(deps[0]), SAdd(deps[0], key)], rest[..k - 2]);
    OneDepAdded(m, key, deps[0]);
  }

  /**
    A set that is cut after `n` of its commands survives a complete invalidation of one of its
    dependencies exactly when the key was not indexed under it before and the cut came before its turn.
   */
  lemma CutSetSurvivesIff(m: Member, key: Key, raw: Raw, dep: Hash, n: nat, keys: seq<Key>)
    requires raw.Stored? && dep in raw.deps && 1 <= n <= |SetCommands(key, raw)|
    requires Lists(keys, Indexed(Applied(m, SetCommands(key, raw)[..n]), dep))
    ensures (n - 1) / 2 <= |raw.deps|
    ensures key in Applied(Applied(m, SetCommands(key, raw)[..n]), InvalidateCommands(dep, keys)).entries
            <==> key !in Indexed(m, dep) && dep !in raw.deps[..(n - 1) / 2]
  {
    DepCommandsLength(key, raw.deps);
    var stored := Exec(m, Set(key, raw));
    var deps := DepCommands(key, raw.deps);
    assert SetCommands(key, raw)[..n] == [Set(key, raw)] + deps[..n - 1];
    AppliedConcat(m, [Set(key, raw)], deps[..n - 1]);
    AppliedOne(m, Set(key, raw));
    CutDepCommands(stored, key, raw.deps, n - 1, dep);
    InvalidateEffect(Applied(stored, deps[..n - 1]), dep, keys);
  }

  /** In particular a set cut right after its SET leaves an entry that invalidation cannot find. */
  lemma CutSetEscapesInvalidation(m: Member, key: Key, raw: Raw, dep: Hash, keys: seq<Key>)
    requires raw.Stored? && dep in raw.deps && key !in Indexed(m, dep)
    requires Lists(keys, Indexed(Applied(m, SetCommands(key, raw)[..1]), dep))
    ensures key in Applied(Applied(m, SetCommands(key, raw)[..1]), InvalidateCommands(dep, keys)).entries
  {
    CutSetSurvivesIff(m, key, raw, dep, 1, keys);
  }

  // ---------------------------------------------------------------- reading

  /** The registry maps the dependency to another hash. */
  predicate Redirects(m: Member, dep: Hash) {
    dep in m.registry && m.registry[dep] != dep
  }

  predicate Expired(raw: Raw, now: int)
    requires raw.Stored?
  {
    raw.ttl > 0 && now >= raw.createdAt + raw.ttl
  }

  datatype Reading = Reading(raw: Option<Raw>, stale: bool)

  /** Index of the first redirected dependency, or the number of dependencies. */
  function FirstRedirected(m: Member, deps: seq<Hash>): (n: nat)
    ensures n <= |deps| && forall i :: 0 <= i < n ==> !Redirects(m, deps[i])
    ensures n < |deps| ==> Redirects(m, deps[n])
    decreases |deps|
  {
    if deps == [] then 0
    else if Redirects(m, deps[0]) then 0
    else
      var n := FirstRedirected(m, deps[1..]);
      assert forall i :: 0 < i < n + 1 ==> deps[i] == deps[1..][i - 1];
      n + 1
  }

  function ReadMember(m: Member, key: Key, now: int): Reading {
    if key !in m.entries then Reading(None, false)
    else
      var raw := m.entries[key];
      if raw.Unparsable? || raw.version != 1 || Expired(raw, now) then Reading(Some(raw), true)
      else Reading(Some(raw), FirstRedirected(m, raw.deps) < |raw.deps|)
  }

  function HGets(deps: seq<Hash>): (cs: seq<Command>)
    ensures |cs| == |deps| && forall i :: 0 <= i < |deps| ==> cs[i] == HGet(deps[i])
  {
    seq(|deps|, i requires 0 <= i < |deps| => HGet(deps[i]))
  }

  /** What the read sends: GET, then HGET per dependency up to the first redirected one. */
  function ReadCommands(m: Member, key: Key, now: int): seq<Command> {
    if key !in m.entries then [Get(key)]
    else
      var raw := m.entries[key];
      if raw.Unparsable? || raw.version != 1 || Expired(raw, now) then [Get(key)]
      else
        var n := FirstRedirected(m, raw.deps);
        [Get(key)] + HGets(if n < |raw.deps| then raw.deps[..n + 1] else raw.deps)
  }

  /** An entry the member would serve. */
  ghost predicate Servable(m: Member, key: Key, now: int) {
    && key in m.entries && m.entries[key].Stored? && m.entries[key].version == 1
    && !Expired(m.entries[key], now)
    && forall d :: d in m.entries[key].deps ==> !Redirects(m, d)
  }

  lemma ReadIsFreshIffServable(m: Member, key: Key, now: int)
    ensures var r := ReadMember(m, key, now);
            && (r.raw.Some? <==> key in m.entries) && (r.raw.Some? ==> r.raw.value == m.entries[key])
            && (r.raw.Some? && !r.stale <==> Servable(m, key, now))
  {
    if key in m.entries && m.entries[key].Stored? {
      var deps := m.entries[key].deps;
      var n := FirstRedirected(m, deps);
      if n < |deps| { assert deps[n] in deps; }
    }
  }

  // ---------------------------------------------------------------- redirects last

  /** No command but HSET of the hash to itself ends a redirect. */
  lemma {:induction false} RedirectPersists(m: Member, cs: seq<Command>, dep: Hash)
    requires Redirects(m, dep) && HSet(dep, dep) !in cs
    ensures Redirects(Applied(m, cs), dep)
    decreases |cs|
  {
    if cs != [] {
      assert cs[0] in cs;
      assert Redirects(Exec(m, cs[0]), dep);
      forall c | c in cs[1..] ensures c in cs { }
      RedirectPersists(Exec(m, cs[0]), cs[1..], dep);
    }
  }
}
