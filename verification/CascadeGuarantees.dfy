/**
  What a cascade guarantees. With all members identical and reachable: the recorded hashes become current
  and nothing built on an outdated one is answered by either tier, now or later. Under faults: exactly
  when a recorded hash is retired.
 */
module CascadeGuarantees {
  import opened Wrappers
  import opened CacheMember
  import opened CachePool
  import opened TieredCache
  import opened TieredRuns
  import opened Cascade
  import Faults = CacheFaults
  import R = CacheRefinement
  import L1 = SessionCache

  // ---------------------------------------------------------------- one healthy member

  ghost function Cleared(m: Member, dep: Hash): Member {
    m.(entries := m.entries - Indexed(m, dep), index := m.index - {dep})
  }

  ghost function Redirected(m: Member, from: Hash, to: Hash): Member {
    m.(registry := m.registry[from := to])
  }

  ghost function Purged(m: Member, outdated: Option<Hash>, current: Hash): Member {
    if outdated.Some? then Redirected(Cleared(m, outdated.value), outdated.value, current) else m
  }

  /** A healthy member after the cascade over one file. */
  ghost function FileStep(m: Member, file: Path, content: map<Path, nat>): Member {
    var current := Current(content, file);
    var purged := Purged(m, Outdated(FileAt(m, file), current), current);
    purged.(files := purged.files[file := current])
  }

  ghost function FileSteps(m: Member, files: seq<Path>, content: map<Path, nat>): Member
    decreases |files|
  {
    if files == [] then m else FileStep(FileSteps(m, files[..|files| - 1], content), files[|files| - 1], content)
  }

  lemma FileStepKeepsIndex(m: Member, file: Path, content: map<Path, nat>)
    requires IndexComplete(m)
    ensures IndexComplete(FileStep(m, file, content))
    ensures forall h :: Outdated(FileAt(m, file), Current(content, file)) == Some(h) ==>
              forall k :: k in m.entries && h in DepsOf(m, k) ==> k !in FileStep(m, file, content).entries
  {
    var outdated := Outdated(FileAt(m, file), Current(content, file));
    if outdated.Some? {
      R.InvalidatedIndex(m, outdated.value);
      R.SameEntries(Cleared(m, outdated.value), FileStep(m, file, content));
      forall k | k in m.entries && outdated.value in DepsOf(m, k) ensures k in Indexed(m, outdated.value) {
        R.DependentsAreIndexed(m, k, outdated.value);
      }
    } else {
      R.SameEntries(m, FileStep(m, file, content));
    }
  }

  /** Entries are only ever dropped, never changed or added. */
  ghost predicate Shrunk(m: Member, m': Member) {
    forall k :: k in m'.entries ==> k in m.entries && m'.entries[k] == m.entries[k]
  }

  /**
    The cascade over a list of files without repeats: the index stays complete, every listed file's
    recorded hash is its current one, no other recorded hash changes, and for every listed file whose
    recorded hash was p no entry depending on p is left.
   */
  lemma {:induction false} CascadeClears(m: Member, files: seq<Path>, content: map<Path, nat>)
    requires IndexComplete(m) && NoRepeats(files)
    ensures var m' := FileSteps(m, files, content);
            && IndexComplete(m') && Shrunk(m, m')
            && (forall f :: FileAt(m', f) == if f in files then Some(Current(content, f)) else FileAt(m, f))
            && (forall f, k :: f in files && k in m'.entries && FileAt(m, f).Some? ==> FileAt(m, f).value !in DepsOf(m', k))
    decreases |files|
  {
    if files != [] {
      var k := |files| - 1;
      CascadeClears(m, files[..k], content);
      var m1 := FileSteps(m, files[..k], content);
      assert files == files[..k] + [files[k]];
      assert files[k] !in files[..k];
      ClearsOneMore(m, m1, files[..k], files[k], content);
    }
  }

  lemma ClearsOneMore(m: Member, m1: Member, before: seq<Path>, file: Path, content: map<Path, nat>)
    requires IndexComplete(m1) && Shrunk(m, m1) && file !in before
    requires forall f :: FileAt(m1, f) == if f in before then Some(Current(content, f)) else FileAt(m, f)
    requires forall f, k :: f in before && k in m1.entries && FileAt(m, f).Some? ==> FileAt(m, f).value !in DepsOf(m1, k)
    ensures var m' := FileStep(m1, file, content);
            && IndexComplete(m') && Shrunk(m, m')
            && (forall f :: FileAt(m', f) == if f in before + [file] then Some(Current(content, f)) else FileAt(m, f))
            && (forall f, k :: f in before + [file] && k in m'.entries && FileAt(m, f).Some? ==> FileAt(m, f).value !in DepsOf(m', k))
  {
    FileStepKeepsIndex(m1, file, content);
    var m' := FileStep(m1, file, content);
    forall f ensures FileAt(m', f) == if f in before + [file] then Some(Current(content, f)) else FileAt(m, f) {
      assert FileAt(m1, f) == if f in before then Some(Current(content, f)) else FileAt(m, f);
    }
    forall f, k | f in before + [file] && k in m'.entries && FileAt(m, f).Some?
      ensures FileAt(m, f).value !in DepsOf(m', k)
    {
      assert k in m1.entries && DepsOf(m', k) == DepsOf(m1, k);
      if f !in before { assert FileAt(m1, f) == FileAt(m, f); }
    }
  }

  // ---------------------------------------------------------------- the healthy cascade

  /** The session after the cascade's turn on a file recorded as on the member. */
  ghost function SessionStep(store: map<Key, L1.L1Entry>, m: Member, file: Path, content: map<Path, nat>): map<Key, L1.L1Entry> {
    match Outdated(FileAt(m, file), Current(content, file))
    case None => store
    case Some(h) => L1.Without(store, h)
  }

  lemma DroppedCount(entries: map<Key, Raw>, gone: set<Key>)
    ensures |entries - gone| + |entries.Keys * gone| == |entries|
  {
    assert (entries - gone).Keys == entries.Keys - gone;
    assert entries.Keys == (entries.Keys - gone) + entries.Keys * gone;
    assert |entries.Keys| == |entries| && |(entries - gone).Keys| == |entries - gone|;
  }

  lemma HealthyWrite(p: Pool, m: Member, lists: seq<seq<Command>>, now: int)
    requires R.AllAre(p, m) && |lists| == |p.members|
    ensures SomeFulfilled(p, lists, [], now)
  {
    assert Fulfilled(p, lists, [], now, 0);
  }

  lemma RemovedHere(p: Pool, m: Member, dep: Hash, replies: seq<seq<Key>>, i: nat)
    requires R.AllAre(p, m) && Replies(p, dep, replies) && i < |p.members|
    ensures DelReplies(p.members[i].entries.Keys, replies[i]) == |m.entries.Keys * Indexed(m, dep)|
  {
    DelRepliesCount(m.entries.Keys, replies[i]);
    assert Lists(replies[i], Indexed(p.members[i], dep));
    assert Elements(replies[i]) == Indexed(m, dep);
  }

  lemma {:induction false} HealthyMost(p: Pool, m: Member, dep: Hash, replies: seq<seq<Key>>, now: int, n: nat)
    requires R.AllAre(p, m) && Replies(p, dep, replies) && 0 < n <= |p.members|
    ensures MostRemoved(p, dep, replies, [], now, n) == |m.entries.Keys * Indexed(m, dep)|
    decreases n
  {
    RemovedHere(p, m, dep, replies, n - 1);
    if n > 1 { HealthyMost(p, m, dep, replies, now, n - 1); }
  }

  /** The forget of a healthy cascade: both tiers lose what depends on the hash, and the count says how much. */
  lemma HealthyForget(t: Tiers, o: Options, ttl: int, m: Member, a: TierAction)
    requires R.AllAre(t.pool, m) && a.Forget? && a.net == [] && Replies(t.pool, a.dep, a.replies)
    ensures R.AllAre(TierNext(t, o, ttl, a).pool, Cleared(m, a.dep)) && Completed(t, o, a)
    ensures TierNext(t, o, ttl, a).store == L1.Without(t.store, a.dep)
    ensures Removed(t, a) == |t.store| - |L1.Without(t.store, a.dep)| + |m.entries| - |Cleared(m, a.dep).entries|
  {
    R.HealthyStep(t.pool, o, m, Invalidate(a.dep, a.replies, a.now, []));
    HealthyWrite(t.pool, m, Invalidations(t.pool, a.dep, a.replies), a.now);
    HealthyMost(t.pool, m, a.dep, a.replies, a.now, |t.pool.members|);
    DroppedCount(m.entries, Indexed(m, a.dep));
  }

  lemma HealthyRedirect(t: Tiers, o: Options, ttl: int, m: Member, from: Hash, to: Hash, now: int)
    requires R.AllAre(t.pool, m)
    ensures var a := Elsewhere(Redirect(from, to, now, []));
            && R.AllAre(TierNext(t, o, ttl, a).pool, Redirected(m, from, to)) && Completed(t, o, a)
            && TierNext(t, o, ttl, a).store == t.store && Removed(t, a) == 0
  {
    R.HealthyStep(t.pool, o, m, Redirect(from, to, now, []));
    HealthyWrite(t.pool, m, ToAll(t.pool, [HSet(from, to)]), now);
  }

  lemma HealthyRecord(t: Tiers, o: Options, ttl: int, m: Member, file: Path, hash: Hash, now: int)
    requires R.AllAre(t.pool, m)
    ensures var a := Elsewhere(Record(file, hash, now, []));
            && R.AllAre(TierNext(t, o, ttl, a).pool, m.(files := m.files[file := hash])) && Completed(t, o, a)
            && TierNext(t, o, ttl, a).store == t.store && Removed(t, a) == 0
  {
    R.HealthyStep(t.pool, o, m, Record(file, hash, now, []));
    HealthyWrite(t.pool, m, ToAll(t.pool, [HSetFile(file, hash)]), now);
  }

  lemma HealthyAsk(t: Tiers, o: Options, ttl: int, m: Member, file: Path, now: int)
    requires R.AllAre(t.pool, m)
    ensures var a := Elsewhere(Ask(file, now, []));
            && FileHash(t.pool, o, file, now, []).1 == Done(FileAt(m, file))
            && TierNext(t, o, ttl, a) == t && Removed(t, a) == 0
  {
    R.HealthyFileHash(t.pool, o, m, file, now);
  }

  /** The forget and the redirect of a healthy turn. */
  lemma HealthyPurge(t: Tiers, o: Options, ttl: int, m: Member, h: Hash, current: Hash, now: int, call: nat,
                     acts: seq<TierAction>, done: bool)
    requires R.AllAre(t.pool, m) && PurgeTrail(t, o, ttl, h, current, now, [], call, acts, done)
    ensures var t' := TierRun(t, o, ttl, acts);
            && done && R.AllAre(t'.pool, Purged(m, Some(h), current)) && t'.store == L1.Without(t.store, h)
            && Removals(t, o, ttl, acts) == |t.store| - |t'.store| + |m.entries| - |Purged(m, Some(h), current).entries|
  {
    hide TierNext, Completed, Removed, Cleared;
    HealthyForget(t, o, ttl, m, acts[0]);
    var t1 := TierNext(t, o, ttl, acts[0]);
    HealthyRedirect(t1, o, ttl, Cleared(m, h), h, current, now);
    assert acts == [acts[0]] + [acts[1]];
    TierRunOne(t, o, ttl, acts[0]);
    TierRunOne(t1, o, ttl, acts[1]);
    TierRunAppend(t, o, ttl, [acts[0]], [acts[1]]);
  }

  /** A healthy turn never throws, and moves both tiers and the count as one member's step says. */
  lemma HealthyTurn(t: Tiers, o: Options, ttl: int, m: Member, file: Path, content: map<Path, nat>, now: int, call: nat,
                    acts: seq<TierAction>, done: bool)
    requires R.AllAre(t.pool, m) && FileTrail(t, o, ttl, file, content, now, [], call, acts, done)
    ensures var t' := TierRun(t, o, ttl, acts);
            && done && R.AllAre(t'.pool, FileStep(m, file, content)) && t'.store == SessionStep(t.store, m, file, content)
            && Removals(t, o, ttl, acts) == |t.store| - |t'.store| + |m.entries| - |FileStep(m, file, content).entries|
  {
    hide TierNext, Completed, Removed, Purged, FileHash, PurgeTrail;
    var current := Current(content, file);
    var record := Elsewhere(Record(file, current, now, []));
    HealthyAsk(t, o, ttl, m, file, now);
    TierRunOne(t, o, ttl, acts[0]);
    match Outdated(FileAt(m, file), current) {
      case None =>
        assert acts == [acts[0]] + [record];
        TierRunAppend(t, o, ttl, [acts[0]], [record]);
        TierRunOne(t, o, ttl, record);
        HealthyRecord(t, o, ttl, m, file, current, now);
        NothingPurged(m, current);
      case Some(h) =>
        var purge := if |acts| < 4 then acts[1..] else acts[1..3];
        HealthyPurge(t, o, ttl, m, h, current, now, call, purge, |acts| >= 4);
        var t2 := TierRun(t, o, ttl, purge);
        HealthyRecord(t2, o, ttl, Purged(m, Some(h), current), file, current, now);
        assert acts == [acts[0]] + (purge + [record]);
        TierRunAppend(t, o, ttl, [acts[0]], purge + [record]);
        TierRunAppend(t, o, ttl, purge, [record]);
        TierRunOne(t2, o, ttl, record);
    }
  }

  lemma NothingPurged(m: Member, current: Hash)
    ensures Purged(m, None, current) == m
  {
  }

  /** No session entry depends on a hash recorded for a listed file. */
  ghost predicate SessionCleared(store: map<Key, L1.L1Entry>, m: Member, files: seq<Path>) {
    forall f, k :: f in files && k in store && FileAt(m, f).Some? ==> FileAt(m, f).value !in store[k].deps
  }

  ghost predicate SessionShrunk(before: map<Key, L1.L1Entry>, store: map<Key, L1.L1Entry>) {
    forall k :: k in store ==> k in before && store[k] == before[k]
  }

  /** Both tiers after a healthy cascade over the files, and the count of what was dropped. */
  ghost predicate CascadedTo(t: Tiers, before: map<Key, L1.L1Entry>, m: Member, files: seq<Path>, content: map<Path, nat>, dropped: int) {
    && R.AllAre(t.pool, FileSteps(m, files, content))
    && SessionShrunk(before, t.store) && SessionCleared(t.store, m, files)
    && dropped == |before| - |t.store| + |m.entries| - |FileSteps(m, files, content).entries|
  }

  lemma SessionClearedFurther(before: map<Key, L1.L1Entry>, store: map<Key, L1.L1Entry>, m: Member, mk: Member, files: seq<Path>, file: Path,
                              content: map<Path, nat>)
    requires SessionShrunk(before, store) && SessionCleared(store, m, files) && FileAt(mk, file) == FileAt(m, file)
    ensures var next := SessionStep(store, mk, file, content);
            SessionShrunk(before, next) && SessionCleared(next, m, files + [file])
  {
  }

  /** Until its own turn a file's recorded hash is the one it had at the start. */
  lemma RecordedAsBefore(m: Member, files: seq<Path>, k: nat, content: map<Path, nat>)
    requires NoRepeats(files) && k < |files|
    ensures FileAt(FileSteps(m, files[..k], content), files[k]) == FileAt(m, files[k])
  {
    OtherFilesUntouched(m, files[..k], content, files[k]);
  }

  lemma {:induction false} OtherFilesUntouched(m: Member, files: seq<Path>, content: map<Path, nat>, f: Path)
    requires f !in files
    ensures FileAt(FileSteps(m, files, content), f) == FileAt(m, f)
    decreases |files|
  {
    if files != [] {
      OtherFilesUntouched(m, files[..|files| - 1], content, f);
    }
  }

  lemma {:induction false} HealthyPrefix(t: Tiers, o: Options, ttl: int, m: Member, files: seq<Path>, content: map<Path, nat>, now: int,
                                         trail: seq<seq<TierAction>>, done: bool, n: nat)
    requires R.AllAre(t.pool, m) && NoRepeats(files) && CascadeTrail(t, o, ttl, files, content, now, [], trail, done) && n <= |trail|
    ensures CascadedTo(TierRun(t, o, ttl, Flat(trail[..n])), t.store, m, files[..n], content, Removals(t, o, ttl, Flat(trail[..n])))
    ensures n > 0 ==> done || n < |trail|
    decreases n
  {
    hide TierRun, FileTrail, FileStep;
    if n == 0 {
      assert trail[..0] == [] && files[..0] == [];
      NothingRun(t, o, ttl);
    } else {
      var k := n - 1;
      HealthyPrefix(t, o, ttl, m, files, content, now, trail, done, k);
      assert TurnOf(t, o, ttl, files, content, now, [], trail, done, k);
      assert trail[..n][..k] == trail[..k] && files[..n][..k] == files[..k];
      assert files[..n] == files[..k] + [files[k]];
      var tk, mk := TierRun(t, o, ttl, Flat(trail[..k])), FileSteps(m, files[..k], content);
      HealthyTurn(tk, o, ttl, mk, files[k], content, now, 4 * k, trail[k], done || k + 1 < |trail|);
      TierRunAppend(t, o, ttl, Flat(trail[..k]), trail[k]);
      RecordedAsBefore(m, files, k, content);
      SessionClearedFurther(t.store, tk.store, m, mk, files[..k], files[k], content);
    }
  }

  lemma NothingRun(t: Tiers, o: Options, ttl: int)
    requires |t.pool.members| > 0
    ensures TierRun(t, o, ttl, []) == t && Removals(t, o, ttl, []) == 0
  {
  }

  /**
    With all members identical and reachable the cascade never throws, moves every replica to FileSteps
    over the affected files, clears the session of their recorded hashes, and counts every dropped entry
    of both tiers once.
   */
  lemma HealthyCascade(t: Tiers, o: Options, ttl: int, m: Member, files: seq<Path>, content: map<Path, nat>, now: int,
                       trail: seq<seq<TierAction>>, done: bool)
    requires R.AllAre(t.pool, m) && NoRepeats(files) && CascadeTrail(t, o, ttl, files, content, now, [], trail, done)
    ensures done && CascadedTo(TierRun(t, o, ttl, Flat(trail)), t.store, m, files, content, Removals(t, o, ttl, Flat(trail)))
  {
    HealthyPrefix(t, o, ttl, m, files, content, now, trail, done, |trail|);
    assert trail[..|trail|] == trail;
    assert files[..|files|] == files;
  }

  // ---------------------------------------------------------------- what the tiers answer after a healthy cascade

  /** No answer of either tier, whatever the network, comes from an entry built on a hash that was recorded for a listed file. */
  lemma NothingOutdatedIsAnswered(t: Tiers, before: map<Key, L1.L1Entry>, m: Member, files: seq<Path>, content: map<Path, nat>, dropped: int,
                                  file: Path, key: Key, now: int, net: Network, value: Value, deps: seq<Hash>)
    requires IndexComplete(m) && NoRepeats(files) && CascadedTo(t, before, m, files, content, dropped)
    requires file in files && FileAt(m, file).Some? && AnswersFrom(t, key, now, net, value, deps)
    ensures FileAt(m, file).value !in deps
  {
    CascadeClears(m, files, content);
    if !L1.Live(t.store, key, now) {
      var m' := FileSteps(m, files, content);
      assert t.pool.members[0] == m' && Servable(t.pool.members[0], key, now);
      assert deps == DepsOf(m', key);
    }
  }

  ghost predicate BuiltOn(deps: seq<Hash>, m: Member, files: seq<Path>) {
    exists f :: f in files && FileAt(m, f).Some? && FileAt(m, f).value in deps
  }

  lemma ClearedIsNotBuiltOn(deps: seq<Hash>, m: Member, files: seq<Path>)
    requires forall f :: f in files && FileAt(m, f).Some? ==> FileAt(m, f).value !in deps
    ensures !BuiltOn(deps, m, files)
  {
  }

  lemma OutdatedKeyIsGone(t: Tiers, before: map<Key, L1.L1Entry>, m: Member, files: seq<Path>, content: map<Path, nat>, dropped: int, key: Key)
    requires IndexComplete(m) && NoRepeats(files) && CascadedTo(t, before, m, files, content, dropped)
    ensures key in t.store ==> key in before && !BuiltOn(before[key].deps, m, files)
    ensures key in t.pool.members[0].entries ==> key in m.entries && !BuiltOn(DepsOf(m, key), m, files)
  {
    hide FileSteps, IndexComplete;
    CascadeClears(m, files, content);
    var m' := FileSteps(m, files, content);
    assert t.pool.members[0] == m';
    if key in t.store { ClearedIsNotBuiltOn(t.store[key].deps, m, files); }
    if key in m'.entries { ClearedIsNotBuiltOn(DepsOf(m', key), m, files); }
  }

  /** A key whose entries in both tiers were built on recorded hashes of listed files misses until it is stored again. */
  lemma OutdatedKeyMisses(t: Tiers, before: map<Key, L1.L1Entry>, m: Member, files: seq<Path>, content: map<Path, nat>, dropped: int,
                          key: Key, o: Options, ttl: int, acts: seq<TierAction>, now: int, net: Network, cleanup: Network, removal: Network)
    requires IndexComplete(m) && NoRepeats(files) && CascadedTo(t, before, m, files, content, dropped)
    requires key in before ==> BuiltOn(before[key].deps, m, files)
    requires key in m.entries ==> BuiltOn(DepsOf(m, key), m, files)
    requires forall a :: a in acts ==> NeverSets(a, key)
    ensures var r := Looked(TierRun(t, o, ttl, acts), o, ttl, key, now, net, cleanup, removal).1;
            r.Done? ==> r.value == None
  {
    hide BuiltOn, IndexComplete, FileSteps, TierRun, Looked;
    OutdatedKeyIsGone(t, before, m, files, content, dropped, key);
    GoneUntilStored(t, o, ttl, acts, key, 0, now, net, cleanup, removal);
  }

  /** The last listed file whose outdated hash is h. */
  ghost predicate LastToDrop(m: Member, files: seq<Path>, content: map<Path, nat>, h: Hash, i: nat) {
    && i < |files| && Outdated(FileAt(m, files[i]), Current(content, files[i])) == Some(h)
    && forall j :: i < j < |files| ==> Outdated(FileAt(m, files[j]), Current(content, files[j])) != Some(h)
  }

  /**
    The cascade leaves a hash redirected exactly when the last listed file it was outdated for is no
    longer at that hash: an unchanged or copied file that comes later declares the hash current again.
   */
  lemma {:induction false} CascadeRedirectsIff(m: Member, files: seq<Path>, content: map<Path, nat>, h: Hash, i: nat)
    requires NoRepeats(files) && LastToDrop(m, files, content, h, i)
    ensures Redirects(FileSteps(m, files, content), h) <==> Current(content, files[i]) != h
    decreases |files|
  {
    var k := |files| - 1;
    RecordedAsBefore(m, files, k, content);
    if i < k {
      CascadeRedirectsIff(m, files[..k], content, h, i);
    }
  }

  /**
    After a healthy cascade over a changed file, nothing built on the file's recorded hash is answered by
    either tier in any later run, under any faults, unless somebody sets a value that still names the hash
    or declares the hash current again.
   */
  lemma CascadeRetiresForGood(t: Tiers, before: map<Key, L1.L1Entry>, m: Member, files: seq<Path>, content: map<Path, nat>, dropped: int,
                              h: Hash, i: nat, o: Options, ttl: int, acts: seq<TierAction>,
                              key: Key, now: int, net: Network, value: Value, deps: seq<Hash>)
    requires NoRepeats(files) && CascadedTo(t, before, m, files, content, dropped)
    requires LastToDrop(m, files, content, h, i) && FileAt(m, files[i]) == Some(h) && Current(content, files[i]) != h
    requires forall a :: a in acts ==> LeavesRetired(a, h)
    requires AnswersFrom(TierRun(t, o, ttl, acts), key, now, net, value, deps)
    ensures h !in deps
  {
    CascadeRedirectsIff(m, files, content, h, i);
    assert t.pool.members[0] == FileSteps(m, files, content);
    assert files[i] in files;
    RetiredHashIsNeverServed(t, o, ttl, acts, h, 0, key, now, net, value, deps);
  }

  // ---------------------------------------------------------------- under faults

  lemma {:induction false} DelCommandsKeepRegistry(m: Member, keys: seq<Key>, n: nat)
    requires n <= |DelCommands(keys)|
    ensures Applied(m, DelCommands(keys)[..n]).registry == m.registry
    decreases |keys|
  {
    var cs := DelCommands(keys);
    if n > 0 {
      assert cs[..n][0] == Del(keys[0]) && cs[..n][1..] == DelCommands(keys[1..])[..n - 1];
      DelCommandsKeepRegistry(Exec(m, Del(keys[0])), keys[1..], n - 1);
    }
  }

  /** However it is cut, an invalidation leaves the registry alone. */
  lemma InvalidationKeepsRegistry(m: Member, dep: Hash, keys: seq<Key>, n: nat)
    requires n <= |InvalidateCommands(dep, keys)|
    ensures Applied(m, InvalidateCommands(dep, keys)[..n]).registry == m.registry
  {
    var cs, dels := InvalidateCommands(dep, keys), DelCommands(keys);
    if 0 < n <= |dels| + 1 {
      assert cs[..n][0] == SMembers(dep) && cs[..n][1..] == dels[..n - 1];
      DelCommandsKeepRegistry(m, keys, n - 1);
    } else if n > 0 {
      assert cs[..n] == cs && cs[1..] == dels + [DelIndex(dep)];
      assert dels[..|dels|] == dels;
      AppliedConcat(m, dels, [DelIndex(dep)]);
      DelCommandsKeepRegistry(m, keys, |dels|);
      AppliedOne(Applied(m, dels), DelIndex(dep));
    }
  }

  /** What each call of a turn does to the registry of one member. */
  lemma ForgetKeepsRegistry(t: Tiers, o: Options, ttl: int, a: TierAction, i: nat)
    requires i < |t.pool.members| && a.Forget? && Replies(t.pool, a.dep, a.replies)
    ensures TierNext(t, o, ttl, a).pool.members[i].registry == t.pool.members[i].registry
  {
    var cs := InvalidateCommands(a.dep, a.replies[i]);
    InvalidationKeepsRegistry(t.pool.members[i], a.dep, a.replies[i], Took(cs, ReachOf(a.net, i)));
  }

  lemma RecordKeepsRegistry(t: Tiers, o: Options, ttl: int, file: Path, hash: Hash, now: int, net: Network, i: nat)
    requires i < |t.pool.members|
    ensures TierNext(t, o, ttl, Elsewhere(Record(file, hash, now, net))).pool.members[i].registry == t.pool.members[i].registry
  {
    CutSingle(t.pool.members[i], HSetFile(file, hash), ReachOf(net, i));
  }

  lemma RedirectSetsRegistry(t: Tiers, o: Options, ttl: int, from: Hash, to: Hash, now: int, net: Network, i: nat)
    requires i < |t.pool.members|
    ensures TierNext(t, o, ttl, Elsewhere(Redirect(from, to, now, net))).pool.members[i].registry
            == if Faults.Reached(t.pool, net, now, i, from, to) then t.pool.members[i].registry[from := to] else t.pool.members[i].registry
  {
    CutSingle(t.pool.members[i], HSet(from, to), ReachOf(net, i));
  }

  lemma CutSingle(m: Member, c: Command, r: Reach)
    ensures Applied(m, [c][..Took([c], r)]) == if Took([c], r) == 1 then Exec(m, c) else m
  {
    AppliedOne(m, c);
    if Took([c], r) == 1 { assert [c][..1] == [c]; } else { assert [c][..0] == []; }
  }

  /** The update of `h` was sent in this turn and took effect on the member. */
  ghost predicate UpdateReached(t: Tiers, o: Options, ttl: int, now: int, net: seq<Network>, call: nat, acts: seq<TierAction>,
                                i: nat, h: Hash, current: Hash)
    requires |t.pool.members| > 0
  {
    |acts| > 2 && Faults.Reached(TierRun(t, o, ttl, acts[..2]).pool, CallNet(net, call + 2), now, i, h, current)
  }

  lemma PurgeRetiresIff(t: Tiers, o: Options, ttl: int, g: Hash, current: Hash, now: int, net: seq<Network>, call: nat,
                        acts: seq<TierAction>, done: bool, i: nat, h: Hash)
    requires i < |t.pool.members| && PurgeTrail(t, o, ttl, g, current, now, net, call, acts, done) && current != h
    ensures Redirects(TierRun(t, o, ttl, acts).pool.members[i], h) <==>
              || Redirects(t.pool.members[i], h)
              || (g == h && |acts| > 1
                  && Faults.Reached(TierRun(t, o, ttl, acts[..1]).pool, CallNet(net, call + 2), now, i, h, current))
    ensures forall k :: k in TierRun(t, o, ttl, acts).store ==> g !in TierRun(t, o, ttl, acts).store[k].deps
  {
    hide TierNext, Completed, Faults.Reached;
    ForgetKeepsRegistry(t, o, ttl, acts[0], i);
    ForgetClearsSession(t, o, ttl, acts[0]);
    TierRunOne(t, o, ttl, acts[0]);
    var t1 := TierNext(t, o, ttl, acts[0]);
    if |acts| > 1 {
      var redirect := Elsewhere(Redirect(g, current, now, CallNet(net, call + 2)));
      assert acts == [acts[0]] + [redirect] && acts[..1] == [acts[0]];
      TierRunAppend(t, o, ttl, [acts[0]], [redirect]);
      TierRunOne(t1, o, ttl, redirect);
      RedirectSetsRegistry(t1, o, ttl, g, current, now, CallNet(net, call + 2), i);
      RedirectKeepsSession(t1, o, ttl, g, current, now, CallNet(net, call + 2));
    } else {
      assert acts == [acts[0]];
    }
  }

  lemma ForgetClearsSession(t: Tiers, o: Options, ttl: int, a: TierAction)
    requires |t.pool.members| > 0 && a.Forget?
    ensures var t' := TierNext(t, o, ttl, a); forall k :: k in t'.store ==> a.dep !in t'.store[k].deps
  {
  }

  lemma RedirectKeepsSession(t: Tiers, o: Options, ttl: int, from: Hash, to: Hash, now: int, net: Network)
    requires |t.pool.members| > 0
    ensures TierNext(t, o, ttl, Elsewhere(Redirect(from, to, now, net))).store == t.store
  {
  }


  lemma AskKeepsRegistry(t: Tiers, o: Options, ttl: int, file: Path, now: int, net: Network)
    requires |t.pool.members| > 0
    ensures var t' := TierNext(t, o, ttl, Elsewhere(Ask(file, now, net))); t'.pool.members == t.pool.members && t'.store == t.store
  {
  }

  lemma RecordKeepsSession(t: Tiers, o: Options, ttl: int, file: Path, hash: Hash, now: int, net: Network)
    requires |t.pool.members| > 0
    ensures TierNext(t, o, ttl, Elsewhere(Record(file, hash, now, net))).store == t.store
  {
  }

  /**
    Whatever fails, after a file's turn a hash other than the file's present one is redirected on a member
    exactly when it was before, or it is the hash all members agreed was recorded and its update took effect
    there; and the session holds nothing built on a hash that was read.
   */
  lemma TurnRetiresIff(t: Tiers, o: Options, ttl: int, file: Path, content: map<Path, nat>, now: int, net: seq<Network>, call: nat,
                       acts: seq<TierAction>, done: bool, i: nat, h: Hash)
    requires i < |t.pool.members| && FileTrail(t, o, ttl, file, content, now, net, call, acts, done) && Current(content, file) != h
    ensures var read := FileHash(t.pool, o, file, now, CallNet(net, call)).1;
            var t' := TierRun(t, o, ttl, acts);
            && (Redirects(t'.pool.members[i], h) <==>
                  || Redirects(t.pool.members[i], h)
                  || (read == Done(Some(h)) && UpdateReached(t, o, ttl, now, net, call, acts, i, h, Current(content, file))))
            && (read == Done(Some(h)) ==> forall k :: k in t'.store ==> h !in t'.store[k].deps)
  {
    hide TierNext, Completed, PurgeTrail, Faults.Reached, FileHash;
    var read, current := FileHash(t.pool, o, file, now, CallNet(net, call)).1, Current(content, file);
    var record := Elsewhere(Record(file, current, now, CallNet(net, call + 3)));
    TierRunOne(t, o, ttl, acts[0]);
    AskKeepsRegistry(t, o, ttl, file, now, CallNet(net, call));
    var t1 := TierNext(t, o, ttl, acts[0]);
    if read.Unavailable? {
      assert acts == [acts[0]];
    } else if Outdated(read.value, current).None? {
      assert acts == [acts[0]] + [record];
      TierRunAppend(t, o, ttl, [acts[0]], [record]);
      TierRunOne(t1, o, ttl, record);
      RecordKeepsRegistry(t1, o, ttl, file, current, now, CallNet(net, call + 3), i);
    } else {
      var g := Outdated(read.value, current).value;
      var purge := if |acts| < 4 then acts[1..] else acts[1..3];
      PurgeIsShort(t1, o, ttl, g, current, now, net, call, purge, |acts| >= 4);
      PurgeRetiresIff(t1, o, ttl, g, current, now, net, call, purge, |acts| >= 4, i, h);
      TierRunAppend(t, o, ttl, [acts[0]], purge);
      TierRunAppend(t, o, ttl, [acts[0]], purge[..1]);
      if |acts| > 2 { assert acts[..2] == [acts[0]] + purge[..1]; }
      var t2 := TierRun(t1, o, ttl, purge);
      if |acts| < 4 {
        assert acts == [acts[0]] + purge;
      } else {
        assert acts == ([acts[0]] + purge) + [record];
        TierRunAppend(t, o, ttl, [acts[0]] + purge, [record]);
        TierRunOne(t2, o, ttl, record);
        RecordKeepsRegistry(t2, o, ttl, file, current, now, CallNet(net, call + 3), i);
        RecordKeepsSession(t2, o, ttl, file, current, now, CallNet(net, call + 3));
      }
    }
  }

  lemma {:induction false} FlatAppend(a: seq<seq<TierAction>>, b: seq<seq<TierAction>>)
    ensures Flat(a + b) == Flat(a) + Flat(b)
    decreases |b|
  {
    if b == [] {
      assert a + b == a;
    } else {
      assert (a + b)[..|a + b| - 1] == a + b[..|b| - 1];
      FlatAppend(a, b[..|b| - 1]);
    }
  }

  /**
    Whatever fails during a cascade: if a file's recorded hash could be read and its update reached a
    single member, nothing built on that hash is answered by either tier after the cascade or in any later
    run, unless a later turn or action declares the hash current again or sets a value that names it.
   */
  lemma ReachedUpdateRetiresForGood(t: Tiers, o: Options, ttl: int, files: seq<Path>, content: map<Path, nat>, now: int, net: seq<Network>,
                                    trail: seq<seq<TierAction>>, done: bool, k: nat, i: nat, h: Hash, acts: seq<TierAction>,
                                    key: Key, later: int, reading: Network, value: Value, deps: seq<Hash>)
    requires i < |t.pool.members| && CascadeTrail(t, o, ttl, files, content, now, net, trail, done) && k < |trail|
    requires var tk := TierRun(t, o, ttl, Flat(trail[..k]));
             && FileHash(tk.pool, o, files[k], now, CallNet(net, 4 * k)).1 == Done(Some(h)) && Current(content, files[k]) != h
             && UpdateReached(tk, o, ttl, now, net, 4 * k, trail[k], i, h, Current(content, files[k]))
    requires forall a :: a in Flat(trail[k + 1..]) + acts ==> LeavesRetired(a, h)
    requires AnswersFrom(TierRun(TierRun(t, o, ttl, Flat(trail)), o, ttl, acts), key, later, reading, value, deps)
    ensures h !in deps
  {
    hide TierRun, FileTrail, AnswersFrom, UpdateReached, FileHash, LeavesRetired;
    var tk := TierRun(t, o, ttl, Flat(trail[..k]));
    assert TurnOf(t, o, ttl, files, content, now, net, trail, done, k);
    TurnRetiresIff(tk, o, ttl, files[k], content, now, net, 4 * k, trail[k], done || k + 1 < |trail|, i, h);
    var t1, rest := TierRun(tk, o, ttl, trail[k]), Flat(trail[k + 1..]);
    assert trail == trail[..k + 1] + trail[k + 1..] && trail[..k + 1][..k] == trail[..k];
    FlatAppend(trail[..k + 1], trail[k + 1..]);
    TierRunAppend(t, o, ttl, Flat(trail[..k]), trail[k]);
    TierRunAppend(t, o, ttl, Flat(trail[..k + 1]), rest);
    TierRunAppend(t1, o, ttl, rest, acts);
    RetiredHashIsNeverServed(t1, o, ttl, rest + acts, h, i, key, later, reading, value, deps);
  }
}
