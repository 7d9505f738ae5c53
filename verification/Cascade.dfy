/**
  The invalidation cascade under any faults: from one changed file to every file that depends on it, dropping
  from both tiers what was built from their recorded hashes, redirecting those hashes and recording the new ones.
 */
module Cascade {
  import opened Wrappers
  import opened CacheMember
  import opened CachePool
  import opened TieredCache
  import opened TieredRuns
  import L1 = SessionCache
  import L2 = ExactCache

  /** What tracing one symbol gave: nothing when the trace failed, else a file for each node that has one. */
  type Trace = Option<seq<Option<Path>>>

  ghost predicate Traced(traces: seq<Trace>, file: Path) {
    exists i :: 0 <= i < |traces| && traces[i].Some? && Some(file) in traces[i].value
  }

  predicate NoRepeats(files: seq<Path>) {
    forall i, j :: 0 <= i < j < |files| ==> files[i] != files[j]
  }

  /** The changed file first, then every traced file once. */
  method AffectedFiles(filePath: Path, traces: seq<Trace>) returns (files: seq<Path>)
    ensures |files| > 0 && files[0] == filePath && NoRepeats(files)
    ensures forall f :: f in files <==> f == filePath || Traced(traces, f)
  {
    files := [filePath];
    var t := 0;
    while t < |traces|
      invariant 0 <= t <= |traces|
      invariant |files| > 0 && files[0] == filePath && NoRepeats(files)
      invariant forall f :: f in files <==> f == filePath || Traced(traces[..t], f)
    {
      assert traces[..t + 1] == traces[..t] + [traces[t]];
      if traces[t].Some? {
        files := AddNodes(files, traces[t].value);
      }
      TracedGrows(traces, t);
      t := t + 1;
    }
    assert traces[..t] == traces;
  }

  lemma TracedGrows(traces: seq<Trace>, t: nat)
    requires t < |traces|
    ensures forall f: Path :: Traced(traces[..t + 1], f) <==>
                        Traced(traces[..t], f) || (traces[t].Some? && Some(f) in traces[t].value)
  {
    forall f: Path ensures Traced(traces[..t + 1], f) <==> Traced(traces[..t], f) || (traces[t].Some? && Some(f) in traces[t].value) {
      if Traced(traces[..t], f) {
        var i :| 0 <= i < t && traces[..t][i].Some? && Some(f) in traces[..t][i].value;
        assert traces[..t + 1][i] == traces[i];
      }
      if Traced(traces[..t + 1], f) {
        var i :| 0 <= i <= t && traces[..t + 1][i].Some? && Some(f) in traces[..t + 1][i].value;
        if i < t { assert traces[..t][i] == traces[i]; }
      }
      if traces[t].Some? && Some(f) in traces[t].value { assert traces[..t + 1][t] == traces[t]; }
    }
  }

  method AddNodes(known: seq<Path>, nodes: seq<Option<Path>>) returns (files: seq<Path>)
    requires |known| > 0 && NoRepeats(known)
    ensures |files| > 0 && files[0] == known[0] && NoRepeats(files)
    ensures forall f :: f in files <==> f in known || Some(f) in nodes
  {
    files := known;
    var n := 0;
    while n < |nodes|
      invariant 0 <= n <= |nodes|
      invariant |files| > 0 && files[0] == known[0] && NoRepeats(files)
      invariant forall f :: f in files <==> f in known || Some(f) in nodes[..n]
    {
      assert nodes[..n + 1] == nodes[..n] + [nodes[n]];
      if nodes[n].Some? && nodes[n].value !in files {
        files := files + [nodes[n].value];
      }
      n := n + 1;
    }
    assert nodes[..n] == nodes;
  }

  // ---------------------------------------------------------------- one file

  /** The hash of the file as it is now; a file that cannot be read has its deleted revision. */
  function Current(content: map<Path, nat>, file: Path): Hash {
    if file in content then Content(content[file]) else Deleted(file)
  }

  /** The hash to invalidate: the recorded one, else the current one unless the file is gone. */
  function Outdated(recorded: Option<Hash>, current: Hash): Option<Hash> {
    if recorded.Some? then recorded else if current.Deleted? then None else Some(current)
  }

  function CallNet(net: seq<Network>, call: nat): Network {
    if call < |net| then net[call] else []
  }

  /** The operation came back; it throws only in fail-closed mode, when no member took the whole list. */
  ghost predicate Completed(t: Tiers, o: Options, a: TierAction)
    requires |t.pool.members| > 0
  {
    match a
    case Forget(dep, replies, now, net) =>
      |replies| == |t.pool.members| && WriteOutcome(t.pool, o, Invalidations(t.pool, dep, replies), net, now, ()).Done?
    case Elsewhere(Redirect(from, to, now, net)) => WriteOutcome(t.pool, o, ToAll(t.pool, [HSet(from, to)]), net, now, ()).Done?
    case Elsewhere(Record(path, hash, now, net)) => WriteOutcome(t.pool, o, ToAll(t.pool, [HSetFile(path, hash)]), net, now, ()).Done?
    case _ => true
  }

  /** The calls that drop a hash from both tiers and redirect it. */
  ghost predicate PurgeTrail(t: Tiers, o: Options, ttl: int, h: Hash, current: Hash, now: int, net: seq<Network>, call: nat,
                             acts: seq<TierAction>, done: bool)
    requires |t.pool.members| > 0
  {
    && |acts| > 0 && acts[0].Forget? && Replies(t.pool, h, acts[0].replies)
    && acts[0] == Forget(h, acts[0].replies, now, CallNet(net, call + 1))
    && if !Completed(t, o, acts[0]) then |acts| == 1 && !done
       else acts[1..] == [Elsewhere(Redirect(h, current, now, CallNet(net, call + 2)))]
            && done == Completed(TierNext(t, o, ttl, acts[0]), o, acts[1])
  }

  /** The calls of one file's turn, in order, up to the first that throws. */
  ghost predicate FileTrail(t: Tiers, o: Options, ttl: int, file: Path, content: map<Path, nat>, now: int, net: seq<Network>, call: nat,
                            acts: seq<TierAction>, done: bool)
    requires |t.pool.members| > 0
  {
    var asked := FileHash(t.pool, o, file, now, CallNet(net, call)).1;
    var current := Current(content, file);
    var record := Elsewhere(Record(file, current, now, CallNet(net, call + 3)));
    && |acts| > 0 && acts[0] == Elsewhere(Ask(file, now, CallNet(net, call)))
    && if asked.Unavailable? then |acts| == 1 && !done
       else
         var t1 := TierNext(t, o, ttl, acts[0]);
         match Outdated(asked.value, current)
         case None => acts[1..] == [record] && done == Completed(t1, o, record)
         case Some(h) =>
           if |acts| < 4 then PurgeTrail(t1, o, ttl, h, current, now, net, call, acts[1..], false) && !done
           else
             && |acts| == 4 && PurgeTrail(t1, o, ttl, h, current, now, net, call, acts[1..3], true)
             && acts[3] == record && done == Completed(TierRun(t1, o, ttl, acts[1..3]), o, record)
  }

  ghost function Flat(trail: seq<seq<TierAction>>): seq<TierAction>
    decreases |trail|
  {
    if trail == [] then [] else Flat(trail[..|trail| - 1]) + trail[|trail| - 1]
  }

  /** The turns of the listed files, in order, up to the first that throws. */
  ghost predicate CascadeTrail(t: Tiers, o: Options, ttl: int, files: seq<Path>, content: map<Path, nat>, now: int, net: seq<Network>,
                               trail: seq<seq<TierAction>>, done: bool)
    requires |t.pool.members| > 0
  {
    && |trail| <= |files| && (done ==> |trail| == |files|) && (!done ==> |trail| > 0)
    && forall k :: 0 <= k < |trail| ==> TurnOf(t, o, ttl, files, content, now, net, trail, done, k)
  }

  ghost predicate TurnOf(t: Tiers, o: Options, ttl: int, files: seq<Path>, content: map<Path, nat>, now: int, net: seq<Network>,
                         trail: seq<seq<TierAction>>, done: bool, k: nat)
    requires |t.pool.members| > 0 && k < |trail| <= |files|
  {
    FileTrail(TierRun(t, o, ttl, Flat(trail[..k])), o, ttl, files[k], content, now, net, 4 * k, trail[k], done || k + 1 < |trail|)
  }

  /** What an operation reports as dropped from both tiers. */
  ghost function Removed(t: Tiers, a: TierAction): int
    requires |t.pool.members| > 0
  {
    if a.Forget? && |a.replies| == |t.pool.members|
    then |t.store| - |L1.Without(t.store, a.dep)| + MostRemoved(t.pool, a.dep, a.replies, a.net, a.now, |t.pool.members|)
    else 0
  }

  ghost function Removals(t: Tiers, o: Options, ttl: int, acts: seq<TierAction>): int
    requires |t.pool.members| > 0
    decreases |acts|
  {
    if acts == [] then 0 else Removed(t, acts[0]) + Removals(TierNext(t, o, ttl, acts[0]), o, ttl, acts[1..])
  }

  lemma {:induction false} TierRunAppend(t: Tiers, o: Options, ttl: int, acts: seq<TierAction>, more: seq<TierAction>)
    requires |t.pool.members| > 0
    ensures TierRun(t, o, ttl, acts + more) == TierRun(TierRun(t, o, ttl, acts), o, ttl, more)
    ensures Removals(t, o, ttl, acts + more) == Removals(t, o, ttl, acts) + Removals(TierRun(t, o, ttl, acts), o, ttl, more)
    decreases |acts|
  {
    if acts == [] {
      assert acts + more == more;
    } else {
      assert (acts + more)[1..] == acts[1..] + more;
      TierRunAppend(TierNext(t, o, ttl, acts[0]), o, ttl, acts[1..], more);
    }
  }

  lemma TierRunOne(t: Tiers, o: Options, ttl: int, a: TierAction)
    requires |t.pool.members| > 0
    ensures TierRun(t, o, ttl, [a]) == TierNext(t, o, ttl, a) && Removals(t, o, ttl, [a]) == Removed(t, a)
  {
    assert [a][1..] == [];
  }

  // ---------------------------------------------------------------- the methods

  ghost function Both(l1: L1.L1SessionCache, l2: L2.RedisExactCache): Tiers
    reads l1, l2
  {
    Tiers(l1.store, l2.View())
  }

  // The calls on the replicas, each as one action on both tiers.

  method ReadRecorded(file: Path, l1: L1.L1SessionCache, l2: L2.RedisExactCache, now: int, net: Network) returns (r: Outcome<Option<Hash>>)
    requires l2.Valid()
    modifies l2
    ensures l2.Valid() && r == FileHash(old(l2.View()), l2.options, file, now, net).1
    ensures Both(l1, l2) == TierNext(old(Both(l1, l2)), l2.options, l1.defaultTtl, Elsewhere(Ask(file, now, net)))
  {
    hide FileHash;
    r := l2.GetFileHash(file, now, net);
  }

  method Forgetting(h: Hash, l1: L1.L1SessionCache, l2: L2.RedisExactCache, now: int, net: Network) returns (r: Outcome<nat>, ghost a: TierAction)
    requires l2.Valid()
    modifies l1, l2
    ensures l2.Valid() && a.Forget? && a == Forget(h, a.replies, now, net) && Replies(old(l2.View()), h, a.replies)
    ensures Both(l1, l2) == TierNext(old(Both(l1, l2)), l2.options, l1.defaultTtl, a)
    ensures r.Done? == Completed(old(Both(l1, l2)), l2.options, a)
    ensures r.Done? ==> r.value == Removed(old(Both(l1, l2)), a)
  {
    hide Next, MostRemoved, Invalidations, L1.Without;
    var first := l1.InvalidateHash(h);
    var second, replies := l2.InvalidateHash(h, now, net);
    a := Forget(h, replies, now, net);
    if second.Unavailable? { return Unavailable, a; }
    return Done(first + second.value), a;
  }

  method Redirecting(h: Hash, current: Hash, l1: L1.L1SessionCache, l2: L2.RedisExactCache, now: int, net: Network) returns (r: Outcome<()>)
    requires l2.Valid()
    modifies l2
    ensures l2.Valid()
    ensures var a := Elsewhere(Redirect(h, current, now, net));
            && Both(l1, l2) == TierNext(old(Both(l1, l2)), l2.options, l1.defaultTtl, a)
            && r.Done? == Completed(old(Both(l1, l2)), l2.options, a)
  {
    hide Next;
    r := l2.UpdateHash(h, current, now, net);
  }

  method Recording(file: Path, current: Hash, l1: L1.L1SessionCache, l2: L2.RedisExactCache, now: int, net: Network) returns (r: Outcome<()>)
    requires l2.Valid()
    modifies l2
    ensures l2.Valid()
    ensures var a := Elsewhere(Record(file, current, now, net));
            && Both(l1, l2) == TierNext(old(Both(l1, l2)), l2.options, l1.defaultTtl, a)
            && r.Done? == Completed(old(Both(l1, l2)), l2.options, a)
  {
    hide Next;
    r := l2.RecordFileHash(file, current, now, net);
  }

  /** Drops the outdated hash from both tiers and redirects it. */
  method Purge(outdated: Hash, current: Hash, l1: L1.L1SessionCache, l2: L2.RedisExactCache, now: int, net: seq<Network>, call: nat)
    returns (r: Outcome<nat>, ghost acts: seq<TierAction>)
    requires l2.Valid()
    modifies l1, l2
    ensures l2.Valid() && Both(l1, l2) == TierRun(old(Both(l1, l2)), l2.options, l1.defaultTtl, acts)
    ensures PurgeTrail(old(Both(l1, l2)), l2.options, l1.defaultTtl, outdated, current, now, net, call, acts, r.Done?)
    ensures r.Done? ==> r.value == Removals(old(Both(l1, l2)), l2.options, l1.defaultTtl, acts)
  {
    hide TierNext, Completed, MostRemoved;
    ghost var t, o, ttl := Both(l1, l2), l2.options, l1.defaultTtl;
    ghost var forget;
    r, forget := Forgetting(outdated, l1, l2, now, CallNet(net, call + 1));
    acts := [forget];
    TierRunOne(t, o, ttl, forget);
    if r.Unavailable? { return; }
    ghost var redirect := Elsewhere(Redirect(outdated, current, now, CallNet(net, call + 2)));
    var redirected := Redirecting(outdated, current, l1, l2, now, CallNet(net, call + 2));
    TierRunAppend(t, o, ttl, acts, [redirect]);
    TierRunOne(TierNext(t, o, ttl, forget), o, ttl, redirect);
    acts := acts + [redirect];
    assert acts[1..] == [redirect];
    if redirected.Unavailable? { return Unavailable, acts; }
  }

  /** The cascade's work on one file. */
  method RefreshFile(file: Path, content: map<Path, nat>, l1: L1.L1SessionCache, l2: L2.RedisExactCache, now: int,
                     net: seq<Network>, call: nat) returns (r: Outcome<nat>, ghost acts: seq<TierAction>)
    requires l2.Valid()
    modifies l1, l2
    ensures l2.Valid() && Both(l1, l2) == TierRun(old(Both(l1, l2)), l2.options, l1.defaultTtl, acts)
    ensures FileTrail(old(Both(l1, l2)), l2.options, l1.defaultTtl, file, content, now, net, call, acts, r.Done?)
    ensures r.Done? ==> r.value == Removals(old(Both(l1, l2)), l2.options, l1.defaultTtl, acts)
  {
    hide TierNext, Completed, MostRemoved, FileHash, PurgeTrail, Current;
    ghost var t, o, ttl := Both(l1, l2), l2.options, l1.defaultTtl;
    ghost var ask := Elsewhere(Ask(file, now, CallNet(net, call)));
    var recorded := ReadRecorded(file, l1, l2, now, CallNet(net, call));
    acts := [ask];
    TierRunOne(t, o, ttl, ask);
    if recorded.Unavailable? { return Unavailable, acts; }
    var current := Current(content, file);
    var outdated := Outdated(recorded.value, current);
    r := Done(0);
    ghost var t1, purge := Both(l1, l2), [];
    if outdated.Some? {
      r, purge := Purge(outdated.value, current, l1, l2, now, net, call);
      PurgeIsShort(t1, o, ttl, outdated.value, current, now, net, call, purge, r.Done?);
    }
    TierRunAppend(t, o, ttl, [ask], purge);
    acts := [ask] + purge;
    if r.Unavailable? { return; }
    ghost var t2, record := Both(l1, l2), Elsewhere(Record(file, current, now, CallNet(net, call + 3)));
    var written := Recording(file, current, l1, l2, now, CallNet(net, call + 3));
    TierRunAppend(t, o, ttl, acts, [record]);
    TierRunOne(t2, o, ttl, record);
    acts := acts + [record];
    if outdated.Some? { assert acts[1..3] == purge; }
    if written.Unavailable? { return Unavailable, acts; }
  }

  lemma PurgeIsShort(t: Tiers, o: Options, ttl: int, h: Hash, current: Hash, now: int, net: seq<Network>, call: nat,
                     acts: seq<TierAction>, done: bool)
    requires |t.pool.members| > 0 && PurgeTrail(t, o, ttl, h, current, now, net, call, acts, done)
    ensures if done then |acts| == 2 else 1 <= |acts| <= 2
  {
  }

  /**
    Whatever the network does, both tiers move by the listed turns: for each affected file, in order, its
    recorded hash is read, forgotten and redirected and the new one recorded, up to the first call that
    throws; and the reported count adds up what every call dropped.
   */
  method InvalidateCascade(filePath: Path, traces: seq<Trace>, content: map<Path, nat>, l1: L1.L1SessionCache,
                           l2: L2.RedisExactCache, now: int, net: seq<Network>)
    returns (files: seq<Path>, entries: Outcome<int>, ghost trail: seq<seq<TierAction>>)
    requires l2.Valid()
    modifies l1, l2
    ensures l2.Valid() && NoRepeats(files) && |files| > 0 && files[0] == filePath
    ensures forall f :: f in files <==> f == filePath || Traced(traces, f)
    ensures Both(l1, l2) == TierRun(old(Both(l1, l2)), l2.options, l1.defaultTtl, Flat(trail))
    ensures CascadeTrail(old(Both(l1, l2)), l2.options, l1.defaultTtl, files, content, now, net, trail, entries.Done?)
    ensures entries.Done? ==> entries.value == Removals(old(Both(l1, l2)), l2.options, l1.defaultTtl, Flat(trail))
  {
    files := AffectedFiles(filePath, traces);
    ghost var t, o, ttl := Both(l1, l2), l2.options, l1.defaultTtl;
    var total := 0;
    var k := 0;
    trail := [];
    while k < |files|
      invariant 0 <= k <= |files| && l2.Valid() && |trail| == k
      invariant Both(l1, l2) == TierRun(t, o, ttl, Flat(trail)) && total == Removals(t, o, ttl, Flat(trail))
      invariant CascadeTrail(t, o, ttl, files[..k], content, now, net, trail, true)
    {
      hide *;
      ghost var acts;
      var dropped;
      dropped, acts := RefreshFile(files[k], content, l1, l2, now, net, 4 * k);
      TurnAdded(t, o, ttl, files, content, now, net, trail, acts, dropped.Done?);
      TierRunAppend(t, o, ttl, Flat(trail), acts);
      trail := trail + [acts];
      if dropped.Unavailable? { return files, Unavailable, trail; }
      total := total + dropped.value;
      k := k + 1;
    }
    assert files[..k] == files;
    return files, Done(total), trail;
  }

  lemma TurnAdded(t: Tiers, o: Options, ttl: int, files: seq<Path>, content: map<Path, nat>, now: int, net: seq<Network>,
                  trail: seq<seq<TierAction>>, acts: seq<TierAction>, done: bool)
    requires |t.pool.members| > 0 && |trail| < |files|
    requires CascadeTrail(t, o, ttl, files[..|trail|], content, now, net, trail, true)
    requires FileTrail(TierRun(t, o, ttl, Flat(trail)), o, ttl, files[|trail|], content, now, net, 4 * |trail|, acts, done)
    ensures Flat(trail + [acts]) == Flat(trail) + acts
    ensures CascadeTrail(t, o, ttl, if done then files[..|trail| + 1] else files, content, now, net, trail + [acts], done)
  {
    hide FileTrail, TierRun;
    var n, longer := |trail|, trail + [acts];
    assert longer[..n] == trail;
    var listed := if done then files[..n + 1] else files;
    forall k | 0 <= k <= n ensures TurnOf(t, o, ttl, listed, content, now, net, longer, done, k) {
      assert listed[k] == files[k];
      if k < n {
        assert TurnOf(t, o, ttl, files[..n], content, now, net, trail, true, k);
        assert longer[..k] == trail[..k];
      }
    }
  }
}
