/** The workspace change set: the difference of two snapshots as a list of before/after entries. */
module ChangeSet {
  import opened Wrappers
  import opened ByteOrder

  type Path = Bytes
  type Fingerprint = nat               // only ever compared for equality
  type Snapshot = map<Path, Fingerprint>

  datatype Entry = Entry(path: Path, before: Option<Fingerprint>, after: Option<Fingerprint>)

  function At(s: Snapshot, p: Path): Option<Fingerprint> {
    if p in s then Some(s[p]) else None
  }

  function Put(s: Snapshot, p: Path, f: Option<Fingerprint>): Snapshot {
    if f.Some? then s[p := f.value] else s - {p}
  }

  function Apply(s: Snapshot, entries: seq<Entry>): Snapshot
    decreases |entries|
  {
    if entries == [] then s
    else
      var rest := Apply(s, entries[..|entries| - 1]);
      var last := entries[|entries| - 1];
      Put(rest, last.path, last.after)
  }

  function Inverted(entries: seq<Entry>): (r: seq<Entry>)
    ensures |r| == |entries|
    ensures forall i :: 0 <= i < |r| ==> r[i] == Entry(entries[i].path, entries[i].after, entries[i].before)
  {
    seq(|entries|, i requires 0 <= i < |entries| => Entry(entries[i].path, entries[i].after, entries[i].before))
  }

  function Paths(entries: seq<Entry>): (r: seq<Path>)
    ensures |r| == |entries| && forall i :: 0 <= i < |r| ==> r[i] == entries[i].path
  {
    seq(|entries|, i requires 0 <= i < |entries| => entries[i].path)
  }

  /** The entries list, in path order, every path whose fingerprint differs, with both fingerprints. */
  ghost predicate Describes(baseline: Snapshot, after: Snapshot, entries: seq<Entry>) {
    && StrictlyAscending(Paths(entries))
    && (forall i :: 0 <= i < |entries| ==> entries[i].before == At(baseline, entries[i].path)
                                           && entries[i].after == At(after, entries[i].path))
    && (forall p :: p in Paths(entries) <==> At(baseline, p) != At(after, p))
  }

  lemma {:induction false} AppliedAt(s: Snapshot, entries: seq<Entry>, p: Path)
    ensures p !in Paths(entries) ==> At(Apply(s, entries), p) == At(s, p)
    ensures StrictlyAscending(Paths(entries)) ==>
              forall i :: 0 <= i < |entries| && entries[i].path == p ==> At(Apply(s, entries), p) == entries[i].after
    decreases |entries|
  {
    if entries != [] {
      var k := |entries| - 1;
      var init := entries[..k];
      AppliedAt(s, init, p);
      assert forall i :: 0 <= i < k ==> Paths(init)[i] == Paths(entries)[i];
      LessIsTotal(p, p);
      if p in Paths(init) {
        var i :| 0 <= i < k && Paths(init)[i] == p;
        assert Paths(entries)[i] == p;
      } else {
        forall i | 0 <= i < k ensures entries[i].path != p {
          assert Paths(init)[i] == entries[i].path;
        }
      }
    }
  }

  /** A change set is a correct patch: it turns the baseline into exactly the later snapshot. */
  lemma PatchIsCorrect(baseline: Snapshot, after: Snapshot, entries: seq<Entry>)
    requires Describes(baseline, after, entries)
    ensures Apply(baseline, entries) == after
  {
    var patched := Apply(baseline, entries);
    forall p ensures At(patched, p) == At(after, p) {
      AppliedAt(baseline, entries, p);
      if p in Paths(entries) {
        var i :| 0 <= i < |entries| && entries[i].path == p;
      }
    }
    SameAtEveryPath(patched, after);
  }

  lemma SameAtEveryPath(s: Snapshot, t: Snapshot)
    requires forall p :: At(s, p) == At(t, p)
    ensures s == t
  {
    forall p ensures p in s <==> p in t { assert At(s, p) == At(t, p); }
    forall p | p in s ensures s[p] == t[p] { assert At(s, p) == At(t, p); }
  }

  /** Swapping before and after in every entry gives the patch back from the later snapshot. */
  lemma InvertedPatchUndoes(baseline: Snapshot, after: Snapshot, entries: seq<Entry>)
    requires Describes(baseline, after, entries)
    ensures Describes(after, baseline, Inverted(entries)) && Apply(after, Inverted(entries)) == baseline
  {
    assert Paths(Inverted(entries)) == Paths(entries);
    PatchIsCorrect(after, baseline, Inverted(entries));
  }

  /** Only one list of entries describes a pair of snapshots, so the map iteration order cannot show. */
  lemma ChangeSetIsUnique(baseline: Snapshot, after: Snapshot, first: seq<Entry>, second: seq<Entry>)
    requires Describes(baseline, after, first) && Describes(baseline, after, second)
    ensures first == second
  {
    AscendingIsUnique(Paths(first), Paths(second));
    forall i | 0 <= i < |first| ensures first[i] == second[i] {
      assert Paths(first)[i] == Paths(second)[i];
    }
  }

  /** A hash map's keys, in whatever order it yields them. */
  method Keys(s: Snapshot) returns (keys: seq<Path>)
    ensures forall p :: p in keys <==> p in s
  {
    var left := s.Keys;
    keys := [];
    while left != {}
      invariant left <= s.Keys
      invariant forall p :: p in keys <==> p in s.Keys - left
      decreases left
    {
      var p :| p in left;
      left := left - {p};
      keys := keys + [p];
    }
  }

  method Collect(baseline: Snapshot, after: Snapshot) returns (observed: seq<Path>, entries: seq<Entry>)
    ensures Describes(baseline, after, entries) && observed == Paths(entries)
    ensures Apply(baseline, entries) == after
  {
    var first := Keys(baseline);
    var second := Keys(after);
    var keys := Deduplicated(Sorted(first + second));
    SortedIsAscending(first + second);
    DeduplicatedIsStrict(Sorted(first + second));
    observed, entries := [], [];
    var k := 0;
    while k < |keys|
      invariant 0 <= k <= |keys|
      invariant observed == Paths(entries)
      invariant StrictlyAscending(observed)
      invariant forall i, j :: 0 <= i < |observed| && k <= j < |keys| ==> Less(observed[i], keys[j])
      invariant forall i :: 0 <= i < |entries| ==> entries[i].before == At(baseline, entries[i].path)
                                                   && entries[i].after == At(after, entries[i].path)
      invariant forall p :: p in observed <==> p in keys[..k] && At(baseline, p) != At(after, p)
    {
      var path := keys[k];
      var before, current := At(baseline, path), At(after, path);
      assert keys[..k + 1] == keys[..k] + [path];
      if before != current {
        observed := observed + [path];
        entries := entries + [Entry(path, before, current)];
        assert observed == Paths(entries);
      }
      k := k + 1;
    }
    assert keys[..k] == keys;
    forall p | At(baseline, p) != At(after, p) ensures p in observed {
      assert p in first + second;
    }
    PatchIsCorrect(baseline, after, entries);
  }
}
