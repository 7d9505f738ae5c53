/**
  Merging the answers of mirrored semantic stores: one record per candidate, the newest payload first
  and then the nearest, sorted by distance, age and identity, cut to the requested number.
 */
module MirrorMerge {
  import opened Wrappers

  /** `id` is the candidate's rank in collation order; a creation time that does not parse is absent. */
  type Id = nat

  datatype Record = Record(id: Id, createdAt: Option<int>, distance: real, payload: nat)

  /** What the merge and the sort look at. */
  datatype Rank = Rank(distance: real, created: int, id: Id)

  function CreatedAtMs(r: Record): int {
    if r.createdAt.Some? then r.createdAt.value else 0
  }

  function RankOf(r: Record): Rank {
    Rank(r.distance, CreatedAtMs(r), r.id)
  }

  /** Which of two records of one candidate is preferred. */
  predicate Beats(a: Rank, b: Rank) {
    a.created > b.created || (a.created == b.created && a.distance < b.distance)
  }

  /** The order of the result. */
  predicate Before(a: Rank, b: Rank) {
    a.distance < b.distance
    || (a.distance == b.distance && (a.created > b.created || (a.created == b.created && a.id < b.id)))
  }

  function Limit(topK: real): (k: nat)
    ensures k >= 1
  {
    if topK < 1.0 then 1 else topK.Floor
  }

  // ---------------------------------------------------------------- what a merge is

  ghost predicate IsBest(all: set<Rank>, x: Rank) {
    x in all && forall y :: y in all && y.id == x.id ==> !Beats(y, x)
  }

  predicate StrictlySorted(s: seq<Rank>) {
    forall i, j :: 0 <= i < j < |s| ==> Before(s[i], s[j])
  }

  /**
    At most k ranks, sorted, each the best of its candidate over everything read; and a candidate is
    left out only when k others sort before it.
   */
  ghost predicate IsMerge(all: set<Rank>, k: nat, out: seq<Rank>) {
    && |out| <= k && StrictlySorted(out)
    && (forall i :: 0 <= i < |out| ==> IsBest(all, out[i]))
    && (forall x :: IsBest(all, x) && x !in out ==> |out| == k && forall i :: 0 <= i < |out| ==> Before(out[i], x))
  }

  /** A candidate has one best rank, so the ids of a merge are distinct. */
  lemma MergedIdsAreDistinct(all: set<Rank>, k: nat, out: seq<Rank>, i: nat, j: nat)
    requires IsMerge(all, k, out) && i < j < |out|
    ensures out[i].id != out[j].id
  {
    assert IsBest(all, out[i]) && IsBest(all, out[j]);
    assert Before(out[i], out[j]);
  }

  /** Up to the first `n` positions two merges of the same ranks agree. */
  lemma {:induction false} MergesAgreeUpTo(all: set<Rank>, k: nat, s: seq<Rank>, t: seq<Rank>, n: nat)
    requires IsMerge(all, k, s) && IsMerge(all, k, t) && n <= |s| && n <= |t|
    ensures s[..n] == t[..n]
    decreases n
  {
    hide IsMerge, Before;
    if n > 0 {
      MergesAgreeUpTo(all, k, s, t, n - 1);
      forall i | 0 <= i < n - 1 ensures s[i] == t[i] {
        assert s[..n - 1][i] == t[..n - 1][i];
      }
      NextAgrees(all, k, s, t, n - 1);
      NextAgrees(all, k, t, s, n - 1);
    }
  }

  /** The next element of one merge cannot sort before the next element of the other. */
  lemma NextAgrees(all: set<Rank>, k: nat, s: seq<Rank>, t: seq<Rank>, n: nat)
    requires IsMerge(all, k, s) && IsMerge(all, k, t) && n < |s| && n < |t|
    requires forall i :: 0 <= i < n ==> s[i] == t[i]
    ensures !Before(s[n], t[n])
    ensures !Before(t[n], s[n]) ==> s[n] == t[n]
  {
    assert IsBest(all, s[n]);
    if Before(s[n], t[n]) {
      forall i | 0 <= i < |t| ensures t[i] != s[n] {
        if i < n { assert Before(s[i], s[n]); } else if i > n { assert Before(t[n], t[i]); }
      }
    }
  }

  /** A merge is determined by the set of ranks read: neither the order of members nor that of records can show. */
  lemma MergeIsUnique(all: set<Rank>, k: nat, s: seq<Rank>, t: seq<Rank>)
    requires IsMerge(all, k, s) && IsMerge(all, k, t)
    ensures s == t
  {
    var n := if |s| < |t| then |s| else |t|;
    MergesAgreeUpTo(all, k, s, t, n);
    NoLonger(all, k, s, t);
    NoLonger(all, k, t, s);
    assert s[..n] == s && t[..n] == t;
  }

  lemma NoLonger(all: set<Rank>, k: nat, s: seq<Rank>, t: seq<Rank>)
    requires IsMerge(all, k, s) && IsMerge(all, k, t)
    ensures |t| <= |s|
  {
    if |s| < |t| {
      MergesAgreeUpTo(all, k, s, t, |s|);
      var x := t[|s|];
      assert IsBest(all, x);
      forall i | 0 <= i < |s| ensures s[i] != x {
        assert s[..|s|][i] == t[..|s|][i];
        assert Before(t[i], x);
      }
    }
  }

  // ---------------------------------------------------------------- the code

  function Ranks(rs: seq<Record>): (s: seq<Rank>)
    ensures |s| == |rs| && forall i :: 0 <= i < |s| ==> s[i] == RankOf(rs[i])
  {
    seq(|rs|, i requires 0 <= i < |rs| => RankOf(rs[i]))
  }

  ghost function RankSet(rs: seq<Record>): set<Rank> {
    set r | r in rs :: RankOf(r)
  }

  function Flat(results: seq<seq<Record>>): seq<Record>
    decreases |results|
  {
    if results == [] then [] else Flat(results[..|results| - 1]) + results[|results| - 1]
  }

  /** The map holds, under each id read so far, a record of it that no other one read beats. */
  ghost predicate HoldsBest(byId: map<Id, Record>, seen: seq<Record>) {
    && (forall id :: id in byId ==> byId[id].id == id && byId[id] in seen)
    && (forall r :: r in seen ==> r.id in byId && !Beats(RankOf(r), RankOf(byId[r.id])))
  }

  function Preferred(byId: map<Id, Record>, r: Record): map<Id, Record> {
    if r.id !in byId || Beats(RankOf(r), RankOf(byId[r.id])) then byId[r.id := r] else byId
  }

  lemma PreferredHoldsBest(byId: map<Id, Record>, seen: seq<Record>, r: Record)
    requires HoldsBest(byId, seen)
    ensures HoldsBest(Preferred(byId, r), seen + [r])
  {
    var after := Preferred(byId, r);
    forall x | x in seen + [r] ensures x.id in after && !Beats(RankOf(x), RankOf(after[x.id])) {
      if x in seen { assert !Beats(RankOf(x), RankOf(byId[x.id])); }
    }
  }

  method ReadMember(before: map<Id, Record>, seen: seq<Record>, candidates: seq<Record>) returns (byId: map<Id, Record>)
    requires HoldsBest(before, seen)
    ensures HoldsBest(byId, seen + candidates)
  {
    byId := before;
    var k := 0;
    assert seen + candidates[..0] == seen;
    while k < |candidates|
      invariant 0 <= k <= |candidates| && HoldsBest(byId, seen + candidates[..k])
    {
      var candidate := candidates[k];
      PreferredHoldsBest(byId, seen + candidates[..k], candidate);
      assert seen + candidates[..k + 1] == seen + candidates[..k] + [candidate];
      if candidate.id !in byId {
        byId := byId[candidate.id := candidate];
      } else {
        var current := byId[candidate.id];
        if CreatedAtMs(candidate) > CreatedAtMs(current)
           || (CreatedAtMs(candidate) == CreatedAtMs(current) && candidate.distance < current.distance) {
          byId := byId[candidate.id := candidate];
        }
      }
      k := k + 1;
    }
    assert candidates[..k] == candidates;
  }

  /** Puts a record of a new candidate in its place. */
  function Placed(r: Record, s: seq<Record>): seq<Record>
    decreases |s|
  {
    if s == [] || Before(RankOf(r), RankOf(s[0])) then [r] + s else [s[0]] + Placed(r, s[1..])
  }

  lemma {:induction false} PlacedIsSorted(r: Record, s: seq<Record>)
    requires StrictlySorted(Ranks(s)) && forall x :: x in s ==> x.id != r.id
    ensures StrictlySorted(Ranks(Placed(r, s)))
    ensures forall x :: x in Placed(r, s) <==> x == r || x in s
    ensures Placed(r, s)[0] == r || (s != [] && Placed(r, s)[0] == s[0])
    decreases |s|
  {
    if s != [] && !Before(RankOf(r), RankOf(s[0])) {
      assert s[0] in s && Before(RankOf(s[0]), RankOf(r));
      assert forall i, j :: 0 <= i < j < |s| ==> Before(Ranks(s)[i], Ranks(s)[j]);
      assert StrictlySorted(Ranks(s[1..])) by {
        forall i, j | 0 <= i < j < |s[1..]| ensures Before(Ranks(s[1..])[i], Ranks(s[1..])[j]) {
          assert Before(Ranks(s)[i + 1], Ranks(s)[j + 1]);
        }
      }
      PlacedIsSorted(r, s[1..]);
      var rest := Placed(r, s[1..]);
      HeadFirst(s[0], rest);
      assert s == [s[0]] + s[1..];
    } else {
      HeadFirst(r, s);
    }
  }

  lemma HeadFirst(head: Record, rest: seq<Record>)
    requires StrictlySorted(Ranks(rest)) && (rest != [] ==> Before(RankOf(head), RankOf(rest[0])))
    ensures StrictlySorted(Ranks([head] + rest))
  {
    var all := Ranks([head] + rest);
    forall i, j | 0 <= i < j < |all| ensures Before(all[i], all[j]) {
      if i > 0 {
        assert Before(Ranks(rest)[i - 1], Ranks(rest)[j - 1]);
      } else if j > 1 {
        assert Before(Ranks(rest)[0], Ranks(rest)[j - 1]);
      }
    }
  }

  method SortValues(byId: map<Id, Record>) returns (sorted: seq<Record>)
    requires forall id :: id in byId ==> byId[id].id == id
    ensures StrictlySorted(Ranks(sorted))
    ensures forall r :: r in sorted <==> r.id in byId && byId[r.id] == r
  {
    sorted := [];
    var left := byId.Keys;
    while left != {}
      invariant left <= byId.Keys
      invariant StrictlySorted(Ranks(sorted))
      invariant forall r :: r in sorted <==> r.id in byId && r.id !in left && byId[r.id] == r
      decreases left
    {
      var id :| id in left;
      PlacedIsSorted(byId[id], sorted);
      sorted := Placed(byId[id], sorted);
      left := left - {id};
    }
  }

  function Cut(sorted: seq<Record>, k: nat): seq<Record> {
    if |sorted| <= k then sorted else sorted[..k]
  }

  /** The list holds exactly the map's values. */
  ghost predicate ListsValues(byId: map<Id, Record>, sorted: seq<Record>) {
    forall r :: r in sorted <==> r.id in byId && byId[r.id] == r
  }

  /** The map's values, sorted and cut, are a merge of everything read. */
  lemma CutIsMerge(byId: map<Id, Record>, seen: seq<Record>, sorted: seq<Record>, k: nat)
    requires HoldsBest(byId, seen) && StrictlySorted(Ranks(sorted)) && ListsValues(byId, sorted)
    ensures IsMerge(RankSet(seen), k, Ranks(Cut(sorted, k)))
  {
    hide HoldsBest, RankSet, IsBest;
    var all, out := RankSet(seen), Cut(sorted, k);
    forall i | 0 <= i < |out| ensures IsBest(all, Ranks(out)[i]) {
      assert sorted[i] in sorted && byId[sorted[i].id] == sorted[i];
      HeldIsBest(byId, seen, sorted[i].id);
    }
    forall x | IsBest(all, x) && x !in Ranks(out)
      ensures |out| == k && forall i :: 0 <= i < |out| ==> Before(Ranks(out)[i], x)
    {
      BestIsHeld(byId, seen, x);
      CutOffIsLater(byId, sorted, k, x);
    }
    forall i, j | 0 <= i < j < |out| ensures Before(Ranks(out)[i], Ranks(out)[j]) {
      assert Before(Ranks(sorted)[i], Ranks(sorted)[j]);
    }
  }

  /** What the cut leaves out comes after everything it keeps. */
  lemma CutOffIsLater(byId: map<Id, Record>, sorted: seq<Record>, k: nat, x: Rank)
    requires StrictlySorted(Ranks(sorted)) && ListsValues(byId, sorted)
    requires x.id in byId && byId[x.id].id == x.id && RankOf(byId[x.id]) == x && x !in Ranks(Cut(sorted, k))
    ensures |Cut(sorted, k)| == k && forall i :: 0 <= i < k ==> Before(Ranks(Cut(sorted, k))[i], x)
  {
    hide Before;
    var out := Cut(sorted, k);
    assert byId[x.id] in sorted;
    var j :| 0 <= j < |sorted| && sorted[j] == byId[x.id];
    assert forall i :: 0 <= i < |out| ==> Ranks(out)[i] in Ranks(out) && Ranks(out)[i] == RankOf(sorted[i]);
    assert |out| == k && j >= k;
    forall i | 0 <= i < k ensures Before(Ranks(out)[i], x) { assert Before(Ranks(sorted)[i], Ranks(sorted)[j]); }
  }

  lemma HeldIsBest(byId: map<Id, Record>, seen: seq<Record>, id: Id)
    requires HoldsBest(byId, seen) && id in byId
    ensures IsBest(RankSet(seen), RankOf(byId[id]))
  {
    assert RankOf(byId[id]) in RankSet(seen);
    forall y | y in RankSet(seen) && y.id == id ensures !Beats(y, RankOf(byId[id])) {
      var r :| r in seen && RankOf(r) == y;
    }
  }

  lemma BestIsHeld(byId: map<Id, Record>, seen: seq<Record>, x: Rank)
    requires HoldsBest(byId, seen) && IsBest(RankSet(seen), x)
    ensures x.id in byId && byId[x.id].id == x.id && RankOf(byId[x.id]) == x
  {
    var r :| r in seen && RankOf(r) == x;
    assert RankOf(byId[x.id]) in RankSet(seen);
  }

  method Merge(results: seq<seq<Record>>, topK: real) returns (out: seq<Record>)
    ensures IsMerge(RankSet(Flat(results)), Limit(topK), Ranks(out))
    ensures forall r :: r in out ==> r in Flat(results)
  {
    var byId: map<Id, Record> := map[];
    var m := 0;
    while m < |results|
      invariant 0 <= m <= |results| && HoldsBest(byId, Flat(results[..m]))
    {
      byId := ReadMember(byId, Flat(results[..m]), results[m]);
      assert results[..m + 1][..m] == results[..m];
      m := m + 1;
    }
    assert results[..m] == results;
    var sorted := SortValues(byId);
    var k := Limit(topK);
    CutIsMerge(byId, Flat(results), sorted, k);
    out := if |sorted| <= k then sorted else sorted[..k];
  }

  /** The pool answers when any member does, from the members that answered. */
  method Query(answers: seq<Option<seq<Record>>>, topK: real) returns (r: Option<seq<Record>>)
    ensures r.None? <==> forall i :: 0 <= i < |answers| ==> answers[i].None?
    ensures r.Some? ==> IsMerge(RankSet(Flat(Successes(answers))), Limit(topK), Ranks(r.value))
  {
    var successful: seq<seq<Record>> := [];
    var k := 0;
    while k < |answers|
      invariant 0 <= k <= |answers| && successful == Successes(answers[..k])
      invariant successful == [] <==> forall i :: 0 <= i < k ==> answers[i].None?
    {
      assert answers[..k + 1][..k] == answers[..k];
      if answers[k].Some? { successful := successful + [answers[k].value]; }
      k := k + 1;
    }
    assert answers[..k] == answers;
    if successful == [] { return None; }
    var merged := Merge(successful, topK);
    return Some(merged);
  }

  function Successes(answers: seq<Option<seq<Record>>>): seq<seq<Record>>
    decreases |answers|
  {
    if answers == [] then []
    else
      var init, last := Successes(answers[..|answers| - 1]), answers[|answers| - 1];
      if last.Some? then init + [last.value] else init
  }

  // ---------------------------------------------------------------- order of members and of records

  /** Some member returned the record. */
  ghost predicate Returned(results: seq<seq<Record>>, r: Record) {
    exists i :: 0 <= i < |results| && r in results[i]
  }

  lemma {:induction false} FlatMembers(results: seq<seq<Record>>, r: Record)
    ensures r in Flat(results) <==> Returned(results, r)
    decreases |results|
  {
    if results != [] {
      var k := |results| - 1;
      FlatMembers(results[..k], r);
      if r in Flat(results[..k]) {
        assert Returned(results[..k], r);
        var i :| 0 <= i < |results[..k]| && r in results[..k][i];
        assert r in results[i];
      }
      if Returned(results, r) {
        var i :| 0 <= i < |results| && r in results[i];
        if i < k { assert r in results[..k][i]; }
      }
    }
  }

  /** Two pools that read the same records, in any order and split over members in any way, answer with the same ranks. */
  lemma OrderDoesNotShow(first: seq<seq<Record>>, second: seq<seq<Record>>, k: nat, out0: seq<Record>, out1: seq<Record>)
    requires forall r :: Returned(first, r) <==> Returned(second, r)
    requires IsMerge(RankSet(Flat(first)), k, Ranks(out0)) && IsMerge(RankSet(Flat(second)), k, Ranks(out1))
    ensures Ranks(out0) == Ranks(out1)
  {
    forall r ensures r in Flat(first) <==> r in Flat(second) {
      FlatMembers(first, r);
      FlatMembers(second, r);
    }
    assert RankSet(Flat(first)) == RankSet(Flat(second));
    MergeIsUnique(RankSet(Flat(first)), k, Ranks(out0), Ranks(out1));
  }
}
