/**
  Packing under a token budget: duplicates go, then items are accepted one by one, best score first,
  each only if the pack stamped with the base warnings still fits.
 */
module BudgetOptimizer {
  import opened Wrappers
  import opened ContextPack

  // ---------------------------------------------------------------- duplicates

  function Keys(cs: seq<Candidate>): set<(Section, nat)> {
    set c | c in cs :: KeyOf(c)
  }

  /** The first candidate of every diversity key, in order. */
  function Unique(cs: seq<Candidate>): seq<Candidate>
    decreases |cs|
  {
    if cs == [] then []
    else
      var init := Unique(cs[..|cs| - 1]);
      var last := cs[|cs| - 1];
      if KeyOf(last) in Keys(init) then init else init + [last]
  }

  ghost predicate DistinctKeys(cs: seq<Candidate>) {
    forall i, j :: 0 <= i < j < |cs| ==> KeyOf(cs[i]) != KeyOf(cs[j])
  }

  lemma KeysOfAppend(cs: seq<Candidate>, c: Candidate)
    ensures Keys(cs + [c]) == Keys(cs) + {KeyOf(c)}
  {
    forall k | k in Keys(cs) + {KeyOf(c)} ensures k in Keys(cs + [c]) {
      if k in Keys(cs) {
        var d :| d in cs && KeyOf(d) == k;
        assert d in cs + [c];
      } else {
        assert c in cs + [c];
      }
    }
  }

  lemma DistinctAppend(cs: seq<Candidate>, c: Candidate)
    ensures DistinctKeys(cs + [c]) <==> DistinctKeys(cs) && KeyOf(c) !in Keys(cs)
  {
    var all := cs + [c];
    if DistinctKeys(all) {
      forall d | d in cs ensures KeyOf(d) != KeyOf(c) {
        var i :| 0 <= i < |cs| && cs[i] == d;
        assert all[i] == d && all[|cs|] == c;
      }
      assert forall i :: 0 <= i < |cs| ==> all[i] == cs[i];
    }
    if KeyOf(c) !in Keys(cs) {
      forall i | 0 <= i < |cs| ensures KeyOf(all[i]) != KeyOf(c) { assert all[i] in cs; }
    }
  }

  lemma {:induction false} UniqueIsDistinct(cs: seq<Candidate>)
    ensures DistinctKeys(Unique(cs)) && Keys(Unique(cs)) == Keys(cs)
    ensures forall c :: c in Unique(cs) ==> c in cs
    decreases |cs|
  {
    if cs != [] {
      var init, last := cs[..|cs| - 1], cs[|cs| - 1];
      UniqueIsDistinct(init);
      assert cs == init + [last];
      KeysOfAppend(init, last);
      KeysOfAppend(Unique(init), last);
      DistinctAppend(Unique(init), last);
    }
  }

  lemma {:induction false} DistinctIsUnique(cs: seq<Candidate>)
    requires DistinctKeys(cs)
    ensures Unique(cs) == cs
    decreases |cs|
  {
    if cs != [] {
      var init, last := cs[..|cs| - 1], cs[|cs| - 1];
      assert cs == init + [last];
      DistinctAppend(init, last);
      DistinctIsUnique(init);
    }
  }

  lemma {:induction false} UniqueIsNoLonger(cs: seq<Candidate>)
    ensures |Unique(cs)| <= |cs| && (|Unique(cs)| == |cs| ==> Unique(cs) == cs)
    decreases |cs|
  {
    if cs != [] {
      UniqueIsNoLonger(cs[..|cs| - 1]);
      assert cs == cs[..|cs| - 1] + [cs[|cs| - 1]];
    }
  }

  /** Nothing is removed exactly when no key repeats. */
  lemma UniqueKeepsAllIff(cs: seq<Candidate>)
    ensures |Unique(cs)| == |cs| <==> DistinctKeys(cs)
  {
    UniqueIsNoLonger(cs);
    UniqueIsDistinct(cs);
    if DistinctKeys(cs) { DistinctIsUnique(cs); }
  }

  // ---------------------------------------------------------------- the choice

  function Max(a: nat, b: nat): nat { if a < b then b else a }

  function Utility(c: Candidate): real {
    c.relevance * (if c.section == Architecture || c.section == Statics then 1.0 else c.content.freshness)
    / Max(c.content.cost, 1) as real
  }

  function CountOf(kept: seq<Candidate>, s: Section): nat
    decreases |kept|
  {
    if kept == [] then 0 else CountOf(kept[..|kept| - 1], s) + if kept[|kept| - 1].section == s then 1 else 0
  }

  /** Items of a source already selected weigh against the next one from it. */
  function Score(c: Candidate, selected: nat): real {
    Utility(c) / (1.0 + selected as real * 0.12)
  }

  function ScoreAmong(c: Candidate, kept: seq<Candidate>): real {
    Score(c, CountOf(kept, c.section))
  }

  /** The first of the best-scored candidates. */
  ghost predicate IsBest(remaining: seq<Candidate>, kept: seq<Candidate>, best: nat) {
    && best < |remaining|
    && (forall j :: 0 <= j < |remaining| ==> ScoreAmong(remaining[j], kept) <= ScoreAmong(remaining[best], kept))
    && (forall j :: 0 <= j < best ==> ScoreAmong(remaining[j], kept) < ScoreAmong(remaining[best], kept))
  }

  function BestOf(remaining: seq<Candidate>, kept: seq<Candidate>, n: nat): (best: nat)
    requires 0 < n <= |remaining|
    ensures best < n
  {
    if n == 1 then 0
    else
      var before := BestOf(remaining, kept, n - 1);
      if ScoreAmong(remaining[n - 1], kept) > ScoreAmong(remaining[before], kept) then n - 1 else before
  }

  function Best(remaining: seq<Candidate>, kept: seq<Candidate>): (best: nat)
    requires remaining != []
    ensures best < |remaining|
  {
    BestOf(remaining, kept, |remaining|)
  }

  lemma {:induction false} BestOfIsBest(remaining: seq<Candidate>, kept: seq<Candidate>, n: nat)
    requires 0 < n <= |remaining|
    ensures IsBest(remaining[..n], kept, BestOf(remaining, kept, n))
    decreases n
  {
    if n > 1 {
      BestOfIsBest(remaining, kept, n - 1);
      var before := BestOf(remaining, kept, n - 1);
      forall j | 0 <= j < n - 1 ensures ScoreAmong(remaining[j], kept) <= ScoreAmong(remaining[before], kept) {
        assert remaining[..n - 1][j] == remaining[j];
      }
      forall j | 0 <= j < before ensures ScoreAmong(remaining[j], kept) < ScoreAmong(remaining[before], kept) {
        assert remaining[..n - 1][j] == remaining[j];
      }
    }
  }

  /** The scan returns the first of the highest scores among all that remain. */
  lemma BestIsBest(remaining: seq<Candidate>, kept: seq<Candidate>)
    requires remaining != []
    ensures IsBest(remaining, kept, Best(remaining, kept))
  {
    BestOfIsBest(remaining, kept, |remaining|);
    assert remaining[..|remaining|] == remaining;
  }

  // ---------------------------------------------------------------- the greedy pass

  datatype Selection = Selection(kept: seq<Candidate>, omitted: seq<Candidate>)

  const NONE_YET: Selection := Selection([], [])

  function Decided(fits: seq<Candidate> -> bool, sel: Selection, c: Candidate): Selection {
    if fits(sel.kept + [c]) then sel.(kept := sel.kept + [c]) else sel.(omitted := sel.omitted + [c])
  }

  function Without<T>(s: seq<T>, i: nat): seq<T>
    requires i < |s|
  {
    s[..i] + s[i + 1..]
  }

  /** Re-rank, take the best, keep it if the selection still fits. */
  function Greedy(fits: seq<Candidate> -> bool, remaining: seq<Candidate>, sel: Selection): Selection
    decreases |remaining|
  {
    if remaining == [] then sel
    else
      var i := Best(remaining, sel.kept);
      Greedy(fits, Without(remaining, i), Decided(fits, sel, remaining[i]))
  }

  ghost function Bag(sel: Selection, remaining: seq<Candidate>): multiset<Candidate> {
    multiset(sel.kept) + multiset(sel.omitted) + multiset(remaining)
  }

  lemma BagOfWithout(remaining: seq<Candidate>, i: nat)
    requires i < |remaining|
    ensures multiset(remaining) == multiset(Without(remaining, i)) + multiset{remaining[i]}
  {
    assert remaining == remaining[..i] + [remaining[i]] + remaining[i + 1..];
  }

  lemma BagOfDecided(fits: seq<Candidate> -> bool, sel: Selection, remaining: seq<Candidate>, i: nat)
    requires i < |remaining|
    ensures Bag(Decided(fits, sel, remaining[i]), Without(remaining, i)) == Bag(sel, remaining)
  {
    BagOfWithout(remaining, i);
  }

  /** Every candidate ends up kept or omitted, exactly as often as it came. */
  lemma {:induction false} GreedyConserves(fits: seq<Candidate> -> bool, remaining: seq<Candidate>, sel: Selection)
    ensures Bag(Greedy(fits, remaining, sel), []) == Bag(sel, remaining)
    decreases |remaining|
  {
    if remaining != [] {
      var i := Best(remaining, sel.kept);
      BagOfDecided(fits, sel, remaining, i);
      GreedyConserves(fits, Without(remaining, i), Decided(fits, sel, remaining[i]));
    }
  }

  /** Kept items stay kept, and whatever was kept last was kept because it fitted. */
  lemma {:induction false} GreedyFits(fits: seq<Candidate> -> bool, remaining: seq<Candidate>, sel: Selection)
    requires sel.kept != [] ==> fits(sel.kept)
    ensures Greedy(fits, remaining, sel).kept != [] ==> fits(Greedy(fits, remaining, sel).kept)
    ensures sel.kept <= Greedy(fits, remaining, sel).kept
    decreases |remaining|
  {
    if remaining != [] {
      var i := Best(remaining, sel.kept);
      GreedyFits(fits, Without(remaining, i), Decided(fits, sel, remaining[i]));
    }
  }

  /** An omitted candidate did not fit on top of what was kept when its turn came. */
  lemma {:induction false} WhenOmitted(fits: seq<Candidate> -> bool, remaining: seq<Candidate>, sel: Selection, c: Candidate)
    returns (n: nat)
    requires sel.kept != [] ==> fits(sel.kept)
    requires c in Greedy(fits, remaining, sel).omitted && c !in sel.omitted
    ensures n <= |Greedy(fits, remaining, sel).kept| && !fits(Greedy(fits, remaining, sel).kept[..n] + [c])
    decreases |remaining|
  {
    var i := Best(remaining, sel.kept);
    var next := Decided(fits, sel, remaining[i]);
    if c in next.omitted {
      n := |sel.kept|;
      GreedyFits(fits, Without(remaining, i), next);
      assert Greedy(fits, remaining, sel).kept[..n] == sel.kept;
    } else {
      n := WhenOmitted(fits, Without(remaining, i), next, c);
    }
  }

  // ---------------------------------------------------------------- prefixes are shorter

  /** The architecture comes at most once, and its text has its quotes. */
  ghost predicate OneArchitecture(cs: seq<Candidate>) {
    && (forall i :: 0 <= i < |cs| && cs[i].section == Architecture ==> cs[i].content.size >= 2)
    && (forall i, j :: 0 <= i < j < |cs| ==> cs[i].section != Architecture || cs[j].section != Architecture)
  }

  lemma {:induction false} NoArchitectureYet(cs: seq<Candidate>)
    requires forall i :: 0 <= i < |cs| ==> cs[i].section != Architecture
    ensures At(AppendAll(cs), Architecture) == []
    decreases |cs|
  {
    if cs != [] { NoArchitectureYet(cs[..|cs| - 1]); }
  }

  lemma AppendLast(cs: seq<Candidate>, c: Candidate)
    ensures AppendAll(cs + [c]) == Append(AppendAll(cs), c)
  {
    assert (cs + [c])[..|cs|] == cs;
  }

  lemma {:induction false} PrefixIsBelow(cs: seq<Candidate>, n: nat)
    requires OneArchitecture(cs) && n <= |cs|
    ensures Below(AppendAll(cs[..n]), AppendAll(cs))
    decreases |cs|
  {
    hide Below;
    if n == |cs| {
      assert cs[..n] == cs;
      BelowItself(AppendAll(cs));
    } else {
      var k := |cs| - 1;
      assert cs[..k][..n] == cs[..n];
      PrefixIsBelow(cs[..k], n);
      if cs[k].section == Architecture { NoArchitectureYet(cs[..k]); }
      AppendIsAbove(AppendAll(cs[..k]), cs[k]);
      BelowIsTransitive(AppendAll(cs[..n]), AppendAll(cs[..k]), AppendAll(cs));
    }
  }

  function FitsWith(p: Pack, budget: int, base: seq<Warning>): seq<Candidate> -> bool {
    (cs: seq<Candidate>) => Fits(p, AppendAll(cs), budget, base)
  }

  /** What does not fit on a prefix of the selection does not fit on the whole of it. */
  lemma RejectedForGood(p: Pack, budget: int, base: seq<Warning>, kept: seq<Candidate>, n: nat, c: Candidate)
    requires OneArchitecture(kept) && n <= |kept| && !FitsWith(p, budget, base)(kept[..n] + [c])
    ensures !FitsWith(p, budget, base)(kept + [c])
  {
    PrefixIsBelow(kept, n);
    AppendLast(kept[..n], c);
    AppendLast(kept, c);
    AppendKeepsBelow(AppendAll(kept[..n]), AppendAll(kept), c);
    if Fits(p, AppendAll(kept + [c]), budget, base) {
      FitsDownwards(p, AppendAll(kept[..n] + [c]), AppendAll(kept + [c]), budget, base);
    }
  }

  // ---------------------------------------------------------------- warnings

  function Noted(ws: seq<Warning>, w: Warning): seq<Warning> {
    if w in ws then ws else ws + [w]
  }

  function SectionsOf(cs: seq<Candidate>): seq<Section>
    decreases |cs|
  {
    if cs == [] then []
    else
      var init := SectionsOf(cs[..|cs| - 1]);
      var s := cs[|cs| - 1].section;
      if s in init then init else init + [s]
  }

  function WithSections(ws: seq<Warning>, sections: seq<Section>): seq<Warning>
    decreases |sections|
  {
    if sections == [] then ws else Noted(WithSections(ws, sections[..|sections| - 1]), Omitted(sections[|sections| - 1]))
  }

  lemma {:induction false} SectionsAreThose(cs: seq<Candidate>, s: Section)
    ensures s in SectionsOf(cs) <==> exists c :: c in cs && c.section == s
    decreases |cs|
  {
    if cs != [] {
      SectionsAreThose(cs[..|cs| - 1], s);
      assert cs == cs[..|cs| - 1] + [cs[|cs| - 1]];
    }
  }

  lemma {:induction false} WarningsAreThose(ws: seq<Warning>, sections: seq<Section>, w: Warning)
    ensures w in WithSections(ws, sections) <==> w in ws || (w.Omitted? && w.section in sections)
    decreases |sections|
  {
    if sections != [] {
      WarningsAreThose(ws, sections[..|sections| - 1], w);
      assert sections == sections[..|sections| - 1] + [sections[|sections| - 1]];
    }
  }

  // ---------------------------------------------------------------- the optimizer

  function BaseWarnings(p: Pack): seq<Warning> {
    if |Unique(Collect(p.payload))| < |Collect(p.payload)| then Noted(p.warnings, DuplicatesRemoved) else p.warnings
  }

  function Selected(p: Pack, budget: int): Selection {
    Greedy(FitsWith(p, budget, BaseWarnings(p)), Unique(Collect(p.payload)), NONE_YET)
  }

  function FinalWarnings(p: Pack, budget: int): seq<Warning> {
    Warned(BaseWarnings(p), SectionsOf(Selected(p, budget).omitted), Estimate(p.(payload := EMPTY)) > budget)
  }

  function Warned(base: seq<Warning>, sections: seq<Section>, belowFloor: bool): seq<Warning> {
    if belowFloor then Noted(WithSections(base, sections), FloorExceeded) else WithSections(base, sections)
  }

  predicate Untouched(p: Pack, budget: int) {
    Estimate(p) <= budget && |Unique(Collect(p.payload))| == |Collect(p.payload)|
  }

  predicate FitsDeduplicated(p: Pack, budget: int) {
    Fits(p, AppendAll(Unique(Collect(p.payload))), budget, BaseWarnings(p))
  }

  function Optimized(p: Pack, budget: int): Pack {
    if Untouched(p, budget) then p
    else if FitsDeduplicated(p, budget) then Stamped(p.(payload := AppendAll(Unique(Collect(p.payload)))), budget, BaseWarnings(p))
    else Stamped(p.(payload := AppendAll(Selected(p, budget).kept)), budget, FinalWarnings(p, budget))
  }

  method Deduplicate(all: seq<Candidate>) returns (deduplicated: Payload, candidates: seq<Candidate>, duplicates: nat)
    ensures candidates == Unique(all) && deduplicated == AppendAll(candidates) && duplicates == |all| - |candidates|
  {
    var seen: set<(Section, nat)> := {};
    candidates, deduplicated := [], EMPTY;
    var k := 0;
    while k < |all|
      invariant 0 <= k <= |all|
      invariant candidates == Unique(all[..k]) && deduplicated == AppendAll(candidates) && seen == Keys(candidates)
    {
      assert all[..k + 1][..k] == all[..k];
      if KeyOf(all[k]) !in seen {
        AppendLast(candidates, all[k]);
        KeysOfAppend(candidates, all[k]);
        seen := seen + {KeyOf(all[k])};
        deduplicated := Append(deduplicated, all[k]);
        candidates := candidates + [all[k]];
      }
      k := k + 1;
    }
    assert all[..k] == all;
    UniqueIsNoLonger(all);
    duplicates := |all| - |candidates|;
  }

  /** The re-ranking scan: the first candidate with the highest score. */
  method PickBest(remaining: seq<Candidate>, counts: map<Section, nat>, ghost kept: seq<Candidate>) returns (best: nat)
    requires remaining != []
    requires CountsAre(counts, kept)
    ensures best == Best(remaining, kept)
  {
    var bestScore: Option<real> := None;
    best := 0;
    var k := 0;
    while k < |remaining|
      invariant 0 <= k <= |remaining| && best <= k
      invariant k == 0 ==> bestScore == None && best == 0
      invariant k > 0 ==> best == BestOf(remaining, kept, k) && bestScore == Some(ScoreAmong(remaining[best], kept))
    {
      var c := remaining[k];
      var score := Score(c, if c.section in counts then counts[c.section] else 0);
      if bestScore.None? || score > bestScore.value {
        bestScore := Some(score);
        best := k;
      }
      k := k + 1;
    }
  }

  method Select(p: Pack, budget: int, base: seq<Warning>, candidates: seq<Candidate>)
    returns (optimized: Payload, omittedSections: seq<Section>)
    ensures optimized == AppendAll(Greedy(FitsWith(p, budget, base), candidates, NONE_YET).kept)
    ensures omittedSections == SectionsOf(Greedy(FitsWith(p, budget, base), candidates, NONE_YET).omitted)
  {
    var remaining := candidates;
    var counts: map<Section, nat> := map[];
    ghost var fits := FitsWith(p, budget, base);
    ghost var sel := NONE_YET;
    optimized, omittedSections := EMPTY, [];
    while remaining != []
      invariant Greedy(fits, remaining, sel) == Greedy(fits, candidates, NONE_YET)
      invariant optimized == AppendAll(sel.kept) && omittedSections == SectionsOf(sel.omitted)
      invariant CountsAre(counts, sel.kept)
      decreases |remaining|
    {
      var best := PickBest(remaining, counts, sel.kept);
      var c := remaining[best];
      remaining := remaining[..best] + remaining[best + 1..];
      var next, fit := Probe(p, optimized, c, budget, base, sel.kept);
      if fit {
        optimized := next;
        CountsBumped(counts, sel.kept, c);
        counts := counts[c.section := (if c.section in counts then counts[c.section] else 0) + 1];
      } else {
        SectionsOfAppend(sel.omitted, c);
        if c.section !in omittedSections { omittedSections := omittedSections + [c.section]; }
      }
      sel := Decided(fits, sel, c);
    }
  }

  /** Would the candidate fit on top, under the base warnings? */
  method Probe(p: Pack, optimized: Payload, c: Candidate, budget: int, base: seq<Warning>, ghost kept: seq<Candidate>)
    returns (next: Payload, fit: bool)
    requires optimized == AppendAll(kept)
    ensures next == AppendAll(kept + [c]) && fit == FitsWith(p, budget, base)(kept + [c])
  {
    AppendLast(kept, c);
    next := Append(optimized, c);
    fit := Estimate(Stamped(p.(payload := next), budget, base)) <= budget;
  }

  ghost predicate CountsAre(counts: map<Section, nat>, kept: seq<Candidate>) {
    forall s :: (if s in counts then counts[s] else 0) == CountOf(kept, s)
  }

  lemma CountsBumped(counts: map<Section, nat>, kept: seq<Candidate>, c: Candidate)
    requires CountsAre(counts, kept)
    ensures CountsAre(counts[c.section := (if c.section in counts then counts[c.section] else 0) + 1], kept + [c])
  {
    assert (kept + [c])[..|kept|] == kept;
    forall s ensures CountOf(kept + [c], s) == CountOf(kept, s) + if c.section == s then 1 else 0 { }
  }

  lemma SectionsOfAppend(cs: seq<Candidate>, c: Candidate)
    ensures SectionsOf(cs + [c]) == if c.section in SectionsOf(cs) then SectionsOf(cs) else SectionsOf(cs) + [c.section]
  {
    assert (cs + [c])[..|cs|] == cs;
  }

  method AddSectionWarnings(base: seq<Warning>, sections: seq<Section>) returns (warnings: seq<Warning>)
    ensures warnings == WithSections(base, sections)
  {
    warnings := base;
    var k := 0;
    while k < |sections|
      invariant 0 <= k <= |sections| && warnings == WithSections(base, sections[..k])
    {
      assert sections[..k + 1][..k] == sections[..k];
      if Omitted(sections[k]) !in warnings { warnings := warnings + [Omitted(sections[k])]; }
      k := k + 1;
    }
    assert sections[..k] == sections;
  }

  method Optimize(p: Pack, budget: int) returns (r: Pack)
    ensures r == Optimized(p, budget)
  {
    var initialTokens := Estimate(p);
    var deduplicated, candidates, duplicates := Deduplicate(Collect(p.payload));
    if initialTokens <= budget && duplicates == 0 { return p; }
    var base := p.warnings;
    if duplicates > 0 && DuplicatesRemoved !in base { base := base + [DuplicatesRemoved]; }
    assert base == BaseWarnings(p);
    var stamped := Stamped(p.(payload := deduplicated), budget, base);
    if Estimate(stamped) <= budget { return stamped; }
    var optimized, omittedSections := Select(p, budget, base, candidates);
    var warnings := AddSectionWarnings(base, omittedSections);
    if Estimate(p.(payload := EMPTY)) > budget && FloorExceeded !in warnings {
      warnings := warnings + [FloorExceeded];
    }
    assert warnings == FinalWarnings(p, budget);
    return Stamped(p.(payload := optimized), budget, warnings);
  }
}
