/** What the budget optimizer guarantees about the pack it returns. */
module BudgetGuarantees {
  import opened ContextPack
  import opened BudgetOptimizer

  // ---------------------------------------------------------------- what the payload holds

  function ContentsOf(cs: seq<Candidate>, s: Section): seq<Content>
    decreases |cs|
  {
    if cs == [] then []
    else
      var init := ContentsOf(cs[..|cs| - 1], s);
      if cs[|cs| - 1].section == s then init + [cs[|cs| - 1].content] else init
  }

  /** Each array section is exactly the selected items of that section, in the order of selection. */
  lemma {:induction false} SectionsHoldTheSelection(cs: seq<Candidate>, s: Section)
    ensures s != Architecture ==> At(AppendAll(cs), s) == ContentsOf(cs, s)
    ensures s == Architecture ==>
              At(AppendAll(cs), s) == if ContentsOf(cs, s) == [] then [] else [ContentsOf(cs, s)[|ContentsOf(cs, s)| - 1]]
    decreases |cs|
  {
    if cs != [] { SectionsHoldTheSelection(cs[..|cs| - 1], s); }
  }

  lemma {:induction false} SelectedIsHeld(cs: seq<Candidate>, c: Candidate)
    requires c in cs && OneArchitecture(cs)
    ensures c.content in At(AppendAll(cs), c.section)
    decreases |cs|
  {
    var init, last := cs[..|cs| - 1], cs[|cs| - 1];
    assert cs == init + [last];
    if c == last {
    } else {
      SelectedIsHeld(init, c);
      var i :| 0 <= i < |init| && init[i] == c;
      assert cs[i] == c && cs[|cs| - 1] == last;
    }
  }

  ghost predicate HeldIn(cs: seq<Candidate>, p: Payload) {
    forall i :: 0 <= i < |cs| ==> cs[i].content in At(p, cs[i].section)
  }

  lemma HeldConcat(cs: seq<Candidate>, p: Payload, s: Section)
    requires HeldIn(cs, p)
    ensures HeldIn(cs + FromSection(p, s), p)
  {
  }

  lemma CollectedIsHeld(p: Payload)
    ensures HeldIn(Collect(p), p)
  {
    var c1 := FromSection(p, Symbols);
    HeldConcat(c1, p, Decisions);
    var c2 := c1 + FromSection(p, Decisions);
    HeldConcat(c2, p, Statics);
    var c3 := c2 + FromSection(p, Statics);
    HeldConcat(c3, p, Callers);
    var c4 := c3 + FromSection(p, Callers);
    HeldConcat(c4, p, Callees);
    var c5 := c4 + FromSection(p, Callees);
    HeldConcat(c5, p, Tests);
    var c6 := c5 + FromSection(p, Tests);
    HeldConcat(c6, p, Summaries);
    var c7 := c6 + FromSection(p, Summaries);
    HeldConcat(c7, p, Docs);
    HeldConcat(c7 + FromSection(p, Docs), p, Architecture);
  }

  /** The architecture, being one serialized string, has at least its two quotes. */
  ghost predicate WellSized(p: Payload) {
    forall c :: c in At(p, Architecture) ==> c.size >= 2
  }

  // ---------------------------------------------------------------- at most one architecture is selected

  lemma {:induction false} DistinctCountsOnce(cs: seq<Candidate>, c: Candidate)
    requires DistinctKeys(cs)
    ensures multiset(cs)[c] <= 1
    decreases |cs|
  {
    if cs != [] {
      var init, last := cs[..|cs| - 1], cs[|cs| - 1];
      assert cs == init + [last];
      DistinctAppend(init, last);
      DistinctCountsOnce(init, c);
      if c == last { assert c !in init; }
    }
  }

  lemma TwiceCounts(cs: seq<Candidate>, i: nat, j: nat)
    requires i < j < |cs| && cs[i] == cs[j]
    ensures multiset(cs)[cs[i]] >= 2
  {
    assert cs == cs[..j] + cs[j..];
    assert cs[i] in cs[..j] && cs[j] in cs[j..];
  }

  lemma SameKeySameCandidate(cs: seq<Candidate>, c: Candidate, d: Candidate)
    requires DistinctKeys(cs) && c in cs && d in cs && KeyOf(c) == KeyOf(d)
    ensures c == d
  {
    var i :| 0 <= i < |cs| && cs[i] == c;
    var j :| 0 <= j < |cs| && cs[j] == d;
  }

  lemma PartHasOneArchitecture(part: seq<Candidate>, whole: seq<Candidate>)
    requires multiset(part) <= multiset(whole) && DistinctKeys(whole)
    requires forall c :: c in whole && c.section == Architecture ==> c.content.size >= 2
    ensures OneArchitecture(part) && DistinctKeys(part)
  {
    forall c | c in part ensures c in whole { assert c in multiset(part); }
    forall i, j | 0 <= i < j < |part| ensures KeyOf(part[i]) != KeyOf(part[j]) {
      if KeyOf(part[i]) == KeyOf(part[j]) {
        SameKeySameCandidate(whole, part[i], part[j]);
        TwiceCounts(part, i, j);
        DistinctCountsOnce(whole, part[i]);
        assert false;
      }
    }
  }

  ghost predicate QuotedArchitecture(cs: seq<Candidate>) {
    forall c :: c in cs && c.section == Architecture ==> c.content.size >= 2
  }

  lemma UniqueIsWellSized(all: seq<Candidate>, p: Payload)
    requires WellSized(p) && HeldIn(all, p)
    ensures QuotedArchitecture(Unique(all)) && DistinctKeys(Unique(all)) && OneArchitecture(Unique(all))
  {
    UniqueIsDistinct(all);
    forall c | c in Unique(all) && c.section == Architecture ensures c.content.size >= 2 {
      var i :| 0 <= i < |all| && all[i] == c;
    }
    PartHasOneArchitecture(Unique(all), Unique(all));
  }

  lemma BagSplits(kept: seq<Candidate>, omitted: seq<Candidate>, whole: seq<Candidate>)
    requires Bag(Selection(kept, omitted), []) == Bag(NONE_YET, whole)
    ensures multiset(kept) + multiset(omitted) == multiset(whole) && multiset(kept) <= multiset(whole)
  {
    assert NONE_YET.kept == [] && NONE_YET.omitted == [];
    assert Bag(NONE_YET, whole) == multiset(whole);
    assert Bag(Selection(kept, omitted), []) == multiset(kept) + multiset(omitted);
  }

  /** Conservation: the deduplicated candidates are split, without loss or repetition, into kept and omitted ones. */
  lemma KeptAndOmittedArePartition(p: Pack, budget: int)
    ensures multiset(Selected(p, budget).kept) + multiset(Selected(p, budget).omitted) == multiset(Unique(Collect(p.payload)))
  {
    var unique := Unique(Collect(p.payload));
    GreedyConserves(FitsWith(p, budget, BaseWarnings(p)), unique, NONE_YET);
    BagSplits(Selected(p, budget).kept, Selected(p, budget).omitted, unique);
  }

  lemma KeptIsWellFormed(p: Pack, budget: int)
    requires WellSized(p.payload)
    ensures OneArchitecture(Selected(p, budget).kept) && DistinctKeys(Selected(p, budget).kept)
  {
    var unique, kept, omitted := Unique(Collect(p.payload)), Selected(p, budget).kept, Selected(p, budget).omitted;
    assert multiset(kept) + multiset(omitted) == multiset(unique) by { KeptAndOmittedArePartition(p, budget); }
    CollectedIsHeld(p.payload);
    UniqueIsWellSized(Collect(p.payload), p.payload);
    PartHasOneArchitecture(kept, unique);
  }

  // ---------------------------------------------------------------- the guarantees

  lemma OmittedIsWarned(base: seq<Warning>, omitted: seq<Candidate>, s: Section)
    ensures Omitted(s) in WithSections(base, SectionsOf(omitted))
            <==> Omitted(s) in base || exists c :: c in omitted && c.section == s
  {
    SectionsAreThose(omitted, s);
    WarningsAreThose(base, SectionsOf(omitted), Omitted(s));
  }

  /** The optimizer reports the loss of a section exactly when it omitted an item of it. */
  lemma WarningsAreExact(p: Pack, budget: int, s: Section)
    requires Omitted(s) !in p.warnings
    ensures Omitted(s) in FinalWarnings(p, budget) <==> exists c :: c in Selected(p, budget).omitted && c.section == s
  {
    BaseIsOld(p, Omitted(s));
    SectionWarningsAreFinal(p, budget, s);
    OmittedIsWarned(BaseWarnings(p), Selected(p, budget).omitted, s);
  }

  lemma BaseIsOld(p: Pack, w: Warning)
    ensures w in BaseWarnings(p) ==> w in p.warnings || w == DuplicatesRemoved
  {
  }

  lemma SectionWarningsAreFinal(p: Pack, budget: int, s: Section)
    ensures Omitted(s) in FinalWarnings(p, budget) <==>
            Omitted(s) in WithSections(BaseWarnings(p), SectionsOf(Selected(p, budget).omitted))
  {
    WarnedHas(BaseWarnings(p), SectionsOf(Selected(p, budget).omitted), Estimate(p.(payload := EMPTY)) > budget, Omitted(s));
  }

  lemma WarnedHas(base: seq<Warning>, sections: seq<Section>, belowFloor: bool, w: Warning)
    requires w != FloorExceeded
    ensures w in Warned(base, sections, belowFloor) <==> w in WithSections(base, sections)
  {
  }

  lemma HeldOrWarned(kept: seq<Candidate>, omitted: seq<Candidate>, whole: seq<Candidate>, base: seq<Warning>, c: Candidate)
    requires multiset(kept) + multiset(omitted) == multiset(whole) && c in whole && OneArchitecture(kept)
    ensures c.content in At(AppendAll(kept), c.section) || Omitted(c.section) in WithSections(base, SectionsOf(omitted))
  {
    assert c in multiset(whole);
    if c in kept {
      SelectedIsHeld(kept, c);
    } else {
      assert c in omitted;
      OmittedIsWarned(base, omitted, c.section);
    }
  }

  // The three ways out of the optimizer.

  lemma ResultUntouched(p: Pack, budget: int)
    requires Untouched(p, budget)
    ensures Optimized(p, budget) == p
  {
  }

  lemma ResultDeduplicated(p: Pack, budget: int)
    requires !Untouched(p, budget) && FitsDeduplicated(p, budget)
    ensures Optimized(p, budget).payload == AppendAll(Unique(Collect(p.payload)))
  {
  }

  lemma ResultPacked(p: Pack, budget: int)
    requires !Untouched(p, budget) && !FitsDeduplicated(p, budget)
    ensures Optimized(p, budget).payload == AppendAll(Selected(p, budget).kept)
    ensures Optimized(p, budget).warnings == FinalWarnings(p, budget)
  {
  }

  /** No item disappears silently: it is in its section of the result, or that section's warning is there. */
  lemma NothingIsLost(p: Pack, budget: int, c: Candidate)
    requires WellSized(p.payload) && c in Unique(Collect(p.payload))
    ensures c.content in At(Optimized(p, budget).payload, c.section) || Omitted(c.section) in Optimized(p, budget).warnings
  {
    var all, unique, r := Collect(p.payload), Unique(Collect(p.payload)), Optimized(p, budget);
    CollectedIsHeld(p.payload);
    assert c.content in At(p.payload, c.section) by {
      UniqueIsDistinct(all);
      var i :| 0 <= i < |all| && all[i] == c;
    }
    assert c.content in At(AppendAll(unique), c.section) by {
      UniqueIsWellSized(all, p.payload);
      SelectedIsHeld(unique, c);
    }
    if Untouched(p, budget) {
      ResultUntouched(p, budget);
    } else if FitsDeduplicated(p, budget) {
      ResultDeduplicated(p, budget);
    } else {
      ResultPacked(p, budget);
      LossIsWarned(p, budget, c);
    }
  }

  lemma LossIsWarned(p: Pack, budget: int, c: Candidate)
    requires WellSized(p.payload) && c in Unique(Collect(p.payload))
    ensures c.content in At(AppendAll(Selected(p, budget).kept), c.section) || Omitted(c.section) in FinalWarnings(p, budget)
  {
    var base, kept, omitted := BaseWarnings(p), Selected(p, budget).kept, Selected(p, budget).omitted;
    assert OneArchitecture(kept) by { KeptIsWellFormed(p, budget); }
    assert multiset(kept) + multiset(omitted) == multiset(Unique(Collect(p.payload))) by { KeptAndOmittedArePartition(p, budget); }
    HeldOrWarned(kept, omitted, Unique(Collect(p.payload)), base, c);
    SectionWarningsAreFinal(p, budget, c.section);
  }

  /** Whenever anything was kept, the pack of the kept items with the base warnings is within the budget. */
  lemma KeptItemsFit(p: Pack, budget: int)
    ensures Selected(p, budget).kept != [] ==> Fits(p, AppendAll(Selected(p, budget).kept), budget, BaseWarnings(p))
  {
    GreedyFits(FitsWith(p, budget, BaseWarnings(p)), Unique(Collect(p.payload)), NONE_YET);
  }

  /** The selection is maximal: no omitted item could be added to the items finally kept and still fit. */
  lemma SelectionIsMaximal(p: Pack, budget: int, c: Candidate)
    requires WellSized(p.payload) && c in Selected(p, budget).omitted
    ensures !Fits(p, AppendAll(Selected(p, budget).kept + [c]), budget, BaseWarnings(p))
  {
    var fits := FitsWith(p, budget, BaseWarnings(p));
    KeptIsWellFormed(p, budget);
    var n := WhenOmitted(fits, Unique(Collect(p.payload)), NONE_YET, c);
    RejectedForGood(p, budget, BaseWarnings(p), Selected(p, budget).kept, n, c);
  }

  // ---------------------------------------------------------------- optimizing twice

  /** Within a section no key repeats, and there is at most one architecture. */
  ghost predicate SectionsDistinct(p: Payload) {
    && |At(p, Architecture)| <= 1
    && forall s, i, j :: 0 <= i < j < |At(p, s)| ==> At(p, s)[i].key != At(p, s)[j].key
  }

  lemma {:induction false} HeldHasKey(cs: seq<Candidate>, s: Section, x: Content)
    requires s != Architecture && x in At(AppendAll(cs), s)
    ensures (s, x.key) in Keys(cs)
    decreases |cs|
  {
    var init, last := cs[..|cs| - 1], cs[|cs| - 1];
    assert cs == init + [last];
    KeysOfAppend(init, last);
    if x in At(AppendAll(init), s) { HeldHasKey(init, s, x); }
  }

  lemma {:induction false} SelectionIsDistinct(cs: seq<Candidate>)
    requires DistinctKeys(cs)
    ensures SectionsDistinct(AppendAll(cs))
    decreases |cs|
  {
    if cs != [] {
      var init, last := cs[..|cs| - 1], cs[|cs| - 1];
      assert cs == init + [last];
      DistinctAppend(init, last);
      SelectionIsDistinct(init);
      var before, after := AppendAll(init), AppendAll(cs);
      forall s | s != last.section ensures At(after, s) == At(before, s) { }
      if last.section != Architecture {
        forall i | 0 <= i < |At(before, last.section)| ensures At(before, last.section)[i].key != last.content.key {
          HeldHasKey(init, last.section, At(before, last.section)[i]);
        }
      }
    }
  }

  ghost predicate Within(cs: seq<Candidate>, sections: set<Section>) {
    forall i :: 0 <= i < |cs| ==> cs[i].section in sections
  }

  lemma AddSection(cs: seq<Candidate>, sections: set<Section>, p: Payload, s: Section)
    requires DistinctKeys(cs) && Within(cs, sections) && s !in sections && SectionsDistinct(p)
    ensures DistinctKeys(cs + FromSection(p, s)) && Within(cs + FromSection(p, s), sections + {s})
  {
    var here := FromSection(p, s);
    forall i, j | 0 <= i < j < |here| ensures KeyOf(here[i]) != KeyOf(here[j]) {
      assert here[i].content == At(p, s)[i] && here[j].content == At(p, s)[j];
    }
  }

  lemma CollectIsDistinct(p: Payload)
    requires SectionsDistinct(p)
    ensures DistinctKeys(Collect(p))
  {
    var none: seq<Candidate> := [];
    var c1 := FromSection(p, Symbols);
    assert none + c1 == c1;
    AddSection(none, {}, p, Symbols);
    var c2 := c1 + FromSection(p, Decisions);
    AddSection(c1, {Symbols}, p, Decisions);
    var c3 := c2 + FromSection(p, Statics);
    AddSection(c2, {Symbols, Decisions}, p, Statics);
    var c4 := c3 + FromSection(p, Callers);
    AddSection(c3, {Symbols, Decisions, Statics}, p, Callers);
    var c5 := c4 + FromSection(p, Callees);
    AddSection(c4, {Symbols, Decisions, Statics, Callers}, p, Callees);
    var c6 := c5 + FromSection(p, Tests);
    AddSection(c5, {Symbols, Decisions, Statics, Callers, Callees}, p, Tests);
    var c7 := c6 + FromSection(p, Summaries);
    AddSection(c6, {Symbols, Decisions, Statics, Callers, Callees, Tests}, p, Summaries);
    var c8 := c7 + FromSection(p, Docs);
    AddSection(c7, {Symbols, Decisions, Statics, Callers, Callees, Tests, Summaries}, p, Docs);
    AddSection(c8, {Symbols, Decisions, Statics, Callers, Callees, Tests, Summaries, Docs}, p, Architecture);
  }

  lemma SelectionCollectsDistinct(cs: seq<Candidate>)
    requires DistinctKeys(cs)
    ensures DistinctKeys(Collect(AppendAll(cs)))
  {
    SelectionIsDistinct(cs);
    CollectIsDistinct(AppendAll(cs));
  }

  /** The result holds no duplicates, whatever came in. */
  lemma ResultHasNoDuplicates(p: Pack, budget: int)
    requires WellSized(p.payload)
    ensures DistinctKeys(Collect(Optimized(p, budget).payload))
  {
    if Untouched(p, budget) {
      ResultUntouched(p, budget);
      UniqueKeepsAllIff(Collect(p.payload));
    } else if FitsDeduplicated(p, budget) {
      ResultDeduplicated(p, budget);
      UniqueIsDistinct(Collect(p.payload));
      SelectionCollectsDistinct(Unique(Collect(p.payload)));
    } else {
      ResultPacked(p, budget);
      KeptIsWellFormed(p, budget);
      SelectionCollectsDistinct(Selected(p, budget).kept);
    }
  }

  /** Optimizing a result that is within the budget again changes nothing. */
  lemma OptimizingTwiceChangesNothing(p: Pack, budget: int)
    requires WellSized(p.payload) && Estimate(Optimized(p, budget)) <= budget
    ensures Optimized(Optimized(p, budget), budget) == Optimized(p, budget)
  {
    ResultHasNoDuplicates(p, budget);
    UniqueKeepsAllIff(Collect(Optimized(p, budget).payload));
  }
}
