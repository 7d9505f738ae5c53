/** Exactly when the optimizer's result is within the budget, and by how much it can miss it. */
module BudgetBound {
  import opened ContextPack
  import opened BudgetOptimizer
  import opened BudgetGuarantees

  // ---------------------------------------------------------------- the warnings that come on top of the probes

  /** Characters a section warning adds, its comma included. */
  function Extra(sections: set<Section>, s: Section): nat {
    if s in sections then WarningLength(Omitted(s)) + 1 else 0
  }

  function AllExtra(sections: set<Section>): (n: nat)
    ensures n <= 419
  {
    Extra(sections, Symbols) + Extra(sections, Decisions) + Extra(sections, Statics) + Extra(sections, Callers)
    + Extra(sections, Callees) + Extra(sections, Tests) + Extra(sections, Summaries) + Extra(sections, Docs)
    + Extra(sections, Architecture)
  }

  /** The sections whose warning is not there yet. */
  function Missing(base: seq<Warning>, sections: seq<Section>): set<Section> {
    set s | s in sections && Omitted(s) !in base
  }

  /** Characters added to a list of warnings by `n` characters of further ones; the first of all has no comma. */
  function Joined(base: seq<Warning>, n: nat): nat {
    if base == [] && n > 0 then n - 1 else n
  }

  /** The exact length of the section and floor warnings not already present. */
  function AddedLength(base: seq<Warning>, sections: seq<Section>, belowFloor: bool): nat {
    Joined(base, AllExtra(Missing(base, sections)) + if belowFloor && FloorExceeded !in base then WarningLength(FloorExceeded) + 1 else 0)
  }

  predicate NoSectionTwice(sections: seq<Section>) {
    forall i, j :: 0 <= i < j < |sections| ==> sections[i] != sections[j]
  }

  lemma {:induction false} SectionsOfIsDistinct(cs: seq<Candidate>)
    ensures NoSectionTwice(SectionsOf(cs))
    decreases |cs|
  {
    if cs != [] { SectionsOfIsDistinct(cs[..|cs| - 1]); }
  }

  lemma NotedLength(ws: seq<Warning>, w: Warning)
    ensures ArrayLength(WarningSizes(Noted(ws, w)))
            == ArrayLength(WarningSizes(ws)) + if w in ws then 0 else WarningLength(w) + if ws == [] then 0 else 1
  {
    if w !in ws { assert WarningSizes(ws + [w])[..|ws|] == WarningSizes(ws); }
  }

  lemma OneMoreSection(sections: set<Section>, s: Section)
    requires s !in sections
    ensures AllExtra(sections + {s}) == AllExtra(sections) + WarningLength(Omitted(s)) + 1
  {
    forall t | t != s ensures Extra(sections + {s}, t) == Extra(sections, t) { }
  }

  lemma NoSectionsNothing()
    ensures AllExtra({}) == 0
  {
  }

  lemma {:induction false} WithSectionsIsEmptyIff(base: seq<Warning>, sections: seq<Section>)
    ensures WithSections(base, sections) == [] <==> base == [] && sections == []
    decreases |sections|
  {
  }

  lemma {:induction false} SectionWarningsLength(base: seq<Warning>, sections: seq<Section>)
    requires NoSectionTwice(sections)
    ensures ArrayLength(WarningSizes(WithSections(base, sections)))
            == ArrayLength(WarningSizes(base)) + Joined(base, AllExtra(Missing(base, sections)))
    ensures base == [] ==> (sections == [] <==> AllExtra(Missing(base, sections)) == 0)
    decreases |sections|
  {
    if sections == [] {
      assert Missing(base, sections) == {};
      NoSectionsNothing();
    } else {
      var init, last := sections[..|sections| - 1], sections[|sections| - 1];
      LastIsNew(base, sections, init, last);
      SectionWarningsLength(base, init);
      MissingOneMore(base, sections, init, last);
      WithSectionsOneMore(base, sections, init, last);
      hide *;
      NotedLength(WithSections(base, init), Omitted(last));
      WithSectionsIsEmptyIff(base, init);
      JoinedMeans(base, AllExtra(Missing(base, init)));
      JoinedMeans(base, AllExtra(Missing(base, sections)));
    }
  }

  lemma JoinedMeans(base: seq<Warning>, n: nat)
    ensures Joined(base, n) == if base == [] && n > 0 then n - 1 else n
  {
  }

  lemma WithSectionsOneMore(base: seq<Warning>, sections: seq<Section>, init: seq<Section>, last: Section)
    requires sections == init + [last]
    ensures WithSections(base, sections) == Noted(WithSections(base, init), Omitted(last))
  {
    assert sections[..|sections| - 1] == init;
  }

  lemma MissingOneMore(base: seq<Warning>, sections: seq<Section>, init: seq<Section>, last: Section)
    requires sections == init + [last] && last !in Missing(base, init)
    ensures AllExtra(Missing(base, sections))
            == AllExtra(Missing(base, init)) + if Omitted(last) in base then 0 else WarningLength(Omitted(last)) + 1
  {
    hide AllExtra;
    if Omitted(last) in base {
      assert Missing(base, sections) == Missing(base, init);
    } else {
      assert Missing(base, sections) == Missing(base, init) + {last};
      OneMoreSection(Missing(base, init), last);
    }
  }

  lemma LastIsNew(base: seq<Warning>, sections: seq<Section>, init: seq<Section>, last: Section)
    requires NoSectionTwice(sections) && sections == init + [last]
    ensures NoSectionTwice(init) && last !in init && last !in Missing(base, init)
    ensures Omitted(last) in WithSections(base, init) <==> Omitted(last) in base
  {
    assert forall i :: 0 <= i < |init| ==> init[i] == sections[i];
    assert sections[|init|] == last;
    WarningsAreThose(base, init, Omitted(last));
  }

  lemma AddedWarningsLength(base: seq<Warning>, sections: seq<Section>, belowFloor: bool)
    requires NoSectionTwice(sections)
    ensures ArrayLength(WarningSizes(Warned(base, sections, belowFloor)))
            == ArrayLength(WarningSizes(base)) + AddedLength(base, sections, belowFloor)
    ensures AddedLength(base, sections, belowFloor) <= 464
  {
    SectionWarningsLength(base, sections);
    WithSectionsIsEmptyIff(base, sections);
    WarningsAreThose(base, sections, FloorExceeded);
    NotedLength(WithSections(base, sections), FloorExceeded);
  }

  // ---------------------------------------------------------------- characters and tokens of a stamped pack

  /** Length of the pack under these warnings, with a zero total. */
  function BareLength(q: Pack, budget: int, warnings: seq<Warning>): nat {
    Length(q.(budget := budget, warnings := warnings, total := 0))
  }

  /** A stamped pack of `chars` characters before its total is written is within the budget. */
  predicate CharsFit(chars: nat, budget: int) {
    chars + Digits((chars + 3) / 4) <= 4 * budget + 1
  }

  lemma CharsFitMeans(chars: nat, budget: int)
    ensures CharsFit(chars, budget) <==> chars + Digits((chars + 3) / 4) <= 4 * budget + 1
  {
  }

  lemma StampedWithin(q: Pack, budget: int, limit: int, warnings: seq<Warning>)
    ensures Estimate(Stamped(q, budget, warnings)) <= limit <==> CharsFit(BareLength(q, budget, warnings), limit)
  {
    var zero := q.(budget := budget, warnings := warnings, total := 0);
    assert Length(zero.(total := Estimate(zero))) == Length(zero) - 1 + Digits(Estimate(zero));
  }

  lemma FewerCharsFit(a: nat, b: nat, budget: int)
    requires a <= b && CharsFit(b, budget)
    ensures CharsFit(a, budget)
  {
    DigitsGrow((a + 3) / 4, (b + 3) / 4);
  }

  lemma BareLengths(q: Pack, budget: int, base: seq<Warning>, ws: seq<Warning>, added: nat)
    requires ArrayLength(WarningSizes(ws)) == ArrayLength(WarningSizes(base)) + added
    ensures BareLength(q, budget, ws) == BareLength(q, budget, base) + added
  {
  }

  // ---------------------------------------------------------------- the exact condition

  /** The pack of the kept items with the base warnings and a zero total. */
  function SelectionLength(p: Pack, budget: int): nat {
    BareLength(p.(payload := AppendAll(Selected(p, budget).kept)), budget, BaseWarnings(p))
  }

  function WarningsAdded(p: Pack, budget: int): nat {
    AddedLength(BaseWarnings(p), SectionsOf(Selected(p, budget).omitted), Estimate(p.(payload := EMPTY)) > budget)
  }

  lemma PackedResult(p: Pack, budget: int)
    requires !Untouched(p, budget) && !FitsDeduplicated(p, budget)
    ensures Optimized(p, budget) == Stamped(p.(payload := AppendAll(Selected(p, budget).kept)), budget, FinalWarnings(p, budget))
  {
  }

  lemma UnpackedFits(p: Pack, budget: int)
    requires Untouched(p, budget) || FitsDeduplicated(p, budget)
    ensures Estimate(Optimized(p, budget)) <= budget
  {
  }

  lemma FinalLength(p: Pack, budget: int)
    ensures BareLength(p.(payload := AppendAll(Selected(p, budget).kept)), budget, FinalWarnings(p, budget))
            == SelectionLength(p, budget) + WarningsAdded(p, budget)
    ensures SelectionLength(p, budget) == BareLength(p.(payload := AppendAll(Selected(p, budget).kept)), budget, BaseWarnings(p))
    ensures WarningsAdded(p, budget) <= 464
  {
    var base, omitted := BaseWarnings(p), Selected(p, budget).omitted;
    SectionsOfIsDistinct(omitted);
    AddedWarningsLength(base, SectionsOf(omitted), Estimate(p.(payload := EMPTY)) > budget);
    BareLengths(p.(payload := AppendAll(Selected(p, budget).kept)), budget, base, FinalWarnings(p, budget), WarningsAdded(p, budget));
  }

  /**
    The result is within the budget exactly when the pack is returned unchanged, or fits deduplicated, or
    the slack the selection leaves (four characters to a token) covers the warnings added after the
    probes and the digits of the total.
   */
  lemma WithinBudgetIff(p: Pack, budget: int)
    ensures Estimate(Optimized(p, budget)) <= budget <==>
              || Untouched(p, budget)
              || FitsDeduplicated(p, budget)
              || (var chars := SelectionLength(p, budget) + WarningsAdded(p, budget);
                  WarningsAdded(p, budget) + Digits((chars + 3) / 4) <= 4 * budget + 1 - SelectionLength(p, budget))
  {
    hide *;
    if Untouched(p, budget) || FitsDeduplicated(p, budget) {
      UnpackedFits(p, budget);
    } else {
      PackedResult(p, budget);
      FinalLength(p, budget);
      StampedWithin(p.(payload := AppendAll(Selected(p, budget).kept)), budget, budget, FinalWarnings(p, budget));
      CharsFitMeans(SelectionLength(p, budget) + WarningsAdded(p, budget), budget);
    }
  }

  // ---------------------------------------------------------------- how far off the result can be

  lemma SelectionFits(p: Pack, budget: int)
    requires Fits(p, EMPTY, budget, BaseWarnings(p))
    ensures Fits(p, AppendAll(Selected(p, budget).kept), budget, BaseWarnings(p))
  {
    KeptItemsFit(p, budget);
    assert AppendAll([]) == EMPTY;
  }

  lemma {:induction false} DigitsOfSum(n: nat, k: nat)
    requires k <= 117
    ensures Digits(n + k) <= Digits(n) + 2
    decreases n
  {
    if n < 10 {
      DigitsGrow(n + k, 999);
      assert Digits(999) == 3 by { assert Digits(9) == 1 && Digits(99) == 2; }
    } else {
      assert (n + k) / 10 <= n / 10 + 13;
      DigitsGrow((n + k) / 10, n / 10 + 13);
      DigitsOfSum(n / 10, 13);
    }
  }

  lemma LongerByWarnings(chars: nat, added: nat, limit: int)
    requires added <= 464 && CharsFit(chars, limit)
    ensures CharsFit(chars + added, limit + 117)
  {
    DigitsGrow((chars + added + 3) / 4, (chars + 3) / 4 + 116);
    DigitsOfSum((chars + 3) / 4, 116);
  }

  lemma WarnedBound(q: Pack, budget: int, base: seq<Warning>, ws: seq<Warning>, added: nat, limit: int)
    requires BareLength(q, budget, ws) == BareLength(q, budget, base) + added && added <= 464
    requires Estimate(Stamped(q, budget, base)) <= limit
    ensures Estimate(Stamped(q, budget, ws)) <= limit + 117
  {
    hide *;
    StampedWithin(q, budget, limit, base);
    LongerByWarnings(BareLength(q, budget, base), added, limit);
    StampedWithin(q, budget, limit + 117, ws);
  }

  lemma WarnedWithin(p: Pack, budget: int, limit: int)
    requires !Untouched(p, budget) && !FitsDeduplicated(p, budget)
    requires Estimate(Stamped(p.(payload := AppendAll(Selected(p, budget).kept)), budget, BaseWarnings(p))) <= limit
    ensures Estimate(Optimized(p, budget)) <= limit + 117
  {
    hide *;
    var q := p.(payload := AppendAll(Selected(p, budget).kept));
    PackedResult(p, budget);
    FinalLength(p, budget);
    WarnedBound(q, budget, BaseWarnings(p), FinalWarnings(p, budget), WarningsAdded(p, budget), limit);
  }

  /** When the pack without items is within the budget, the result is at most 117 tokens over it. */
  lemma OvershootIsBounded(p: Pack, budget: int)
    requires Fits(p, EMPTY, budget, BaseWarnings(p))
    ensures Estimate(Optimized(p, budget)) <= budget + 117
  {
    if Untouched(p, budget) || FitsDeduplicated(p, budget) {
      UnpackedFits(p, budget);
    } else {
      SelectionFits(p, budget);
      WarnedWithin(p, budget, budget);
    }
  }

  lemma AboveEmpty(cs: seq<Candidate>)
    requires OneArchitecture(cs)
    ensures Below(EMPTY, AppendAll(cs))
  {
    PrefixIsBelow(cs, 0);
    assert AppendAll(cs[..0]) == EMPTY;
  }

  /**
    When not even the pack without items is within the budget, nothing is kept: the result is that empty
    pack with its warnings, over the budget, and at most 117 tokens above the empty pack's own estimate.
   */
  lemma NothingFitsThenNothingIsKept(p: Pack, budget: int)
    requires WellSized(p.payload) && !Fits(p, EMPTY, budget, BaseWarnings(p)) && !Untouched(p, budget)
    ensures Selected(p, budget).kept == []
    ensures Optimized(p, budget) == Stamped(p.(payload := EMPTY), budget, FinalWarnings(p, budget))
    ensures budget < Estimate(Optimized(p, budget)) <= Estimate(Stamped(p.(payload := EMPTY), budget, BaseWarnings(p))) + 117
  {
    NothingKept(p, budget);
    assert AppendAll([]) == EMPTY;
    PackedResult(p, budget);
    WarnedWithin(p, budget, Estimate(Stamped(p.(payload := EMPTY), budget, BaseWarnings(p))));
    StillOver(p, budget);
  }

  lemma NothingKept(p: Pack, budget: int)
    requires WellSized(p.payload) && !Fits(p, EMPTY, budget, BaseWarnings(p))
    ensures Selected(p, budget).kept == [] && !FitsDeduplicated(p, budget)
  {
    var base, unique := BaseWarnings(p), Unique(Collect(p.payload));
    CollectedIsHeld(p.payload);
    UniqueIsWellSized(Collect(p.payload), p.payload);
    AboveEmpty(unique);
    if FitsDeduplicated(p, budget) { FitsDownwards(p, EMPTY, AppendAll(unique), budget, base); }
    KeptIsWellFormed(p, budget);
    KeptItemsFit(p, budget);
    var kept := Selected(p, budget).kept;
    AboveEmpty(kept);
    if kept != [] { FitsDownwards(p, EMPTY, AppendAll(kept), budget, base); }
  }

  lemma FitsIsEstimate(p: Pack, payload: Payload, budget: int, ws: seq<Warning>)
    ensures Fits(p, payload, budget, ws) <==> Estimate(Stamped(p.(payload := payload), budget, ws)) <= budget
  {
  }

  lemma NoItemsIsEmpty()
    ensures AppendAll([]) == EMPTY
  {
  }

  lemma StillOver(p: Pack, budget: int)
    requires !Fits(p, EMPTY, budget, BaseWarnings(p)) && Selected(p, budget).kept == []
    ensures Estimate(Stamped(p.(payload := EMPTY), budget, FinalWarnings(p, budget))) > budget
  {
    hide *;
    var q := p.(payload := EMPTY);
    NoItemsIsEmpty();
    FitsIsEstimate(p, EMPTY, budget, BaseWarnings(p));
    FinalLength(p, budget);
    StampedWithin(q, budget, budget, BaseWarnings(p));
    StampedWithin(q, budget, budget, FinalWarnings(p, budget));
    if CharsFit(SelectionLength(p, budget) + WarningsAdded(p, budget), budget) {
      FewerCharsFit(SelectionLength(p, budget), SelectionLength(p, budget) + WarningsAdded(p, budget), budget);
    }
  }

  // ---------------------------------------------------------------- packing always omits something

  function SumOf(cs: seq<Candidate>, s: Section): nat
    decreases |cs|
  {
    if cs == [] then 0
    else SumOf(cs[..|cs| - 1], s) + if cs[|cs| - 1].section == s then cs[|cs| - 1].content.size else 0
  }

  lemma {:induction false} SumsConcat(a: seq<Candidate>, b: seq<Candidate>, s: Section)
    ensures SumOf(a + b, s) == SumOf(a, s) + SumOf(b, s) && CountOf(a + b, s) == CountOf(a, s) + CountOf(b, s)
    decreases |b|
  {
    if b == [] {
      assert a + b == a;
    } else {
      assert (a + b)[..|a + b| - 1] == a + b[..|b| - 1];
      SumsConcat(a, b[..|b| - 1], s);
    }
  }

  lemma CancelOne(a: multiset<Candidate>, b: multiset<Candidate>, x: Candidate)
    requires a + multiset{x} == b + multiset{x}
    ensures a == b
  {
    assert a == a + multiset{x} - multiset{x} && b == b + multiset{x} - multiset{x};
  }

  /** The items of a section, their number and their sizes do not depend on the order. */
  lemma {:induction false} SumsOfPermutation(a: seq<Candidate>, b: seq<Candidate>, s: Section)
    requires multiset(a) == multiset(b)
    ensures SumOf(a, s) == SumOf(b, s) && CountOf(a, s) == CountOf(b, s)
    decreases |a|
  {
    if a == [] {
      assert |multiset(b)| == |b| && |multiset(a)| == 0;
    } else {
      var init, last := a[..|a| - 1], a[|a| - 1];
      assert a == init + [last];
      assert last in multiset(b);
      var i :| 0 <= i < |b| && b[i] == last;
      BagOfWithout(b, i);
      CancelOne(multiset(init), multiset(Without(b, i)), last);
      assert b == b[..i] + [last] + b[i + 1..];
      SumsOfPermutation(init, Without(b, i), s);
      SumsConcat(init, [last], s);
      SumsConcat(b[..i] + [last], b[i + 1..], s);
      SumsConcat(b[..i], [last], s);
      SumsConcat(b[..i], b[i + 1..], s);
    }
  }

  /** The length of a section of a selection, by its items alone. */
  lemma {:induction false} LengthBySums(cs: seq<Candidate>, s: Section)
    requires OneArchitecture(cs)
    ensures LengthAt(AppendAll(cs), s) ==
              if s == Architecture then (if CountOf(cs, s) == 0 then 2 else SumOf(cs, s))
              else 2 + SumOf(cs, s) + (if CountOf(cs, s) > 1 then CountOf(cs, s) - 1 else 0)
    ensures At(AppendAll(cs), s) == [] <==> CountOf(cs, s) == 0
    ensures CountOf(cs, s) == 0 ==> SumOf(cs, s) == 0
    decreases |cs|
  {
    if cs == [] {
      EmptySections(s);
    } else {
      var init, last := cs[..|cs| - 1], cs[|cs| - 1];
      LengthBySums(init, s);
      LongerByOne(AppendAll(init), last, s);
      if last.section == Architecture { NoArchitectureYet(init); }
      hide LengthAt, At, Append;
    }
  }

  /** What appending one item does to the length of a section. */
  lemma LongerByOne(q: Payload, c: Candidate, s: Section)
    ensures s != c.section ==> At(Append(q, c), s) == At(q, s) && LengthAt(Append(q, c), s) == LengthAt(q, s)
    ensures s == c.section ==> At(Append(q, c), s) != []
    ensures s == c.section != Architecture ==> LengthAt(Append(q, c), s) == LengthAt(q, s) + c.content.size + if At(q, s) == [] then 0 else 1
    ensures s == c.section == Architecture ==> LengthAt(Append(q, c), s) == c.content.size
  {
    SizesOfAppend(At(q, s), c.content);
  }

  lemma PermutationLength(a: seq<Candidate>, b: seq<Candidate>)
    requires multiset(a) == multiset(b) && OneArchitecture(a) && OneArchitecture(b)
    ensures Below(AppendAll(a), AppendAll(b))
  {
    forall s ensures LengthAt(AppendAll(a), s) <= LengthAt(AppendAll(b), s) && (At(AppendAll(a), s) != [] ==> At(AppendAll(b), s) != []) {
      SumsOfPermutation(a, b, s);
      LengthBySums(a, s);
      LengthBySums(b, s);
    }
  }

  /** A pack with items that does not fit deduplicated always loses one, so its result carries a warning of it. */
  lemma PackingOmits(p: Pack, budget: int)
    requires WellSized(p.payload) && Collect(p.payload) != [] && !FitsDeduplicated(p, budget)
    ensures Selected(p, budget).omitted != []
  {
    var unique, kept, omitted := Unique(Collect(p.payload)), Selected(p, budget).kept, Selected(p, budget).omitted;
    KeptAndOmittedArePartition(p, budget);
    if omitted == [] {
      assert multiset(unique) == multiset(kept);
      UniqueIsDistinct(Collect(p.payload));
      assert KeyOf(Collect(p.payload)[0]) in Keys(Collect(p.payload));
      assert unique != [] && kept != [] by { assert |multiset(unique)| == |unique| && |multiset(kept)| == |kept|; }
      CollectedIsHeld(p.payload);
      UniqueIsWellSized(Collect(p.payload), p.payload);
      KeptIsWellFormed(p, budget);
      PermutationLength(unique, kept);
      KeptItemsFit(p, budget);
      FitsDownwards(p, AppendAll(unique), AppendAll(kept), budget, BaseWarnings(p));
    }
  }

  lemma EmptySections(s: Section)
    ensures At(EMPTY, s) == [] && LengthAt(EMPTY, s) == 2
  {
  }

  // ---------------------------------------------------------------- a pack that misses its budget, for every frame

  /** Characters of a pack without items and warnings, before its total is written. */
  function EmptyChars(frame: nat, budget: int): nat {
    frame + 21 + IntLength(budget)
  }

  lemma {:induction false} DigitsAreFew(n: nat)
    ensures Digits(n) <= n / 10 + 1
    decreases n
  {
    if n >= 10 { DigitsAreFew(n / 10); }
  }

  /** The least budget an empty pack is within. */
  lemma {:induction false} LeastBudget(frame: nat, high: nat) returns (b: nat)
    requires CharsFit(EmptyChars(frame, high), high)
    ensures b > 0 && CharsFit(EmptyChars(frame, b), b) && !CharsFit(EmptyChars(frame, b - 1), b - 1)
    decreases high
  {
    if !CharsFit(EmptyChars(frame, high - 1), high - 1) { return high; }
    b := LeastBudget(frame, high - 1);
  }

  lemma SomeBudget(frame: nat)
    ensures CharsFit(EmptyChars(frame, frame + 30), frame + 30)
  {
    var b := frame + 30;
    DigitsAreFew(b);
    DigitsAreFew((EmptyChars(frame, b) + 3) / 4);
  }

  /** One more token of budget is what the empty pack needs: there is no room for a section warning. */
  lemma NoRoomForAWarning(frame: nat, b: nat)
    requires b > 0 && !CharsFit(EmptyChars(frame, b - 1), b - 1)
    ensures !CharsFit(EmptyChars(frame, b) + 39, b)
  {
    DigitsGrow(b - 1, b);
    DigitsGrow((EmptyChars(frame, b - 1) + 3) / 4, (EmptyChars(frame, b) + 39 + 3) / 4);
  }

  function HugeItem(b: nat): Content {
    Content(1, 4 * b + 1000, b, 0.0, 1.0)
  }

  function TightPack(frame: nat, b: nat): Pack {
    Pack(frame, map[Symbols := [HugeItem(b)]], [], b, 0)
  }

  lemma EmptyBareLength(frame: nat, b: nat, ws: seq<Warning>)
    ensures BareLength(TightPack(frame, b).(payload := EMPTY), b, ws) == frame + 19 + ArrayLength(WarningSizes(ws)) + IntLength(b)
  {
    forall s ensures LengthAt(EMPTY, s) == 2 { EmptySections(s); }
    assert PayloadLength(EMPTY) == 18;
  }

  lemma OneItemLength(c: Content)
    ensures ArrayLength(Sizes([c])) == c.size + 2
  {
    assert [c][..0] == [];
    SizesOfAppend([], c);
    assert [] + [c] == [c];
  }

  lemma HugeDoesNotFit(frame: nat, b: nat)
    ensures !Fits(TightPack(frame, b), map[Symbols := [HugeItem(b)]], b, []) && Estimate(TightPack(frame, b)) > b
  {
    OneItemLength(HugeItem(b));
    var p: Payload := map[Symbols := [HugeItem(b)]];
    assert LengthAt(p, Symbols) == 4 * b + 1002;
    assert PayloadLength(p) >= 4 * b + 1002;
  }

  lemma OneCandidate(c: Candidate)
    ensures Unique([c]) == [c]
    ensures c.section == Symbols ==> AppendAll([c]) == map[Symbols := [c.content]]
  {
    assert [c][..0] == [];
    assert Unique([]) == [] && Keys([]) == {};
    AppendLast([], c);
    assert [] + [c] == [c] && [] + [c.content] == [c.content];
    assert AppendAll([]) == EMPTY;
  }

  lemma NothingFits(fits: seq<Candidate> -> bool, c: Candidate)
    requires !fits([c])
    ensures Greedy(fits, [c], NONE_YET) == Selection([], [c])
  {
    assert [] + [c] == [c];
    assert Without([c], 0) == [];
    assert Best([c], []) == 0;
    assert Greedy(fits, [c], NONE_YET) == Greedy(fits, [], Selection([], [c]));
  }

  lemma TightSelection(frame: nat, b: nat)
    ensures var p := TightPack(frame, b);
            && BaseWarnings(p) == [] && !Untouched(p, b) && !FitsDeduplicated(p, b)
            && Selected(p, b).kept == [] && Selected(p, b).omitted != [] && SectionsOf(Selected(p, b).omitted) == [Symbols]
  {
    hide *;
    var p, c := TightPack(frame, b), TightCandidate(b);
    TightCollected(frame, b);
    OneCandidate(c);
    HugeDoesNotFit(frame, b);
    TightIsRefused(p, b, c);
    OneSectionOf(c);
  }

  function TightCandidate(b: nat): Candidate {
    Candidate(Symbols, HugeItem(b), Relevance(Symbols, HugeItem(b), 0))
  }

  lemma TightCollected(frame: nat, b: nat)
    ensures Collect(TightPack(frame, b).payload) == [TightCandidate(b)] && BaseWarnings(TightPack(frame, b)) == []
    ensures TightCandidate(b).section == Symbols && TightCandidate(b).content == HugeItem(b)
  {
    OneCandidate(TightCandidate(b));
  }

  lemma TightIsRefused(p: Pack, b: int, c: Candidate)
    requires Collect(p.payload) == [c] && Unique([c]) == [c] && BaseWarnings(p) == [] && Estimate(p) > b
    requires !Fits(p, AppendAll([c]), b, [])
    ensures !Untouched(p, b) && !FitsDeduplicated(p, b) && Selected(p, b) == Selection([], [c])
  {
    hide Greedy, Fits, Estimate, AppendAll;
    assert !FitsWith(p, b, [])([c]);
    NothingFits(FitsWith(p, b, []), c);
  }

  lemma OneSectionOf(c: Candidate)
    ensures SectionsOf([c]) == [c.section]
  {
    assert [c][..0] == [] && SectionsOf([]) == [];
  }

  /**
    Whatever the fixed part of a pack, some budget admits the pack without items, and yet the result for
    one item too large is over it: the section warning comes on top of the probes.
   */
  lemma WarningsCanExceedTheBudget(frame: nat) returns (p: Pack, budget: nat)
    ensures p.frame == frame && WellSized(p.payload)
    ensures Fits(p, EMPTY, budget, BaseWarnings(p)) && Selected(p, budget).omitted != []
    ensures Estimate(Optimized(p, budget)) > budget
  {
    hide *;
    SomeBudget(frame);
    budget := LeastBudget(frame, frame + 30);
    p := TightPack(frame, budget);
    TightPackFits(frame, budget);
    TightSelection(frame, budget);
    TightResult(frame, budget);
  }

  lemma TightPackFits(frame: nat, b: nat)
    requires CharsFit(EmptyChars(frame, b), b)
    ensures Fits(TightPack(frame, b), EMPTY, b, []) && WellSized(TightPack(frame, b).payload) && TightPack(frame, b).frame == frame
  {
    EmptyBareLength(frame, b, []);
    assert ArrayLength(WarningSizes([])) == 2;
    StampedWithin(TightPack(frame, b).(payload := EMPTY), b, b, []);
  }

  lemma TightLengths(frame: nat, b: nat)
    requires BaseWarnings(TightPack(frame, b)) == []
    requires Selected(TightPack(frame, b), b).kept == [] && SectionsOf(Selected(TightPack(frame, b), b).omitted) == [Symbols]
    ensures SelectionLength(TightPack(frame, b), b) == EmptyChars(frame, b) && WarningsAdded(TightPack(frame, b), b) >= 39
  {
    EmptyBareLength(frame, b, []);
    assert ArrayLength(WarningSizes([])) == 2 && AppendAll([]) == EMPTY;
    OneSymbol();
  }

  lemma OneSymbol()
    ensures AddedLength([], [Symbols], false) >= 39 && AddedLength([], [Symbols], true) >= 39
  {
    assert Missing([], [Symbols]) == {} + {Symbols};
    OneMoreSection({}, Symbols);
  }

  lemma OverBudget(p: Pack, budget: int)
    requires !Untouched(p, budget) && !FitsDeduplicated(p, budget)
    requires !CharsFit(SelectionLength(p, budget) + WarningsAdded(p, budget), budget)
    ensures Estimate(Optimized(p, budget)) > budget
  {
    WithinBudgetIff(p, budget);
  }

  lemma TightResult(frame: nat, b: nat)
    requires b > 0 && !CharsFit(EmptyChars(frame, b - 1), b - 1)
    ensures Estimate(Optimized(TightPack(frame, b), b)) > b
  {
    hide *;
    var p := TightPack(frame, b);
    TightSelection(frame, b);
    TightLengths(frame, b);
    NoRoomForAWarning(frame, b);
    if CharsFit(EmptyChars(frame, b) + WarningsAdded(p, b), b) {
      FewerCharsFit(EmptyChars(frame, b) + 39, EmptyChars(frame, b) + WarningsAdded(p, b), b);
    }
    OverBudget(p, b);
  }
}
