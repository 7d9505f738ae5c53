/** Context packs: sections of items, metadata, and the length of their serialization in characters. */
module ContextPack {
  datatype Section = Symbols | Decisions | Statics | Callers | Callees | Tests | Summaries | Docs | Architecture

  /** `size` is the serialized length, `cost` the token estimate of the content alone. */
  datatype Content = Content(key: nat, size: nat, cost: nat, bonus: real, freshness: real)

  datatype Warning =
    | Note(id: nat, length: nat)          // anything the pack came with
    | DuplicatesRemoved
    | Omitted(section: Section)
    | FloorExceeded

  type Payload = map<Section, seq<Content>>

  datatype Pack = Pack(
    frame: nat,                           // everything that is never changed, braces, names and commas included
    payload: Payload,
    warnings: seq<Warning>,
    budget: int,
    total: nat)                           // metadata.total_tokens

  function At(p: Payload, s: Section): seq<Content> {
    if s in p then p[s] else []
  }

  const EMPTY: Payload := map[]

  // ---------------------------------------------------------------- serialized length

  function Digits(n: nat): nat {
    if n < 10 then 1 else 1 + Digits(n / 10)
  }

  function IntLength(n: int): nat {
    if n < 0 then 1 + Digits(-n) else Digits(n)
  }

  /** Serialized with quotes; the fixed texts are those of the optimizer. */
  function WarningLength(w: Warning): nat {
    match w
    case Note(_, length) => length
    case DuplicatesRemoved => 45
    case FloorExceeded => 44
    case Omitted(s) =>
      match s
      case Architecture => 42
      case Statics => 48
      case Docs => 45
      case Summaries => 41
      case Symbols => 39
      case Decisions => 41
      case Callers => 52
      case Callees => 52
      case Tests => 50
  }

  /** Elements and the commas between them. */
  function Inner(sizes: seq<nat>): nat
    decreases |sizes|
  {
    if sizes == [] then 0
    else Inner(sizes[..|sizes| - 1]) + (if |sizes| > 1 then 1 else 0) + sizes[|sizes| - 1]
  }

  function ArrayLength(sizes: seq<nat>): nat {
    2 + Inner(sizes)
  }

  function Sizes(cs: seq<Content>): (r: seq<nat>)
    ensures |r| == |cs|
  {
    seq(|cs|, i requires 0 <= i < |cs| => cs[i].size)
  }

  function WarningSizes(ws: seq<Warning>): (r: seq<nat>)
    ensures |r| == |ws|
  {
    seq(|ws|, i requires 0 <= i < |ws| => WarningLength(ws[i]))
  }

  /** The architecture is one string, empty when there is none; every other section is an array. */
  function SectionLength(s: Section, cs: seq<Content>): nat {
    if s != Architecture then ArrayLength(Sizes(cs))
    else if cs == [] then 2 else cs[|cs| - 1].size
  }

  function LengthAt(p: Payload, s: Section): nat {
    SectionLength(s, At(p, s))
  }

  function PayloadLength(p: Payload): nat {
    LengthAt(p, Symbols) + LengthAt(p, Decisions) + LengthAt(p, Statics) + LengthAt(p, Callers) + LengthAt(p, Callees)
    + LengthAt(p, Tests) + LengthAt(p, Summaries) + LengthAt(p, Docs) + LengthAt(p, Architecture)
  }

  function Length(p: Pack): nat {
    p.frame + PayloadLength(p.payload) + ArrayLength(WarningSizes(p.warnings)) + IntLength(p.budget) + Digits(p.total)
  }

  /** Four characters to a token, rounded up. */
  function Estimate(p: Pack): nat {
    (Length(p) + 3) / 4
  }

  /** The stamp is computed over the pack with a zero total, and the total then changes the length. */
  function Stamped(p: Pack, budget: int, warnings: seq<Warning>): (r: Pack)
    ensures r.payload == p.payload && r.frame == p.frame && r.warnings == warnings && r.budget == budget
  {
    var zero := p.(budget := budget, warnings := warnings, total := 0);
    zero.(total := Estimate(zero))
  }

  // ---------------------------------------------------------------- candidates

  datatype Candidate = Candidate(section: Section, content: Content, relevance: real)

  /** The diversity key: the section's own keys, and one key for the architecture. */
  function KeyOf(c: Candidate): (Section, nat) {
    (c.section, if c.section == Architecture then 0 else c.content.key)
  }

  /** Architecture is a single string; in every other section the item goes to the end. */
  function Append(p: Payload, c: Candidate): Payload {
    if c.section == Architecture then p[Architecture := [c.content]]
    else p[c.section := At(p, c.section) + [c.content]]
  }

  function AppendAll(cs: seq<Candidate>): Payload
    decreases |cs|
  {
    if cs == [] then EMPTY else Append(AppendAll(cs[..|cs| - 1]), cs[|cs| - 1])
  }

  function BaseRelevance(s: Section): real {
    match s
    case Symbols => 1.0
    case Decisions => 0.96
    case Callers => 0.92
    case Callees => 0.9
    case Tests => 0.9
    case Summaries => 0.82
    case Docs => 0.72
    case Statics => 0.0
    case Architecture => 0.7
  }

  function Clamped(r: real): real {
    if r > 1.0 then 1.0 else if r < 0.05 then 0.05 else r
  }

  function Relevance(s: Section, c: Content, ordinal: nat): real {
    if s == Architecture then 0.7
    else if s == Statics then Clamped(c.bonus)
    else Clamped(BaseRelevance(s) - ordinal as real * 0.015 + c.bonus)
  }

  function FromSection(p: Payload, s: Section): (r: seq<Candidate>)
    ensures |r| == |At(p, s)|
    ensures forall i :: 0 <= i < |r| ==> r[i].section == s && r[i].content == At(p, s)[i]
  {
    seq(|At(p, s)|, i requires 0 <= i < |At(p, s)| => Candidate(s, At(p, s)[i], Relevance(s, At(p, s)[i], i)))
  }

  function Collect(p: Payload): seq<Candidate> {
    FromSection(p, Symbols) + FromSection(p, Decisions) + FromSection(p, Statics) + FromSection(p, Callers)
    + FromSection(p, Callees) + FromSection(p, Tests) + FromSection(p, Summaries) + FromSection(p, Docs)
    + FromSection(p, Architecture)
  }

  // ---------------------------------------------------------------- lengths grow

  lemma {:induction false} DigitsGrow(m: nat, n: nat)
    requires m <= n
    ensures Digits(m) <= Digits(n)
    decreases n
  {
    if n >= 10 {
      assert m / 10 <= n / 10;
      DigitsGrow(m / 10, n / 10);
    }
  }

  lemma SizesOfAppend(cs: seq<Content>, c: Content)
    ensures ArrayLength(Sizes(cs + [c])) == ArrayLength(Sizes(cs)) + c.size + if cs == [] then 0 else 1
  {
    assert Sizes(cs + [c])[..|cs|] == Sizes(cs);
  }

  /** In every section the second payload is at least as long, and not empty where the first is not. */
  ghost predicate Below(p: Payload, q: Payload) {
    forall s :: LengthAt(p, s) <= LengthAt(q, s) && (At(p, s) != [] ==> At(q, s) != [])
  }

  lemma BelowIsShorter(p: Payload, q: Payload)
    requires Below(p, q)
    ensures PayloadLength(p) <= PayloadLength(q)
  {
    forall s ensures LengthAt(p, s) <= LengthAt(q, s) { }
    assert LengthAt(p, Symbols) <= LengthAt(q, Symbols) && LengthAt(p, Decisions) <= LengthAt(q, Decisions);
    assert LengthAt(p, Statics) <= LengthAt(q, Statics) && LengthAt(p, Callers) <= LengthAt(q, Callers);
    assert LengthAt(p, Callees) <= LengthAt(q, Callees) && LengthAt(p, Tests) <= LengthAt(q, Tests);
    assert LengthAt(p, Summaries) <= LengthAt(q, Summaries) && LengthAt(p, Docs) <= LengthAt(q, Docs);
    assert LengthAt(p, Architecture) <= LengthAt(q, Architecture);
  }

  lemma BelowItself(p: Payload)
    ensures Below(p, p)
  {
  }

  lemma BelowIsTransitive(p: Payload, q: Payload, r: Payload)
    requires Below(p, q) && Below(q, r)
    ensures Below(p, r)
  {
    forall s ensures LengthAt(p, s) <= LengthAt(r, s) && (At(p, s) != [] ==> At(r, s) != []) {
      assert LengthAt(p, s) <= LengthAt(q, s) && (At(p, s) != [] ==> At(q, s) != []);
      assert LengthAt(q, s) <= LengthAt(r, s) && (At(q, s) != [] ==> At(r, s) != []);
    }
  }

  /** A serialized string has at least its quotes, and the architecture is set once. */
  ghost predicate Fresh(p: Payload, c: Candidate) {
    c.section == Architecture ==> c.content.size >= 2 && At(p, Architecture) == []
  }

  lemma AppendIsAbove(p: Payload, c: Candidate)
    requires Fresh(p, c)
    ensures Below(p, Append(p, c))
  {
    SizesOfAppend(At(p, c.section), c.content);
    forall s ensures LengthAt(p, s) <= LengthAt(Append(p, c), s) && (At(p, s) != [] ==> At(Append(p, c), s) != []) { }
  }

  lemma AppendKeepsBelow(p: Payload, q: Payload, c: Candidate)
    requires Below(p, q)
    ensures Below(Append(p, c), Append(q, c))
  {
    SizesOfAppend(At(p, c.section), c.content);
    SizesOfAppend(At(q, c.section), c.content);
    forall s ensures LengthAt(Append(p, c), s) <= LengthAt(Append(q, c), s)
                     && (At(Append(p, c), s) != [] ==> At(Append(q, c), s) != [])
    {
      assert LengthAt(p, s) <= LengthAt(q, s) && (At(p, s) != [] ==> At(q, s) != []);
    }
  }

  /** The stamped pack fits. */
  predicate Fits(pack: Pack, p: Payload, budget: int, warnings: seq<Warning>) {
    Estimate(Stamped(pack.(payload := p), budget, warnings)) <= budget
  }

  /** A longer payload, with its larger total and its digits, never fits where a shorter one does not. */
  lemma FitsDownwards(pack: Pack, p: Payload, q: Payload, budget: int, warnings: seq<Warning>)
    requires Below(p, q) && Fits(pack, q, budget, warnings)
    ensures Fits(pack, p, budget, warnings)
  {
    BelowIsShorter(p, q);
    var small := pack.(payload := p, budget := budget, warnings := warnings, total := 0);
    var large := pack.(payload := q, budget := budget, warnings := warnings, total := 0);
    assert Length(small) <= Length(large);
    DigitsGrow(Estimate(small), Estimate(large));
    assert Stamped(pack.(payload := p), budget, warnings) == small.(total := Estimate(small));
    assert Stamped(pack.(payload := q), budget, warnings) == large.(total := Estimate(large));
  }
}
