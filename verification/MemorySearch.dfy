/**
  The decision store: every row keeps the distinct tokens of its content beside it, a search reads
  only the rows that share a token with the query and phrase-matches those.
 */
module MemorySearch {
  import opened Wrappers
  import opened MemoryText

  /** `id` is the row's rank in identifier order. */
  datatype Row = Row(id: nat, content: string, createdAt: int, searchTokens: seq<Token>)

  /** ORDER BY created_at DESC, id ASC. */
  predicate Precedes(a: Row, b: Row) {
    a.createdAt > b.createdAt || (a.createdAt == b.createdAt && a.id <= b.id)
  }

  function Placed(r: Row, s: seq<Row>): seq<Row>
    decreases |s|
  {
    if s == [] || Precedes(r, s[0]) then [r] + s else [s[0]] + Placed(r, s[1..])
  }

  function Ordered(rows: seq<Row>): seq<Row>
    decreases |rows|
  {
    if rows == [] then [] else Placed(rows[|rows| - 1], Ordered(rows[..|rows| - 1]))
  }

  function Where(rows: seq<Row>, keep: Row -> bool): seq<Row>
    decreases |rows|
  {
    if rows == [] then []
    else if keep(rows[0]) then [rows[0]] + Where(rows[1..], keep)
    else Where(rows[1..], keep)
  }

  function Cut(rows: seq<Row>, limit: Option<int>): seq<Row> {
    if limit.None? then rows
    else if limit.value <= 0 then []
    else if |rows| <= limit.value then rows else rows[..limit.value]
  }

  // ---------------------------------------------------------------- filtering and sorting commute

  predicate InOrder(rows: seq<Row>) {
    forall i, j :: 0 <= i < j < |rows| ==> Precedes(rows[i], rows[j])
  }

  lemma {:induction false} PlacedInOrder(r: Row, s: seq<Row>)
    requires InOrder(s)
    ensures InOrder(Placed(r, s)) && forall x :: x in Placed(r, s) <==> x == r || x in s
    decreases |s|
  {
    if s != [] && !Precedes(r, s[0]) {
      PlacedInOrder(r, s[1..]);
      var rest := Placed(r, s[1..]);
      assert s == [s[0]] + s[1..];
      forall j | 0 <= j < |rest| ensures Precedes(s[0], rest[j]) {
        assert rest[j] in rest;
        if rest[j] != r {
          var i :| 0 <= i < |s[1..]| && s[1..][i] == rest[j];
          assert s[i + 1] == rest[j];
        }
      }
    }
  }

  lemma {:induction false} OrderedInOrder(rows: seq<Row>)
    ensures InOrder(Ordered(rows)) && forall x :: x in Ordered(rows) <==> x in rows
    decreases |rows|
  {
    if rows != [] {
      OrderedInOrder(rows[..|rows| - 1]);
      PlacedInOrder(rows[|rows| - 1], Ordered(rows[..|rows| - 1]));
      assert rows == rows[..|rows| - 1] + [rows[|rows| - 1]];
    }
  }

  lemma {:induction false} PlacedFirst(r: Row, s: seq<Row>)
    requires forall x :: x in s ==> Precedes(r, x)
    ensures Placed(r, s) == [r] + s
  {
    if s != [] { assert s[0] in s; }
  }

  lemma {:induction false} WhereKeepsMembers(rows: seq<Row>, keep: Row -> bool, x: Row)
    ensures x in Where(rows, keep) <==> x in rows && keep(x)
    decreases |rows|
  {
    if rows != [] {
      WhereKeepsMembers(rows[1..], keep, x);
      assert rows == [rows[0]] + rows[1..];
    }
  }

  lemma {:induction false} WherePlaced(r: Row, s: seq<Row>, keep: Row -> bool)
    requires InOrder(s)
    ensures Where(Placed(r, s), keep) == if keep(r) then Placed(r, Where(s, keep)) else Where(s, keep)
    decreases |s|
  {
    if s == [] {
    } else if Precedes(r, s[0]) {
      assert ([r] + s)[1..] == s;
      if keep(r) {
        forall x | x in Where(s, keep) ensures Precedes(r, x) {
          WhereKeepsMembers(s, keep, x);
          var i :| 0 <= i < |s| && s[i] == x;
          if i > 0 { assert Precedes(s[0], s[i]); }
        }
        PlacedFirst(r, Where(s, keep));
      }
    } else {
      var rest := Placed(r, s[1..]);
      assert ([s[0]] + rest)[1..] == rest;
      WherePlaced(r, s[1..], keep);
      if keep(s[0]) && keep(r) {
        assert ([s[0]] + Where(s[1..], keep))[1..] == Where(s[1..], keep);
      }
    }
  }

  lemma {:induction false} WhereConcat(a: seq<Row>, r: Row, keep: Row -> bool)
    ensures Where(a + [r], keep) == if keep(r) then Where(a, keep) + [r] else Where(a, keep)
    decreases |a|
  {
    if a != [] {
      assert (a + [r])[1..] == a[1..] + [r];
      WhereConcat(a[1..], r, keep);
    } else {
      assert [r][1..] == [];
    }
  }

  lemma {:induction false} WhereOrdered(rows: seq<Row>, keep: Row -> bool)
    ensures Where(Ordered(rows), keep) == Ordered(Where(rows, keep))
    decreases |rows|
  {
    if rows != [] {
      var init, last := rows[..|rows| - 1], rows[|rows| - 1];
      assert rows == init + [last];
      WhereOrdered(init, keep);
      OrderedInOrder(init);
      WherePlaced(last, Ordered(init), keep);
      WhereConcat(init, last, keep);
      if keep(last) { assert (Where(init, keep) + [last])[..|Where(init, keep)|] == Where(init, keep); }
    }
  }

  lemma {:induction false} WhereWhere(rows: seq<Row>, first: Row -> bool, second: Row -> bool)
    requires forall r :: r in rows && second(r) ==> first(r)
    ensures Where(Where(rows, first), second) == Where(rows, second)
    decreases |rows|
  {
    if rows != [] {
      forall r | r in rows[1..] && second(r) ensures first(r) { assert r in rows; }
      WhereWhere(rows[1..], first, second);
      if first(rows[0]) { assert ([rows[0]] + Where(rows[1..], first))[1..] == Where(rows[1..], first); }
      assert rows[0] in rows;
    }
  }

  // ---------------------------------------------------------------- the search

  /** Every row stores the canonical tokens of its own content. */
  ghost predicate Indexed(rows: seq<Row>, word: Alphabet) {
    forall r :: r in rows ==> r.searchTokens == CanonicalTokens(r.content, word)
  }

  function Asked(query: string, word: Alphabet): seq<Token> {
    Deduplicated(Flat(QueryPhrases(query, word)))
  }

  function Overlapping(query: string, word: Alphabet): Row -> bool {
    (r: Row) => Overlap(r.searchTokens, Asked(query, word))
  }

  ghost function Matching(query: string, word: Alphabet): Row -> bool {
    (r: Row) => Matches(r.content, QueryPhrases(query, word), word)
  }

  /** The reference: phrase-match every stored row, in order, then cut. */
  ghost function FullScan(rows: seq<Row>, query: string, word: Alphabet, limit: Option<int>): seq<Row> {
    Cut(Where(Ordered(rows), Matching(query, word)), limit)
  }

  /** The indexed search: prefilter, order, match, cut. */
  ghost function Search(rows: seq<Row>, query: string, word: Alphabet, limit: Option<int>): seq<Row> {
    Cut(Where(Ordered(Where(rows, Overlapping(query, word))), Matching(query, word)), limit)
  }

  /** The indexed search returns the rows of the full scan, in its order, for every query and limit. */
  lemma IndexedSearchIsFullScan(rows: seq<Row>, query: string, word: Alphabet, limit: Option<int>)
    requires Indexed(rows, word)
    ensures Search(rows, query, word, limit) == FullScan(rows, query, word, limit)
  {
    var overlapping, matching := Overlapping(query, word), Matching(query, word);
    WhereOrdered(Where(rows, overlapping), matching);
    WhereOrdered(rows, matching);
    forall r | r in rows && matching(r) ensures overlapping(r) {
      MatchImpliesOverlap(r.content, query, word);
    }
    WhereWhere(rows, overlapping, matching);
  }

  lemma NoPhrasesNoRows(rows: seq<Row>, query: string, word: Alphabet, limit: Option<int>)
    requires QueryPhrases(query, word) == []
    ensures FullScan(rows, query, word, limit) == []
  {
    var found := Where(Ordered(rows), Matching(query, word));
    if found != [] {
      WhereKeepsMembers(Ordered(rows), Matching(query, word), found[0]);
    }
  }

  class ProjectMemory {
    var rows: seq<Row>
    const word: Alphabet

    constructor (word: Alphabet)
      ensures Valid() && rows == [] && this.word == word
    {
      rows, this.word := [], word;
    }

    ghost predicate Valid()
      reads this
    {
      Indexed(rows, word)
    }

    method StoreDecision(id: nat, content: string, createdAt: int)
      requires Valid()
      modifies this
      ensures Valid() && rows == old(rows) + [Row(id, content, createdAt, CanonicalTokens(content, word))]
    {
      var r := Row(id, content, createdAt, CanonicalTokens(content, word));
      rows := rows + [r];
    }

    method GetDecisions(query: string, limit: Option<int>) returns (found: seq<Row>)
      requires Valid()
      ensures found == FullScan(rows, query, word, limit)
    {
      var phrases := QueryPhrases(query, word);
      if phrases == [] {
        NoPhrasesNoRows(rows, query, word, limit);
        return [];
      }
      if limit.Some? && limit.value <= 0 { return []; }
      var prefiltered := Ordered(Where(rows, Overlapping(query, word)));
      found := [];
      var k := 0;
      assert prefiltered[..0] == [];
      while k < |prefiltered|
        invariant 0 <= k <= |prefiltered| && found == Where(prefiltered[..k], Matching(query, word))
      {
        forall i | 0 <= i < |phrases| ensures phrases[i] != [] { PhrasesAreNotEmpty(Chunks(query, word), word, i); }
        var matched := MatchesLegacyFts(prefiltered[k].content, phrases, word);
        assert prefiltered[..k + 1] == prefiltered[..k] + [prefiltered[k]];
        WhereConcat(prefiltered[..k], prefiltered[k], Matching(query, word));
        if matched { found := found + [prefiltered[k]]; }
        k := k + 1;
      }
      assert prefiltered[..k] == prefiltered;
      found := Cut(found, limit);
      IndexedSearchIsFullScan(rows, query, word, limit);
    }
  }
}
