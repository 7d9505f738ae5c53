/** Byte strings under the lexicographic order that Rust's `String` sorts by, and sorted sequences of them. */
module ByteOrder {
  newtype byte = x: int | 0 <= x < 256
  type Bytes = seq<byte>

  predicate Less(a: Bytes, b: Bytes)
    decreases |a|
  {
    if b == [] then false
    else if a == [] then true
    else if a[0] != b[0] then a[0] < b[0]
    else Less(a[1..], b[1..])
  }

  lemma {:induction false} LessIsTotal(a: Bytes, b: Bytes)
    ensures Less(a, b) || a == b || Less(b, a)
    ensures !(Less(a, b) && Less(b, a))
    ensures !Less(a, a)
    decreases |a|
  {
    if a != [] {
      LessIsTotal(a[1..], if b == [] then [] else b[1..]);
      if b != [] && a[0] == b[0] {
        assert a == [a[0]] + a[1..] && b == [b[0]] + b[1..];
      }
    }
  }

  lemma {:induction false} LessIsTransitive(a: Bytes, b: Bytes, c: Bytes)
    requires Less(a, b) && Less(b, c)
    ensures Less(a, c)
    decreases |a|
  {
    if a != [] && a[0] == b[0] == c[0] {
      LessIsTransitive(a[1..], b[1..], c[1..]);
    }
  }

  predicate Ascending(s: seq<Bytes>) {
    forall i :: 0 <= i < |s| - 1 ==> !Less(s[i + 1], s[i])
  }

  predicate StrictlyAscending(s: seq<Bytes>) {
    forall i, j :: 0 <= i < j < |s| ==> Less(s[i], s[j])
  }

  /** Two strictly ascending sequences with the same elements are one sequence. */
  lemma {:induction false} AscendingIsUnique(s: seq<Bytes>, t: seq<Bytes>)
    requires StrictlyAscending(s) && StrictlyAscending(t)
    requires forall x :: x in s <==> x in t
    ensures s == t
    decreases |s|
  {
    if s == [] {
      assert forall i :: 0 <= i < |t| ==> t[i] in t;
    } else {
      assert s[0] in t;
      assert t[0] in s;
      HeadsAgree(s, t);
      forall x ensures x in s[1..] <==> x in t[1..] { TailMember(s, x); TailMember(t, x); }
      AscendingIsUnique(s[1..], t[1..]);
      assert s == [s[0]] + s[1..] && t == [t[0]] + t[1..];
    }
  }

  lemma HeadsAgree(s: seq<Bytes>, t: seq<Bytes>)
    requires StrictlyAscending(s) && StrictlyAscending(t) && s != [] && t != []
    requires s[0] in t && t[0] in s
    ensures s[0] == t[0]
  {
    LessIsTotal(s[0], t[0]);
  }

  lemma TailMember(s: seq<Bytes>, x: Bytes)
    requires StrictlyAscending(s) && s != []
    ensures x in s[1..] <==> x in s && x != s[0]
  {
    LessIsTotal(s[0], s[0]);
    if x in s && x != s[0] {
      var i :| 0 <= i < |s| && s[i] == x;
      assert s[1..][i - 1] == x;
    }
  }

  /** Insertion into an ascending sequence. */
  function Insert(x: Bytes, s: seq<Bytes>): seq<Bytes>
    decreases |s|
  {
    if s == [] || !Less(s[0], x) then [x] + s else [s[0]] + Insert(x, s[1..])
  }

  function Sorted(s: seq<Bytes>): seq<Bytes>
    decreases |s|
  {
    if s == [] then [] else Insert(s[0], Sorted(s[1..]))
  }

  /** Removes every element equal to the one before it. */
  function Deduplicated(s: seq<Bytes>): seq<Bytes>
    decreases |s|
  {
    if |s| <= 1 then s
    else if s[0] == s[1] then Deduplicated(s[1..])
    else [s[0]] + Deduplicated(s[1..])
  }

  lemma {:induction false} InsertKeepsAscending(x: Bytes, s: seq<Bytes>)
    requires Ascending(s)
    ensures Ascending(Insert(x, s))
    ensures forall y :: y in Insert(x, s) <==> y == x || y in s
    ensures Insert(x, s) != [] && (Insert(x, s)[0] == x || (s != [] && Insert(x, s)[0] == s[0]))
    decreases |s|
  {
    if s == [] || !Less(s[0], x) {
    } else {
      InsertKeepsAscending(x, s[1..]);
      LessIsTotal(s[0], x);
      var rest := Insert(x, s[1..]);
      assert !Less(rest[0], s[0]);
      assert s == [s[0]] + s[1..];
    }
  }

  lemma {:induction false} SortedIsAscending(s: seq<Bytes>)
    ensures Ascending(Sorted(s)) && forall y :: y in Sorted(s) <==> y in s
    decreases |s|
  {
    if s != [] {
      SortedIsAscending(s[1..]);
      InsertKeepsAscending(s[0], Sorted(s[1..]));
      assert s == [s[0]] + s[1..];
    }
  }

  lemma {:induction false} DeduplicatedIsStrict(s: seq<Bytes>)
    requires Ascending(s)
    ensures StrictlyAscending(Deduplicated(s)) && forall y :: y in Deduplicated(s) <==> y in s
    ensures s != [] ==> Deduplicated(s) != [] && Deduplicated(s)[0] == s[0]
    decreases |s|
  {
    if |s| > 1 {
      DeduplicatedIsStrict(s[1..]);
      assert s == [s[0]] + s[1..];
      var rest := Deduplicated(s[1..]);
      LessIsTotal(s[0], s[1]);
      if s[0] != s[1] {
        forall j | 0 <= j < |rest| ensures Less(s[0], rest[j]) {
          if j > 0 { LessIsTransitive(s[0], rest[0], rest[j]); }
        }
      }
    }
  }
}
