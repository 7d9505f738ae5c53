/** Printing RESP2: canonical decimals, replies as a server writes them, and the client's command encoder. */
module RespPrinter {
  import opened Wrappers
  import opened RespParser

  // ---------------------------------------------------------------- canonical decimals

  function Decimal(n: nat): (text: Bytes)
    ensures |text| > 0
  {
    if n < 10 then [48 + n] else Decimal(n / 10) + [48 + n % 10]
  }

  function SignedDecimal(i: int): Bytes {
    if i < 0 then [MINUS] + Decimal(-i) else Decimal(i)
  }

  predicate Safe(i: int) {
    -MAX_SAFE_INTEGER <= i <= MAX_SAFE_INTEGER
  }

  /** Number() reads every canonical decimal of a safe integer exactly. */
  ghost predicate ReadsCanonical(num: Numeral) {
    forall i: int {:trigger SignedDecimal(i)} :: Safe(i) ==> num(SignedDecimal(i)) == Some(i)
  }

  predicate AllDigits(text: Bytes) {
    forall i :: 0 <= i < |text| ==> 48 <= text[i] <= 57
  }

  lemma {:induction false} DecimalDigits(n: nat)
    ensures AllDigits(Decimal(n))
  {
    if n >= 10 { DecimalDigits(n / 10); }
  }

  function DigitsValue(text: Bytes): (n: nat)
    requires AllDigits(text)
  {
    if text == [] then 0 else 10 * DigitsValue(text[..|text| - 1]) + (text[|text| - 1] - 48)
  }

  /** The strict reading of a canonical decimal; one admissible Number(). */
  function StrictNumber(text: Bytes): Option<int> {
    if |text| > 0 && AllDigits(text) then Some(DigitsValue(text))
    else if |text| > 1 && text[0] == MINUS && AllDigits(text[1..]) then var n: int := DigitsValue(text[1..]); Some(-n)
    else None
  }

  lemma {:induction false} DecimalValue(n: nat)
    ensures AllDigits(Decimal(n)) && DigitsValue(Decimal(n)) == n
  {
    DecimalDigits(n);
    if n >= 10 {
      DecimalValue(n / 10);
      assert Decimal(n)[..|Decimal(n)| - 1] == Decimal(n / 10);
    } else {
      assert Decimal(n)[..0] == [];
    }
  }

  lemma StrictNumberReadsCanonical()
    ensures ReadsCanonical(StrictNumber)
  {
    forall i: int | Safe(i) ensures StrictNumber(SignedDecimal(i)) == Some(i) {
      if i < 0 { StrictNegative(-i); } else { DecimalValue(i); }
    }
  }

  lemma StrictNegative(n: int)
    requires n > 0
    ensures StrictNumber([MINUS] + Decimal(n)) == Some(-n)
  {
    DecimalValue(n);
    var text := [MINUS] + Decimal(n);
    assert text[1..] == Decimal(n);
    assert !AllDigits(text) by { assert text[0] == MINUS; }
  }

  // ---------------------------------------------------------------- the printer

  predicate NoCrlf(text: Bytes) {
    LineEnd(text, 0).None?
  }

  function Print(r: Reply): Bytes {
    match r
    case Simple(text) => [PLUS] + text + CRLF
    case ErrorReply(message) => [MINUS] + message + CRLF
    case Integer(value) => [COLON] + SignedDecimal(value) + CRLF
    case Bulk(bytes) => [DOLLAR] + Decimal(|bytes|) + CRLF + (bytes + CRLF)
    case Null => [DOLLAR] + SignedDecimal(-1) + CRLF
    case Array(items) => [STAR] + Decimal(|items|) + CRLF + PrintAll(items)
  }

  function PrintAll(rs: seq<Reply>): Bytes {
    if rs == [] then [] else Print(rs[0]) + PrintAll(rs[1..])
  }

  /** Replies a server can put on the wire; inside an array an error would fail the whole parse. */
  predicate Printable(r: Reply) {
    match r
    case Simple(text) => NoCrlf(text)
    case ErrorReply(message) => NoCrlf(message)
    case Integer(value) => Safe(value)
    case Bulk(bytes) => Safe(|bytes|)
    case Null => true
    case Array(items) => Safe(|items|) && forall i :: 0 <= i < |items| ==> !items[i].ErrorReply? && Printable(items[i])
  }

  // ---------------------------------------------------------------- reading one line back

  lemma {:induction false} LineEndSkips(text: Bytes, post: Bytes, from: nat)
    requires from <= |text| && LineEnd(text, from).None?
    ensures LineEnd(text + CRLF + post, from) == Some(|text|)
    decreases |text| - from
  {
    var line := text + CRLF + post;
    if from < |text| {
      assert line[from] == text[from];
      if from + 1 < |text| {
        assert line[from + 1] == text[from + 1];
      } else {
        assert line[from + 1] == CR;
      }
      LineEndSkips(text, post, from + 1);
    } else {
      assert line[from] == CR && line[from + 1] == LF;
    }
  }

  lemma {:induction false} DigitsNoCrlf(text: Bytes, from: nat)
    requires forall i :: 0 <= i < |text| ==> text[i] != CR
    ensures LineEnd(text, from).None?
    decreases |text| - from
  {
    if from + 2 <= |text| { DigitsNoCrlf(text, from + 1); }
  }

  lemma SignedNoCrlf(i: int)
    ensures NoCrlf(SignedDecimal(i))
  {
    DecimalDigits(if i < 0 then -i else i);
    DigitsNoCrlf(SignedDecimal(i), 0);
  }

  /** A prefix byte, a line without CRLF, CRLF, and anything: the parser finds the line and stops there. */
  lemma LineRead(prefix: Byte, text: Bytes, post: Bytes)
    requires NoCrlf(text)
    ensures var buf := [prefix] + text + CRLF + post;
            LineEnd(buf, 1) == Some(1 + |text|) && buf[1..1 + |text|] == text && buf[0] == prefix && |buf| == 3 + |text| + |post|
  {
    var buf := [prefix] + text + CRLF + post;
    var tail := text + CRLF + post;
    LineEndSkips(text, post, 0);
    assert Tail(buf, 1, tail) by {
      forall i | 0 <= i < |tail| ensures buf[1 + i] == tail[i] {}
    }
    LineEndShift(buf, 1, tail, 0);
  }

  // ---------------------------------------------------------------- printing then parsing

  lemma {:induction false} ParsePrinted(num: Numeral, r: Reply)
    requires ReadsCanonical(num) && Printable(r)
    ensures ParseReply(num, Print(r), 0) == Done(r, |Print(r)|)
    decreases r, 1
  {
    match r {
      case Simple(text) => ParsePrintedLine(num, PLUS, text);
      case ErrorReply(message) => ParsePrintedLine(num, MINUS, message);
      case Integer(value) =>
        SignedNoCrlf(value);
        ParsePrintedLine(num, COLON, SignedDecimal(value));
      case Null => ParsePrintedNull(num);
      case Bulk(bytes) => ParsePrintedBulk(num, bytes);
      case Array(items) => ParsePrintedArray(num, items, r);
    }
  }

  lemma ParsePrintedLine(num: Numeral, prefix: Byte, text: Bytes)
    requires NoCrlf(text) && (prefix == PLUS || prefix == MINUS || prefix == COLON)
    ensures ParseReply(num, [prefix] + text + CRLF, 0) == LineReply(num, prefix, text, 3 + |text|)
  {
    LineRead(prefix, text, []);
    assert [prefix] + text + CRLF == [prefix] + text + CRLF + [];
  }

  lemma ParsePrintedNull(num: Numeral)
    requires ReadsCanonical(num)
    ensures ParseReply(num, Print(Null), 0) == Done(Null, |Print(Null)|)
  {
    SignedNoCrlf(-1);
    LineRead(DOLLAR, SignedDecimal(-1), []);
    assert Print(Null) == [DOLLAR] + SignedDecimal(-1) + CRLF + [];
  }

  lemma ParsePrintedBulk(num: Numeral, bytes: Bytes)
    requires ReadsCanonical(num) && Safe(|bytes|)
    ensures ParseReply(num, Print(Bulk(bytes)), 0) == Done(Bulk(bytes), |Print(Bulk(bytes))|)
  {
    var buf := Print(Bulk(bytes));
    var line := Decimal(|bytes|);
    assert SignedDecimal(|bytes|) == line;
    SignedNoCrlf(|bytes|);
    LineRead(DOLLAR, line, bytes + CRLF);
    var cursor := 3 + |line|;
    assert buf[cursor..cursor + |bytes|] == bytes;
    assert buf[cursor + |bytes|] == CR && buf[cursor + |bytes| + 1] == LF;
  }

  lemma {:induction false} ParsePrintedArray(num: Numeral, items: seq<Reply>, r: Reply)
    requires ReadsCanonical(num) && r == Array(items) && Printable(r)
    ensures ParseReply(num, Print(r), 0) == Done(r, |Print(r)|)
    decreases r, 0
  {
    var line := Decimal(|items|);
    assert SignedDecimal(|items|) == line;
    SignedNoCrlf(|items|);
    LineRead(STAR, line, PrintAll(items));
    ItemsPrinted(num, [STAR] + line + CRLF, items, r);
  }

  lemma {:induction false} ItemsPrinted(num: Numeral, head: Bytes, items: seq<Reply>, context: Reply)
    requires ReadsCanonical(num)
    requires forall i :: 0 <= i < |items| ==> items[i] < context && !items[i].ErrorReply? && Printable(items[i])
    ensures ParseItems(num, head + PrintAll(items), |head|, |items|) == ItemsDone(items, |head| + |PrintAll(items)|)
    decreases context, 0, |items|
  {
    if items != [] {
      var first, rest := items[0], PrintAll(items[1..]);
      var head' := head + Print(first);
      var whole := head' + rest;
      assert head + PrintAll(items) == whole;
      assert ParseReply(num, whole, |head|) == Done(first, |head'|) by {
        ParsePrinted(num, first);
        ParseInContext(num, head, first, rest);
      }
      ItemsPrinted(num, head', items[1..], context);
      FirstThenRest(num, whole, |head|, items, |head'|, |head'| + |rest|);
    }
  }

  lemma FirstThenRest(num: Numeral, buf: Bytes, cursor: nat, items: seq<Reply>, next: nat, end: nat)
    requires items != [] && cursor <= next <= |buf| && !items[0].ErrorReply?
    requires ParseReply(num, buf, cursor) == Done(items[0], next)
    requires ParseItems(num, buf, next, |items| - 1) == ItemsDone(items[1..], end)
    ensures ParseItems(num, buf, cursor, |items|) == ItemsDone(items, end)
  {
    assert [items[0]] + items[1..] == items;
  }

  lemma ParseInContext(num: Numeral, pre: Bytes, r: Reply, post: Bytes)
    requires ParseReply(num, Print(r), 0) == Done(r, |Print(r)|)
    ensures ParseReply(num, pre + Print(r) + post, |pre|) == Done(r, |pre| + |Print(r)|)
  {
    hide ParseReply, Print;
    var text := Print(r) + post;
    ParseStable(num, Print(r), post, 0);
    var whole := pre + Print(r) + post;
    assert Tail(whole, |pre|, text) by {
      forall i | 0 <= i < |text| ensures whole[|pre| + i] == text[i] {}
    }
    ParseShift(num, whole, |pre|, text, 0);
  }

  /** Anywhere in a larger buffer, a printed reply parses to itself and consumes exactly its own bytes. */
  lemma PrintThenParse(num: Numeral, pre: Bytes, r: Reply, post: Bytes)
    requires ReadsCanonical(num) && Printable(r)
    ensures ParseReply(num, pre + Print(r) + post, |pre|) == Done(r, |pre| + |Print(r)|)
  {
    ParsePrinted(num, r);
    ParseInContext(num, pre, r, post);
  }

  /** A buffer shorter than the end of the reply it begins is undecided. */
  lemma TooShortToDecide(num: Numeral, partial: Bytes, missing: Bytes, offset: nat)
    requires ParseReply(num, partial + missing, offset).Done? && ParseReply(num, partial + missing, offset).next > |partial|
    ensures ParseReply(num, partial, offset) == Incomplete
  {
    if !ParseReply(num, partial, offset).Incomplete? {
      ParseStable(num, partial, missing, offset);
    }
  }

  /** Every strict prefix of a printed reply is incomplete: no decision is taken early. */
  lemma StrictPrefixIncomplete(num: Numeral, pre: Bytes, r: Reply, k: nat)
    requires ReadsCanonical(num) && Printable(r) && k < |Print(r)|
    ensures ParseReply(num, pre + Print(r)[..k], |pre|) == Incomplete
  {
    var partial, missing := pre + Print(r)[..k], Print(r)[k..];
    assert partial + missing == pre + Print(r) + [];
    PrintThenParse(num, pre, r, []);
    TooShortToDecide(num, partial, missing, |pre|);
  }

  /** No printed reply is a prefix of another one. */
  lemma PrintIsPrefixFree(num: Numeral, r: Reply, q: Reply)
    requires ReadsCanonical(num) && Printable(r) && Printable(q) && Print(r) <= Print(q)
    ensures r == q
  {
    hide ParseReply;
    ParsePrinted(num, r);
    ParsePrinted(num, q);
    ParseStable(num, Print(r), Print(q)[|Print(r)|..], 0);
    assert Print(r) + Print(q)[|Print(r)|..] == Print(q);
  }

  // ---------------------------------------------------------------- the command encoder

  function Bulks(parts: seq<Bytes>): (rs: seq<Reply>)
    ensures |rs| == |parts|
  {
    seq(|parts|, i requires 0 <= i < |parts| => Bulk(parts[i]))
  }

  lemma {:induction false} PrintAllAppend(rs: seq<Reply>, r: Reply)
    ensures PrintAll(rs + [r]) == PrintAll(rs) + Print(r)
  {
    if rs == [] {
      assert rs + [r] == [r];
    } else {
      assert (rs + [r])[1..] == rs[1..] + [r];
      PrintAllAppend(rs[1..], r);
    }
  }

  /** The command as an array of bulk strings, built chunk by chunk. */
  method EncodeCommand(parts: seq<Bytes>) returns (command: Bytes)
    ensures command == Print(Array(Bulks(parts)))
  {
    var head := [STAR] + Decimal(|parts|) + CRLF;
    command := head;
    for i := 0 to |parts|
      invariant command == head + PrintAll(Bulks(parts[..i]))
    {
      var value := parts[i];
      assert Bulks(parts[..i + 1]) == Bulks(parts[..i]) + [Bulk(value)];
      PrintAllAppend(Bulks(parts[..i]), Bulk(value));
      command := command + ([DOLLAR] + Decimal(|value|) + CRLF + (value + CRLF));
    }
    assert parts[..|parts|] == parts;
  }

  /** Parser and encoder undo each other at any offset, binary parts included; any strict prefix is incomplete. */
  lemma CommandRoundTrip(num: Numeral, pre: Bytes, parts: seq<Bytes>, post: Bytes, k: nat)
    requires ReadsCanonical(num) && Safe(|parts|) && (forall i :: 0 <= i < |parts| ==> Safe(|parts[i]|))
    ensures var command := Print(Array(Bulks(parts)));
            && ParseReply(num, pre + command + post, |pre|) == Done(Array(Bulks(parts)), |pre| + |command|)
            && (k < |command| ==> ParseReply(num, pre + command[..k], |pre|) == Incomplete)
  {
    PrintThenParse(num, pre, Array(Bulks(parts)), post);
    if k < |Print(Array(Bulks(parts)))| { StrictPrefixIncomplete(num, pre, Array(Bulks(parts)), k); }
  }
}
