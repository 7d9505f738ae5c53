/**
  RESP2 replies as the client reads them: an incremental parser over a growing byte buffer, the
  command encoder, and an independent printer for the reply forms of the Redis serialization protocol
  specification ("Simple strings", "Simple errors", "Integers", "Bulk strings", "Arrays").

  JavaScript's Number() conversion of length and integer lines is the parameter `num`, so the results
  hold for every lax form it accepts; the round trips need only that it reads canonical decimals.
 */
module RespParser {
  import opened Wrappers

  type Byte = x: int | 0 <= x < 0x100
  type Bytes = seq<Byte>

  /** Number(text) when it is an integer, None otherwise. */
  type Numeral = Bytes -> Option<int>

  const CR: Byte := 13
  const LF: Byte := 10
  const CRLF: Bytes := [CR, LF]
  const PLUS: Byte := 43
  const MINUS: Byte := 45
  const COLON: Byte := 58
  const DOLLAR: Byte := 36
  const STAR: Byte := 42
  const MAX_SAFE_INTEGER: int := 0x1F_FFFF_FFFF_FFFF

  datatype Reply =
    | Simple(text: Bytes)
    | Integer(value: int)
    | Bulk(bytes: Bytes)
    | Null
    | Array(items: seq<Reply>)
    | ErrorReply(message: Bytes)

  datatype Failure =
    | IntegerInvalid(text: Bytes)
    | LengthInvalid(line: Bytes)
    | BulkTerminatorInvalid
    | PrefixUnsupported(prefix: Byte)
    | ErrorInArray(message: Bytes)

  datatype Parsed =
    | Incomplete
    | Done(reply: Reply, next: nat)
    | Failed(failure: Failure)

  datatype Items =
    | ItemsIncomplete
    | ItemsDone(replies: seq<Reply>, next: nat)
    | ItemsFailed(failure: Failure)

  /** buffer.indexOf("\r\n", from), with None for -1. */
  function LineEnd(buf: Bytes, from: nat): (end: Option<nat>)
    ensures end.Some? ==> from <= end.value && end.value + 2 <= |buf| && buf[end.value] == CR && buf[end.value + 1] == LF
    decreases |buf| - from
  {
    if from + 2 > |buf| then None
    else if buf[from] == CR && buf[from + 1] == LF then Some(from)
    else LineEnd(buf, from + 1)
  }

  /** A reply that is one line: its text ends just before `next - 2`. */
  function LineReply(num: Numeral, prefix: Byte, text: Bytes, next: nat): Parsed {
    if prefix == PLUS then Done(Simple(text), next)
    else if prefix == MINUS then Done(ErrorReply(text), next)
    else
      var number := num(text);
      if number.Some? && -MAX_SAFE_INTEGER <= number.value <= MAX_SAFE_INTEGER
      then Done(Integer(number.value), next)
      else Failed(IntegerInvalid(text))
  }

  function BulkReply(buf: Bytes, cursor: nat, length: nat): Parsed {
    if |buf| < cursor + length + 2 then Incomplete
    else if buf[cursor + length] != CR || buf[cursor + length + 1] != LF then Failed(BulkTerminatorInvalid)
    else Done(Bulk(buf[cursor..cursor + length]), cursor + length + 2)
  }

  function ParseReply(num: Numeral, buf: Bytes, offset: nat): (p: Parsed)
    ensures p.Done? ==> offset < p.next <= |buf|
    decreases |buf| - offset, 0, 0
  {
    if offset >= |buf| then Incomplete
    else
      var prefix := buf[offset];
      if prefix == PLUS || prefix == MINUS || prefix == COLON then
        var end := LineEnd(buf, offset + 1);
        if end.None? then Incomplete
        else
          var text := buf[offset + 1..end.value];
          LineReply(num, prefix, text, end.value + 2)
      else if prefix == DOLLAR || prefix == STAR then
        var end := LineEnd(buf, offset + 1);
        if end.None? then Incomplete
        else
          var line := buf[offset + 1..end.value];
          ParseSized(num, buf, prefix, line, end.value + 2)
      else Failed(PrefixUnsupported(prefix))
  }

  /** What follows the length line of a bulk string or an array. */
  function ParseSized(num: Numeral, buf: Bytes, prefix: Byte, line: Bytes, cursor: nat): (p: Parsed)
    requires cursor <= |buf|
    ensures p.Done? ==> cursor <= p.next <= |buf|
    decreases |buf| - cursor, 2, 0
  {
    var length := num(line);
    if length.None? || length.value < -1 then Failed(LengthInvalid(line))
    else if length.value == -1 then Done(Null, cursor)
    else if prefix == DOLLAR then BulkReply(buf, cursor, length.value)
    else
      match ParseItems(num, buf, cursor, length.value)
      case ItemsIncomplete => Incomplete
      case ItemsFailed(failure) => Failed(failure)
      case ItemsDone(replies, next) => Done(Array(replies), next)
  }

  function ParseItems(num: Numeral, buf: Bytes, cursor: nat, count: nat): (p: Items)
    requires cursor <= |buf|
    ensures p.ItemsDone? ==> cursor <= p.next <= |buf| && |p.replies| == count
    decreases |buf| - cursor, 1, count
  {
    if count == 0 then ItemsDone([], cursor)
    else
      match ParseReply(num, buf, cursor)
      case Incomplete => ItemsIncomplete
      case Failed(failure) => ItemsFailed(failure)
      case Done(reply, next) =>
        if reply.ErrorReply? then ItemsFailed(ErrorInArray(reply.message))
        else
          match ParseItems(num, buf, next, count - 1)
          case ItemsDone(replies, end) => ItemsDone([reply] + replies, end)
          case other => other
  }

  /** One reply, then exactly as many array items as announced: the same parse with a moving cursor. */
  method ParseRedisReply(num: Numeral, buf: Bytes, offset: nat) returns (p: Parsed)
    ensures p == ParseReply(num, buf, offset)
    decreases |buf| - offset, 0
  {
    if offset >= |buf| { return Incomplete; }
    var prefix := buf[offset];
    if prefix == PLUS || prefix == MINUS || prefix == COLON {
      var end := LineEnd(buf, offset + 1);
      if end.None? { return Incomplete; }
      var text := buf[offset + 1..end.value];
      var nextOffset := end.value + 2;
      if prefix == PLUS { return Done(Simple(text), nextOffset); }
      if prefix == MINUS { return Done(ErrorReply(text), nextOffset); }
      var number := num(text);
      if number.None? || !(-MAX_SAFE_INTEGER <= number.value <= MAX_SAFE_INTEGER) { return Failed(IntegerInvalid(text)); }
      return Done(Integer(number.value), nextOffset);
    }
    if prefix == DOLLAR || prefix == STAR {
      var end := LineEnd(buf, offset + 1);
      if end.None? { return Incomplete; }
      var line := buf[offset + 1..end.value];
      var length := num(line);
      if length.None? || length.value < -1 { return Failed(LengthInvalid(line)); }
      var cursor: nat := end.value + 2;
      if length.value == -1 { return Done(Null, cursor); }
      if prefix == DOLLAR {
        if |buf| < cursor + length.value + 2 { return Incomplete; }
        if buf[cursor + length.value] != CR || buf[cursor + length.value + 1] != LF { return Failed(BulkTerminatorInvalid); }
        return Done(Bulk(buf[cursor..cursor + length.value]), cursor + length.value + 2);
      }
      var items := ReadItems(num, buf, cursor, length.value);
      match items {
        case ItemsIncomplete => return Incomplete;
        case ItemsFailed(failure) => return Failed(failure);
        case ItemsDone(replies, next) => return Done(Array(replies), next);
      }
    }
    return Failed(PrefixUnsupported(prefix));
  }

  /** The array loop: the cursor moves past one reply at a time and each reply is pushed. */
  method ReadItems(num: Numeral, buf: Bytes, start: nat, count: nat) returns (p: Items)
    requires start <= |buf|
    ensures p == ParseItems(num, buf, start, count)
    decreases |buf| - start, 1
  {
    var values: seq<Reply> := [];
    var cursor := start;
    for index := 0 to count
      invariant start <= cursor <= |buf|
      invariant ParseItems(num, buf, start, count) == Prepend(values, ParseItems(num, buf, cursor, count - index))
    {
      var parsed := ParseRedisReply(num, buf, cursor);
      match parsed {
        case Incomplete => return ItemsIncomplete;
        case Failed(failure) => return ItemsFailed(failure);
        case Done(reply, next) =>
          if reply.ErrorReply? { return ItemsFailed(ErrorInArray(reply.message)); }
          PrependStep(values, reply, ParseItems(num, buf, next, count - index - 1));
          values := values + [reply];
          cursor := next;
      }
    }
    return ItemsDone(values, cursor);
  }

  function Prepend(done: seq<Reply>, rest: Items): Items {
    match rest
    case ItemsDone(replies, next) => ItemsDone(done + replies, next)
    case other => other
  }

  lemma PrependStep(done: seq<Reply>, reply: Reply, rest: Items)
    ensures Prepend(done, Prepend([reply], rest)) == Prepend(done + [reply], rest)
  {
    if rest.ItemsDone? {
      assert done + ([reply] + rest.replies) == done + [reply] + rest.replies;
    }
  }

  // ---------------------------------------------------------------- stability under appended bytes

  lemma {:induction false} LineEndStable(buf: Bytes, more: Bytes, from: nat)
    requires LineEnd(buf, from).Some?
    ensures LineEnd(buf + more, from) == LineEnd(buf, from)
    decreases |buf| - from
  {
    assert (buf + more)[from] == buf[from] && (buf + more)[from + 1] == buf[from + 1];
    if LineEnd(buf, from) != Some(from) {
      LineEndStable(buf, more, from + 1);
    }
  }

  /** A reply, offset or failure already decided never changes when more bytes arrive. */
  lemma {:induction false} ParseStable(num: Numeral, buf: Bytes, more: Bytes, offset: nat)
    requires !ParseReply(num, buf, offset).Incomplete?
    ensures ParseReply(num, buf + more, offset) == ParseReply(num, buf, offset)
    decreases |buf| - offset, 0, 0
  {
    var prefix := buf[offset];
    assert (buf + more)[offset] == prefix;
    if prefix == PLUS || prefix == MINUS || prefix == COLON || prefix == DOLLAR || prefix == STAR {
      LineEndStable(buf, more, offset + 1);
      var end := LineEnd(buf, offset + 1).value;
      var line := buf[offset + 1..end];
      assert (buf + more)[offset + 1..end] == line;
      if prefix == DOLLAR || prefix == STAR {
        SizedStable(num, buf, more, prefix, line, end + 2);
      }
    }
  }

  lemma {:induction false} SizedStable(num: Numeral, buf: Bytes, more: Bytes, prefix: Byte, line: Bytes, cursor: nat)
    requires cursor <= |buf| && !ParseSized(num, buf, prefix, line, cursor).Incomplete?
    ensures ParseSized(num, buf + more, prefix, line, cursor) == ParseSized(num, buf, prefix, line, cursor)
    decreases |buf| - cursor, 2, 0
  {
    var length := num(line);
    if length.Some? && length.value >= 0 {
      if prefix == DOLLAR {
        assert (buf + more)[cursor..cursor + length.value] == buf[cursor..cursor + length.value];
      } else {
        ItemsStable(num, buf, more, cursor, length.value);
      }
    }
  }

  lemma {:induction false} ItemsStable(num: Numeral, buf: Bytes, more: Bytes, cursor: nat, count: nat)
    requires cursor <= |buf| && !ParseItems(num, buf, cursor, count).ItemsIncomplete?
    ensures ParseItems(num, buf + more, cursor, count) == ParseItems(num, buf, cursor, count)
    decreases |buf| - cursor, 1, count
  {
    if count > 0 {
      ParseStable(num, buf, more, cursor);
      var first := ParseReply(num, buf, cursor);
      if first.Done? && !first.reply.ErrorReply? {
        ItemsStable(num, buf, more, first.next, count - 1);
      }
    }
  }

  // ---------------------------------------------------------------- position independence

  /** `buf` is what `whole` holds from `at` on. */
  predicate Tail(whole: Bytes, at: nat, buf: Bytes) {
    |whole| == at + |buf| && forall i :: 0 <= i < |buf| ==> whole[at + i] == buf[i]
  }

  lemma TailSlice(whole: Bytes, at: nat, buf: Bytes, i: nat, j: nat)
    requires Tail(whole, at, buf) && i <= j <= |buf|
    ensures whole[at + i..at + j] == buf[i..j]
  {
    forall k | 0 <= k < j - i ensures whole[at + i..at + j][k] == buf[i..j][k] {
      assert whole[at + (i + k)] == buf[i + k];
    }
  }

  lemma {:induction false} LineEndShift(whole: Bytes, at: nat, buf: Bytes, from: nat)
    requires Tail(whole, at, buf)
    ensures LineEnd(whole, at + from) ==
              match LineEnd(buf, from) case None => None case Some(e) => Some(at + e)
    decreases |buf| - from
  {
    if from + 2 <= |buf| {
      assert whole[at + from] == buf[from] && whole[at + from + 1] == buf[from + 1];
      LineEndShift(whole, at, buf, from + 1);
    }
  }

  function Shift(p: Parsed, distance: nat): Parsed {
    match p case Done(reply, next) => Done(reply, next + distance) case other => other
  }

  function ShiftItems(p: Items, distance: nat): Items {
    match p case ItemsDone(replies, next) => ItemsDone(replies, next + distance) case other => other
  }

  lemma BulkShift(whole: Bytes, at: nat, buf: Bytes, cursor: nat, length: nat)
    requires Tail(whole, at, buf)
    ensures BulkReply(whole, at + cursor, length) == Shift(BulkReply(buf, cursor, length), at)
  {
    if cursor + length + 2 <= |buf| {
      assert whole[at + cursor + length] == buf[cursor + length] && whole[at + cursor + length + 1] == buf[cursor + length + 1];
      TailSlice(whole, at, buf, cursor, cursor + length);
    }
  }

  /** Parsing at an offset reads only the bytes from that offset on. */
  lemma {:induction false} ParseShift(num: Numeral, whole: Bytes, at: nat, buf: Bytes, offset: nat)
    requires Tail(whole, at, buf)
    ensures ParseReply(num, whole, at + offset) == Shift(ParseReply(num, buf, offset), at)
    decreases |buf| - offset, 0, 0
  {
    hide ParseSized;
    if offset < |buf| {
      var prefix := buf[offset];
      assert whole[at + offset] == prefix;
      LineEndShift(whole, at, buf, offset + 1);
      var end := LineEnd(buf, offset + 1);
      if end.Some? {
        TailSlice(whole, at, buf, offset + 1, end.value);
        if prefix == DOLLAR || prefix == STAR {
          SizedShift(num, whole, at, buf, prefix, buf[offset + 1..end.value], end.value + 2);
        }
      }
    }
  }

  lemma {:induction false} SizedShift(num: Numeral, whole: Bytes, at: nat, buf: Bytes, prefix: Byte, line: Bytes, cursor: nat)
    requires Tail(whole, at, buf) && cursor <= |buf|
    ensures ParseSized(num, whole, prefix, line, at + cursor) == Shift(ParseSized(num, buf, prefix, line, cursor), at)
    decreases |buf| - cursor, 2, 0
  {
    var length := num(line);
    if length.Some? && length.value >= 0 {
      if prefix == DOLLAR {
        BulkShift(whole, at, buf, cursor, length.value);
      } else {
        ItemsShift(num, whole, at, buf, cursor, length.value);
      }
    }
  }

  lemma {:induction false} ItemsShift(num: Numeral, whole: Bytes, at: nat, buf: Bytes, cursor: nat, count: nat)
    requires Tail(whole, at, buf) && cursor <= |buf|
    ensures ParseItems(num, whole, at + cursor, count) == ShiftItems(ParseItems(num, buf, cursor, count), at)
    decreases |buf| - cursor, 1, count
  {
    hide ParseReply;
    if count > 0 {
      ParseShift(num, whole, at, buf, cursor);
      var p := ParseReply(num, buf, cursor);
      if p.Done? && !p.reply.ErrorReply? {
        ItemsShift(num, whole, at, buf, p.next, count - 1);
      }
      ItemsStep(num, buf, cursor, count, p);
      ItemsStep(num, whole, at + cursor, count, Shift(p, at));
    }
  }

  function Continued(p: Parsed, rest: Items): Items {
    match p
    case Incomplete => ItemsIncomplete
    case Failed(failure) => ItemsFailed(failure)
    case Done(reply, _) =>
      if reply.ErrorReply? then ItemsFailed(ErrorInArray(reply.message))
      else match rest case ItemsDone(replies, end) => ItemsDone([reply] + replies, end) case other => other
  }

  /** Reading items is reading the first and going on behind it. */
  lemma ItemsStep(num: Numeral, buf: Bytes, cursor: nat, count: nat, p: Parsed)
    requires cursor <= |buf| && count > 0 && p == ParseReply(num, buf, cursor)
    ensures ParseItems(num, buf, cursor, count)
            == Continued(p, if p.Done? then ParseItems(num, buf, p.next, count - 1) else ItemsIncomplete)
  {
  }
}
