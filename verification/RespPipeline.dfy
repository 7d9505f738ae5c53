/**
  The pipelined client: commands wait in a FIFO, reply bytes arrive in arbitrary chunks, and every
  chunk settles as many pending commands as it completes replies.
 */
module RespPipeline {
  import opened RespParser
  import opened RespPrinter

  type CommandId = nat

  datatype Outcome =
    | Resolved(reply: Reply)
    | Rejected(message: Bytes)        // the server answered with an error reply
    | Broken(failure: Failure)        // the stream could not be parsed
    | Disconnected

  datatype Settlement = Settlement(command: CommandId, outcome: Outcome)

  datatype Client = Client(open: bool, buffer: Bytes, pending: seq<CommandId>, settled: seq<Settlement>)

  function Answer(reply: Reply): Outcome {
    if reply.ErrorReply? then Rejected(reply.message) else Resolved(reply)
  }

  function SettleAll(commands: seq<CommandId>, outcome: Outcome): (r: seq<Settlement>)
    ensures |r| == |commands|
  {
    seq(|commands|, i requires 0 <= i < |commands| => Settlement(commands[i], outcome))
  }

  /** The connection is gone: the buffer is dropped and every pending command is rejected in order. */
  function Closed(c: Client, outcome: Outcome): Client {
    Client(false, [], [], c.settled + SettleAll(c.pending, outcome))
  }

  function Send(c: Client, id: CommandId): Client {
    if c.open then c.(pending := c.pending + [id])
    else c.(settled := c.settled + [Settlement(id, Disconnected)])
  }

  /** The oldest pending command gets this reply. */
  function Settled(c: Client, reply: Reply): Client
    requires c.pending != []
  {
    c.(pending := c.pending[1..], settled := c.settled + [Settlement(c.pending[0], Answer(reply))])
  }

  /** Settle pending commands from the buffer at `offset`; keep the unread rest. */
  function Drain(num: Numeral, c: Client, offset: nat): Client
    requires offset <= |c.buffer|
    decreases |c.pending|
  {
    if c.pending == [] then c.(buffer := c.buffer[offset..])
    else
      match ParseReply(num, c.buffer, offset)
      case Incomplete => c.(buffer := c.buffer[offset..])
      case Failed(failure) => Closed(c, Broken(failure))
      case Done(reply, next) =>
        Drain(num, Settled(c, reply), next)
  }

  function OnData(num: Numeral, c: Client, chunk: Bytes): Client {
    if c.open then Drain(num, c.(buffer := c.buffer + chunk), 0) else c
  }

  // ---------------------------------------------------------------- chunk invariance

  lemma SameBytesAhead(num: Numeral, whole: Bytes, at: nat, buf: Bytes, offset: nat)
    requires Tail(whole, at, buf) && offset <= |buf|
    ensures at + offset <= |whole| && whole[at + offset..] == buf[offset..]
    ensures ParseReply(num, whole, at + offset) == Shift(ParseReply(num, buf, offset), at)
  {
    TailSlice(whole, at, buf, offset, |buf|);
    ParseShift(num, whole, at, buf, offset);
  }

  /** The reply both clients read next, at positions `at` apart. */
  lemma NextReply(num: Numeral, c: Client, d: Client, at: nat, offset: nat) returns (p: Parsed)
    requires Tail(d.buffer, at, c.buffer) && offset <= |c.buffer|
    ensures p == ParseReply(num, c.buffer, offset) && at + offset <= |d.buffer|
    ensures Shift(p, at) == ParseReply(num, d.buffer, at + offset)
    ensures p.Done? ==> p.next <= |c.buffer|
  {
    SameBytesAhead(num, d.buffer, at, c.buffer, offset);
    p := ParseReply(num, c.buffer, offset);
  }

  /** Draining is settling the oldest command with the next reply and draining on. */
  lemma DrainStep(num: Numeral, c: Client, offset: nat, p: Parsed)
    requires offset <= |c.buffer| && c.pending != [] && p == ParseReply(num, c.buffer, offset)
    ensures p.Incomplete? ==> Drain(num, c, offset) == c.(buffer := c.buffer[offset..])
    ensures p.Failed? ==> Drain(num, c, offset) == Closed(c, Broken(p.failure))
    ensures p.Done? ==> Drain(num, c, offset) == Drain(num, Settled(c, p.reply), p.next)
  {
  }

  lemma {:induction false} DrainRebase(num: Numeral, c: Client, d: Client, at: nat, offset: nat)
    requires Tail(d.buffer, at, c.buffer) && offset <= |c.buffer|
    requires d == c.(buffer := d.buffer)
    ensures Drain(num, d, at + offset) == Drain(num, c, offset)
    decreases |c.pending|
  {
    hide ParseReply;
    assert d.(buffer := d.buffer[at + offset..]) == c.(buffer := c.buffer[offset..]) by {
      SameBytesAhead(num, d.buffer, at, c.buffer, offset);
    }
    if c.pending != [] {
      var p := NextReply(num, c, d, at, offset);
      DrainStep(num, c, offset, p);
      DrainStep(num, d, at + offset, Shift(p, at));
      if p.Done? { DrainRebase(num, Settled(c, p.reply), Settled(d, p.reply), at, p.next); }
    }
  }

  lemma {:induction false} DrainAppend(num: Numeral, c: Client, offset: nat, more: Bytes)
    requires c.open && offset <= |c.buffer|
    ensures OnData(num, Drain(num, c, offset), more) == Drain(num, c.(buffer := c.buffer + more), offset)
    decreases |c.pending|
  {
    var whole := c.buffer + more;
    assert whole[offset..] == c.buffer[offset..] + more;
    if c.pending != [] {
      match ParseReply(num, c.buffer, offset) {
        case Incomplete =>
          var kept := c.(buffer := c.buffer[offset..] + more);
          assert Tail(whole, offset, kept.buffer);
          DrainRebase(num, kept, c.(buffer := whole), offset, 0);
        case Failed(failure) => ParseStable(num, c.buffer, more, offset);
        case Done(reply, next) =>
          ParseStable(num, c.buffer, more, offset);
          var c' := Settled(c, reply);
          DrainAppend(num, c', next, more);
      }
    } else {
      assert (c.buffer[offset..] + more)[0..] == c.buffer[offset..] + more;
    }
  }

  /** Cutting a chunk in two changes nothing: same settlements in the same order, same rest, same failure. */
  lemma ChunksCompose(num: Numeral, c: Client, a: Bytes, b: Bytes)
    ensures OnData(num, OnData(num, c, a), b) == OnData(num, c, a + b)
  {
    if c.open {
      DrainAppend(num, c.(buffer := c.buffer + a), 0, b);
      assert c.buffer + a + b == c.buffer + (a + b);
    }
  }

  function Feed(num: Numeral, c: Client, chunks: seq<Bytes>): Client
    decreases |chunks|
  {
    if chunks == [] then c else Feed(num, OnData(num, c, chunks[0]), chunks[1..])
  }

  function Flatten(chunks: seq<Bytes>): Bytes {
    if chunks == [] then [] else chunks[0] + Flatten(chunks[1..])
  }

  lemma {:induction false} FeedIsOneChunk(num: Numeral, c: Client, chunks: seq<Bytes>)
    requires chunks != []
    ensures Feed(num, c, chunks) == OnData(num, c, Flatten(chunks))
    decreases |chunks|
  {
    if |chunks| == 1 {
      assert chunks[0] + [] == chunks[0];
    } else {
      FeedIsOneChunk(num, OnData(num, c, chunks[0]), chunks[1..]);
      ChunksCompose(num, c, chunks[0], Flatten(chunks[1..]));
    }
  }

  /** Chunk invariance: any two ways of cutting one byte stream leave the client in the same state. */
  lemma ChunkInvariance(num: Numeral, c: Client, these: seq<Bytes>, those: seq<Bytes>)
    requires these != [] && those != [] && Flatten(these) == Flatten(those)
    ensures Feed(num, c, these) == Feed(num, c, those)
  {
    FeedIsOneChunk(num, c, these);
    FeedIsOneChunk(num, c, those);
  }

  // ---------------------------------------------------------------- FIFO matching over every run

  datatype Input = Command(id: CommandId) | Data(chunk: Bytes) | Hangup

  function Step(num: Numeral, c: Client, input: Input): Client {
    match input
    case Command(id) => Send(c, id)
    case Data(chunk) => OnData(num, c, chunk)
    case Hangup => if c.open then Closed(c, Disconnected) else c
  }

  function RunClient(num: Numeral, c: Client, inputs: seq<Input>): Client
    decreases |inputs|
  {
    if inputs == [] then c else RunClient(num, Step(num, c, inputs[0]), inputs[1..])
  }

  function CommandOf(input: Input): seq<CommandId> {
    if input.Command? then [input.id] else []
  }

  function ChunkOf(input: Input): Bytes {
    if input.Data? then input.chunk else []
  }

  function Sent(inputs: seq<Input>): seq<CommandId> {
    if inputs == [] then []
    else CommandOf(inputs[0]) + Sent(inputs[1..])
  }

  function Received(inputs: seq<Input>): Bytes {
    if inputs == [] then []
    else ChunkOf(inputs[0]) + Received(inputs[1..])
  }

  function Commands(settled: seq<Settlement>): (ids: seq<CommandId>)
    ensures |ids| == |settled|
  {
    seq(|settled|, i requires 0 <= i < |settled| => settled[i].command)
  }

  /** The first replies of a stream, with the offsets where each one starts and the last one ends. */
  datatype Reading = Reading(replies: seq<Reply>, ends: seq<nat>)

  ghost predicate Reads(num: Numeral, stream: Bytes, r: Reading) {
    && |r.ends| == |r.replies| + 1
    && r.ends[0] == 0
    && forall i :: 0 <= i < |r.replies| ==> ParseReply(num, stream, r.ends[i]) == Done(r.replies[i], r.ends[i + 1])
  }

  lemma ReadsStable(num: Numeral, stream: Bytes, more: Bytes, r: Reading)
    requires Reads(num, stream, r)
    ensures Reads(num, stream + more, r)
  {
    forall i | 0 <= i < |r.replies| ensures ParseReply(num, stream + more, r.ends[i]) == Done(r.replies[i], r.ends[i + 1]) {
      assert ParseReply(num, stream, r.ends[i]) == Done(r.replies[i], r.ends[i + 1]);
      ParseStable(num, stream, more, r.ends[i]);
    }
  }

  function Extend(r: Reading, reply: Reply, end: nat): Reading {
    Reading(r.replies + [reply], r.ends + [end])
  }

  /** The first settlements are the answers to the replies read so far, in order. */
  predicate Answers(settled: seq<Settlement>, replies: seq<Reply>) {
    |replies| <= |settled| && forall i :: 0 <= i < |replies| ==> settled[i].outcome == Answer(replies[i])
  }

  /** An open client has settled exactly the replies it consumed from the stream; the rest is its buffer. */
  ghost predicate Tracks(num: Numeral, c: Client, stream: Bytes, r: Reading) {
    && Reads(num, stream, r)
    && Answers(c.settled, r.replies)
    && (c.open ==> |r.replies| == |c.settled| && Tail(stream, r.ends[|r.replies|], c.buffer))
    && (!c.open ==> c.pending == [])
  }

  lemma {:induction false} DrainTracks(num: Numeral, c: Client, offset: nat, stream: Bytes, r: Reading, at: nat) returns (r': Reading)
    requires c.open && offset <= |c.buffer| && Tail(stream, at, c.buffer)
    requires Reads(num, stream, r) && |r.replies| == |c.settled| && Answers(c.settled, r.replies) && r.ends[|r.replies|] == at + offset
    ensures Tracks(num, Drain(num, c, offset), stream, r')
    decreases |c.pending|
  {
    hide ParseReply;
    r' := r;
    assert Tail(stream, at + offset, c.buffer[offset..]) by {
      forall i | 0 <= i < |c.buffer| - offset ensures stream[at + offset + i] == c.buffer[offset..][i] {
        assert stream[at + (offset + i)] == c.buffer[offset + i];
      }
    }
    if c.pending != [] {
      match ParseReply(num, c.buffer, offset) {
        case Incomplete =>
        case Failed(_) =>
        case Done(reply, next) =>
          ParseShift(num, stream, at, c.buffer, offset);
          r' := DrainTracks(num, Settled(c, reply), next, stream, Extend(r, reply, at + next), at);
      }
    }
  }

  lemma TailAppend(stream: Bytes, at: nat, buffer: Bytes, chunk: Bytes)
    requires Tail(stream, at, buffer)
    ensures Tail(stream + chunk, at, buffer + chunk)
  {
    forall i | 0 <= i < |buffer + chunk| ensures (stream + chunk)[at + i] == (buffer + chunk)[i] {
      if i < |buffer| { assert stream[at + i] == buffer[i]; }
    }
  }

  lemma StepTracks(num: Numeral, c: Client, stream: Bytes, r: Reading, input: Input) returns (r': Reading)
    requires Tracks(num, c, stream, r)
    ensures Tracks(num, Step(num, c, input), stream + ChunkOf(input), r')
  {
    r' := r;
    ReadsStable(num, stream, ChunkOf(input), r);
    if input.Data? && c.open {
      TailAppend(stream, r.ends[|r.replies|], c.buffer, input.chunk);
      r' := DrainTracks(num, c.(buffer := c.buffer + input.chunk), 0, stream + input.chunk, r, r.ends[|r.replies|]);
    } else if !input.Data? {
      assert stream + ChunkOf(input) == stream;
    }
  }

  lemma Regroup<T>(a: seq<T>, b: seq<T>, c: seq<T>)
    ensures a + b + c == a + (b + c)
  {
  }

  lemma {:induction false} RunTracks(num: Numeral, c: Client, stream: Bytes, r: Reading, inputs: seq<Input>) returns (r': Reading)
    requires Tracks(num, c, stream, r)
    ensures Tracks(num, RunClient(num, c, inputs), stream + Received(inputs), r')
    decreases |inputs|
  {
    if inputs == [] {
      assert stream + [] == stream;
      r' := r;
    } else {
      var middle := StepTracks(num, c, stream, r, inputs[0]);
      var soFar := stream + ChunkOf(inputs[0]);
      r' := RunTracks(num, Step(num, c, inputs[0]), soFar, middle, inputs[1..]);
      Regroup(stream, ChunkOf(inputs[0]), Received(inputs[1..]));
    }
  }

  // ---------------------------------------------------------------- every command is settled once, in order

  lemma {:induction false} DrainConserves(num: Numeral, c: Client, offset: nat)
    requires c.open && offset <= |c.buffer|
    ensures var c' := Drain(num, c, offset);
            Commands(c'.settled) + c'.pending == Commands(c.settled) + c.pending && (!c'.open ==> c'.pending == [])
    decreases |c.pending|
  {
    if c.pending != [] {
      match ParseReply(num, c.buffer, offset) {
        case Incomplete =>
        case Failed(failure) => ClosedConserves(c, Broken(failure));
        case Done(reply, next) =>
          var c' := Settled(c, reply);
          assert Commands(c'.settled) == Commands(c.settled) + [c.pending[0]];
          assert Commands(c'.settled) + c'.pending == Commands(c.settled) + c.pending;
          DrainConserves(num, c', next);
      }
    }
  }

  lemma ClosedConserves(c: Client, outcome: Outcome)
    ensures var c' := Closed(c, outcome);
            Commands(c'.settled) + c'.pending == Commands(c.settled) + c.pending
  {
    assert Commands(c.settled + SettleAll(c.pending, outcome)) == Commands(c.settled) + c.pending;
  }

  lemma StepConserves(num: Numeral, c: Client, input: Input)
    requires !c.open ==> c.pending == []
    ensures var c' := Step(num, c, input);
            && Commands(c'.settled) + c'.pending == Commands(c.settled) + c.pending + CommandOf(input)
            && (!c'.open ==> c'.pending == [])
  {
    match input {
      case Command(id) =>
        if c.open {
          assert Commands(c.settled) + (c.pending + [id]) == Commands(c.settled) + c.pending + [id];
        } else {
          assert Commands(c.settled + [Settlement(id, Disconnected)]) == Commands(c.settled) + [id];
        }
      case Data(chunk) => if c.open { DrainConserves(num, c.(buffer := c.buffer + chunk), 0); }
      case Hangup => ClosedConserves(c, Disconnected);
    }
  }

  /** Settled commands followed by pending ones are exactly the commands sent, in sending order. */
  lemma {:induction false} CommandsConserved(num: Numeral, c: Client, inputs: seq<Input>)
    requires !c.open ==> c.pending == []
    ensures var c' := RunClient(num, c, inputs);
            Commands(c'.settled) + c'.pending == Commands(c.settled) + c.pending + Sent(inputs)
    decreases |inputs|
  {
    if inputs == [] {
      assert Commands(c.settled) + c.pending + [] == Commands(c.settled) + c.pending;
    } else {
      StepConserves(num, c, inputs[0]);
      CommandsConserved(num, Step(num, c, inputs[0]), inputs[1..]);
      Regroup(Commands(c.settled) + c.pending, CommandOf(inputs[0]), Sent(inputs[1..]));
    }
  }

  const FRESH: Client := Client(true, [], [], [])

  /**
    Pipelining is correct on every run of sends, chunks and hang-ups: the i-th command sent is the
    i-th settled, and as long as the connection lives its outcome is the i-th reply of the byte stream.
   */
  lemma RepliesMatchCommands(num: Numeral, inputs: seq<Input>) returns (r: Reading)
    ensures var c := RunClient(num, FRESH, inputs);
            && Reads(num, Received(inputs), r)
            && Commands(c.settled) + c.pending == Sent(inputs)
            && |r.replies| <= |c.settled| <= |Sent(inputs)|
            && (c.open ==> |r.replies| == |c.settled| && r.ends[|r.replies|] + |c.buffer| == |Received(inputs)|)
            && (forall i :: 0 <= i < |r.replies| ==> c.settled[i] == Settlement(Sent(inputs)[i], Answer(r.replies[i])))
  {
    var c := RunClient(num, FRESH, inputs);
    r := RunTracks(num, FRESH, [], Reading([], [0]), inputs);
    assert [] + Received(inputs) == Received(inputs);
    assert Commands(c.settled) + c.pending == Sent(inputs) by {
      CommandsConserved(num, FRESH, inputs);
      assert Commands(FRESH.settled) + FRESH.pending + Sent(inputs) == Sent(inputs);
    }
    forall i | 0 <= i < |c.settled| ensures c.settled[i].command == Sent(inputs)[i] {
      assert (Commands(c.settled) + c.pending)[i] == c.settled[i].command;
    }
  }

  // ---------------------------------------------------------------- end to end with a printing server

  function Pair(ids: seq<CommandId>, replies: seq<Reply>): (r: seq<Settlement>)
    requires |ids| == |replies|
    ensures |r| == |ids|
  {
    seq(|ids|, i requires 0 <= i < |ids| => Settlement(ids[i], Answer(replies[i])))
  }

  lemma {:induction false} DrainPrinted(num: Numeral, c: Client, head: Bytes, replies: seq<Reply>)
    requires ReadsCanonical(num) && |c.pending| == |replies|
    requires forall i :: 0 <= i < |replies| ==> Printable(replies[i])
    requires c.buffer == head + PrintAll(replies)
    ensures Drain(num, c, |head|) == c.(buffer := [], pending := [], settled := c.settled + Pair(c.pending, replies))
    decreases |replies|
  {
    if replies == [] {
      assert c.buffer[|head|..] == [];
      assert c.settled + [] == c.settled;
    } else {
      var first, rest := replies[0], PrintAll(replies[1..]);
      var head' := head + Print(first);
      assert c.buffer == head' + rest;
      assert ParseReply(num, c.buffer, |head|) == Done(first, |head'|) by { PrintThenParse(num, head, first, rest); }
      assert Drain(num, c, |head|) == Drain(num, Settled(c, first), |head'|);
      DrainPrinted(num, Settled(c, first), head', replies[1..]);
      PairStep(c.settled, c.pending, replies);
    }
  }

  lemma PairStep(settled: seq<Settlement>, ids: seq<CommandId>, replies: seq<Reply>)
    requires |ids| == |replies| > 0
    ensures settled + [Settlement(ids[0], Answer(replies[0]))] + Pair(ids[1..], replies[1..]) == settled + Pair(ids, replies)
  {
  }

  /** A server prints its replies, the network cuts them anywhere, and each command gets its own reply. */
  lemma PipelineRoundTrip(num: Numeral, c: Client, replies: seq<Reply>, chunks: seq<Bytes>)
    requires ReadsCanonical(num) && c.open && c.buffer == [] && |c.pending| == |replies|
    requires forall i :: 0 <= i < |replies| ==> Printable(replies[i])
    requires chunks != [] && Flatten(chunks) == PrintAll(replies)
    ensures Feed(num, c, chunks) == Client(true, [], [], c.settled + Pair(c.pending, replies))
  {
    FeedIsOneChunk(num, c, chunks);
    assert [] + PrintAll(replies) == PrintAll(replies);
    DrainPrinted(num, c.(buffer := PrintAll(replies)), [], replies);
  }
}
