/** The client as the connection object it is: its fields change with every send, chunk and close. */
module RespClient {
  import opened RespParser
  import opened Pipeline = RespPipeline

  class Connection {
    var open: bool
    var buffer: Bytes
    var pending: seq<CommandId>
    var settled: seq<Settlement>

    constructor ()
      ensures View() == FRESH
    {
      open, buffer, pending, settled := true, [], [], [];
    }

    function View(): Client
      reads this
    {
      Client(open, buffer, pending, settled)
    }

    method SendConnected(id: CommandId)
      modifies this
      ensures View() == Send(old(View()), id)
    {
      if !open {
        settled := settled + [Settlement(id, Disconnected)];
        return;
      }
      pending := pending + [id];
    }

    /** Reject everything still pending, oldest first. */
    method OnClosed(outcome: Outcome)
      modifies this
      ensures View() == Closed(old(View()), outcome)
    {
      open, buffer := false, [];
      var commands := pending;
      pending := [];
      for i := 0 to |commands|
        invariant !open && buffer == [] && pending == []
        invariant settled == old(settled) + SettleAll(commands[..i], outcome)
      {
        assert SettleAll(commands[..i + 1], outcome) == SettleAll(commands[..i], outcome) + [Settlement(commands[i], outcome)];
        settled := settled + [Settlement(commands[i], outcome)];
      }
      assert commands[..|commands|] == commands;
    }

    /** Append the chunk, settle every complete reply a command waits for, keep the rest. */
    method OnData(num: Numeral, chunk: Bytes)
      modifies this
      ensures View() == Pipeline.OnData(num, old(View()), chunk)
    {
      if !open { return; }
      buffer := if buffer == [] then chunk else buffer + chunk;
      assert buffer == old(buffer) + chunk;
      var offset := 0;
      while pending != []
        invariant open && offset <= |buffer|
        invariant Drain(num, View(), offset) == Pipeline.OnData(num, old(View()), chunk)
        decreases |pending|
      {
        var parsed := ParseRedisReply(num, buffer, offset);
        match parsed {
          case Failed(failure) =>
            OnClosed(Broken(failure));
            return;
          case Incomplete => break;
          case Done(reply, next) =>
            var command := pending[0];
            pending := pending[1..];
            settled := settled + [Settlement(command, Answer(reply))];
            offset := next;
        }
      }
      if offset > 0 {
        buffer := buffer[offset..];
      }
    }
  }
}
