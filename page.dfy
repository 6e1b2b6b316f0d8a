/** The chat page's component state and its event handlers. Each state setter
    call is an assignment to a field, applied at once and in order; the backend's
    answer to a request is passed in as a `Reply`. */
module Page {
  import opened Messages
  import opened Whitespace
  import opened Exchange

  class Home {
    /** The conversation shown on the page. */
    var messages: seq<Message>
    /** The text in the input field. */
    var message: string
    /** Set while a send is in flight. */
    var isLoading: bool

    /** The conversation stays well formed and keeps its greeting first. */
    ghost predicate Valid()
      reads this
    {
      WellFormed(messages) && messages[0] == Message(Assistant, Greeting)
    }

    /** The three fields as one value of the pure model. */
    function Snapshot(): State
      reads this
    {
      State(messages, message, isLoading)
    }

    constructor ()
      ensures Valid() && Snapshot() == Initial()
    {
      messages := [Message(Assistant, Greeting)];
      message := "";
      isLoading := false;
    }

    /** The input field's change handler: the input becomes `text`. */
    method OnInputChanged(text: string)
      requires Valid()
      modifies this
      ensures Valid()
      ensures Snapshot() == old(Snapshot()).(message := text)
    {
      message := text;
    }

    /** The send handler. Returns the request body it sent, or `None` when the
        guard stopped it; the new state is the one `Send` describes. `inFlight`
        is the state the handler has reached when the request goes out. */
    method SendMessage(reply: Reply) returns (body: Option<seq<Message>>, ghost inFlight: State)
      requires Valid()
      modifies this
      ensures Valid()
      ensures Snapshot() == Send(old(Snapshot()), reply)
      ensures body == if Blocked(old(Snapshot())) then None
                      else Some(RequestBody(old(messages), old(message)))
      ensures !Blocked(old(Snapshot())) ==> inFlight == Begin(old(Snapshot()))
    {
      inFlight := Snapshot();
      if Trim(message) == [] || isLoading {
        return None, inFlight;
      }
      ghost var before := Snapshot();
      var text, history := message, messages;
      isLoading := true;
      message := "";
      messages := AppendExchange(messages, text);
      inFlight := Snapshot();
      body := Some(RequestBody(history, text));
      ghost var withExchange := messages;

      var failed := true;
      if reply.Streamed? {
        failed := ReadStream(reply.chunks, reply.end);
      }
      assert failed == Fails(reply);
      assert messages == FoldChunks(withExchange, Received(reply));
      if failed {
        messages := AppendApology(messages);
      }
      isLoading := false;
      ghost var after := Send(before, reply);
      assert after == State(Settle(withExchange, reply), "", false);
      assert Snapshot() == after;
      SendPreservesWellFormed(before, reply);
    }

    /** The stream loop of the send handler: reads the body until it reports
        done or a read fails, folding each chunk into the last turn as it
        arrives. Reports whether a read failed. */
    method ReadStream(chunks: seq<string>, end: StreamEnd) returns (failed: bool)
      requires |messages| > 0
      modifies this
      ensures messages == FoldChunks(old(messages), chunks)
      ensures message == old(message) && isLoading == old(isLoading)
      ensures failed <==> end == Interrupted
    {
      var i := 0;
      while true
        invariant 0 <= i <= |chunks|
        invariant messages == FoldChunks(old(messages), chunks[..i])
        invariant message == old(message) && isLoading == old(isLoading)
        decreases |chunks| - i
      {
        var read := ReadAt(chunks, end, i);
        if read == EndOfStream {
          failed := false;
          break;
        }
        if read == ReadFailed {
          failed := true;
          break;
        }
        assert chunks[..i + 1][..i] == chunks[..i];
        messages := FoldChunk(messages, read.text);
        i := i + 1;
      }
      assert i == |chunks| && chunks[..i] == chunks;
    }

    /** The input field's key handler: Enter without Shift suppresses the
        newline and sends; every other key event changes nothing. */
    method HandleKeyPress(e: KeyEvent, reply: Reply) returns (prevented: bool, body: Option<seq<Message>>)
      requires Valid()
      modifies this
      ensures Valid()
      ensures prevented == IsSendKey(e)
      ensures Snapshot() == if prevented then Send(old(Snapshot()), reply) else old(Snapshot())
      ensures body == if prevented && !Blocked(old(Snapshot()))
                      then Some(RequestBody(old(messages), old(message))) else None
    {
      prevented, body := false, None;
      if e.key == "Enter" && !e.shiftKey {
        prevented := true;
        ghost var inFlight;
        body, inFlight := SendMessage(reply);
      }
    }
  }
}
