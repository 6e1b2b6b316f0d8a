/** One send of the chat page as a pure transition on the page's state: the
    guard, the request body, the folding of the streamed reply and the error
    path, and the key rule (Enter without Shift) that triggers a send from the
    input field. The class in module Page is proved to follow it. */
module Exchange {
  import opened Messages
  import opened Whitespace

  datatype Option<T> = None | Some(value: T)

  /** The page's three pieces of state: the conversation, the pending input
      and the flag that is set while a send is in flight. */
  datatype State = State(messages: seq<Message>, message: string, isLoading: bool)

  /** How the streamed body ended once its chunks were read: `Completed` when
      the reader reported done, `Interrupted` when a read threw. */
  datatype StreamEnd = Completed | Interrupted

  /** What the backend did with the request: `Rejected` when the request threw
      or its response was not ok, before any chunk was read; otherwise the
      already-decoded chunks, in order, and how the stream ended. */
  datatype Reply = Rejected | Streamed(chunks: seq<string>, end: StreamEnd)

  /** The outcome of one read of the response body. */
  datatype Read = Chunk(text: string) | EndOfStream | ReadFailed

  /** The state the page starts in: the greeting alone, an empty input, nothing
      in flight. Nothing can be sent until some text is typed. */
  function Initial(): (s: State)
    ensures WellFormed(s.messages) && s.messages[0].role == Assistant
    ensures Blocked(s)
  {
    State([Message(Assistant, Greeting)], "", false)
  }

  /** The guard of a send: blank input, or a send already in flight. */
  predicate Blocked(s: State): (b: bool)
    ensures b <==> Blank(s.message) || s.isLoading
  {
    TrimEmptyIffBlank(s.message);
    Trim(s.message) == [] || s.isLoading
  }

  /** The state a send that passed the guard has reached before its request
      goes out: the flag set, the input cleared, and the user's turn and the
      empty placeholder appended. A second send is blocked from here on. */
  function Begin(s: State): (r: State)
    ensures r.isLoading && r.message == "" && Blocked(r)
    ensures r.messages == RequestBody(s.messages, s.message) + [Message(Assistant, "")]
    ensures r.messages[..|s.messages|] == s.messages
    ensures WellFormed(s.messages) ==> WellFormed(r.messages)
  {
    State(AppendExchange(s.messages, s.message), "", true)
  }

  /** The i-th read of a streamed body. */
  function ReadAt(chunks: seq<string>, end: StreamEnd, i: nat): Read
  {
    if i < |chunks| then Chunk(chunks[i])
    else if end == Completed then EndOfStream
    else ReadFailed
  }

  /** Whether the reply takes the error path. */
  predicate Fails(reply: Reply)
  {
    reply == Rejected || reply.end == Interrupted
  }

  /** The chunks of the reply that reach the conversation. */
  function Received(reply: Reply): seq<string>
  {
    if reply.Rejected? then [] else reply.chunks
  }

  /** The conversation once the reply has been consumed, starting from the
      list that holds the new exchange: every received chunk folded into the
      placeholder, then the apology appended if the reply failed. */
  function Settle(m: seq<Message>, reply: Reply): (r: seq<Message>)
    requires |m| > 0
    ensures |r| == |m| + (if Fails(reply) then 1 else 0)
    ensures r[..|m| - 1] == m[..|m| - 1]
    ensures r[|m| - 1] == Message(m[|m| - 1].role, m[|m| - 1].content + Joined(Received(reply)))
    ensures Fails(reply) ==> r[|m|] == Message(Assistant, Apology)
    ensures WellFormed(m) ==> WellFormed(r)
  {
    var folded := FoldChunks(m, Received(reply));
    if Fails(reply) then AppendApology(folded) else folded
  }

  /** One call of the send handler, from the state it sees to the state it
      leaves. A blocked send changes nothing; any other clears the input, ends
      with the flag released on every path, and leaves the request body in front
      of the assistant's answer. */
  function Send(s: State, reply: Reply): (r: State)
    ensures Blocked(s) ==> r == s
    ensures !Blocked(s) ==> r.message == "" && !r.isLoading
    ensures !Blocked(s) ==> |r.messages| > |s.messages| + 1
    ensures !Blocked(s) ==> r.messages[..|s.messages| + 1] == RequestBody(s.messages, s.message)
    ensures !Blocked(s) ==> r.messages[|s.messages| + 1].role == Assistant
  {
    if Blocked(s) then s
    else
      var m := Settle(Begin(s).messages, reply);
      assert m[..|s.messages| + 1] == Begin(s).messages[..|s.messages| + 1];
      State(m, "", false)
  }

  /** The conversation a send that passed the guard leaves: the history, the
      user's turn, the placeholder holding every received chunk joined in
      order, and the apology if and only if the reply failed. */
  lemma SendMessages(s: State, reply: Reply)
    requires !Blocked(s)
    ensures Send(s, reply).messages
            == s.messages + [Message(User, s.message), Message(Assistant, Joined(Received(reply)))]
               + (if Fails(reply) then [Message(Assistant, Apology)] else [])
  {
    var body := RequestBody(s.messages, s.message);
    var placeholder := Message(Assistant, "");
    var answer := Message(Assistant, Joined(Received(reply)));
    calc {
      FoldChunks(Begin(s).messages, Received(reply));
      FoldChunks(body + [placeholder], Received(reply));
      { FoldOnto(body, placeholder, Received(reply));
        assert "" + Joined(Received(reply)) == Joined(Received(reply)); }
      body + [answer];
      s.messages + [Message(User, s.message), answer];
    }
  }

  /** A send that streams to completion adds the user's turn and one assistant
      turn holding the whole reply, chunks joined in order. */
  lemma SendCompleted(s: State, chunks: seq<string>)
    requires !Blocked(s)
    ensures Send(s, Streamed(chunks, Completed)).messages
            == s.messages + [Message(User, s.message), Message(Assistant, Joined(chunks))]
  {
    SendMessages(s, Streamed(chunks, Completed));
  }

  /** A stream that breaks after some chunks keeps what was streamed in the
      placeholder and appends one apology turn after it. */
  lemma SendInterrupted(s: State, chunks: seq<string>)
    requires !Blocked(s)
    ensures Send(s, Streamed(chunks, Interrupted)).messages
            == s.messages + [Message(User, s.message), Message(Assistant, Joined(chunks))]
               + [Message(Assistant, Apology)]
  {
    SendMessages(s, Streamed(chunks, Interrupted));
  }

  /** A rejected request leaves the empty placeholder and appends one apology
      turn after it. */
  lemma SendRejected(s: State)
    requires !Blocked(s)
    ensures Send(s, Rejected).messages
            == s.messages + [Message(User, s.message), Message(Assistant, "")]
               + [Message(Assistant, Apology)]
  {
    SendMessages(s, Rejected);
    assert Joined(Received(Rejected)) == "";
  }

  /** A send keeps the conversation well formed and its first turn in place. */
  lemma SendPreservesWellFormed(s: State, reply: Reply)
    requires WellFormed(s.messages)
    ensures WellFormed(Send(s, reply).messages)
    ensures Send(s, reply).messages[0] == s.messages[0]
  {
    if !Blocked(s) {
      var r := Send(s, reply).messages;
      assert r[..|s.messages| + 1][0] == r[0];
    }
  }

  /** While a send is in flight, a second one changes nothing, whatever text
      is in the input and whatever the backend would have answered it. */
  lemma SendWhileInFlight(s: State, reply: Reply, text: string)
    ensures Send(Begin(s), reply) == Begin(s)
    ensures Send(Begin(s).(message := text), reply) == Begin(s).(message := text)
  {
  }

  /** The key event fields the handler reads. */
  datatype KeyEvent = KeyEvent(key: string, shiftKey: bool)

  /** Enter without Shift, and no other key event, sends. */
  predicate IsSendKey(e: KeyEvent)
  {
    e.key == "Enter" && !e.shiftKey
  }
}
