/** The conversation held by the chat page: an ordered list of turns, and the
    pure list updaters that the page hands to its state setter. */
module Messages {

  datatype Role = User | Assistant

  /** One turn of the conversation, `{role, content}`. */
  datatype Message = Message(role: Role, content: string)

  /** The assistant turn the conversation is seeded with. */
  const Greeting: string := "Hi! I'm the support assistant. How can I help you today?"

  /** The assistant turn appended when a request or its stream fails. */
  const Apology: string := "I'm sorry, but I encountered an error. Please try again later."

  /** The shape every reachable conversation keeps: never empty, the last turn
      (the one chunks are folded into) is an assistant turn, and every user turn
      is immediately followed by an assistant turn. */
  ghost predicate WellFormed(m: seq<Message>)
  {
    && |m| > 0
    && m[|m| - 1].role == Assistant
    && forall i, j :: 0 <= i && j == i + 1 && j < |m| && m[i].role == User ==> m[j].role == Assistant
  }

  /** The updater run when a send passes the guard: the user's text, then an
      empty assistant placeholder, after everything already there. */
  function AppendExchange(m: seq<Message>, text: string): (r: seq<Message>)
    ensures |r| == |m| + 2
    ensures r[..|m|] == m
    ensures r[|m|] == Message(User, text)
    ensures r[|m| + 1] == Message(Assistant, "")
    ensures WellFormed(m) ==> WellFormed(r)
  {
    m + [Message(User, text), Message(Assistant, "")]
  }

  /** The list sent as the request body: the history as it stood before the
      send, followed by the user's message, without the placeholder. */
  function RequestBody(history: seq<Message>, text: string): (r: seq<Message>)
    ensures r == AppendExchange(history, text)[..|history| + 1]
    ensures AppendExchange(history, text) == r + [Message(Assistant, "")]
    ensures r[|r| - 1] == Message(User, text)
  {
    history + [Message(User, text)]
  }

  /** The updater run for each streamed chunk: the last turn, keeping its role,
      gets the chunk added to its content; every other turn is carried over. */
  function FoldChunk(m: seq<Message>, chunk: string): (r: seq<Message>)
    requires |m| > 0
    ensures |r| == |m|
    ensures r[..|m| - 1] == m[..|m| - 1]
    ensures r[|m| - 1].role == m[|m| - 1].role
    ensures r[|m| - 1].content == m[|m| - 1].content + chunk
    ensures WellFormed(m) ==> WellFormed(r)
  {
    var last := m[|m| - 1];
    m[..|m| - 1] + [last.(content := last.content + chunk)]
  }

  /** The text of a sequence of chunks, in the order they arrived. */
  function Joined(chunks: seq<string>): string
    decreases |chunks|
  {
    if chunks == [] then "" else Joined(chunks[..|chunks| - 1]) + chunks[|chunks| - 1]
  }

  /** The conversation after the chunks have been folded in one by one, in order. */
  function FoldChunks(m: seq<Message>, chunks: seq<string>): (r: seq<Message>)
    requires |m| > 0
    ensures |r| == |m|
    ensures r[..|m| - 1] == m[..|m| - 1]
    ensures r[|m| - 1] == Message(m[|m| - 1].role, m[|m| - 1].content + Joined(chunks))
    ensures WellFormed(m) ==> WellFormed(r)
    decreases |chunks|
  {
    if chunks == [] then m
    else FoldChunk(FoldChunks(m, chunks[..|chunks| - 1]), chunks[|chunks| - 1])
  }

  /** The updater run on the error path: one apology turn after everything
      already there, so a partly streamed reply stays in the list. */
  function AppendApology(m: seq<Message>): (r: seq<Message>)
    ensures |r| == |m| + 1
    ensures r[..|m|] == m
    ensures r[|m|] == Message(Assistant, Apology)
    ensures WellFormed(m) ==> WellFormed(r)
  {
    m + [Message(Assistant, Apology)]
  }

  /** Joining two runs of chunks is joining each and concatenating. */
  lemma {:induction false} JoinedAppend(a: seq<string>, b: seq<string>)
    ensures Joined(a + b) == Joined(a) + Joined(b)
    decreases |b|
  {
    if b == [] {
      assert a + b == a;
    } else {
      var b' := b[..|b| - 1];
      assert (a + b)[..|a + b| - 1] == a + b';
      JoinedAppend(a, b');
    }
  }

  /** The streamed content only grows: the text after j chunks is a prefix of
      the text after k >= j chunks. */
  lemma {:induction false} JoinedPrefixGrows(chunks: seq<string>, j: nat, k: nat)
    requires j <= k <= |chunks|
    ensures Joined(chunks[..j]) <= Joined(chunks[..k])
    decreases k - j
  {
    if j < k {
      JoinedPrefixGrows(chunks, j, k - 1);
      assert chunks[..k][..k - 1] == chunks[..k - 1];
    }
  }

  /** Two conversations of the same length that agree on every turn but the
      last, and on the last, are equal. */
  lemma SameTurns(x: seq<Message>, y: seq<Message>)
    requires |x| == |y| > 0
    requires x[..|x| - 1] == y[..|y| - 1] && x[|x| - 1] == y[|y| - 1]
    ensures x == y
  {
    assert x == x[..|x| - 1] + [x[|x| - 1]];
    assert y == y[..|y| - 1] + [y[|y| - 1]];
  }

  /** Folding chunks into a conversation touches only its last turn, which
      gains the chunks joined in order. */
  lemma FoldOnto(history: seq<Message>, last: Message, chunks: seq<string>)
    ensures FoldChunks(history + [last], chunks)
            == history + [Message(last.role, last.content + Joined(chunks))]
  {
    var m := history + [last];
    assert m[..|history|] == history;
    var y := history + [Message(last.role, last.content + Joined(chunks))];
    assert y[..|history|] == history;
    SameTurns(FoldChunks(m, chunks), y);
  }

  /** Folding a stream in two sittings is folding it at once. */
  lemma FoldChunksAppend(m: seq<Message>, a: seq<string>, b: seq<string>)
    requires |m| > 0
    ensures FoldChunks(m, a + b) == FoldChunks(FoldChunks(m, a), b)
  {
    var h, last := m[..|m| - 1], m[|m| - 1];
    assert m == h + [last];
    var afterA := Message(last.role, last.content + Joined(a));
    calc {
      FoldChunks(m, a + b);
      { FoldOnto(h, last, a + b); }
      h + [Message(last.role, last.content + Joined(a + b))];
      { JoinedAppend(a, b); assert last.content + Joined(a + b) == afterA.content + Joined(b); }
      h + [Message(afterA.role, afterA.content + Joined(b))];
      { FoldOnto(h, afterA, b); }
      FoldChunks(h + [afterA], b);
      { FoldOnto(h, last, a); }
      FoldChunks(FoldChunks(m, a), b);
    }
  }

  /** Where the chunk boundaries fall does not matter: two streams with the
      same text leave the same conversation. */
  lemma FoldChunksDependsOnlyOnText(m: seq<Message>, a: seq<string>, b: seq<string>)
    requires |m| > 0
    requires Joined(a) == Joined(b)
    ensures FoldChunks(m, a) == FoldChunks(m, b)
  {
    var h := m[..|m| - 1];
    assert m == h + [m[|m| - 1]];
    FoldOnto(h, m[|m| - 1], a);
    FoldOnto(h, m[|m| - 1], b);
  }

  /** After the first k chunks have been folded onto the empty placeholder, the
      placeholder holds exactly those chunks joined, and nothing before it changed. */
  lemma FoldOntoPlaceholder(history: seq<Message>, chunks: seq<string>, k: nat)
    requires k <= |chunks|
    ensures FoldChunks(history + [Message(Assistant, "")], chunks[..k])
            == history + [Message(Assistant, Joined(chunks[..k]))]
  {
    FoldOnto(history, Message(Assistant, ""), chunks[..k]);
    assert "" + Joined(chunks[..k]) == Joined(chunks[..k]);
  }
}
