# Chat widget conversation reducer

A model of the state handling in the `Home` component of a single-page
customer-support chat (`app/page.js`). The page holds three pieces of state:
the conversation (an ordered list of `{role, content}` turns, seeded with one
assistant greeting), the text in the input field, and an `isLoading` flag.
Sending a message is guarded by "input is not blank and nothing is in
flight". A send that passes the guard sets the flag and clears the input. It
appends the user's turn and an empty assistant placeholder, and posts the
prior history plus the user's turn. It then folds each streamed chunk of the
reply into the last turn. On failure it appends a fixed apology turn. At the
end it clears the flag.

Files:

- `messages.dfy`, module `Messages`: turns, the greeting and apology texts,
  the list updaters handed to the state setter (append the exchange, fold one
  chunk, append the apology), the request body, and folding a whole chunk
  sequence. It also defines `WellFormed`, the shape every reachable
  conversation keeps: never empty, last turn is an assistant turn, every user
  turn is followed by an assistant turn.
- `whitespace.dfy`, module `Whitespace`: JavaScript's `String.prototype.trim`
  over the ECMAScript WhiteSpace and LineTerminator code points, which the
  send guard uses.
- `exchange.dfy`, module `Exchange`: the page state as a value, the backend's
  answer as a `Reply` (`Rejected`, or the decoded chunks and whether the
  stream completed or a read threw), and `Send`, one whole call of the send
  handler as a pure transition, with lemmas for each outcome.
- `page.dfy`, module `Page`: class `Home` with the fields `messages`,
  `message` and `isLoading`. Its `SendMessage` runs the guard, the updates
  and the read loop step by step, and is proved to end in the state `Send`
  describes. It also has the input change handler and the Enter/Shift key
  handler.

On failure the code (app/page.js:78-85) appends the apology as a new turn; it
does not touch the placeholder. An empty placeholder, or the partial reply
streamed before a read failed, therefore stays in the conversation in front of
the apology, and it is part of the next request's body.

## Model

| member | source | states |
|---|---|---|
| `Messages.AppendExchange` | app/page.js:32-36 | the list grows by exactly two turns; earlier turns are unchanged and in order; then comes the user turn with the raw input text, then an empty assistant turn; a well-formed conversation stays well formed |
| `Messages.RequestBody` | app/page.js:45 | the body posted is the updated list without its last turn; adding the empty placeholder to the body gives the updated list; the body ends with the user's turn |
| `Messages.FoldChunk` | app/page.js:64-71 | the length is kept; every turn but the last is unchanged; the last keeps its role and its content becomes the old content followed by the chunk; well-formedness is kept |
| `Messages.FoldChunks` | app/page.js:58-72 | folding chunks in order keeps the length and every turn but the last; the last keeps its role and gains exactly the chunks joined in arrival order |
| `Messages.AppendApology` | app/page.js:78-85 | the list grows by exactly one; earlier turns, including any partly streamed reply, are unchanged; the new last turn is the assistant's fixed apology |
| `Messages.JoinedAppend` | app/page.js:58-72 | the text of two runs of chunks is the text of the first followed by the text of the second |
| `Messages.JoinedPrefixGrows` | app/page.js:58-72 | the streamed content only grows: the text after j chunks is a prefix of the text after any later count k |
| `Messages.FoldOnto` | app/page.js:58-72 | folding any chunks into a conversation leaves every turn before the last unchanged; the last turn keeps its role and gains exactly the chunks joined in order |
| `Messages.FoldChunksAppend` | app/page.js:58-72 | folding a stream in two parts, one after the other, gives the same conversation as folding it at once |
| `Messages.FoldChunksDependsOnlyOnText` | app/page.js:58-72 | two chunk sequences with the same joined text give the same conversation, wherever the chunk boundaries fall |
| `Messages.FoldOntoPlaceholder` | app/page.js:58-72 | for every prefix of k chunks folded onto the empty placeholder, the placeholder holds exactly those k chunks joined and the history before it is unchanged |
| `Whitespace.Trim` | app/page.js:23 | the trimmed input is the part of the input that starts where the leading whitespace ends, cut to its own length, so only characters at the two ends are dropped; a non-empty result neither starts nor ends with whitespace |
| `Whitespace.TrimStartDropsBlank` | app/page.js:23 | trimming the front removes only whitespace characters |
| `Whitespace.TrimEndDropsBlank` | app/page.js:23 | trimming the back removes only whitespace characters |
| `Whitespace.TrimEmptyIffBlank` | app/page.js:23 | the trimmed input is empty exactly when every character of the input is whitespace, so the guard stops exactly the blank inputs |
| `Exchange.Initial` | app/page.js:11-18 | the starting conversation is well formed and starts with an assistant turn; sending is blocked until text is typed |
| `Exchange.Blocked` | app/page.js:23 | a send is stopped exactly when every character of the input is whitespace or a send is already in flight |
| `Exchange.Begin` | app/page.js:25-36 | a send that passed the guard first sets the flag, clears the input and appends the user's turn and an empty placeholder; the list is the request body plus that placeholder, the history in front is unchanged, well-formedness is kept, and the state it reaches blocks any further send |
| `Exchange.Settle` | app/page.js:38-86 | after the reply is consumed, every received chunk is in the placeholder in order and nothing before it changed; exactly one apology turn follows when the request was rejected or a read failed, and none otherwise |
| `Exchange.Send` | app/page.js:21-90 | a blocked send (blank input or a send in flight) leaves messages, input and flag unchanged; any other send clears the input and ends with the flag released on both exit paths; its conversation starts with the request body, followed by at least one assistant turn |
| `Exchange.SendMessages` | app/page.js:32-85 | after a send that passed the guard, the conversation is the history, the user's turn, the placeholder holding every received chunk joined in order, and one apology turn exactly when the reply failed |
| `Exchange.SendCompleted` | app/page.js:53-72 | a stream that completes leaves the prior history, the user's turn and one assistant turn holding the whole reply, chunks joined in order |
| `Exchange.SendInterrupted` | app/page.js:58-85 | a stream that breaks after some chunks keeps the partial reply in the placeholder and appends one apology turn |
| `Exchange.SendRejected` | app/page.js:40-51 | a request that throws or answers not-ok leaves the empty placeholder and appends one apology turn |
| `Exchange.SendPreservesWellFormed` | app/page.js:21-90 | a send keeps the conversation well formed and keeps its first turn |
| `Exchange.SendWhileInFlight` | app/page.js:23-36 | from the state `Begin` gives, which `Page.Home.SendMessage` is proved to reach before its request goes out, a second send changes nothing, whatever text is in the input and whatever the reply |
| `Page.Home.constructor` | app/page.js:11-18 | the page starts with the greeting as its only turn, an empty input and no send in flight; the class invariant holds |
| `Page.Home.OnInputChanged` | app/page.js:157 | the input becomes the typed text; the conversation and the flag are unchanged |
| `Page.Home.ReadStream` | app/page.js:58-72 | the read loop, each read given by `ReadAt` (a chunk, done, or a throw), folds every chunk into the last turn in order, leaves input and flag alone, and reports a failure exactly when a read threw |
| `Page.Home.SendMessage` | app/page.js:21-90 | the fields end in exactly the state `Send` gives for the old state and the reply; the returned body is the pre-send list plus the user's turn, or nothing when the guard stopped the send; a send that passed the guard goes through the in-flight state `Begin` gives, with the flag set; the class invariant is kept |
| `Page.Home.HandleKeyPress` | app/page.js:93-102 | the default action is suppressed and a send runs exactly for Enter without Shift (`IsSendKey`); the posted body is the pre-send list plus the user's turn when that send passes the guard, and nothing otherwise; every other key event changes nothing |

## Left out

- The HTTP request and its serialisation (app/page.js:40-46): `SendMessage` returns the body it would post. The backend's answer is a `Reply` parameter. Status codes are reduced to ok / not ok.
- Streaming UTF-8 decoding (app/page.js:55, app/page.js:63): each chunk is taken as already-decoded text. That multi-byte characters split across chunks decode correctly is the decoder's property and is not modelled.
- Suspension at `await` points and React's render batching: each state setter is an immediate, sequential update, and other events cannot interleave inside `SendMessage`. As in the handler's closure, the user's turn and the request body use the input and the list captured when the handler started (app/page.js:34, app/page.js:45), not the updated fields. A second send while one is in flight is modelled by `Exchange.SendWhileInFlight` on the state `Exchange.Begin` gives.
- A request or stream that never ends: `Reply` is finite, so every modelled send finishes. In the code a `fetch` or `read()` that never resolves (app/page.js:40, app/page.js:58-59) leaves `isLoading` set and the input disabled, because there is no timeout or cancellation.
- Error logging to the console (app/page.js:75).
- Rendering, layout and the disabled/"Sending..." state of the input and button (app/page.js:105-171): display only. `OnInputChanged` does not model the input being disabled while a send is in flight.
- Strings are sequences of Unicode code points, not UTF-16 code units. Every whitespace character `trim` removes is a single code unit, so the guard is unaffected. Lone surrogates cannot be represented.
- `Exchange.Initial`: its contract gives the shape of the starting state, not the greeting text. `Page.Home.constructor` states the exact starting turn.
