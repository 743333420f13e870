# Mind-Mate chat page: transcript state machine

This project models the chat core of Mind-Mate's message page
(`Frontend/src/pages/message/message.js`). The page holds a transcript of chat
bubbles, a busy/idle status, a `chatInit` flag and the text of the input box.
It talks to the server over one WebSocket. On open it sends a connection
acknowledgement and then asks for the history. Three inbound frame types drive
the transcript:

- a history snapshot replaces the transcript with the prompt/response pairs;
- a response chunk grows the last bubble;
- a response end freezes the last bubble.

Submitting the form appends the user's bubble, sends the prompt, clears the
input, turns the page busy and appends an empty loading placeholder. The send
button is disabled while the page is busy.

Layout:

- `transcript.dfy` (module `Transcript`) holds the bubble and pair datatypes and
  the pure transcript updaters: `Expand` for the `flatMap` of the history, and
  `AppendChunk` and `Finalize` for the `slice(0, -1)` rewrites of the last
  bubble. It also holds the lemmas about streamed chunks and the shape
  predicates.
- `session.dfy` (module `Session`) holds the page state as a value (`Page`).
  Each listener and user action is a function over that value. `Run` plays a
  whole sequence of actions. The lemmas here cover whole runs: nothing can be
  submitted before the history arrives, a reply equals its chunks joined in
  order, and the streaming target stays last.
- `page.dfy` (module `MessagePage`) holds the component as a class
  `ChatPage`. Its fields are the state hooks, `ws.current` and a log of the
  frames sent. Its methods are the listeners and `handleClick`, which update
  the fields step by step. Each method is proved against the `Session`
  function of the same event through the ghost `View()`.

Points where the model makes the source's behaviour explicit:

- The code's status has two values, "busy" and "idle". The page starts busy
  with `chatInit` false. There is no separate "initializing" state: "busy and
  no history yet" plays that role.
- `prevchat.at(-1)` is `undefined` on an empty transcript. Reading `.message`
  from it throws inside the queued updater. The model makes that outcome
  `None` (`ok == false` on the class) and leaves the state unchanged.
- `if (!histdata) return;` ignores a snapshot without `data`. An empty array
  is truthy in JavaScript, so an empty snapshot does clear the transcript.
- Objects built without `isLoading` (history bubbles, the user's bubble) render
  as not loading, so they carry `isLoading == false`.
- `ws.current?.send` drops the prompt when there is no socket. The model keeps
  that branch. `EnabledSubmitSendsPrompt` shows that it cannot be reached
  through the form.
- The source has no guard against a chunk that arrives after the reply ended.
  `StrayChunkLeavesTwoLoading` shows the resulting state, in which two bubbles
  are loading at once. The shape invariant (`RunWellFormed`) is therefore
  proved for servers that send chunks and ends only while the page is busy.

## Model

| member | source | states |
|---|---|---|
| Transcript.Expand | Mind-Mate/Frontend/src/pages/message/message.js:81-84 | a snapshot of N pairs becomes 2N bubbles; bubble 2i is pair i's prompt (own) and bubble 2i+1 its response (not own), in the original order |
| Transcript.AppendChunk | Mind-Mate/Frontend/src/pages/message/message.js:90-97 | defined exactly when the transcript is non-empty; length and all earlier bubbles unchanged; the last bubble's text is the old text followed by the chunk, not own, loading |
| Transcript.Finalize | Mind-Mate/Frontend/src/pages/message/message.js:99-106 | defined exactly when the transcript is non-empty; length, earlier bubbles and every text unchanged; the last bubble is not own and not loading |
| Transcript.ChunksAccumulate | Mind-Mate/Frontend/src/pages/message/message.js:90-97 | on a non-empty transcript, a series of chunks leaves the last bubble's text as its old text followed by the chunks joined in delivery order |
| Transcript.PlaceholderCollectsChunks | Mind-Mate/Frontend/src/pages/message/message.js:93 | behind the empty placeholder, the reply's text is exactly the chunks joined in delivery order, zero chunks included |
| Transcript.ExpandSettled | Mind-Mate/Frontend/src/pages/message/message.js:81-84 | no bubble of a history snapshot is loading |
| Transcript.AppendChunkKeepsLoadingLast | Mind-Mate/Frontend/src/pages/message/message.js:90-97 | if only the last bubble may be loading before a chunk, the same holds after it |
| Transcript.FinalizeSettles | Mind-Mate/Frontend/src/pages/message/message.js:99-106 | if only the last bubble may be loading, after the end frame no bubble is loading |
| Session.Open | Mind-Mate/Frontend/src/pages/message/message.js:67-71 | on open, exactly `client:connected` and then `client:chathist` are appended to the frames sent; nothing else changes |
| Session.Receive | Mind-Mate/Frontend/src/pages/message/message.js:73-109 | per frame type: a snapshot with data replaces the transcript by the 2N alternating bubbles, turns idle and sets `chatInit`; a snapshot without data or a frame of another type changes nothing; a chunk or end throws exactly on an empty transcript, otherwise keeps the length and earlier bubbles, rewrites the last bubble as stated, and (for end only) turns idle |
| Session.Click | Mind-Mate/Frontend/src/pages/message/message.js:125-140 | the transcript grows by exactly two, the user's bubble then an empty loading placeholder, earlier bubbles unchanged; one `client:prompt` with the input is sent when there is a socket; the input is cleared and the page is busy |
| Session.Submit | Mind-Mate/Frontend/src/pages/message/message.js:241-256 | a submit while busy changes nothing; while idle it is exactly `handleClick` (`Session.Click`): user bubble then empty loading placeholder appended, prompt sent when there is a socket, input cleared, page busy |
| Session.RunReachable | Mind-Mate/Frontend/src/pages/message/message.js:33-36 | every run keeps this invariant: before any history the transcript is empty, the page is busy and no prompt was sent; once history has arrived there is a socket |
| Session.SubmitDisabledUntilHistory | Mind-Mate/Frontend/src/pages/message/message.js:34-35 | from the initial page, whatever happens, until a snapshot has arrived the transcript is empty, the page is busy, no prompt went out and a submit is ignored |
| Session.EnabledSubmitSendsPrompt | Mind-Mate/Frontend/src/pages/message/message.js:128-133 | on every reachable idle page, a submit sends exactly one `client:prompt` carrying the input |
| Session.RunDeliver | Mind-Mate/Frontend/src/pages/message/message.js:89-97 | a series of chunk frames acts on the transcript as the chunk updaters applied in delivery order and changes nothing else |
| Session.SubmitFirst | Mind-Mate/Frontend/src/pages/message/message.js:125-140 | on an idle page, a submit followed by further actions runs as `handleClick` followed by those actions |
| Session.ChunksFillPlaceholder | Mind-Mate/Frontend/src/pages/message/message.js:136-139 | after `handleClick`, the chunks of the reply fill the placeholder, whose text becomes the chunks joined in order while it stays loading |
| Session.ReplyIsChunksInOrder | Mind-Mate/Frontend/src/pages/message/message.js:89-107 | submit then chunks c1..ck: the page is busy and the reply bubble reads c1+...+ck and is still loading; after the end frame it is frozen with that text and the page is idle; exactly one prompt was sent |
| Session.StepWellFormed | Mind-Mate/Frontend/src/pages/message/message.js:77-139 | every action, with chunks and ends only while busy, keeps the streaming bubble last and nothing loading while idle |
| Session.RunWellFormed | Mind-Mate/Frontend/src/pages/message/message.js:77-139 | the same shape holds after any run against a server that keeps to the protocol |
| Session.StrayChunkLeavesTwoLoading | Mind-Mate/Frontend/src/pages/message/message.js:89-97 | on a page reached from the initial one (socket, one exchange of history, text typed), which is idle and well formed, a chunk after the end frame followed by a submit leaves two bubbles loading |
| MessagePage.ChatPage.constructor | Mind-Mate/Frontend/src/pages/message/message.js:33-36 | the page starts with an empty transcript, busy, without history and with an empty input |
| MessagePage.ChatPage.Connect | Mind-Mate/Frontend/src/pages/message/message.js:63-65 | the socket is stored in `ws.current`; nothing else changes |
| MessagePage.ChatPage.OnOpen | Mind-Mate/Frontend/src/pages/message/message.js:67-71 | the open listener sends `client:connected` and then `client:chathist` |
| MessagePage.ChatPage.OnMessage | Mind-Mate/Frontend/src/pages/message/message.js:73-109 | the message listener updates the fields exactly as `Session.Receive`, and reports when the updater throws |
| MessagePage.ChatPage.SetMessage | Mind-Mate/Frontend/src/pages/message/message.js:250 | typing replaces the input buffer and nothing else |
| MessagePage.ChatPage.HandleClick | Mind-Mate/Frontend/src/pages/message/message.js:125-140 | `handleClick` updates the fields exactly as `Session.Click`: user bubble then placeholder appended |
| MessagePage.ChatPage.SubmitEnabled | Mind-Mate/Frontend/src/pages/message/message.js:254 | the send button is enabled exactly when the page is idle |
| MessagePage.ChatPage.OnSubmit | Mind-Mate/Frontend/src/pages/message/message.js:241-256 | a form submit reaches `handleClick` exactly when the page was idle, and acts as `Session.Submit` |
| MessagePage.HelloScenario | Mind-Mate/Frontend/src/pages/message/message.js:67-140 | connect, open, empty history, type "Hello", submit, chunks "Hi" and " there", end: the transcript is "Hello" (own) then "Hi there" (frozen), the page is idle, and the frames sent are acknowledgement, history request, prompt |

## Left out

- Creating the WebSocket from the chat id, the close and error listeners and the cleanup that closes the socket (lines 62-66, 111-122): connection lifecycle and I/O. A socket is modelled only as present or absent.
- JSON encoding and decoding of frames (lines 74, 128-133): frames are the datatypes `Inbound` and `Outbound`. A frame whose `data` is not an array, or whose `chunk` is missing, is not modelled.
- The HTTP calls for `/chat`, `/logout` and `/check-session` (lines 47-60, 142-154, 156-168): network clients.
- The five-minute session watchdog (lines 170-174): it is driven by a timer. The `checkSession()` after the effect's `return` never runs, so no check happens on mount.
- Rendering, Markdown, scrolling, navigation and the login context (lines 10-26, 40-45, 177-261): presentation only. Only the submit button's `disabled` guard is modelled.
- Logging through `console.log` and `console.error` (lines 54, 56, 68, 75, 112, 116, 127): it has no effect on the page's state.
- React's batching of state updates: each handler runs to completion, and its `setChat` updaters apply in source order.
- A throwing updater: the model leaves the state as it was. What React does after a render error (unmounting the page) is not modelled.
