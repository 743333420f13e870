/** The state of the message page as a value, the page's reactions to socket
    events and user actions as functions over it, and what whole runs of
    events do to it. */
module Session {
  import opened Transcript

  /** The page's `chatState`: "busy" or "idle". */
  datatype Status = Busy | Idle

  /** A frame received on the socket, by its `type`.  `History` carries the
      snapshot's `data`, `None` when the field is missing; every other type,
      or a frame without one, is `Other`. */
  datatype Inbound =
    | History(data: Option<seq<Pair>>)
    | Chunk(chunk: string)
    | End
    | Other

  /** A frame the page sends on the socket. */
  datatype Outbound = Connected | ChatHistory | Prompt(prompt: string)

  /** Everything the chat core of the page holds: the transcript `chat`, the
      status, the `chatInit` flag, the input buffer `message`, whether
      `ws.current` holds a socket, and every frame sent on it so far. */
  datatype Page = Page(
    chat: seq<Entry>,
    status: Status,
    chatInit: bool,
    input: string,
    socket: bool,
    sent: seq<Outbound>)

  /** The page as first rendered. */
  function Initial(): Page
  {
    Page([], Busy, false, "", false, [])
  }

  /** The socket's open listener: a connection acknowledgement, then a request
      for the history, and nothing else changes. */
  function Open(p: Page): (r: Page)
    ensures r.sent == p.sent + [Connected, ChatHistory]
    ensures r.(sent := p.sent) == p
  {
    p.(sent := p.sent + [Connected] + [ChatHistory])
  }

  /** The socket's message listener.  `None` when the `setChat` updater it
      queues throws, which happens when a chunk or an end arrives while the
      transcript is empty. */
  function Receive(p: Page, ev: Inbound): (r: Option<Page>)
    ensures ev.Other? || ev == History(None) ==> r == Some(p)
    ensures ev.History? && ev.data.Some? ==>
      var pairs := ev.data.value;
      r.Some? && |r.value.chat| == 2 * |pairs| &&
      (forall i :: 0 <= i < |pairs| ==>
        r.value.chat[2 * i] == Entry(pairs[i].prompt, true, false) &&
        r.value.chat[2 * i + 1] == Entry(pairs[i].response, false, false)) &&
      r.value.status == Idle && r.value.chatInit &&
      r.value.input == p.input && r.value.socket == p.socket && r.value.sent == p.sent
    ensures ev.Chunk? ==>
      (r.Some? <==> p.chat != []) &&
      (r.Some? ==>
        |r.value.chat| == |p.chat| &&
        r.value.chat[..|p.chat| - 1] == p.chat[..|p.chat| - 1] &&
        Last(r.value.chat) == Entry(Last(p.chat).text + ev.chunk, false, true) &&
        r.value.(chat := p.chat) == p)
    ensures ev.End? ==>
      (r.Some? <==> p.chat != []) &&
      (r.Some? ==>
        |r.value.chat| == |p.chat| &&
        r.value.chat[..|p.chat| - 1] == p.chat[..|p.chat| - 1] &&
        Last(r.value.chat) == Entry(Last(p.chat).text, false, false) &&
        r.value.status == Idle &&
        r.value.(chat := p.chat, status := p.status) == p)
  {
    match ev
    case History(data) =>
      if data.None? then Some(p)
      else Some(p.(chat := Expand(data.value), status := Idle, chatInit := true))
    case Chunk(chunk) =>
      (match AppendChunk(p.chat, chunk)
       case None => None
       case Some(t) => Some(p.(chat := t)))
    case End =>
      (match Finalize(p.chat)
       case None => None
       case Some(t) => Some(p.(chat := t, status := Idle)))
    case Other => Some(p)
  }

  /** `handleClick`: the input becomes a user entry, is sent as a prompt when
      there is a socket, the input is cleared, the page turns busy and an
      empty loading placeholder follows the user entry. */
  function Click(p: Page): (r: Page)
    ensures |r.chat| == |p.chat| + 2
    ensures r.chat[..|p.chat|] == p.chat
    ensures r.chat[|p.chat|] == Entry(p.input, true, false)
    ensures r.chat[|p.chat| + 1] == Entry("", false, true)
    ensures r.sent == if p.socket then p.sent + [Prompt(p.input)] else p.sent
    ensures r.input == "" && r.status == Busy
    ensures r.chatInit == p.chatInit && r.socket == p.socket
  {
    var withUser := p.chat + [Entry(p.input, true, false)];
    var sent := if p.socket then p.sent + [Prompt(p.input)] else p.sent;
    Page(withUser + [Placeholder()], Busy, p.chatInit, "", p.socket, sent)
  }

  /** Submitting the form: the send button is disabled while busy, so the form
      cannot be submitted then and nothing happens. */
  function Submit(p: Page): (r: Page)
    ensures p.status == Busy ==> r == p
    ensures p.status == Idle ==> r == Click(p)
  {
    if p.status == Busy then p else Click(p)
  }

  /** What can happen to the page, one at a time. */
  datatype Action =
    | Connect             // the chat id arrives and `ws.current` gets a socket
    | OpenSocket          // the socket's open event
    | Message(ev: Inbound) // a frame arrives on the socket
    | Type(text: string)  // the input's change event
    | SubmitForm          // the form's submit event

  /** One action.  Socket events reach the page only through listeners attached
      to a socket, so without one they change nothing. */
  function Step(p: Page, a: Action): Option<Page>
  {
    match a
    case Connect => Some(p.(socket := true))
    case OpenSocket => Some(if p.socket then Open(p) else p)
    case Message(ev) => if p.socket then Receive(p, ev) else Some(p)
    case Type(text) => Some(p.(input := text))
    case SubmitForm => Some(Submit(p))
  }

  /** A sequence of actions; `None` once a handler has thrown. */
  function Run(p: Page, acts: seq<Action>): Option<Page>
    decreases |acts|
  {
    if acts == [] then Some(p)
    else
      match Step(p, acts[0])
      case None => None
      case Some(q) => Run(q, acts[1..])
  }

  lemma {:induction false} RunAppend(p: Page, a: seq<Action>, b: seq<Action>)
    ensures Run(p, a + b) == match Run(p, a) case None => None case Some(q) => Run(q, b)
    decreases |a|
  {
    if a == [] {
      assert a + b == b;
    } else {
      assert (a + b)[0] == a[0] && (a + b)[1..] == a[1..] + b;
      match Step(p, a[0])
      case None =>
      case Some(q) => RunAppend(q, a[1..], b);
    }
  }

  /** No prompt has been sent. */
  predicate NoPrompt(sent: seq<Outbound>)
  {
    forall i :: 0 <= i < |sent| ==> !sent[i].Prompt?
  }

  /** What holds of every page reachable from the initial one: until a history
      snapshot has arrived, the transcript is empty, the page is busy and no
      prompt has gone out; and a history snapshot only arrives over a socket. */
  predicate Reachable(p: Page)
  {
    (p.chatInit ==> p.socket) &&
    (!p.chatInit ==> p.chat == [] && p.status == Busy && NoPrompt(p.sent))
  }

  lemma StepReachable(p: Page, a: Action)
    requires Reachable(p)
    ensures Step(p, a).Some? ==> Reachable(Step(p, a).value)
  {
  }

  lemma {:induction false} RunReachable(p: Page, acts: seq<Action>)
    requires Reachable(p)
    ensures Run(p, acts).Some? ==> Reachable(Run(p, acts).value)
    decreases |acts|
  {
    if acts != [] {
      StepReachable(p, acts[0]);
      match Step(p, acts[0])
      case None =>
      case Some(q) => RunReachable(q, acts[1..]);
    }
  }

  /** Whatever the page goes through, as long as no history snapshot has
      arrived it shows an empty transcript, stays busy, has sent no prompt and
      ignores a submit. */
  lemma SubmitDisabledUntilHistory(acts: seq<Action>)
    requires Run(Initial(), acts).Some?
    requires !Run(Initial(), acts).value.chatInit
    ensures var q := Run(Initial(), acts).value;
      q.chat == [] && q.status == Busy && NoPrompt(q.sent) && Submit(q) == q
  {
    RunReachable(Initial(), acts);
  }

  /** Whenever the page lets the user submit, the prompt really goes out: an
      idle page always has a socket. */
  lemma EnabledSubmitSendsPrompt(acts: seq<Action>)
    requires Run(Initial(), acts).Some?
    requires Run(Initial(), acts).value.status == Idle
    ensures var q := Run(Initial(), acts).value;
      Submit(q).sent == q.sent + [Prompt(q.input)]
  {
    RunReachable(Initial(), acts);
  }

  /** The chunks of one reply, as socket frames. */
  function Deliver(chunks: seq<string>): (acts: seq<Action>)
    ensures |acts| == |chunks|
    ensures forall i :: 0 <= i < |chunks| ==> acts[i] == Message(Chunk(chunks[i]))
    decreases |chunks|
  {
    if chunks == [] then [] else [Message(Chunk(chunks[0]))] + Deliver(chunks[1..])
  }

  lemma {:induction false} RunDeliver(p: Page, chunks: seq<string>)
    requires p.socket
    ensures Run(p, Deliver(chunks)) ==
      match AppendChunks(p.chat, chunks) case None => None case Some(t) => Some(p.(chat := t))
    decreases |chunks|
  {
    if chunks != [] {
      var acts := Deliver(chunks);
      assert acts[0] == Message(Chunk(chunks[0]));
      assert acts[1..] == Deliver(chunks[1..]);
      match AppendChunk(p.chat, chunks[0])
      case None =>
      case Some(t) => RunDeliver(p.(chat := t), chunks[1..]);
    }
  }

  lemma SubmitFirst(p: Page, rest: seq<Action>)
    requires p.status == Idle
    ensures Run(p, [SubmitForm] + rest) == Run(Click(p), rest)
  {
    RunAppend(p, [SubmitForm], rest);
  }

  lemma ChunksFillPlaceholder(p: Page, chunks: seq<string>)
    requires p.socket
    ensures Run(Click(p), Deliver(chunks)) == Some(Click(p).(
      chat := p.chat + [Entry(p.input, true, false), Entry(Concat(chunks), false, true)]))
  {
    var user := p.chat + [Entry(p.input, true, false)];
    assert Click(p).chat == user + [Placeholder()];
    PlaceholderCollectsChunks(user, chunks);
    RunDeliver(Click(p), chunks);
    assert user + [Entry(Concat(chunks), false, true)] ==
      p.chat + [Entry(p.input, true, false), Entry(Concat(chunks), false, true)];
  }

  /** A prompt submitted on an idle page with a socket, followed by the reply's
      chunks: the reply entry reads exactly as the chunks joined in delivery
      order and is still loading, and the page stays busy (as it does forever
      if the end frame never comes).  The end frame then freezes that entry
      and the page turns idle. */
  lemma ReplyIsChunksInOrder(p: Page, chunks: seq<string>)
    requires p.socket && p.status == Idle
    ensures Run(p, [SubmitForm] + Deliver(chunks)) == Some(p.(
      chat := p.chat + [Entry(p.input, true, false), Entry(Concat(chunks), false, true)],
      status := Busy, input := "", sent := p.sent + [Prompt(p.input)]))
    ensures Run(p, [SubmitForm] + Deliver(chunks) + [Message(End)]) == Some(p.(
      chat := p.chat + [Entry(p.input, true, false), Entry(Concat(chunks), false, false)],
      status := Idle, input := "", sent := p.sent + [Prompt(p.input)]))
  {
    var user := Entry(p.input, true, false);
    var m := p.(chat := p.chat + [user, Entry(Concat(chunks), false, true)],
      status := Busy, input := "", sent := p.sent + [Prompt(p.input)]);
    SubmitFirst(p, Deliver(chunks));
    ChunksFillPlaceholder(p, chunks);
    assert Run(p, [SubmitForm] + Deliver(chunks)) == Some(m);
    RunAppend(p, [SubmitForm] + Deliver(chunks), [Message(End)]);
    assert m.chat[..|m.chat| - 1] == p.chat + [user];
    assert Run(m, [Message(End)]) == Receive(m, End);
    assert Finalize(m.chat).value == p.chat + [user, Entry(Concat(chunks), false, false)];
  }

  /** The shape the streaming protocol keeps: only the last entry may be
      loading, and nothing is loading while the page is idle. */
  predicate WellFormed(p: Page)
  {
    LoadingOnlyLast(p.chat) && (p.status == Idle ==> Settled(p.chat))
  }

  /** The server keeps to the protocol: chunks and the end of a reply arrive
      only while the page waits for one. */
  predicate Conforming(p: Page, a: Action)
  {
    a.Message? && (a.ev.Chunk? || a.ev.End?) ==> p.status == Busy
  }

  lemma StepWellFormed(p: Page, a: Action)
    requires WellFormed(p) && Conforming(p, a)
    ensures Step(p, a).Some? ==> WellFormed(Step(p, a).value)
  {
    match a
    case Message(ev) =>
      if p.socket {
        match ev
        case History(data) =>
          if data.Some? { ExpandSettled(data.value); }
        case Chunk(chunk) =>
          if p.chat != [] { AppendChunkKeepsLoadingLast(p.chat, chunk); }
        case End =>
          if p.chat != [] { FinalizeSettles(p.chat); }
        case Other =>
      }
    case SubmitForm =>
      if p.status == Idle {
        var r := Click(p).chat;
        forall i | 0 <= i < |r| - 1 ensures !r[i].isLoading {
          if i < |p.chat| { assert r[i] == r[..|p.chat|][i] == p.chat[i]; }
        }
      }
    case _ =>
  }

  /** Every action of the run keeps to the protocol in the state it meets. */
  predicate ConformingRun(p: Page, acts: seq<Action>)
    decreases |acts|
  {
    acts == [] ||
    (Conforming(p, acts[0]) &&
     match Step(p, acts[0])
     case None => true
     case Some(q) => ConformingRun(q, acts[1..]))
  }

  /** Against a server that keeps to the protocol, the reply being streamed is
      always the last entry and nothing streams while the page is idle. */
  lemma {:induction false} RunWellFormed(p: Page, acts: seq<Action>)
    requires WellFormed(p) && ConformingRun(p, acts)
    ensures Run(p, acts).Some? ==> WellFormed(Run(p, acts).value)
    decreases |acts|
  {
    if acts != [] {
      StepWellFormed(p, acts[0]);
      match Step(p, acts[0])
      case None =>
      case Some(q) => RunWellFormed(q, acts[1..]);
    }
  }

  /** The guard the page lacks: on a page that has loaded one exchange of
      history, a chunk that arrives after the reply has ended marks that reply
      as loading again while the page is idle, and the next submit then leaves
      two entries loading. */
  lemma StrayChunkLeavesTwoLoading()
    ensures var loaded := Run(Initial(), [Connect, Message(History(Some([Pair("hi", "hello")]))), Type("again")]);
      var q := Run(Initial(), [Connect, Message(History(Some([Pair("hi", "hello")]))), Type("again"),
                               Message(Chunk("!")), SubmitForm]);
      loaded.Some? && WellFormed(loaded.value) && loaded.value.status == Idle &&
      q.Some? && q.value.chat[1].isLoading && q.value.chat[3].isLoading
  {
    var hist := Message(History(Some([Pair("hi", "hello")])));
    var setup := [Connect, hist, Type("again")];
    var p := Page([Entry("hi", true, false), Entry("hello", false, false)], Idle, true, "again", true, []);
    var p0 := Initial().(socket := true);
    var h := p.(input := "");
    assert Expand([Pair("hi", "hello")]) == p.chat;
    assert Receive(p0, hist.ev) == Some(h);
    assert Run(h, [Type("again")]) == Some(p);
    assert Run(p0, [hist, Type("again")]) == Some(p);
    assert Run(Initial(), setup) == Some(p);
    RunAppend(Initial(), setup, [Message(Chunk("!")), SubmitForm]);
    assert setup + [Message(Chunk("!")), SubmitForm] ==
      [Connect, hist, Type("again"), Message(Chunk("!")), SubmitForm];
    var p1 := Receive(p, Chunk("!")).value;
    assert Run(p, [Message(Chunk("!")), SubmitForm]) == Run(p1, [SubmitForm]);
  }
}
