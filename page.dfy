/** The message page component itself: its state hooks as fields, its socket
    listeners and its submit handler as methods that update them in place. */
module MessagePage {
  import opened Transcript
  import opened Session

  class ChatPage {
    var chat: seq<Entry>
    var chatState: Status
    var chatInit: bool
    var message: string
    /** Whether `ws.current` holds a socket. */
    var socket: bool
    /** Every frame handed to the socket's `send`, oldest first. */
    var sent: seq<Outbound>

    ghost function View(): Page
      reads this
    {
      Page(chat, chatState, chatInit, message, socket, sent)
    }

    /** The initial values of the state hooks: an empty transcript, busy, no
        history yet, an empty input and no socket. */
    constructor ()
      ensures View() == Initial()
      ensures chat == [] && chatState == Busy && !chatInit && message == ""
    {
      chat := [];
      chatState := Busy;
      chatInit := false;
      message := "";
      socket := false;
      sent := [];
    }

    /** The socket is created once the chat id is known and kept in `ws.current`. */
    method Connect()
      modifies this
      ensures View() == old(View()).(socket := true)
    {
      socket := true;
    }

    /** The open listener: acknowledge the connection, then ask for the history. */
    method OnOpen()
      requires socket
      modifies this
      ensures View() == Open(old(View()))
      ensures sent == old(sent) + [Connected, ChatHistory]
    {
      sent := sent + [Connected];
      sent := sent + [ChatHistory];
    }

    /** The message listener.  `ok` is false when the transcript updater it
        queues throws; the page's state is then left as it was. */
    method OnMessage(ev: Inbound) returns (ok: bool)
      requires socket
      modifies this
      ensures ok == Receive(old(View()), ev).Some?
      ensures View() == if ok then Receive(old(View()), ev).value else old(View())
    {
      match ev
      case History(data) =>
        if data.None? {
          return true;
        }
        var newChat := Expand(data.value);
        chat := newChat;
        chatState := Idle;
        chatInit := true;
        ok := true;
      case Chunk(chunk) =>
        var next := AppendChunk(chat, chunk);
        if next.None? {
          return false;
        }
        chat := next.value;
        ok := true;
      case End =>
        var next := Finalize(chat);
        if next.None? {
          return false;
        }
        chat := next.value;
        chatState := Idle;
        ok := true;
      case Other =>
        ok := true;
    }

    /** The input's change listener. */
    method SetMessage(text: string)
      modifies this
      ensures View() == old(View()).(input := text)
    {
      message := text;
    }

    /** `handleClick`, statement by statement. */
    method HandleClick()
      modifies this
      ensures View() == Click(old(View()))
      ensures chat == old(chat) + [Entry(old(message), true, false), Placeholder()]
    {
      chat := chat + [Entry(message, true, false)];
      if socket {
        sent := sent + [Prompt(message)];
      }
      message := "";
      chatState := Busy;
      chat := chat + [Placeholder()];
    }

    /** Whether the send button is enabled. */
    method SubmitEnabled() returns (enabled: bool)
      ensures enabled <==> chatState == Idle
    {
      enabled := chatState != Busy;
    }

    /** The form's submit event: it reaches `handleClick` only while the send
        button is enabled. */
    method OnSubmit() returns (submitted: bool)
      modifies this
      ensures submitted <==> old(chatState) == Idle
      ensures View() == Submit(old(View()))
    {
      submitted := SubmitEnabled();
      if submitted {
        HandleClick();
      }
    }
  }

  /** The scenario of a single exchange, driven through the page object: the
      reply shows the chunks as they arrive and is frozen by the end frame. */
  method HelloScenario() returns (page: ChatPage)
    ensures page.chat == [Entry("Hello", true, false), Entry("Hi there", false, false)]
    ensures page.chatState == Idle
    ensures page.sent == [Connected, ChatHistory, Prompt("Hello")]
  {
    page := new ChatPage();
    page.Connect();
    page.OnOpen();
    var ok := page.OnMessage(History(Some([])));
    page.SetMessage("Hello");
    var submitted := page.OnSubmit();
    assert submitted;
    assert page.chat == [Entry("Hello", true, false), Entry("", false, true)];
    ok := page.OnMessage(Chunk("Hi"));
    assert page.chat[1].text == "Hi";
    ok := page.OnMessage(Chunk(" there"));
    assert page.chat[1].text == "Hi there";
    ok := page.OnMessage(End);
  }
}
