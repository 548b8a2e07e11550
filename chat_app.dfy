/** The chat component's connection controller as an object: its fields are
    the effect's closure variables, the React state it sets and the frames
    written to the socket, and each method is one event handler, updating
    the fields step by step in the handler's order. Each method is proved to
    produce the state that the matching function of module Connection gives. */
module ChatApp {

  import opened Wrappers
  import opened ChatStore
  import opened Connection

  class ChatController {
    var mounted: bool
    var attempts: nat
    var timer: Option<nat>
    var ws: Transport
    var connected: bool
    var messages: seq<Message>
    var isLoading: bool
    var chats: seq<Chat>
    var active: Option<Id>
    var outbox: seq<Frame>

    /** The controller's state as a value. */
    function Model(): Conn
      reads this
    {
      Conn(mounted, attempts, timer, ws, connected, messages, isLoading, chats, active, outbox)
    }

    ghost predicate Valid()
      reads this
    {
      Inv(Model())
    }

    /** First render: empty log and chat list, no socket yet. */
    constructor ()
      ensures Valid() && Model() == Initial()
    {
      mounted, attempts, timer, ws, connected := true, 0, None, NoSocket, false;
      messages, isLoading, chats, active, outbox := [], false, [], None, [];
    }

    /** The connection effect runs: fresh counter, no timer, first socket. */
    method Mount()
      requires Valid() && mounted && ws.NoSocket?
      modifies this
      ensures Valid() && Model() == MountStep(old(Model()))
    {
      attempts := 0;
      timer := None;
      ws := Socket(Connecting);
    }

    method OnOpen(welcomeId: Id)
      requires Valid() && ws == Socket(Connecting)
      modifies this
      ensures Valid() && Model() == OpenStep(old(Model()), welcomeId)
    {
      ws := Socket(Open);
      if mounted {
        connected := true;
      }
      attempts := 0;
      if mounted {
        messages := messages + [Message(welcomeId, Bot, WelcomeText)];
      }
    }

    /** `parsed` is the result of parsing the payload, None when parsing throws. */
    method OnMessage(msgId: Id, chatId: Id, parsed: Option<Frame>)
      requires Valid() && ws == Socket(Open)
      modifies this
      ensures Valid() && Model() == MessageStep(old(Model()), msgId, chatId, parsed)
    {
      if parsed.Some? && mounted {
        var m := Message(msgId, Bot, parsed.value.content);
        isLoading := false;
        messages := messages + [m];
        var update := RecordMessage(chats, MountActive, MountLog, chatId, ReplyTitle(MountLog), m);
        chats := update.0;
        active := update.1;
      }
    }

    method OnError()
      requires Valid() && Live(ws)
      modifies this
      ensures Valid() && Model() == ErrorStep(old(Model()))
    {
      if mounted {
        connected := false;
      }
    }

    method OnClose(noticeId: Id)
      requires Valid() && Live(ws)
      modifies this
      ensures Valid() && Model() == CloseStep(old(Model()), noticeId)
    {
      ws := Socket(Closed);
      if mounted {
        connected := false;
      }
      if attempts < MaxReconnectAttempts {
        attempts := attempts + 1;
        if attempts == 1 && mounted {
          messages := messages + [Message(noticeId, Bot, ReconnectingText)];
        }
        if timer.Some? {
          timer := None;
        }
        timer := Some(ReconnectIntervalMs);
      } else if mounted {
        isLoading := false;
        messages := messages + [Message(noticeId, Bot, FailedText)];
      }
    }

    /** The pending reconnect fires and `connectWebSocket` creates a new socket. */
    method OnReconnectTimer()
      requires Valid() && timer.Some?
      modifies this
      ensures Valid() && Model() == TimerStep(old(Model()))
    {
      timer := None;
      ws := Socket(Connecting);
    }

    /** `writeFails` says whether writing the frame throws. */
    method HandleSendMessage(msgId: Id, chatId: Id, noticeId: Id, content: string, writeFails: bool)
      requires Valid() && mounted
      modifies this
      ensures Valid() && Model() == SendStep(old(Model()), msgId, chatId, noticeId, content, writeFails)
    {
      if ws == Socket(Open) {
        var m := Message(msgId, User, content);
        var log := messages;
        isLoading := true;
        messages := messages + [m];
        var update := RecordMessage(chats, active, log, chatId, Title(content), m);
        chats := update.0;
        active := update.1;
        if writeFails {
          isLoading := false;
          messages := messages + [Message(noticeId, Bot, SendFailedText)];
        } else {
          outbox := outbox + [Frame(QueryKind, content)];
        }
      } else {
        isLoading := false;
        messages := messages + [Message(noticeId, Bot, NotConnectedText)];
        if ws.Socket? {
          ws := CloseTransport(ws);
        }
      }
    }

    method HandleSelectChat(chat: Chat)
      requires Valid() && mounted
      modifies this
      ensures Valid() && Model() == SelectStep(old(Model()), chat)
    {
      active := Some(chat.id);
      messages := chat.messages;
      isLoading := false;
    }

    /** The effect's cleanup. The source closes the socket the effect created
        first, which differs from the current one after a reconnect; here the
        current socket is closed. */
    method Cleanup()
      requires Valid() && mounted && ws.Socket?
      modifies this
      ensures Valid() && Model() == CleanupStep(old(Model()))
    {
      if timer.Some? {
        timer := None;
      }
      if ws != Socket(Closed) {
        ws := CloseTransport(ws);
      }
      mounted := false;
    }
  }
}
