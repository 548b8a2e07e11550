/** The chat client's connection controller as a state machine over one
    record. Each function below is one event of the client's connection
    effect or one of its handlers (socket open, message, error and close,
    the reconnect timer, sending, selecting a chat, the effect's cleanup)
    and gives the state after that event. */
module Connection {

  import opened Wrappers
  import opened ChatStore

  const MaxReconnectAttempts: nat := 5
  const ReconnectIntervalMs: nat := 3000

  /** The welcome text as the source file spells it: its emoji was saved
      mis-encoded, as the four characters U+00F0 U+0178 U+0161 U+2014. */
  const WelcomeText: string :=
    "Hi there! \U{F0}\U{178}\U{161}\U{2014} Just tell me the name of any vehicle and I'll give you all the juicy details."
  const ReconnectingText: string := "Connection lost. Attempting to reconnect..."
  const FailedText: string :=
    "Unable to connect to the server after multiple attempts. Please refresh the page or try again later."
  const SendFailedText: string := "Failed to send message. Please try again."
  const NotConnectedText: string :=
    "Sorry, I'm having trouble connecting to the server. Attempting to reconnect..."
  const QueryKind: string := "query"

  /** The `readyState` of a WebSocket. */
  datatype ReadyState = Connecting | Open | Closing | Closed

  /** The socket the client holds, if it has created one yet. */
  datatype Transport = NoSocket | Socket(state: ReadyState)

  /** A JSON envelope `{type, content}` as written to or parsed from the socket. */
  datatype Frame = Frame(kind: string, content: string)

  /** The controller's state.
      - mounted: the chat component is mounted, so React state setters take effect;
      - attempts, timer: the effect's closure variables `reconnectAttempts` and
        `reconnectTimeout` (the timer is the delay of the one pending reconnect);
      - ws: the socket most recently created by `connectWebSocket`, the only one
        whose callbacks can still fire;
      - connected, messages, isLoading, chats, active: the React state
        `wsConnected`, `chatState`, `chats` and `activeChat`;
      - outbox: the frames written to the socket, oldest first. */
  datatype Conn = Conn(
    mounted: bool,
    attempts: nat,
    timer: Option<nat>,
    ws: Transport,
    connected: bool,
    messages: seq<Message>,
    isLoading: bool,
    chats: seq<Chat>,
    active: Option<Id>,
    outbox: seq<Frame>)

  /** The events that change the controller's state, one at a time. */
  datatype Event =
    | EffectMount
    | SocketOpen(welcomeId: Id)
    | SocketMessage(msgId: Id, chatId: Id, parsed: Option<Frame>)
    | SocketError
    | SocketClose(noticeId: Id)
    | ReconnectTimer
    | SendMessage(msgId: Id, chatId: Id, noticeId: Id, content: string, writeFails: bool)
    | SelectChat(chat: Chat)
    | EffectCleanup

  /** A socket that has not yet delivered its close event. */
  predicate Live(t: Transport)
  {
    t.Socket? && t.state != Closed
  }

  /** The state's invariant: the attempt counter never passes the cap; a
      pending reconnect always has the fixed delay, follows at least one
      failure and exists only while the socket is closed; while the effect
      has not run yet the counter is 0 and no reconnect is pending; every
      frame written is a query. */
  predicate Inv(s: Conn)
  {
    && s.attempts <= MaxReconnectAttempts
    && (s.timer.Some? ==> s.timer == Some(ReconnectIntervalMs) && s.ws == Socket(Closed) && s.attempts >= 1)
    && (s.ws.NoSocket? ==> s.mounted && s.attempts == 0 && s.timer.None?)
    && (forall i :: 0 <= i < |s.outbox| ==> s.outbox[i].kind == QueryKind)
  }

  /** No reconnect is pending and the socket will deliver no further event. */
  predicate Dead(s: Conn)
  {
    s.ws == Socket(Closed) && s.timer.None?
  }

  /** The state on first render, before the connection effect has run. */
  function Initial(): (s: Conn)
    ensures Inv(s) && s.mounted && s.ws == NoSocket
    ensures s.messages == [] && s.chats == [] && s.active == None && s.outbox == []
    ensures !s.connected && !s.isLoading
  {
    Conn(true, 0, None, NoSocket, false, [], false, [], None, [])
  }

  /** `socket.close()`: a connecting or open socket starts closing; a closing
      or closed one is left as it is. */
  function CloseTransport(t: Transport): (r: Transport)
    ensures r.NoSocket? <==> t.NoSocket?
    ensures r != Socket(Open) && r != Socket(Connecting)
    ensures (t == Socket(Closing) || t == Socket(Closed)) ==> r == t
    ensures (t == Socket(Open) || t == Socket(Connecting)) ==> r == Socket(Closing)
  {
    match t
    case Socket(Connecting) => Socket(Closing)
    case Socket(Open) => Socket(Closing)
    case _ => t
  }

  /** The effect runs: the counter and the timer start afresh and the first
      socket is created. */
  function MountStep(s: Conn): (r: Conn)
    requires s.mounted && s.ws.NoSocket?
    ensures Inv(s) ==> Inv(r)
    ensures r.ws == Socket(Connecting) && r.attempts == 0 && r.timer.None?
    ensures r.(ws := s.ws, attempts := s.attempts, timer := s.timer) == s
  {
    s.(ws := Socket(Connecting), attempts := 0, timer := None)
  }

  /** `socket.onopen`: on every open, first or after a reconnect, the socket
      is connected, the counter goes back to 0 and one welcome message is
      appended. */
  function OpenStep(s: Conn, welcomeId: Id): (r: Conn)
    requires s.ws == Socket(Connecting)
    ensures Inv(s) ==> Inv(r)
    ensures r.attempts == 0 && r.ws == Socket(Open)
    ensures s.mounted ==> r.connected && r.messages == s.messages + [Message(welcomeId, Bot, WelcomeText)]
    ensures !s.mounted ==> r.connected == s.connected && r.messages == s.messages
    ensures r.(attempts := s.attempts, ws := s.ws, connected := s.connected, messages := s.messages) == s
  {
    var s1 := s.(ws := Socket(Open), attempts := 0);
    if s.mounted then
      s1.(connected := true, messages := s.messages + [Message(welcomeId, Bot, WelcomeText)])
    else s1
  }

  /** The handler's closure was created when the effect first ran, so the
      active chat and the log that `onmessage` consults are those of the
      first render: no active chat, an empty log. */
  const MountActive: Option<Id> := None
  const MountLog: seq<Message> := []

  /** `socket.onmessage`: a payload that does not parse changes nothing; one
      that parses appends one bot message with its `content`, whatever its
      `type`, and clears the loading flag. The chat list is updated from the
      active chat and log the handler captured (see MountActive), so each
      reply starts a new chat titled "New Chat" holding the reply alone. */
  function MessageStep(s: Conn, msgId: Id, chatId: Id, parsed: Option<Frame>): (r: Conn)
    requires s.ws == Socket(Open)
    ensures Inv(s) ==> Inv(r)
    ensures parsed.None? || !s.mounted ==> r == s
    ensures parsed.Some? && s.mounted ==>
      && r.messages == s.messages + [Message(msgId, Bot, parsed.value.content)]
      && !r.isLoading
      && r.chats == [Chat(chatId, NewChatTitle, [Message(msgId, Bot, parsed.value.content)])] + s.chats
      && r.active == Some(chatId)
    ensures r.(messages := s.messages, isLoading := s.isLoading, chats := s.chats, active := s.active) == s
  {
    match parsed
    case None => s
    case Some(frame) =>
      if !s.mounted then s
      else
        var m := Message(msgId, Bot, frame.content);
        var (chats, active) := RecordMessage(s.chats, MountActive, MountLog, chatId, ReplyTitle(MountLog), m);
        assert MountLog + [m] == [m];
        assert chats == [chats[0]] + chats[1..];
        s.(isLoading := false, messages := s.messages + [m], chats := chats, active := active)
  }

  /** `socket.onerror`: only the connected flag drops; retrying is left to
      the close event. */
  function ErrorStep(s: Conn): (r: Conn)
    requires Live(s.ws)
    ensures Inv(s) ==> Inv(r)
    ensures s.mounted ==> !r.connected
    ensures !s.mounted ==> r == s
    ensures r.(connected := s.connected) == s
  {
    if s.mounted then s.(connected := false) else s
  }

  /** `socket.onclose`. Below the cap the counter goes up by one, the
      "reconnecting" notice is appended only when it becomes 1, and exactly
      one reconnect is pending afterwards. At the cap one "unable to connect"
      notice is appended, loading stops and nothing is scheduled. */
  function CloseStep(s: Conn, noticeId: Id): (r: Conn)
    requires Live(s.ws)
    ensures Inv(s) ==> Inv(r)
    ensures r.ws == Socket(Closed)
    ensures s.mounted ==> !r.connected
    ensures !s.mounted ==> r.connected == s.connected
    ensures s.attempts < MaxReconnectAttempts ==>
      && r.attempts == s.attempts + 1
      && r.timer == Some(ReconnectIntervalMs)
      && r.isLoading == s.isLoading
      && r.messages == s.messages + (if s.mounted && r.attempts == 1 then [Message(noticeId, Bot, ReconnectingText)] else [])
    ensures s.attempts >= MaxReconnectAttempts ==>
      && r.attempts == s.attempts
      && r.timer == s.timer
      && (s.mounted ==> !r.isLoading && r.messages == s.messages + [Message(noticeId, Bot, FailedText)])
      && (!s.mounted ==> r.isLoading == s.isLoading && r.messages == s.messages)
    ensures r.(ws := s.ws, connected := s.connected, attempts := s.attempts, timer := s.timer,
               messages := s.messages, isLoading := s.isLoading) == s
  {
    var s1 := s.(ws := Socket(Closed), connected := if s.mounted then false else s.connected);
    if s.attempts < MaxReconnectAttempts then
      var attempts := s.attempts + 1;
      var s2 := if s.mounted && attempts == 1
                then s1.(messages := s.messages + [Message(noticeId, Bot, ReconnectingText)])
                else s1;
      s2.(attempts := attempts, timer := Some(ReconnectIntervalMs))
    else if s.mounted then
      s1.(isLoading := false, messages := s.messages + [Message(noticeId, Bot, FailedText)])
    else s1
  }

  /** The reconnect timer fires: it is no longer pending and a new socket is
      created. */
  function TimerStep(s: Conn): (r: Conn)
    requires s.timer.Some?
    ensures Inv(s) ==> Inv(r)
    ensures r.timer.None? && r.ws == Socket(Connecting)
    ensures r.(timer := s.timer, ws := s.ws) == s
  {
    s.(timer := None, ws := Socket(Connecting))
  }

  /** `handleSendMessage`. On an open socket: the user message is appended,
      loading starts, the chat list records it (see RecordMessage) and one
      query frame is written; if writing throws, no frame is written and a
      "failed to send" notice follows. On any other socket: nothing is
      written, one "trouble connecting" notice is appended, loading stops and
      the socket, if there is one, is closed. */
  function SendStep(s: Conn, msgId: Id, chatId: Id, noticeId: Id, content: string, writeFails: bool): (r: Conn)
    requires s.mounted
    ensures Inv(s) ==> Inv(r)
    ensures r.(messages := s.messages, isLoading := s.isLoading, chats := s.chats, active := s.active,
               outbox := s.outbox, ws := s.ws) == s
    ensures s.ws == Socket(Open) ==> r.ws == s.ws
    ensures s.ws == Socket(Open) && !writeFails ==>
      && r.messages == s.messages + [Message(msgId, User, content)]
      && r.isLoading
      && r.outbox == s.outbox + [Frame(QueryKind, content)]
    ensures s.ws == Socket(Open) && writeFails ==>
      && r.messages == s.messages + [Message(msgId, User, content), Message(noticeId, Bot, SendFailedText)]
      && !r.isLoading
      && r.outbox == s.outbox
    ensures s.ws == Socket(Open) && s.active.None? ==>
      && r.active == Some(chatId)
      && r.chats == [Chat(chatId, Title(content), s.messages + [Message(msgId, User, content)])] + s.chats
    ensures s.ws == Socket(Open) && s.active.Some? ==>
      r.active == s.active && r.chats == AppendToActive(s.chats, s.active.value, Message(msgId, User, content))
    ensures s.ws != Socket(Open) ==>
      && r.outbox == s.outbox
      && r.messages == s.messages + [Message(noticeId, Bot, NotConnectedText)]
      && !r.isLoading
      && r.ws == CloseTransport(s.ws)
      && r.chats == s.chats && r.active == s.active
  {
    if s.ws == Socket(Open) then
      var m := Message(msgId, User, content);
      var (chats, active) := RecordMessage(s.chats, s.active, s.messages, chatId, Title(content), m);
      var s1 := s.(isLoading := true, messages := s.messages + [m], chats := chats, active := active);
      if writeFails then
        s1.(isLoading := false, messages := s1.messages + [Message(noticeId, Bot, SendFailedText)])
      else
        s1.(outbox := s.outbox + [Frame(QueryKind, content)])
    else
      s.(isLoading := false, messages := s.messages + [Message(noticeId, Bot, NotConnectedText)],
         ws := CloseTransport(s.ws))
  }

  /** `handleSelectChat`: the chosen chat becomes active, its messages
      replace the log and loading stops. */
  function SelectStep(s: Conn, chat: Chat): (r: Conn)
    requires s.mounted
    ensures Inv(s) ==> Inv(r)
    ensures r.active == Some(chat.id) && r.messages == chat.messages && !r.isLoading
    ensures r.(active := s.active, messages := s.messages, isLoading := s.isLoading) == s
  {
    s.(active := Some(chat.id), messages := chat.messages, isLoading := false)
  }

  /** The effect's cleanup on unmount: the pending reconnect is cancelled and
      the socket is closed unless already closed. The source closes the socket
      the effect created first, which is the current one only until the first
      reconnect; here the current socket is closed. */
  function CleanupStep(s: Conn): (r: Conn)
    requires s.mounted && s.ws.Socket?
    ensures Inv(s) ==> Inv(r)
    ensures !r.mounted && r.timer.None?
    ensures r.ws == CloseTransport(s.ws)
    ensures r.ws != Socket(Open) && r.ws != Socket(Connecting)
    ensures s.ws == Socket(Closed) ==> Dead(r)
    ensures r.(mounted := s.mounted, timer := s.timer, ws := s.ws) == s
  {
    s.(mounted := false, timer := None, ws := CloseTransport(s.ws))
  }

  /** Whether an event can occur in a state: socket callbacks only for the
      socket's current ready state, the timer only while pending, the
      handlers only while the component is mounted, and the effect's setup
      and cleanup once each. */
  predicate Enabled(s: Conn, e: Event)
  {
    match e
    case EffectMount => s.mounted && s.ws.NoSocket?
    case SocketOpen(_) => s.ws == Socket(Connecting)
    case SocketMessage(_, _, _) => s.ws == Socket(Open)
    case SocketError => Live(s.ws)
    case SocketClose(_) => Live(s.ws)
    case ReconnectTimer => s.timer.Some?
    case SendMessage(_, _, _, _, _) => s.mounted
    case SelectChat(_) => s.mounted
    case EffectCleanup => s.mounted && s.ws.Socket?
  }

  /** The state after one event. Only selecting a chat rewrites the log, and
      only sending writes a frame, one at most. */
  function Step(s: Conn, e: Event): (r: Conn)
    requires Enabled(s, e)
    ensures Inv(s) ==> Inv(r)
    ensures !e.SelectChat? ==> s.messages <= r.messages
    ensures s.outbox <= r.outbox && |r.outbox| <= |s.outbox| + (if e.SendMessage? then 1 else 0)
  {
    match e
    case EffectMount => MountStep(s)
    case SocketOpen(id) => OpenStep(s, id)
    case SocketMessage(msgId, chatId, parsed) => MessageStep(s, msgId, chatId, parsed)
    case SocketError => ErrorStep(s)
    case SocketClose(id) => CloseStep(s, id)
    case ReconnectTimer => TimerStep(s)
    case SendMessage(msgId, chatId, noticeId, content, writeFails) =>
      SendStep(s, msgId, chatId, noticeId, content, writeFails)
    case SelectChat(chat) => SelectStep(s, chat)
    case EffectCleanup => CleanupStep(s)
  }

  /** The `type` of a parsed payload plays no part: two payloads with the
      same content have the same effect. */
  lemma InboundIgnoresType(s: Conn, msgId: Id, chatId: Id, k1: string, k2: string, content: string)
    requires s.ws == Socket(Open)
    ensures MessageStep(s, msgId, chatId, Some(Frame(k1, content)))
         == MessageStep(s, msgId, chatId, Some(Frame(k2, content)))
  {
  }
}
