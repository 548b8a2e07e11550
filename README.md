# Chat client connection controller — a Dafny model

The autobot chat client keeps one WebSocket to its relay server. A React
effect in `autobot/src/App.tsx` opens it and reopens it after failures: a
reconnect counter capped at 5 and one pending reconnect timer of 3000 ms.
The same file's handlers keep the conversation: an append-only message log
with a loading flag, a chat list with an optional active chat, and the send
and select-chat handlers. Each socket callback (`onopen`, `onmessage`,
`onerror`, `onclose`), the timer firing, sending, selecting a chat and the
effect's cleanup is one discrete event. This project models that state
machine and proves its retry policy and its log and chat-list updates.

- `chat_store.dfy` (module `ChatStore`): messages (`User`/`Bot`, abstract
  ids), chats, chat titles and the `chats.map(...)` update that appends to
  the active chat only.
- `connection.dfy` (module `Connection`): the whole controller state as one
  record `Conn`, one function per event, the invariant `Inv` and `Step`.
  The record holds a `mounted` flag, the closure variables
  `reconnectAttempts` and `reconnectTimeout`, the socket's ready state,
  the React state and an outbox of written frames.
- `connection_runs.dfy` (module `ConnectionRuns`): `Run` over event
  sequences and the lemmas about whole runs. These cover a run of failures,
  a full outage, the terminal state, an append-only log and frames written
  only by sends.
- `chat_app.dfy` (module `ChatApp`): class `ChatController`. Its fields are
  the controller's state and its methods are the handlers, written step by
  step in the source's order. Each method is proved to yield
  `Model() == <event function>(old(Model()))` and to keep `Valid()`.

Behaviour of the code that the model keeps as written:

- Every open resets the counter and, while mounted, appends the welcome
  message, including reopens after a reconnect. The welcome text keeps the
  source file's mis-encoded emoji: the four characters U+00F0 U+0178 U+0161
  U+2014 where a car emoji was evidently meant.
- A parsed inbound frame is appended whatever its `type` says
  (`InboundIgnoresType`). A payload that fails to parse changes nothing.
- The `onmessage` handler was created when the effect first ran. It
  therefore sees the first render's `activeChat` (none) and
  `chatState.messages` (empty), not the current ones. So every reply
  prepends a new chat titled "New Chat", holding only the reply, and makes
  it active. `ChatStore.RecordMessage` is the general update of lines
  93–116. `Connection.MessageStep` passes it the captured values
  `MountActive`/`MountLog`.
- The counter counts reconnects. The fifth close below the cap still
  schedules a reconnect, and only the sixth close appends "Unable to
  connect..." and schedules nothing (`FullOutage`). A reader expecting
  the fifth close to be final will find the code allows one more attempt.
- React setters after unmount do nothing, but the closure variables and the
  socket live on. If the socket is open at cleanup, its close event still
  raises the counter and schedules a reconnect (`ReconnectAfterCleanup`).
  That reconnect then creates a new socket which opens after unmount, and
  no handler can close it any more; only the server can
  (`ReopenAfterCleanup`). Cleanup leaves nothing further to happen only when
  a reconnect is pending (`CleanupWhileRetryPending`) or when the socket is
  already closed with nothing pending (`CleanupStep`).
- Because a pending timer implies a closed socket (`Inv`), the
  `clearTimeout` in `onclose` never finds a timer to cancel.

Events are preconditions that follow the WebSocket protocol (`Enabled`).
`onopen` fires only for a connecting socket, messages are delivered only
while it is open (a socket that has started closing drops them), error and
close fire only before the socket is closed,
and the timer fires only while pending.

## Model

| member | source | states |
|---|---|---|
| `ChatStore.Slice` | autobot/src/App.tsx:213 | `s.slice(0, n)` is the prefix of `s` of length min(\|s\|, n) |
| `ChatStore.Title` | autobot/src/App.tsx:213 | a new chat's title starts with the first 30 characters of the text; it is the text itself when that has at most 30 characters, and otherwise 33 characters ending in "..."; it is longer than 30 exactly when the text is |
| `ChatStore.ReplyTitle` | autobot/src/App.tsx:96-98 | a reply chat's title is the first min(30, length) characters of the last message when that message is non-empty, and "New Chat" when the log is empty or its last message is empty |
| `ChatStore.AppendToActive` | autobot/src/App.tsx:220-230 | the chat-list map keeps length, order, ids and titles; the chat carrying the active id gains the message at the end and every other chat is unchanged |
| `ChatStore.RecordMessage` | autobot/src/App.tsx:210-231 | with no active chat, a new chat holding log + [m] is put first and becomes active, the rest of the list unchanged; with an active chat, only that chat gains m and the active id stays |
| `ChatStore.AppendToActiveTotal` | autobot/src/App.tsx:105-115 | appending to the active chat adds one message per chat carrying the active id and no other message |
| `ChatStore.ActiveChatGainsOne` | autobot/src/App.tsx:220-230 | with distinct chat ids the message lands in exactly one chat when the active chat exists, and the list is unchanged when it does not |
| `Connection.Initial` | autobot/src/App.tsx:15-25 | the first-render state (empty log and chats, not connected, not loading, no socket, no active chat, nothing written) satisfies the invariant |
| `Connection.CloseTransport` | autobot/src/App.tsx:264-266 | `ws.close()` moves an open or connecting socket to closing, its close event still to come, and leaves a closing or closed socket as it is |
| `Connection.MountStep` | autobot/src/App.tsx:51-58 | the effect starts with counter 0, no timer and a connecting socket, nothing else changed; keeps the invariant |
| `Connection.OpenStep` | autobot/src/App.tsx:60-76 | every open sets the socket open and the counter to 0 whatever its value, and (while mounted) sets connected and appends exactly one welcome bot message at the end; nothing else changes |
| `Connection.MessageStep` | autobot/src/App.tsx:78-120 | an unparsable payload, or any payload after unmount, changes nothing; a parsed one appends exactly one bot message with its content after all earlier messages, clears loading, prepends a "New Chat" chat holding the reply and makes it active |
| `Connection.ErrorStep` | autobot/src/App.tsx:122-126 | an error only clears the connected flag: counter, timer, socket state and log unchanged; after unmount it changes nothing |
| `Connection.CloseStep` | autobot/src/App.tsx:128-175 | below the cap the counter rises by exactly one and exactly one reconnect is pending after 3000 ms, the reconnecting notice being appended, while mounted, only when the counter becomes 1; at the cap, while mounted, exactly one "unable to connect" notice is appended and loading stops; counter and timer are unchanged; the invariant (counter never above 5) is kept |
| `Connection.TimerStep` | autobot/src/App.tsx:158-160 | the timer firing clears the pending reconnect and creates a new connecting socket, nothing else |
| `Connection.SendStep` | autobot/src/App.tsx:195-270 | on an open socket: the user message is appended, loading starts, exactly one query frame with the content is written (none and a "failed to send" notice if writing throws), a new titled chat is prepended and made active when none is, otherwise only the active chat gains the message; on any other socket: nothing is written, one "trouble connecting" notice is appended, loading stops and the socket is closed |
| `Connection.SelectStep` | autobot/src/App.tsx:272-278 | selecting a chat makes it active, replaces the log with its messages and stops loading |
| `Connection.CleanupStep` | autobot/src/App.tsx:185-192 | cleanup unmounts, cancels the pending reconnect and closes the socket with `ws.close()`, so an open or connecting one is left closing with its close event to come; with the socket already closed nothing can happen any more |
| `Connection.Step` | autobot/src/App.tsx:57-178 | every event keeps the invariant, only selecting a chat rewrites the log, and only a send writes a frame, at most one |
| `Connection.InboundIgnoresType` | autobot/src/App.tsx:80-91 | two parsed payloads with the same content and different `type` have the same effect |
| `ConnectionRuns.RunPreservesInv` | autobot/src/App.tsx:133-134 | every reachable state keeps the invariant: the counter never exceeds 5 and at most one reconnect is pending, only while the socket is closed |
| `ConnectionRuns.LogIsAppendOnly` | autobot/src/App.tsx:72-75 | in any run without a chat selection every earlier message stays in place at the front of the log |
| `ConnectionRuns.OutboxOnlyFromSends` | autobot/src/App.tsx:233-234 | over any run, written frames are never taken back and at most one is written per send |
| `ConnectionRuns.DeadIsFinal` | autobot/src/App.tsx:161-174 | once the socket is closed with no reconnect pending, no event reopens it: the socket stays closed, nothing is scheduled, the counter stays and no frame is written |
| `ConnectionRuns.FailureStep` | autobot/src/App.tsx:128-175 | one error, close or timer event adds at most one bot notice and moves the counter by one on a close below the cap only |
| `ConnectionRuns.FailureRunCounter` | autobot/src/App.tsx:133-160 | over a run of failures the counter equals min(5, start + closes), at most one close happens beyond the cap, and after it the socket is closed with nothing pending |
| `ConnectionRuns.FailureRunLog` | autobot/src/App.tsx:137-173 | over a run of failures the log only gains bot notices after every earlier message; while mounted, the reconnecting notice appears exactly once when the run starts from counter 0 and has a close, and never otherwise, and the "unable to connect" notice appears exactly once when a close goes beyond the cap, and never otherwise |
| `ConnectionRuns.RetryCyclesRun` | autobot/src/App.tsx:152-160 | k close-then-timer cycles below the cap each succeed, raise the counter by k, end with a connecting socket, and, while mounted, add only the first close's reconnecting notice when the counter started at 0 |
| `ConnectionRuns.FullOutage` | autobot/src/App.tsx:128-175 | from a fresh connection, five retries all happen (counter 5, a sixth socket connecting) and the sixth close ends retrying: counter 5, nothing pending, loading stopped, and the log gains exactly the reconnecting and the "unable to connect" notices |
| `ConnectionRuns.ReconnectAfterCleanup` | autobot/src/App.tsx:185-192 | if the socket is open at cleanup, the close that follows still raises the counter and schedules a reconnect while the log stays unchanged |
| `ConnectionRuns.ReopenAfterCleanup` | autobot/src/App.tsx:185-192 | after cleanup of an open socket, its close, the reconnect and the open leave a new open socket with the component unmounted, counter 0 and the log unchanged, and no enabled event except a close from the server moves it out of the open state |
| `ConnectionRuns.CleanupWhileRetryPending` | autobot/src/App.tsx:186-188 | cleanup while a reconnect is pending cancels it, and no event can occur afterwards |
| `ChatApp.ChatController.constructor` | autobot/src/App.tsx:15-25 | the object starts in the first-render state and is valid |
| `ChatApp.ChatController.Mount` | autobot/src/App.tsx:180-182 | the effect's setup yields `MountStep` of the old state and keeps the invariant |
| `ChatApp.ChatController.OnOpen` | autobot/src/App.tsx:60-76 | the open handler yields `OpenStep` of the old state and keeps the invariant |
| `ChatApp.ChatController.OnMessage` | autobot/src/App.tsx:78-120 | the message handler yields `MessageStep` of the old state and keeps the invariant |
| `ChatApp.ChatController.OnError` | autobot/src/App.tsx:122-126 | the error handler yields `ErrorStep` of the old state and keeps the invariant |
| `ChatApp.ChatController.OnClose` | autobot/src/App.tsx:128-175 | the close handler yields `CloseStep` of the old state and keeps the invariant |
| `ChatApp.ChatController.OnReconnectTimer` | autobot/src/App.tsx:158-160 | the timer callback yields `TimerStep` of the old state and keeps the invariant |
| `ChatApp.ChatController.HandleSendMessage` | autobot/src/App.tsx:195-270 | the send handler yields `SendStep` of the old state and keeps the invariant |
| `ChatApp.ChatController.HandleSelectChat` | autobot/src/App.tsx:272-278 | the select handler yields `SelectStep` of the old state and keeps the invariant |
| `ChatApp.ChatController.Cleanup` | autobot/src/App.tsx:185-192 | the cleanup yields `CleanupStep` of the old state and keeps the invariant |

## Left out

- Connection.CleanupStep: closes the current socket, while the source closes the socket the effect created first (lines 181, 189-190). These differ once a reconnect has happened; then the source leaves the current socket open.
- ChatApp.ChatController.Cleanup: closes the current socket, as `Connection.CleanupStep` does, not the socket the effect created first; after a reconnect the source leaves the current socket open.
- The relay server `autobot/server/index.js`: network plumbing around an external generative-text API call.
- The build configuration files, the mouse-move navbar effect (lines 27-49), JSX rendering and routing (lines 280-334): presentation only.
- The real WebSocket object. It becomes a ready state plus an outbox of frames, and its callbacks are events with preconditions that follow its protocol.
- `setTimeout`/`clearTimeout`: a pending delay plus a timer event; no clock is modelled.
- `JSON.parse` becomes an `Option` input: None when parsing throws. A payload whose `content` is missing or not a string is not modelled; content is always a string.
- `JSON.stringify` becomes the frame value itself.
- Whether `ws.send` throws is an input, `writeFails`. On an open socket it does not throw in practice.
- `Date.now()` ids and `new Date()` timestamps: ids are abstract values supplied with each event, and timestamps, including the active chat's refreshed timestamp, are left out.
- `console.log`/`console.error` output.
- `slice(0, 30)` counts UTF-16 code units in the source. The model counts characters (Unicode scalar values), so texts with characters outside the Basic Multilingual Plane are cut differently.
- Sockets other than the most recent one: each is closed before it is replaced, so its callbacks no longer fire. The React `ws` state equals the most recent socket while mounted, and nothing reads it after unmount.
- React render batching: `handleSendMessage` reads `chatState.messages` and `activeChat` from the last render. These are taken to equal the current state; no update is pending between events.
