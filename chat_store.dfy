/** The conversation values of the chat client: messages, chats, chat titles
    and the pure updaters the client applies to its chat list. */
module ChatStore {

  import opened Wrappers

  /** Message and chat ids. The client builds them from the clock; here they
      are abstract values supplied by the caller. */
  type Id = nat

  /** Who wrote a message: the `type` field of a client message. */
  datatype Sender = User | Bot

  /** A message of the conversation log; its timestamp is not modelled. */
  datatype Message = Message(id: Id, kind: Sender, content: string)

  /** A conversation listed in the sidebar; its timestamp is not modelled. */
  datatype Chat = Chat(id: Id, title: string, messages: seq<Message>)

  const TitleLimit: nat := 30
  const Ellipsis: string := "..."
  const NewChatTitle: string := "New Chat"

  function Min(a: int, b: int): int
  {
    if a <= b then a else b
  }

  /** JavaScript's `s.slice(0, n)`: the first `n` characters, or all of `s`. */
  function Slice(s: string, n: nat): (p: string)
    ensures |p| == Min(|s|, n)
    ensures p <= s
  {
    if |s| <= n then s else s[..n]
  }

  /** The title of a chat started by a user message: the first 30 characters
      of the text, followed by "..." exactly when the text is longer. */
  function Title(content: string): (t: string)
    ensures Slice(content, TitleLimit) <= t
    ensures |content| <= TitleLimit ==> t == content
    ensures |content| > TitleLimit ==> |t| == TitleLimit + |Ellipsis| && t[TitleLimit..] == Ellipsis
    ensures |t| > TitleLimit <==> |content| > TitleLimit
  {
    Slice(content, TitleLimit) + (if |content| > TitleLimit then Ellipsis else "")
  }

  /** The title of a chat started by a reply: the first 30 characters of the
      last message of `log`, or "New Chat" when the log is empty or that
      prefix is the empty string. */
  function ReplyTitle(log: seq<Message>): (t: string)
    ensures t != []
    ensures log == [] ==> t == NewChatTitle
    ensures t == NewChatTitle || (log != [] && t <= log[|log| - 1].content && |t| <= TitleLimit)
    ensures log != [] && log[|log| - 1].content != "" ==>
      |t| == Min(|log[|log| - 1].content|, TitleLimit) && t <= log[|log| - 1].content
    ensures log != [] && log[|log| - 1].content == "" ==> t == NewChatTitle
  {
    if log == [] then NewChatTitle
    else
      var p := Slice(log[|log| - 1].content, TitleLimit);
      if p == "" then NewChatTitle else p
  }

  /** `chats.map(chat => chat.id === active ? {...chat, messages: [...chat.messages, m]} : chat)`:
      the chat whose id is `active` gains `m` at the end, every other chat is kept. */
  function AppendToActive(chats: seq<Chat>, active: Id, m: Message): (r: seq<Chat>)
    ensures |r| == |chats|
    ensures forall i :: 0 <= i < |chats| ==> r[i].id == chats[i].id && r[i].title == chats[i].title
    ensures forall i :: 0 <= i < |chats| && chats[i].id != active ==> r[i] == chats[i]
    ensures forall i :: 0 <= i < |chats| && chats[i].id == active ==> r[i].messages == chats[i].messages + [m]
  {
    if chats == [] then []
    else
      var c := chats[0];
      [if c.id == active then c.(messages := c.messages + [m]) else c] + AppendToActive(chats[1..], active, m)
  }

  /** The chat-list update made when `m` joins the conversation: with no active
      chat, a new chat (`newId` id, `title`, messages `log + [m]`) goes first
      and becomes active; otherwise `m` is added to the active chat only. The
      result is the new list and the new active id. */
  function RecordMessage(chats: seq<Chat>, active: Option<Id>, log: seq<Message>,
                         newId: Id, title: string, m: Message): (r: (seq<Chat>, Option<Id>))
    ensures active.None? ==> r.1 == Some(newId) && |r.0| == |chats| + 1 && r.0[1..] == chats
    ensures active.None? ==> r.0[0] == Chat(newId, title, log + [m])
    ensures active.Some? ==> r.1 == active && |r.0| == |chats|
    ensures active.Some? ==> forall i :: 0 <= i < |chats| ==>
      r.0[i] == if chats[i].id == active.value then chats[i].(messages := chats[i].messages + [m]) else chats[i]
  {
    if active.None? then ([Chat(newId, title, log + [m])] + chats, Some(newId))
    else (AppendToActive(chats, active.value, m), active)
  }

  /** The number of messages held by all chats together. */
  function MessageTotal(chats: seq<Chat>): nat
  {
    if chats == [] then 0 else |chats[0].messages| + MessageTotal(chats[1..])
  }

  /** The number of chats whose id is `id`. */
  function Occurrences(chats: seq<Chat>, id: Id): nat
  {
    if chats == [] then 0 else (if chats[0].id == id then 1 else 0) + Occurrences(chats[1..], id)
  }

  predicate UniqueIds(chats: seq<Chat>)
  {
    forall i, j :: 0 <= i < j < |chats| ==> chats[i].id != chats[j].id
  }

  /** Appending to the active chat adds one message per chat carrying the
      active id, and no other message. */
  lemma {:induction false} AppendToActiveTotal(chats: seq<Chat>, active: Id, m: Message)
    ensures MessageTotal(AppendToActive(chats, active, m)) == MessageTotal(chats) + Occurrences(chats, active)
  {
    if chats != [] {
      AppendToActiveTotal(chats[1..], active, m);
      assert AppendToActive(chats, active, m)[1..] == AppendToActive(chats[1..], active, m);
    }
  }

  /** With distinct ids, an id occurs once exactly when some chat carries it. */
  lemma {:induction false} OccurrencesUnique(chats: seq<Chat>, id: Id)
    requires UniqueIds(chats)
    ensures Occurrences(chats, id) == if exists i :: 0 <= i < |chats| && chats[i].id == id then 1 else 0
  {
    if chats != [] {
      var tail := chats[1..];
      assert UniqueIds(tail) by {
        forall i, j | 0 <= i < j < |tail| ensures tail[i].id != tail[j].id {
          assert tail[i] == chats[i + 1] && tail[j] == chats[j + 1];
        }
      }
      OccurrencesUnique(tail, id);
      if chats[0].id == id {
        forall i | 0 <= i < |tail| ensures tail[i].id != id {
          assert tail[i] == chats[i + 1];
        }
      } else {
        if exists i :: 0 <= i < |chats| && chats[i].id == id {
          var i :| 0 <= i < |chats| && chats[i].id == id;
          assert tail[i - 1] == chats[i];
        }
        if exists i :: 0 <= i < |tail| && tail[i].id == id {
          var i :| 0 <= i < |tail| && tail[i].id == id;
          assert chats[i + 1] == tail[i];
        }
      }
    }
  }

  /** A message recorded against an existing active chat lands in exactly one
      chat when chat ids are distinct, and in none when no chat has that id. */
  lemma {:induction false} ActiveChatGainsOne(chats: seq<Chat>, active: Id, m: Message)
    requires UniqueIds(chats)
    ensures (exists i :: 0 <= i < |chats| && chats[i].id == active) ==>
      MessageTotal(AppendToActive(chats, active, m)) == MessageTotal(chats) + 1
    ensures (forall i :: 0 <= i < |chats| ==> chats[i].id != active) ==>
      AppendToActive(chats, active, m) == chats
  {
    AppendToActiveTotal(chats, active, m);
    OccurrencesUnique(chats, active);
  }
}
