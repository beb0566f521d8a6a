/** The support-chat handlers on the list of chats (`/api/chat/...`):
    starting a chat (reusing a live one for the same e-mail), posting a
    message, marking the client's messages read, assigning and closing.
    Ids and the clock are parameters; the socket notifications are left out. */
module ChatApi {
  import opened Wrappers
  import opened Js

  /** A posted message; `image` is always `null` in the code and is not kept. */
  datatype Message = Message(id: string, text: string, senderType: string, senderName: string,
                             timestamp: int, read: bool)

  datatype Chat = Chat(id: string, clientName: string, clientEmail: string, subject: string,
                       trackingId: Option<string>, status: string, createdAt: int, updatedAt: int,
                       messages: seq<Message>, assignedTo: Option<string>)

  /** The body of `POST /api/chat/start`; absent fields are `None`. */
  datatype StartRequest = StartRequest(clientName: Option<string>, clientEmail: Option<string>,
                                       subject: Option<string>, trackingId: Option<string>)

  /** The body of `POST /api/chat/:chatId/message`. */
  datatype MessageRequest = MessageRequest(text: Option<string>, senderType: Option<string>,
                                           senderName: Option<string>)

  datatype StartOutcome = StartRejected | Existing(chat: Chat) | Created(chat: Chat)

  /** 400, 404, or the message / chat / unread count the handler answers. */
  datatype Reply<T> = BadRequest | ChatNotFound | Done(value: T)

  const DEFAULT_SUBJECT: string := "General Inquiry"

  /** A chat a client can still write in. */
  predicate IsLive(c: Chat) {
    c.status == "open" || c.status == "active"
  }

  /** `chats.find(c => c.clientEmail === email && (open || active))`, as an index. */
  function LiveChatOf(chats: seq<Chat>, email: string): (r: Option<nat>)
    ensures r.Some? ==> r.value < |chats| && chats[r.value].clientEmail == email && IsLive(chats[r.value])
    ensures r.Some? ==> forall j :: 0 <= j < r.value ==> !(chats[j].clientEmail == email && IsLive(chats[j]))
    ensures r.None? ==> forall j :: 0 <= j < |chats| ==> !(chats[j].clientEmail == email && IsLive(chats[j]))
    decreases |chats|
  {
    if chats == [] then None
    else if chats[0].clientEmail == email && IsLive(chats[0]) then Some(0)
    else
      match LiveChatOf(chats[1..], email)
      case None => None
      case Some(k) => Some(k + 1)
  }

  /** `chats.findIndex(c => c.id === chatId)`. */
  function ChatIndex(chats: seq<Chat>, id: string): (r: Option<nat>)
    ensures r.Some? ==> r.value < |chats| && chats[r.value].id == id
    ensures r.Some? ==> forall j :: 0 <= j < r.value ==> chats[j].id != id
    ensures r.None? ==> forall j :: 0 <= j < |chats| ==> chats[j].id != id
    decreases |chats|
  {
    if chats == [] then None
    else if chats[0].id == id then Some(0)
    else
      match ChatIndex(chats[1..], id)
      case None => None
      case Some(k) => Some(k + 1)
  }

  // ------------------------------------------------------------ start

  /** A new chat: open, no messages, not assigned, subject defaulted. */
  function NewChat(req: StartRequest, id: string, now: int): (c: Chat)
    requires TruthyStr(req.clientName) && TruthyStr(req.clientEmail)
    ensures c.id == id && c.clientName == req.clientName.value && c.clientEmail == req.clientEmail.value
    ensures c.status == "open" && c.messages == [] && c.assignedTo.None?
    ensures c.createdAt == now && c.updatedAt == now
    ensures c.subject == (if TruthyStr(req.subject) then req.subject.value else DEFAULT_SUBJECT)
    ensures c.trackingId == (if TruthyStr(req.trackingId) then req.trackingId else None)
  {
    Chat(id, req.clientName.value, req.clientEmail.value, StrOr(req.subject, DEFAULT_SUBJECT),
         if TruthyStr(req.trackingId) then req.trackingId else None,
         "open", now, now, [], None)
  }

  /** What `POST /api/chat/start` answers for the chats as they are. */
  function Started(chats: seq<Chat>, req: StartRequest, id: string, now: int): (r: StartOutcome)
    ensures r.StartRejected? <==> !TruthyStr(req.clientName) || !TruthyStr(req.clientEmail)
    ensures r.Existing? ==> r.chat in chats && r.chat.clientEmail == req.clientEmail.value && IsLive(r.chat)
    ensures r.Existing? ==>
      exists i :: 0 <= i < |chats| && r.chat == chats[i] &&
        forall j :: 0 <= j < i ==> !(chats[j].clientEmail == req.clientEmail.value && IsLive(chats[j]))
    ensures r.Created? ==> forall j :: 0 <= j < |chats| ==> !(chats[j].clientEmail == r.chat.clientEmail && IsLive(chats[j]))
    ensures r.Created? ==> r.chat == NewChat(req, id, now)
  {
    if !TruthyStr(req.clientName) || !TruthyStr(req.clientEmail) then StartRejected
    else
      match LiveChatOf(chats, req.clientEmail.value)
      case Some(i) => Existing(chats[i])
      case None => Created(NewChat(req, id, now))
  }

  // ------------------------------------------------------------ messages

  /** The message stored: sender type defaulted to 'client', sender name to
      'Admin' for an admin and to the chat's client name otherwise. */
  function NewMessage(chat: Chat, req: MessageRequest, id: string, now: int): (m: Message)
    requires TruthyStr(req.text)
    ensures m.id == id && m.text == req.text.value && m.timestamp == now && !m.read
    ensures m.senderType == (if TruthyStr(req.senderType) then req.senderType.value else "client")
    ensures !TruthyStr(req.senderName) ==>
      m.senderName == (if req.senderType == Some("admin") then "Admin" else chat.clientName)
    ensures TruthyStr(req.senderName) ==> m.senderName == req.senderName.value
  {
    Message(id, req.text.value, StrOr(req.senderType, "client"),
            StrOr(req.senderName, if req.senderType == Some("admin") then "Admin" else chat.clientName),
            now, false)
  }

  /** The chat after a message: appended, touched, and 'open' becomes 'active'. */
  function WithMessage(chat: Chat, m: Message, now: int): (c: Chat)
    ensures c.messages == chat.messages + [m] && c.updatedAt == now
    ensures c.status == (if chat.status == "open" then "active" else chat.status)
    ensures c == chat.(messages := c.messages, updatedAt := now, status := c.status)
  {
    chat.(messages := chat.messages + [m], updatedAt := now,
          status := if chat.status == "open" then "active" else chat.status)
  }

  // ------------------------------------------------------------ read receipts

  /** An unread client message becomes read; every other message is kept. */
  function SeenByAdmin(m: Message): (r: Message)
    ensures r == m.(read := r.read)
    ensures r.read == (m.read || m.senderType == "client")
  {
    if m.senderType == "client" && !m.read then m.(read := true) else m
  }

  /** Whether a message still counts as unread for the admin. */
  predicate UnreadFromClient(m: Message) {
    !m.read && m.senderType == "client"
  }

  /** `messages.filter(m => !m.read && m.senderType === 'client').length`. */
  function UnreadCount(ms: seq<Message>): (n: nat)
    ensures n <= |ms|
    ensures n == 0 <==> forall k :: 0 <= k < |ms| ==> !UnreadFromClient(ms[k])
    decreases |ms|
  {
    if ms == [] then 0
    else (if UnreadFromClient(ms[0]) then 1 else 0) + UnreadCount(ms[1..])
  }

  /** The messages after the admin opened the chat. */
  function AllSeen(ms: seq<Message>): (r: seq<Message>)
    ensures |r| == |ms|
    ensures forall k :: 0 <= k < |ms| ==> r[k] == SeenByAdmin(ms[k])
  {
    seq(|ms|, k requires 0 <= k < |ms| => SeenByAdmin(ms[k]))
  }

  // ------------------------------------------------------------ the list

  /** At most one live chat per e-mail address. */
  predicate OneLiveChatPerEmail(chats: seq<Chat>) {
    forall i, j :: 0 <= i < j < |chats| && IsLive(chats[i]) && IsLive(chats[j]) ==>
      chats[i].clientEmail != chats[j].clientEmail
  }

  /** The chat list the handlers read and write back. */
  class ChatStore {
    var chats: seq<Chat>

    constructor (initial: seq<Chat>)
      ensures chats == initial
    {
      chats := initial;
    }

    /** `POST /api/chat/start`: a new chat is appended only when the client
        has no live one. */
    method StartChat(req: StartRequest, id: string, now: int) returns (r: StartOutcome)
      modifies this
      ensures r == Started(old(chats), req, id, now)
      ensures r.Created? ==> chats == old(chats) + [r.chat]
      ensures !r.Created? ==> chats == old(chats)
    {
      r := Started(chats, req, id, now);
      if r.Created? {
        chats := chats + [r.chat];
      }
    }

    /** `POST /api/chat/:chatId/message`. */
    method PostMessage(chatId: string, req: MessageRequest, id: string, now: int) returns (r: Reply<Message>)
      modifies this
      ensures !TruthyStr(req.text) ==> r.BadRequest?
      ensures TruthyStr(req.text) && ChatIndex(old(chats), chatId).None? ==> r.ChatNotFound?
      ensures r.Done? <==> TruthyStr(req.text) && ChatIndex(old(chats), chatId).Some?
      ensures r.Done? ==> var i := ChatIndex(old(chats), chatId).value;
        && r.value == NewMessage(old(chats)[i], req, id, now)
        && chats == old(chats)[i := WithMessage(old(chats)[i], r.value, now)]
      ensures !r.Done? ==> chats == old(chats)
    {
      if !TruthyStr(req.text) {
        return BadRequest;
      }
      var index := ChatIndex(chats, chatId);
      if index.None? {
        return ChatNotFound;
      }
      var i := index.value;
      var m := NewMessage(chats[i], req, id, now);
      chats := chats[i := WithMessage(chats[i], m, now)];
      return Done(m);
    }

    /** `PUT /api/chat/:chatId/read`: flips `read` on every unread client
        message, touches the chat only when one was flipped, and answers the
        remaining unread count. */
    method MarkRead(chatId: string, now: int) returns (r: Reply<nat>)
      modifies this
      ensures ChatIndex(old(chats), chatId).None? <==> r.ChatNotFound?
      ensures ChatIndex(old(chats), chatId).Some? <==> r.Done?
      ensures r.Done? ==> r.value == 0
      ensures r.Done? ==> var i := ChatIndex(old(chats), chatId).value;
        var c := old(chats)[i];
        var touched := UnreadCount(c.messages) > 0;
        chats == old(chats)[i := c.(messages := AllSeen(c.messages),
                                    updatedAt := if touched then now else c.updatedAt)]
      ensures r.ChatNotFound? ==> chats == old(chats)
    {
      var index := ChatIndex(chats, chatId);
      if index.None? {
        return ChatNotFound;
      }
      var i := index.value;
      var all := chats;
      var before := all[i].messages;
      var ms := before;
      var updated := false;
      var k := 0;
      while k < |ms|
        invariant 0 <= k <= |ms| == |before|
        invariant forall j :: 0 <= j < k ==> ms[j] == SeenByAdmin(before[j])
        invariant forall j :: k <= j < |ms| ==> ms[j] == before[j]
        invariant updated <==> UnreadCount(before[..k]) > 0
      {
        UnreadCountSplit(before, k);
        if ms[k].senderType == "client" && !ms[k].read {
          ms := ms[k := ms[k].(read := true)];
          updated := true;
        }
        k := k + 1;
      }
      assert ms == AllSeen(before);
      assert before[..k] == before;
      var c := all[i].(messages := ms);
      if updated {
        c := c.(updatedAt := now);
      }
      chats := all[i := c];
      AllSeenLeavesNoneUnread(ms, before);
      return Done(UnreadCount(ms));
    }

    /** `PUT /api/chat/:chatId/assign`: the chat becomes active, assigned to
        the given admin or, failing that, to the session's user. */
    method Assign(chatId: string, adminId: Option<string>, sessionUser: Option<string>, now: int) returns (r: Reply<Chat>)
      modifies this
      ensures ChatIndex(old(chats), chatId).None? <==> r.ChatNotFound?
      ensures ChatIndex(old(chats), chatId).Some? <==> r.Done?
      ensures r.Done? ==> var i := ChatIndex(old(chats), chatId).value;
        && r.value == old(chats)[i].(assignedTo := if TruthyStr(adminId) then adminId else sessionUser,
                                     status := "active", updatedAt := now)
        && chats == old(chats)[i := r.value]
      ensures r.ChatNotFound? ==> chats == old(chats)
    {
      var index := ChatIndex(chats, chatId);
      if index.None? {
        return ChatNotFound;
      }
      var i := index.value;
      var c := chats[i].(assignedTo := if TruthyStr(adminId) then adminId else sessionUser,
                         status := "active", updatedAt := now);
      chats := chats[i := c];
      return Done(c);
    }

    /** `PUT /api/chat/:chatId/close`. */
    method Close(chatId: string, now: int) returns (r: Reply<Chat>)
      modifies this
      ensures ChatIndex(old(chats), chatId).None? <==> r.ChatNotFound?
      ensures ChatIndex(old(chats), chatId).Some? <==> r.Done?
      ensures r.Done? ==> var i := ChatIndex(old(chats), chatId).value;
        && r.value == old(chats)[i].(status := "closed", updatedAt := now)
        && chats == old(chats)[i := r.value]
      ensures r.ChatNotFound? ==> chats == old(chats)
    {
      var index := ChatIndex(chats, chatId);
      if index.None? {
        return ChatNotFound;
      }
      var i := index.value;
      var c := chats[i].(status := "closed", updatedAt := now);
      chats := chats[i := c];
      return Done(c);
    }
  }

  /** Counting the unread prefix one message further. */
  lemma UnreadCountSplit(ms: seq<Message>, k: nat)
    requires k < |ms|
    ensures UnreadCount(ms[..k + 1]) == UnreadCount(ms[..k]) + (if UnreadFromClient(ms[k]) then 1 else 0)
  {
    UnreadCountAppend(ms[..k], ms[k]);
    assert ms[..k + 1] == ms[..k] + [ms[k]];
  }

  lemma {:induction false} UnreadCountAppend(ms: seq<Message>, m: Message)
    ensures UnreadCount(ms + [m]) == UnreadCount(ms) + (if UnreadFromClient(m) then 1 else 0)
    decreases |ms|
  {
    if ms != [] {
      assert (ms + [m])[1..] == ms[1..] + [m];
      UnreadCountAppend(ms[1..], m);
    }
  }

  /** After the admin opened a chat no client message is unread, and the
      messages are otherwise the same ones, in the same order. */
  lemma AllSeenLeavesNoneUnread(seen: seq<Message>, ms: seq<Message>)
    requires seen == AllSeen(ms)
    ensures UnreadCount(seen) == 0
    ensures |seen| == |ms|
    ensures forall k :: 0 <= k < |ms| ==> seen[k] == ms[k].(read := seen[k].read)
  {
  }
}
