/** Properties of the chat handlers over the whole list: at most one live
    chat per client e-mail, and what a repeated start returns. */
module ChatApiLemmas {
  import opened Wrappers
  import opened Js
  import opened ChatApi

  /** The list after `POST /api/chat/start`. */
  function AfterStart(chats: seq<Chat>, req: StartRequest, id: string, now: int): seq<Chat> {
    var r := Started(chats, req, id, now);
    if r.Created? then chats + [r.chat] else chats
  }

  /** Starting a chat keeps at most one live chat per e-mail: a new one is
      only created when the client has none. */
  lemma StartKeepsOneLiveChat(chats: seq<Chat>, req: StartRequest, id: string, now: int)
    requires OneLiveChatPerEmail(chats)
    ensures OneLiveChatPerEmail(AfterStart(chats, req, id, now))
  {
  }

  /** A second start by the same client, with any id and time, returns the
      chat the first one created and adds nothing. */
  lemma StartAgainFindsIt(chats: seq<Chat>, req: StartRequest, id: string, now: int,
                          req': StartRequest, id': string, now': int)
    requires Started(chats, req, id, now).Created?
    requires req'.clientEmail == req.clientEmail && TruthyStr(req'.clientName)
    ensures Started(chats + [NewChat(req, id, now)], req', id', now') == Existing(NewChat(req, id, now))
  {
    var c := NewChat(req, id, now);
    var after := chats + [c];
    assert after[|chats|] == c;
    assert forall j :: 0 <= j < |chats| ==> after[j] == chats[j];
  }

  /** Posting a message keeps at most one live chat per e-mail: only an
      'open' chat changes status, and it becomes 'active'. */
  lemma PostKeepsOneLiveChat(chats: seq<Chat>, i: nat, m: Message, now: int)
    requires OneLiveChatPerEmail(chats) && i < |chats|
    ensures OneLiveChatPerEmail(chats[i := WithMessage(chats[i], m, now)])
  {
    var after := chats[i := WithMessage(chats[i], m, now)];
    forall a, b | 0 <= a < b < |after| && IsLive(after[a]) && IsLive(after[b])
      ensures after[a].clientEmail != after[b].clientEmail
    {
      assert IsLive(chats[a]) && IsLive(chats[b]);
    }
  }

  /** Closing a chat keeps at most one live chat per e-mail. */
  lemma CloseKeepsOneLiveChat(chats: seq<Chat>, i: nat, now: int)
    requires OneLiveChatPerEmail(chats) && i < |chats|
    ensures OneLiveChatPerEmail(chats[i := chats[i].(status := "closed", updatedAt := now)])
  {
    var after := chats[i := chats[i].(status := "closed", updatedAt := now)];
    forall a, b | 0 <= a < b < |after| && IsLive(after[a]) && IsLive(after[b])
      ensures after[a].clientEmail != after[b].clientEmail
    {
      assert a != i && b != i;
    }
  }

  /** Assigning a closed chat reopens it as 'active', so a client who has
      since started a new chat is left with two live ones. */
  lemma AssignCanReopenASecondChat()
    ensures var old1 := Chat("c1", "Ann", "ann@example.com", "", None, "closed", 0, 0, [], None);
      var new1 := Chat("c2", "Ann", "ann@example.com", "", None, "open", 1, 1, [], None);
      var chats := [old1, new1];
      && OneLiveChatPerEmail(chats)
      && !OneLiveChatPerEmail(chats[0 := chats[0].(assignedTo := Some("admin"), status := "active", updatedAt := 2)])
  {
    var old1 := Chat("c1", "Ann", "ann@example.com", "", None, "closed", 0, 0, [], None);
    var new1 := Chat("c2", "Ann", "ann@example.com", "", None, "open", 1, 1, [], None);
    var after := [old1, new1][0 := old1.(assignedTo := Some("admin"), status := "active", updatedAt := 2)];
    assert IsLive(after[0]) && IsLive(after[1]) && after[0].clientEmail == after[1].clientEmail;
  }

  /** Marking read twice is the same as once, and the second pass flips
      nothing, so it does not touch `updatedAt`. */
  lemma MarkReadIdempotent(ms: seq<Message>)
    ensures AllSeen(AllSeen(ms)) == AllSeen(ms)
    ensures UnreadCount(AllSeen(ms)) == 0
  {
  }
}
