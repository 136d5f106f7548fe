/** The chat handlers of routes/chat.js over one object holding the chats,
    their messages and the notifications they send. A chat's or a message's
    id is its position in creation order. */
module ChatRoutes {
  import opened Common
  import opened Text
  import opened NotificationModel
  import opened SocialLists
  import opened ChatRules

  /** What `GET /chats` answers: the caller's private chats and the
      community chat. */
  datatype ChatList = ChatList(privateChats: set<nat>, community: nat)

  /** What `GET /chats/:chatId/messages` answers. */
  datatype MessagePage = MessagePage(messages: seq<Message>, hasMore: bool)

  function Abs(n: int): nat {
    if n < 0 then -n else n
  }

  /** The text a community notice carries before the preview. */
  const CommunityTag := "\U{1F4E2} Community: "

  class ChatStore {
    /** The ids `User.findById` finds. */
    var users: set<Id>
    var chats: seq<Chat>
    var messages: seq<Message>
    var notifications: seq<Notification>

    constructor (directory: set<Id>)
      ensures users == directory && chats == [] && messages == [] && notifications == []
    {
      users := directory;
      chats := [];
      messages := [];
      notifications := [];
    }

    /** `GET /chats`: the private chats the caller takes part in, and the
        community chat, created with the caller as its only participant when
        there is none, and joined by the caller otherwise. */
    method OpenChatList(caller: Caller, now: Time) returns (r: Response<ChatList>)
      modifies this
      ensures r.Ok?
      ensures r.value.privateChats == set k | 0 <= k < |old(chats)| && old(chats)[k].kind == Private
                                                && caller.id in old(chats)[k].participants
      ensures FirstCommunity(old(chats)).None? ==>
                r.value.community == |old(chats)|
                && chats == old(chats) + [Chat(Community, [caller.id], None, now, Some(caller.id))]
      ensures FirstCommunity(old(chats)).Some? ==>
                var c := FirstCommunity(old(chats)).value;
                r.value.community == c
                && chats == old(chats)[c := old(chats)[c].(participants := AddIfAbsent(old(chats)[c].participants, caller.id))]
      ensures r.value.community < |chats| && chats[r.value.community].kind == Community
      ensures caller.id in chats[r.value.community].participants
      ensures users == old(users) && messages == old(messages) && notifications == old(notifications)
    {
      var mine := set k | 0 <= k < |chats| && chats[k].kind == Private && caller.id in chats[k].participants;
      var community := FirstCommunity(chats);
      if community.None? {
        chats := chats + [Chat(Community, [caller.id], None, now, Some(caller.id))];
        return Ok(ChatList(mine, |chats| - 1));
      }
      var c := community.value;
      if caller.id !in chats[c].participants {
        chats := chats[c := chats[c].(participants := chats[c].participants + [caller.id])];
      }
      return Ok(ChatList(mine, c));
    }

    /** `GET /chats/:chatId/messages`: 404 for a missing chat, 403 for a
        private chat the caller is not in. The page is read newest first with
        `skip` and `limit` and returned oldest first; a negative `skip` is
        refused by the store (500, nothing written). Then every message of
        the chat that the caller neither sent nor has read gets the caller's
        read receipt, on any page and deleted or not. */
    method ReadMessages(caller: Caller, chatId: Id, pageQ: Option<string>, limitQ: Option<string>, now: Time)
      returns (r: Response<MessagePage>)
      modifies this
      ensures chatId >= |old(chats)| ==> r == Fail(NotFound) && unchanged(this)
      ensures chatId < |old(chats)| && old(chats)[chatId].kind == Private && caller.id !in old(chats)[chatId].participants ==>
                r == Fail(Forbidden) && unchanged(this)
      ensures r.Fail? ==> unchanged(this)
      ensures r.Ok? <==>
                chatId < |old(chats)| && (old(chats)[chatId].kind == Private ==> caller.id in old(chats)[chatId].participants)
                && ReadPaging(pageQ, limitQ).skip >= 0
      ensures r.Ok? ==>
                var p := ReadPaging(pageQ, limitQ);
                var page := PageOf(History(old(messages), chatId), p.skip, Abs(p.limit));
                && r.value == MessagePage(page, |page| == p.limit)
                && messages == MarkAllRead(old(messages), chatId, caller.id, now)
                && chats == old(chats) && users == old(users) && notifications == old(notifications)
    {
      var p := ReadPaging(pageQ, limitQ);
      if chatId >= |chats| {
        return Fail(NotFound);
      }
      var chat := chats[chatId];
      if chat.kind == Private && caller.id !in chat.participants {
        return Fail(Forbidden);
      }
      if p.skip < 0 {
        return Fail(ServerError);               // the store refuses a negative skip
      }
      var page := PageOf(History(messages, chatId), p.skip, Abs(p.limit));
      messages := MarkAllRead(messages, chatId, caller.id, now);
      return Ok(MessagePage(page, |page| == p.limit));
    }

    /** `POST /chats/:chatId/messages`: 400 for a missing or blank content,
        404 for a missing chat; a community chat is joined when the caller is
        not in it yet, a private one answers 403. The trimmed content is
        stored as a message the sender has read, and becomes the chat's last
        message. When live delivery is on, every other participant gets a
        `new_message` notice with the corrected preview `Preview` (the route
        as written uses `PreviewAsWritten`). */
    method SendMessage(caller: Caller, chatId: Id, content: Option<string>, messageType: string,
                       live: bool, now: Time) returns (r: Response<Id>)
      modifies this
      ensures r == Fail(BadRequest) <==> content.None? || Trim(content.value) == ""
      ensures r == Fail(NotFound) <==> !(content.None? || Trim(content.value) == "") && chatId >= |old(chats)|
      ensures r == Fail(Forbidden) <==>
                !(content.None? || Trim(content.value) == "") && chatId < |old(chats)|
                && old(chats)[chatId].kind == Private && caller.id !in old(chats)[chatId].participants
      ensures r.Fail? ==> unchanged(this)
      ensures r.Ok? ==>
                var chat := old(chats)[chatId];
                var joined := if chat.kind == Community then AddIfAbsent(chat.participants, caller.id) else chat.participants;
                var text := if chat.kind == Community then CommunityTag + Preview(content.value) else Preview(content.value);
                && r.value == |old(messages)|
                && messages == old(messages) + [Message(chatId, caller.id, Trim(content.value), messageType,
                                                        [ReadReceipt(caller.id, now)], false, None, None, now)]
                && chats == old(chats)[chatId := chat.(participants := joined, lastMessage := Some(r.value), lastActivity := now)]
                && notifications == old(notifications)
                     + (if live then ChatNotices(RemoveAll(joined, caller.id), caller.id, chatId, text, now) else [])
                && users == old(users)
    {
      if content.None? || Trim(content.value) == "" {
        return Fail(BadRequest);
      }
      if chatId >= |chats| {
        return Fail(NotFound);
      }
      var chat := chats[chatId];
      var joined := chat.participants;
      if chat.kind == Community {
        joined := AddIfAbsent(chat.participants, caller.id);
      } else if caller.id !in chat.participants {
        return Fail(Forbidden);
      }
      var id := |messages|;
      messages := messages + [Message(chatId, caller.id, Trim(content.value), messageType,
                                      [ReadReceipt(caller.id, now)], false, None, None, now)];
      chats := chats[chatId := chat.(participants := joined, lastMessage := Some(id), lastActivity := now)];
      if live {
        var text := if chat.kind == Community then CommunityTag + Preview(content.value) else Preview(content.value);
        Broadcast(RemoveAll(joined, caller.id), caller.id, chatId, text, now);
      }
      return Ok(id);
    }

    /** The notice loop of `POST /chats/:chatId/messages`: one
        `new_message` notice per recipient, in order. */
    method Broadcast(recipients: seq<Id>, sender: Id, chatId: Id, text: string, now: Time)
      requires sender !in recipients
      modifies this
      ensures notifications == old(notifications) + ChatNotices(recipients, sender, chatId, text, now)
      ensures users == old(users) && chats == old(chats) && messages == old(messages)
    {
      var i := 0;
      while i < |recipients|
        invariant 0 <= i <= |recipients|
        invariant notifications == old(notifications) + ChatNotices(recipients[..i], sender, chatId, text, now)
        invariant users == old(users) && chats == old(chats) && messages == old(messages)
      {
        ChatNoticesSnoc(recipients, i, sender, chatId, text, now);
        notifications := ChatNotify(notifications, recipients[i], sender, chatId, text, now);
        i := i + 1;
      }
      assert recipients[..i] == recipients;
    }

    /** `POST /chats/private`: 400 when the other user is the caller, 404
        when no such user exists; the first private chat of exactly these two
        is returned, or a new one is created. Either way a second request
        finds the same chat. */
    method OpenPrivateChat(caller: Caller, userId: Option<Id>, now: Time) returns (r: Response<nat>)
      modifies this
      ensures r == Fail(BadRequest) <==> userId == Some(caller.id)
      ensures r == Fail(NotFound) <==> userId != Some(caller.id) && (userId.None? || userId.value !in old(users))
      ensures r.Fail? ==> unchanged(this)
      ensures r.Ok? ==>
                && (FindPairChat(old(chats), caller.id, userId.value).Some? ==>
                      r.value == FindPairChat(old(chats), caller.id, userId.value).value && chats == old(chats))
                && (FindPairChat(old(chats), caller.id, userId.value).None? ==>
                      r.value == |old(chats)|
                      && chats == old(chats) + [Chat(Private, [caller.id, userId.value], None, now, Some(caller.id))])
                && FindPairChat(chats, caller.id, userId.value) == Some(r.value)
                && FindPairChat(chats, userId.value, caller.id) == Some(r.value)
      ensures users == old(users) && messages == old(messages) && notifications == old(notifications)
    {
      if userId == Some(caller.id) {
        return Fail(BadRequest);
      }
      if userId.None? || userId.value !in users {
        return Fail(NotFound);
      }
      var other := userId.value;
      var found := FindPairChat(chats, caller.id, other);
      if found.None? {
        var made := Chat(Private, [caller.id, other], None, now, Some(caller.id));
        FirstPairChatAppended(chats, made, caller.id, other);
        chats := chats + [made];
        found := Some(|chats| - 1);
      }
      FindPairChatSymmetric(chats, caller.id, other);
      return Ok(found.value);
    }

    /** `DELETE /chats/:chatId/clear`: 404 for a missing chat, 403 for a
        caller outside its participants (private or community); otherwise
        every visible message of the chat is soft-deleted by the caller, the
        chat has no last message any more, and the count of cleared messages
        is answered. */
    method ClearChat(caller: Caller, chatId: Id, now: Time) returns (r: Response<nat>)
      modifies this
      ensures chatId >= |old(chats)| ==> r == Fail(NotFound) && unchanged(this)
      ensures chatId < |old(chats)| && caller.id !in old(chats)[chatId].participants ==>
                r == Fail(Forbidden) && unchanged(this)
      ensures r.Ok? <==> chatId < |old(chats)| && caller.id in old(chats)[chatId].participants
      ensures r.Ok? ==>
                && r.value == |History(old(messages), chatId)|
                && messages == ClearAll(old(messages), chatId, caller.id, now)
                && History(messages, chatId) == []
                && (forall other :: other != chatId ==> History(messages, other) == History(old(messages), other))
                && chats == old(chats)[chatId := old(chats)[chatId].(lastMessage := None, lastActivity := now)]
                && users == old(users) && notifications == old(notifications)
    {
      if chatId >= |chats| {
        return Fail(NotFound);
      }
      var chat := chats[chatId];
      if caller.id !in chat.participants {
        return Fail(Forbidden);
      }
      var count := |History(messages, chatId)|;
      ClearEmptiesHistory(messages, chatId, caller.id, now);
      messages := ClearAll(messages, chatId, caller.id, now);
      chats := chats[chatId := chat.(lastMessage := None, lastActivity := now)];
      return Ok(count);
    }
  }

  /** A pair chat appended where there was none is the one found. */
  lemma {:induction false} FirstPairChatAppended(chats: seq<Chat>, c: Chat, a: Id, b: Id)
    requires FindPairChat(chats, a, b).None? && PairChat(c, a, b)
    ensures FindPairChat(chats + [c], a, b) == Some(|chats|)
  {
    if chats != [] {
      assert (chats + [c])[1..] == chats[1..] + [c];
      FirstPairChatAppended(chats[1..], c, a, b);
    } else {
      assert (chats + [c])[0] == c;
    }
  }
}
