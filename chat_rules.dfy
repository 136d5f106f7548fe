/** The pure rules of the chat routes (routes/chat.js): the paging query,
    the page of history it selects, the notification preview, the recipients
    of message notifications, and the two `findOne` lookups, over chats and
    messages kept in creation order. */
module ChatRules {
  import opened Common
  import opened Text
  import opened NotificationModel
  import opened SocialLists

  // ---------------------------------------------------------------- documents

  datatype ChatKind = Private | Community

  /** A `Chat` document: its kind, its participants, the id of its last
      message and its last activity. */
  datatype Chat = Chat(
    kind: ChatKind,
    participants: seq<Id>,
    lastMessage: Option<Id>,
    lastActivity: Time,
    createdBy: Option<Id>)

  datatype ReadReceipt = ReadReceipt(user: Id, readAt: Time)

  /** A `Message` document, soft-deleted by clearing its chat. */
  datatype Message = Message(
    chat: Id,
    sender: Id,
    content: string,
    messageType: string,
    readBy: seq<ReadReceipt>,
    deleted: bool,
    deletedAt: Option<Time>,
    deletedBy: Option<Id>,
    createdAt: Time)

  /** The visible history of a chat: its messages not deleted, oldest first. */
  function History(messages: seq<Message>, chatId: Id): (h: seq<Message>)
    ensures |h| <= |messages|
    ensures forall k :: 0 <= k < |h| ==> h[k].chat == chatId && !h[k].deleted
    ensures forall m :: m in messages && m.chat == chatId && !m.deleted ==> m in h
  {
    if messages == [] then []
    else
      var m := messages[|messages| - 1];
      var rest := History(messages[..|messages| - 1], chatId);
      assert forall x :: x in messages ==> x in messages[..|messages| - 1] || x == m by {
        assert messages == messages[..|messages| - 1] + [m];
      }
      if m.chat == chatId && !m.deleted then rest + [m] else rest
  }

  // ---------------------------------------------------------------- paging

  /** `parseInt(q) || fallback`: NaN (or an absent query) and 0 give the
      fallback; any other number, negative ones included, is kept. */
  function IntOr(q: Option<string>, fallback: int): (n: int)
    ensures n != 0 || fallback == 0
    ensures q.Some? && ParseInt(q.value).Some? && ParseInt(q.value).value != 0 ==> n == ParseInt(q.value).value
  {
    if q.None? then fallback
    else match ParseInt(q.value)
      case None => fallback
      case Some(v) => if v == 0 then fallback else v
  }

  /** `page` (default 1), `limit` (default 50) and `skip = (page - 1) * limit`. */
  datatype Paging = Paging(page: int, limit: int, skip: int)

  function ReadPaging(pageQ: Option<string>, limitQ: Option<string>): (p: Paging)
    ensures pageQ.None? ==> p.page == 1
    ensures limitQ.None? ==> p.limit == 50
    ensures p.limit != 0 && p.page != 0
    ensures p.skip == (p.page - 1) * p.limit
  {
    var page := IntOr(pageQ, 1);
    var limit := IntOr(limitQ, 50);
    Paging(page, limit, (page - 1) * limit)
  }

  /** The first page: no query gives the latest 50 messages. */
  lemma DefaultPaging()
    ensures ReadPaging(None, None) == Paging(1, 50, 0)
  {
  }

  /** `String(k)` as a page number reads back as `k`. */
  lemma PagingOfNumbers(page: nat, limit: nat)
    requires page >= 1 && limit >= 1
    ensures ReadPaging(Some(NatToString(page)), Some(NatToString(limit))) == Paging(page, limit, (page - 1) * limit)
  {
    IntOrOfNumber(page, 1);
    IntOrOfNumber(limit, 50);
  }

  /** Without a radix, `parseInt` reads a `0x` query in base 16. */
  lemma PagingOfHex()
    ensures ReadPaging(Some("0x2"), None) == Paging(2, 50, 50)
  {
    assert "0x2" == "0x" + "2";
    ParseIntOfHex("2");
    assert HexValue("2") == 2 by {
      assert "2"[..0] == [];
    }
  }

  lemma IntOrOfNumber(n: nat, fallback: int)
    requires n >= 1
    ensures IntOr(Some(NatToString(n)), fallback) == n
  {
    ParseIntOfNatToString(n);
  }

  function Reverse(s: seq<Message>): (r: seq<Message>)
    ensures |r| == |s|
    ensures forall k :: 0 <= k < |s| ==> r[k] == s[|s| - 1 - k]
  {
    if s == [] then [] else [s[|s| - 1]] + Reverse(s[..|s| - 1])
  }

  /** `.sort({ createdAt: -1 }).limit(limit).skip(skip)`, then `reverse()`:
      newest first, `skip` dropped, at most `limit` kept, and the page put
      back in chronological order. */
  function PageOf(history: seq<Message>, skip: nat, limit: nat): seq<Message> {
    var newestFirst := Reverse(history);
    var dropped := if skip <= |newestFirst| then newestFirst[skip..] else [];
    var kept := if limit <= |dropped| then dropped[..limit] else dropped;
    Reverse(kept)
  }

  function Min(a: int, b: int): int {
    if a <= b then a else b
  }

  /** A page is the stretch of the history that ends `skip` messages before
      the newest and holds `limit` messages, or fewer when the history runs
      out; so page `p + 1` (skip `p * limit + limit`) ends where page `p`
      begins, and the pages tile the history backwards without gaps. */
  lemma PageIsSlice(history: seq<Message>, skip: nat, limit: nat)
    requires skip <= |history|
    ensures var n := Min(limit, |history| - skip);
            PageOf(history, skip, limit) == history[|history| - skip - n .. |history| - skip]
  {
    var n := Min(limit, |history| - skip);
    var r := PageOf(history, skip, limit);
    var lo := |history| - skip - n;
    assert |r| == n;
    forall k | 0 <= k < n ensures r[k] == history[lo + k] {
      var newestFirst := Reverse(history);
      var kept := newestFirst[skip..][..n];
      assert r[k] == kept[n - 1 - k];
      assert kept[n - 1 - k] == newestFirst[skip + n - 1 - k];
    }
  }

  /** `hasMore: messages.length === limit`: the page is full exactly when at
      least `limit` messages precede the skipped ones, and a page that is not
      full reaches back to the first message. */
  lemma HasMoreMeansFull(history: seq<Message>, skip: nat, limit: nat)
    requires skip <= |history|
    ensures |PageOf(history, skip, limit)| == limit <==> |history| - skip >= limit
    ensures |PageOf(history, skip, limit)| < limit ==>
              PageOf(history, skip, limit) == history[..|history| - skip]
  {
    PageIsSlice(history, skip, limit);
  }

  // ---------------------------------------------------------------- preview

  /** The preview as written: the trimmed content cut to 50 code units,
      and '...' when the content as sent, spaces included, is longer than 50. */
  function PreviewAsWritten(content: string): (p: string)
    ensures Prefix(Trim(content), 50) <= p
    ensures Utf16Length(content) > 50 <==> |p| == |Prefix(Trim(content), 50)| + 3
    ensures Utf16Length(content) <= 50 ==> p == Trim(content)
  {
    TrimShortens(content);
    Prefix(Trim(content), 50) + (if Utf16Length(content) > 50 then "..." else "")
  }

  /** Trailing spaces count towards the 50: a short message padded with
      spaces gets an ellipsis although nothing was cut from it. */
  lemma PreviewAsWrittenMarksUncutText()
    ensures var content := "hi" + seq(49, k => ' ');
            Trim(content) == "hi" && PreviewAsWritten(content) == "hi..."
  {
    var content := "hi" + seq(49, k => ' ');
    assert content[0] == 'h' && content[1] == 'i';
    assert TrimStart(content) == content;
    TrimEndAt(content, 1);
    assert content[..2] == "hi";
    assert Bmp(content);
    BmpLength(content);
    assert Bmp("hi");
    BmpLength("hi");
  }

  /** The preview: the trimmed content when it fits in 50 code units;
      otherwise the longest part of it that fits, which is 49 or 50 units
      long and stops short of the whole, and '...'. */
  function Preview(content: string): (p: string)
    ensures Utf16Length(Trim(content)) <= 50 ==> p == Trim(content)
    ensures Utf16Length(Trim(content)) > 50 ==>
              |p| >= 3 && p[|p| - 3..] == "..."
              && p[..|p| - 3] < Trim(content)
              && 49 <= Utf16Length(p[..|p| - 3]) <= 50
  {
    var text := Trim(content);
    var cut := Prefix(text, 50);
    var p := cut + (if Utf16Length(text) > 50 then "..." else "");
    assert Utf16Length(text) > 50 ==> p[..|p| - 3] == cut;
    p
  }

  /** On the Basic Multilingual Plane the cut is the first 50 characters. */
  lemma PreviewOfBmp(content: string)
    requires Bmp(Trim(content)) && |Trim(content)| > 50
    ensures Preview(content) == Trim(content)[..50] + "..."
  {
    BmpLength(Trim(content));
    BmpPrefix(Trim(content), 50);
  }

  /** Outside the Basic Multilingual Plane characters count twice, and the
      cut keeps the first 25 of them. */
  lemma PreviewOfAstral(content: string)
    requires Astral(Trim(content)) && |Trim(content)| > 25
    ensures Preview(content) == Trim(content)[..25] + "..."
  {
    AstralLength(Trim(content));
    AstralPrefix(Trim(content), 25);
  }

  /** A message of 30 emoji is 60 code units long, and its preview keeps 25
      of them. */
  lemma PreviewOfEmoji()
    ensures var content := seq(30, k => '\U{1F600}');
            Preview(content) == seq(25, k => '\U{1F600}') + "..."
  {
    var content := seq(30, k => '\U{1F600}');
    assert Trim(content) == content by {
      assert !IsSpace(content[0]) && !IsSpace(content[29]);
    }
    assert Astral(content);
    PreviewOfAstral(content);
    assert content[..25] == seq(25, k => '\U{1F600}');
  }

  /** The two agree whenever the content has no surrounding spaces. */
  lemma PreviewAgreesOnTrimmed(content: string)
    requires Trim(content) == content
    ensures Preview(content) == PreviewAsWritten(content)
  {
  }

  // ---------------------------------------------------------------- recipients

  /** The notification `createChatNotification` saves. */
  function ChatNotice(recipient: Id, sender: Id, chatId: Id, preview: string, now: Time): Notification {
    NewNotification(recipient, Some(sender), NewMessage, "sent you a message", None, None, None, Some(chatId),
                    NotificationData(None, None, None, None, None, Some(preview)), now)
  }

  /** `createChatNotification`: nothing for oneself, one notice otherwise. */
  function ChatNotify(notes: seq<Notification>, recipient: Id, sender: Id, chatId: Id, preview: string,
                      now: Time): (r: seq<Notification>)
    ensures recipient == sender ==> r == notes
    ensures recipient != sender ==>
              && |r| == |notes| + 1 && r[..|notes|] == notes
              && var n := r[|notes|];
              && n.recipient == recipient && n.sender == Some(sender) && n.kind == NewMessage
              && n.relatedChat == Some(chatId) && n.data.chatPreview == Some(preview)
              && !n.read && ValidNotification(n)
  {
    if recipient == sender then notes
    else
      var r := notes + [ChatNotice(recipient, sender, chatId, preview, now)];
      assert r[..|notes|] == notes;
      r
  }

  /** One notice per recipient, in order. */
  function ChatNotices(recipients: seq<Id>, sender: Id, chatId: Id, preview: string, now: Time): (r: seq<Notification>)
    ensures |r| == |recipients|
    ensures forall k :: 0 <= k < |r| ==> r[k] == ChatNotice(recipients[k], sender, chatId, preview, now)
  {
    seq(|recipients|, k requires 0 <= k < |recipients| => ChatNotice(recipients[k], sender, chatId, preview, now))
  }

  /** The other participants get one unread `new_message` notice each (as
      many as their entries in the list), and the sender none. */
  lemma NoticesSpareTheSender(participants: seq<Id>, sender: Id, chatId: Id, preview: string, now: Time)
    ensures var notes := ChatNotices(RemoveAll(participants, sender), sender, chatId, preview, now);
            && (forall k :: 0 <= k < |notes| ==> notes[k].recipient != sender && notes[k].kind == NewMessage && !notes[k].read)
            && |notes| == |participants| - multiset(participants)[sender]
  {
  }

  // ---------------------------------------------------------------- lookups

  /** `Chat.findOne({ type: 'community' })`: the first community chat. */
  function FirstCommunity(chats: seq<Chat>): (r: Option<nat>)
    ensures r.Some? ==> r.value < |chats| && chats[r.value].kind == Community
                        && forall k :: 0 <= k < r.value ==> chats[k].kind != Community
    ensures r.None? ==> forall k :: 0 <= k < |chats| ==> chats[k].kind != Community
  {
    if chats == [] then None
    else if chats[0].kind == Community then Some(0)
    else match FirstCommunity(chats[1..])
      case None => None
      case Some(i) => Some(i + 1)
  }

  /** The private chat of exactly the two users:
      `{ type: 'private', participants: { $all: [a, b], $size: 2 } }`. */
  predicate PairChat(c: Chat, a: Id, b: Id) {
    c.kind == Private && |c.participants| == 2 && a in c.participants && b in c.participants
  }

  /** `Chat.findOne(...)` for that query: the first such chat. */
  function FindPairChat(chats: seq<Chat>, a: Id, b: Id): (r: Option<nat>)
    ensures r.Some? ==> r.value < |chats| && PairChat(chats[r.value], a, b)
                        && forall k :: 0 <= k < r.value ==> !PairChat(chats[k], a, b)
    ensures r.None? ==> forall k :: 0 <= k < |chats| ==> !PairChat(chats[k], a, b)
  {
    if chats == [] then None
    else if PairChat(chats[0], a, b) then Some(0)
    else match FindPairChat(chats[1..], a, b)
      case None => None
      case Some(i) => Some(i + 1)
  }

  /** The lookup does not depend on which of the two asks. */
  lemma {:induction false} FindPairChatSymmetric(chats: seq<Chat>, a: Id, b: Id)
    ensures FindPairChat(chats, a, b) == FindPairChat(chats, b, a)
  {
    if chats != [] {
      FindPairChatSymmetric(chats[1..], a, b);
    }
  }

  // ---------------------------------------------------------------- bulk updates

  /** One message under the read receipt `updateMany`: a message of the chat
      that the reader neither sent nor has read gets the reader's receipt. */
  function ReadStep(m: Message, chatId: Id, reader: Id, now: Time): Message {
    if m.chat == chatId && m.sender != reader && forall k :: 0 <= k < |m.readBy| ==> m.readBy[k].user != reader
    then m.(readBy := m.readBy + [ReadReceipt(reader, now)])
    else m
  }

  /** One message under the clear `updateMany`: a visible message of the
      chat is soft-deleted by the caller. */
  function ClearStep(m: Message, chatId: Id, clearer: Id, now: Time): Message {
    if m.chat == chatId && !m.deleted then m.(deleted := true, deletedAt := Some(now), deletedBy := Some(clearer)) else m
  }

  /** The read receipt `updateMany` over all stored messages. */
  function MarkAllRead(messages: seq<Message>, chatId: Id, reader: Id, now: Time): (r: seq<Message>)
    ensures |r| == |messages|
    ensures forall k :: 0 <= k < |r| ==> r[k] == ReadStep(messages[k], chatId, reader, now)
  {
    seq(|messages|, k requires 0 <= k < |messages| => ReadStep(messages[k], chatId, reader, now))
  }

  /** The soft-delete `updateMany` over all stored messages. */
  function ClearAll(messages: seq<Message>, chatId: Id, clearer: Id, now: Time): (r: seq<Message>)
    ensures |r| == |messages|
    ensures forall k :: 0 <= k < |r| ==> r[k] == ClearStep(messages[k], chatId, clearer, now)
  {
    seq(|messages|, k requires 0 <= k < |messages| => ClearStep(messages[k], chatId, clearer, now))
  }

  /** Clearing empties the chat's history and keeps every other chat's
      history as it was. */
  lemma {:induction false} ClearEmptiesHistory(messages: seq<Message>, chatId: Id, clearer: Id, now: Time)
    ensures History(ClearAll(messages, chatId, clearer, now), chatId) == []
    ensures forall other :: other != chatId ==>
              History(ClearAll(messages, chatId, clearer, now), other) == History(messages, other)
  {
    if messages != [] {
      var n := |messages| - 1;
      ClearEmptiesHistory(messages[..n], chatId, clearer, now);
      assert ClearAll(messages, chatId, clearer, now)[..n] == ClearAll(messages[..n], chatId, clearer, now);
    }
  }

  /** Marking as read never changes how many messages any chat shows, nor
      what they say. */
  lemma {:induction false} ReadKeepsHistory(messages: seq<Message>, chatId: Id, reader: Id, now: Time, c: Id)
    ensures var h := History(MarkAllRead(messages, chatId, reader, now), c);
            |h| == |History(messages, c)|
            && forall k :: 0 <= k < |h| ==>
                 h[k].content == History(messages, c)[k].content && h[k].sender == History(messages, c)[k].sender
  {
    if messages != [] {
      var n := |messages| - 1;
      ReadKeepsHistory(messages[..n], chatId, reader, now, c);
      assert MarkAllRead(messages, chatId, reader, now)[..n] == MarkAllRead(messages[..n], chatId, reader, now);
    }
  }

  // ---------------------------------------------------------------- participants

  /** The community join: `if (!isUserInChat) participants.push(user)`. */
  function AddIfAbsent(s: seq<Id>, x: Id): (r: seq<Id>)
    ensures x in r
    ensures x in s ==> r == s
    ensures x !in s ==> r == s + [x]
  {
    if x in s then s else s + [x]
  }

  /** Joining never duplicates a participant. */
  lemma AddIfAbsentKeepsDistinct(s: seq<Id>, x: Id)
    requires Distinct(s)
    ensures Distinct(AddIfAbsent(s, x))
    ensures multiset(AddIfAbsent(s, x))[x] == 1
  {
    if x !in s {
      assert multiset(s + [x]) == multiset(s) + multiset{x};
    }
  }

  /** The notices for one more recipient. */
  lemma ChatNoticesSnoc(recipients: seq<Id>, i: nat, sender: Id, chatId: Id, preview: string, now: Time)
    requires i < |recipients|
    ensures ChatNotices(recipients[..i + 1], sender, chatId, preview, now)
              == ChatNotices(recipients[..i], sender, chatId, preview, now)
                 + [ChatNotice(recipients[i], sender, chatId, preview, now)]
  {
  }
}
