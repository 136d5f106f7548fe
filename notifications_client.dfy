/** The notifications page (public/js/notifications.js): the icon shown for
    each notification type, where a click on a notification leads, the
    guards in front of the seller's confirm and reject requests, and the
    read state of the listed notifications as `markAsRead` and `markAllRead`
    change it. Dialog answers and request outcomes are parameters. */
module NotificationsClient {
  import opened Common
  import opened Text
  import opened NotificationModel
  import SettlementRoutes

  // ---------------------------------------------------------------- icons

  /** The icons of `getNotificationIcon`, named by what they show. */
  datatype Icon =
    | CreditCard | CheckBox | CrossMark | PartyPopper | Banknote | CheckMark
    | MoneyBag | Gift | Person | Heart | SpeechBubble | Envelope | Bell

  /** The icon table for the thirteen known types. A rejected payment and a
      declined offer share the cross. */
  function IconOf(t: NotificationType): (i: Icon)
    ensures i != Bell
  {
    match t
    case PaymentSubmittedN => CreditCard
    case PaymentConfirmedN => CheckBox
    case PaymentRejectedN => CrossMark
    case PurchaseCompleteN => PartyPopper
    case OfferReceived => Banknote
    case OfferAccepted => CheckMark
    case OfferDeclined => CrossMark
    case PaymentRequested => MoneyBag
    case OwnershipTransferred => Gift
    case Follow => Person
    case Like => Heart
    case Comment => SpeechBubble
    case NewMessage => Envelope
  }

  /** `getNotificationIcon(type)`: the mapped icon, or the bell for a type
      the table does not know. */
  function NotificationIcon(typ: string): (r: Icon)
    ensures r == Bell <==> typ !in TypeNames
    ensures forall t :: TypeName(t) == typ ==> r == IconOf(t)
  {
    match ParseType(typ)
    case Some(t) => IconOf(t)
    case None => Bell
  }

  /** The bell stands for exactly the unknown types. */
  lemma BellIffUnknown(typ: string)
    ensures NotificationIcon(typ) == Bell <==> typ !in TypeNames
  {
  }

  /** Two types share an icon only when they are the same type or are the
      rejected payment and the declined offer. */
  lemma IconsDistinct(a: NotificationType, b: NotificationType)
    ensures IconOf(a) == IconOf(b) <==>
              a == b || (a == PaymentRejectedN && b == OfferDeclined) || (a == OfferDeclined && b == PaymentRejectedN)
  {
  }

  /** Every known type gets its own table entry back by its name. */
  lemma IconOfName(t: NotificationType)
    ensures NotificationIcon(TypeName(t)) == IconOf(t)
  {
    TypeNameRoundTrip(t);
  }

  // ---------------------------------------------------------------- clicks

  /** Where a click leads after the notification is marked read. */
  datatype Navigation = GoTo(url: string) | Reload | Stay

  /** The routing of `handleNotificationClick`; a missing post or chat is
      the empty string. The follow and marketplace branches do nothing, like
      any other type. */
  function ClickTarget(typ: string, postId: string, chatId: string): (n: Navigation)
    ensures n.GoTo? <==> typ == "new_message" && chatId != ""
    ensures n.GoTo? ==> n.url == "/chat?chatId=" + chatId
    ensures n.Reload? <==> (typ == "like" || typ == "comment") && postId != ""
  {
    if typ == "new_message" && chatId != "" then GoTo("/chat?chatId=" + chatId)
    else if (typ == "like" || typ == "comment") && postId != "" then Reload
    else Stay
  }

  /** The chat page reads the chat back from the link: the id follows the
      fixed prefix. */
  lemma ChatLinkCarriesId(chatId: string)
    requires chatId != ""
    ensures var n := ClickTarget("new_message", "", chatId);
            n.GoTo? && StartsWith(n.url, "/chat?chatId=") && n.url[|"/chat?chatId="|..] == chatId
  {
    var n := ClickTarget("new_message", "", chatId);
    assert n.url[..|"/chat?chatId="|] == "/chat?chatId=";
  }

  /** Only messages, likes and comments leave the page: a marketplace or
      follow notification keeps the seller on it. */
  lemma MarketplaceClicksStay(t: NotificationType, postId: string, chatId: string)
    requires t != NewMessage && t != Like && t != Comment
    ensures ClickTarget(TypeName(t), postId, chatId) == Stay
  {
  }

  // ---------------------------------------------------------------- seller actions

  /** A request the seller's buttons send. */
  datatype SettleRequest = ConfirmRequest(tx: Id) | RejectRequest(tx: Id, reason: string)

  /** `confirmPayment`: nothing unless the dialog is confirmed. */
  function ConfirmPayment(tx: Id, confirmed: bool): (r: Option<SettleRequest>)
    ensures r.Some? <==> confirmed
    ensures r.Some? ==> r.value == ConfirmRequest(tx)
  {
    if confirmed then Some(ConfirmRequest(tx)) else None
  }

  /** `rejectPayment` with the prompt's answer (None when it is cancelled):
      an empty or cancelled answer sends nothing, any other answer is sent
      as the reason. */
  function RejectPayment(tx: Id, answer: Option<string>): (r: Option<SettleRequest>)
    ensures r.Some? <==> answer.Some? && answer.value != ""
    ensures r.Some? ==> r.value == RejectRequest(tx, answer.value)
  {
    if answer.None? || answer.value == "" then None else Some(RejectRequest(tx, answer.value))
  }

  /** The page never leaves the reason to the server's default: a reject it
      sends is stored with the seller's own words. */
  lemma RejectReasonKept(tx: Id, answer: Option<string>)
    requires RejectPayment(tx, answer).Some?
    ensures SettlementRoutes.ReasonText(Some(RejectPayment(tx, answer).value.reason)) == answer.value
  {
  }

  /** `loadPendingTransactions`: the section is shown when the server
      answers with at least one transaction and hidden on any other answer;
      a network error (None) leaves it as it was. */
  function PendingSectionShown(answer: Option<Option<nat>>, shown: bool): (r: bool)
    ensures answer.None? ==> r == shown
    ensures answer.Some? ==> (r <==> answer.value.Some? && answer.value.value > 0)
  {
    match answer
    case None => shown
    case Some(count) => count.Some? && count.value > 0
  }

  // ---------------------------------------------------------------- read state

  /** A listed notification. */
  datatype Item = Item(id: Id, read: bool)

  /** The page's alerts. */
  datatype Alert = NoUnreadAlert | AllMarkedAlert | MarkAllFailedAlert

  /** The ids of the unread items, in page order. */
  function UnreadIds(items: seq<Item>): (r: seq<Id>)
    ensures |r| <= |items|
    ensures forall x :: x in r <==> exists k :: 0 <= k < |items| && !items[k].read && items[k].id == x
  {
    if items == [] then []
    else UnreadIds(items[..|items| - 1])
         + (if items[|items| - 1].read then [] else [items[|items| - 1].id])
  }

  /** Every item read, ids and order unchanged. */
  function AllRead(items: seq<Item>): (r: seq<Item>)
    ensures |r| == |items|
    ensures forall k :: 0 <= k < |r| ==> r[k] == Item(items[k].id, true)
  {
    seq(|items|, k requires 0 <= k < |items| => Item(items[k].id, true))
  }

  /** The first item with the id marked read, as `querySelector` finds it;
      the list is unchanged when no item has the id. */
  function MarkFirst(items: seq<Item>, id: Id): (r: seq<Item>)
    ensures |r| == |items|
    ensures forall k :: 0 <= k < |r| ==> r[k].id == items[k].id && (items[k].read ==> r[k].read)
    ensures (forall k :: 0 <= k < |items| ==> items[k].id != id) ==> r == items
  {
    if items == [] then []
    else if items[0].id == id then [items[0].(read := true)] + items[1..]
    else [items[0]] + MarkFirst(items[1..], id)
  }

  /** `markAsRead` marks the item and no other: ids are kept, the item with
      the id (the first one) is read, every other item keeps its flag. */
  lemma {:induction false} MarkFirstSpec(items: seq<Item>, id: Id)
    ensures var r := MarkFirst(items, id);
            forall k :: 0 <= k < |items| ==>
              (r[k].id == items[k].id
               && r[k].read == (items[k].read || (items[k].id == id && forall j :: 0 <= j < k ==> items[j].id != id)))
  {
    if items != [] {
      MarkFirstSpec(items[1..], id);
    }
  }

  /** Marking a notification read twice is marking it once. */
  lemma {:induction false} MarkFirstIdempotent(items: seq<Item>, id: Id)
    ensures MarkFirst(MarkFirst(items, id), id) == MarkFirst(items, id)
  {
    if items != [] && items[0].id != id {
      MarkFirstIdempotent(items[1..], id);
    }
  }

  /** After `markAllRead` went through, nothing is unread. */
  lemma {:induction false} AllReadLeavesNoUnread(items: seq<Item>)
    ensures UnreadIds(AllRead(items)) == []
    decreases |items|
  {
    if items != [] {
      var r := AllRead(items);
      assert r[..|r| - 1] == AllRead(items[..|items| - 1]);
      AllReadLeavesNoUnread(items[..|items| - 1]);
    }
  }

  /** A list with nothing unread is already all read. */
  lemma {:induction false} NoUnreadIsAllRead(items: seq<Item>)
    requires UnreadIds(items) == []
    ensures AllRead(items) == items
    decreases |items|
  {
    if items != [] {
      NoUnreadIsAllRead(items[..|items| - 1]);
      assert AllRead(items)[..|items| - 1] == AllRead(items[..|items| - 1]);
      assert items == items[..|items| - 1] + [items[|items| - 1]];
    }
  }

  /** The text of `markAllRead`'s confirm dialog. */
  function MarkAllQuestion(n: nat): string {
    "Mark " + NatToString(n) + " notifications as read?"
  }

  class NotificationsPage {
    /** The listed notifications. */
    var items: seq<Item>
    /** The ids POSTed to the mark-read endpoint, in order. */
    var requests: seq<Id>
    var alerts: seq<Alert>
    /** The confirm dialogs shown. */
    var dialogs: seq<string>

    constructor (loaded: seq<Item>)
      ensures items == loaded && requests == [] && alerts == [] && dialogs == []
    {
      items := loaded;
      requests := [];
      alerts := [];
      dialogs := [];
    }

    /** `markAsRead(id)`: the request goes out; when the server answers
        with success the item is shown as read. */
    method MarkAsRead(id: Id, ok: bool)
      modifies this
      ensures requests == old(requests) + [id]
      ensures items == if ok then MarkFirst(old(items), id) else old(items)
      ensures alerts == old(alerts) && dialogs == old(dialogs)
    {
      requests := requests + [id];
      if ok {
        items := MarkFirst(items, id);
      }
    }

    /** `handleNotificationClick`: the notification is marked read first,
        then the click is routed. */
    method HandleClick(id: Id, ok: bool, typ: string, postId: string, chatId: string) returns (n: Navigation)
      modifies this
      ensures n == ClickTarget(typ, postId, chatId)
      ensures requests == old(requests) + [id]
      ensures items == if ok then MarkFirst(old(items), id) else old(items)
      ensures alerts == old(alerts) && dialogs == old(dialogs)
    {
      MarkAsRead(id, ok);
      n := ClickTarget(typ, postId, chatId);
    }

    /** `markAllRead` with the confirm dialog's answer and whether every
        request got an answer. No unread item: an alert and nothing else.
        Declined: nothing more. Otherwise one request per unread item, in
        page order; when all got an answer every item is read, and when one
        failed the list stays as it was and the error is alerted. */
    method MarkAllRead(confirmed: bool, delivered: bool)
      modifies this
      ensures UnreadIds(old(items)) == [] ==>
                alerts == old(alerts) + [NoUnreadAlert] && requests == old(requests)
                && items == old(items) && dialogs == old(dialogs)
      ensures UnreadIds(old(items)) != [] ==>
                dialogs == old(dialogs) + [MarkAllQuestion(|UnreadIds(old(items))|)]
      ensures UnreadIds(old(items)) != [] && !confirmed ==>
                alerts == old(alerts) && requests == old(requests) && items == old(items)
      ensures UnreadIds(old(items)) != [] && confirmed ==>
                requests == old(requests) + UnreadIds(old(items))
                && items == (if delivered then AllRead(old(items)) else old(items))
                && alerts == old(alerts) + [if delivered then AllMarkedAlert else MarkAllFailedAlert]
    {
      var unread := UnreadIds(items);
      if |unread| == 0 {
        alerts := alerts + [NoUnreadAlert];
        return;
      }
      dialogs := dialogs + [MarkAllQuestion(|unread|)];
      if !confirmed {
        return;
      }
      SendReads();
      if !delivered {
        alerts := alerts + [MarkAllFailedAlert];
        return;
      }
      ShowAllRead();
      alerts := alerts + [AllMarkedAlert];
    }

    /** One mark-read request per unread item, in page order. */
    method SendReads()
      modifies this
      ensures requests == old(requests) + UnreadIds(old(items))
      ensures items == old(items) && alerts == old(alerts) && dialogs == old(dialogs)
    {
      var i := 0;
      while i < |items|
        invariant 0 <= i <= |items| && items == old(items)
        invariant alerts == old(alerts) && dialogs == old(dialogs)
        invariant requests == old(requests) + UnreadIds(items[..i])
      {
        assert items[..i + 1][..i] == items[..i];
        if !items[i].read {
          requests := requests + [items[i].id];
        }
        i := i + 1;
      }
      assert items[..i] == items;
    }

    /** Every item shown as read. */
    method ShowAllRead()
      modifies this
      ensures items == AllRead(old(items))
      ensures requests == old(requests) && alerts == old(alerts) && dialogs == old(dialogs)
    {
      var i := 0;
      while i < |items|
        invariant 0 <= i <= |items| && |items| == |old(items)|
        invariant requests == old(requests) && alerts == old(alerts) && dialogs == old(dialogs)
        invariant items == AllRead(old(items)[..i]) + old(items)[i..]
      {
        items := items[i := Item(items[i].id, true)];
        i := i + 1;
      }
    }
  }
}
