/** The `Notification` schema (models/Notification.js): a message to one user
    about a marketplace or social event, with optional references and an
    unread flag. */
module NotificationModel {
  import opened Common

  /** The thirteen kinds the schema's `type` enum accepts. */
  datatype NotificationType =
    | PaymentSubmittedN | PaymentConfirmedN | PaymentRejectedN | PurchaseCompleteN
    | OfferReceived | OfferAccepted | OfferDeclined | PaymentRequested | OwnershipTransferred
    | Follow | Like | Comment | NewMessage

  function TypeName(t: NotificationType): string {
    match t
    case PaymentSubmittedN => "payment_submitted"
    case PaymentConfirmedN => "payment_confirmed"
    case PaymentRejectedN => "payment_rejected"
    case PurchaseCompleteN => "purchase_complete"
    case OfferReceived => "offer_received"
    case OfferAccepted => "offer_accepted"
    case OfferDeclined => "offer_declined"
    case PaymentRequested => "payment_requested"
    case OwnershipTransferred => "ownership_transferred"
    case Follow => "follow"
    case Like => "like"
    case Comment => "comment"
    case NewMessage => "new_message"
  }

  /** The names the enum accepts. */
  const TypeNames: set<string> := {
    "payment_submitted", "payment_confirmed", "payment_rejected", "purchase_complete",
    "offer_received", "offer_accepted", "offer_declined", "payment_requested",
    "ownership_transferred", "follow", "like", "comment", "new_message"}

  /** The enum check on `type`: a name outside the enum is refused on save. */
  function ParseType(s: string): (r: Option<NotificationType>)
    ensures r.Some? <==> s in TypeNames
    ensures r.Some? ==> TypeName(r.value) == s
  {
    if s == "payment_submitted" then Some(PaymentSubmittedN)
    else if s == "payment_confirmed" then Some(PaymentConfirmedN)
    else if s == "payment_rejected" then Some(PaymentRejectedN)
    else if s == "purchase_complete" then Some(PurchaseCompleteN)
    else if s == "offer_received" then Some(OfferReceived)
    else if s == "offer_accepted" then Some(OfferAccepted)
    else if s == "offer_declined" then Some(OfferDeclined)
    else if s == "payment_requested" then Some(PaymentRequested)
    else if s == "ownership_transferred" then Some(OwnershipTransferred)
    else if s == "follow" then Some(Follow)
    else if s == "like" then Some(Like)
    else if s == "comment" then Some(Comment)
    else if s == "new_message" then Some(NewMessage)
    else None
  }

  /** Names and kinds correspond one to one. */
  lemma TypeNameRoundTrip(t: NotificationType)
    ensures TypeName(t) in TypeNames && ParseType(TypeName(t)) == Some(t)
  {
  }

  /** The optional `data` sub-document. */
  datatype NotificationData = NotificationData(
    amount: Option<int>,
    reason: Option<string>,
    paymentMethod: Option<string>,
    postImage: Option<string>,
    commentText: Option<string>,
    chatPreview: Option<string>)

  const NoData := NotificationData(None, None, None, None, None, None)

  datatype Notification = Notification(
    recipient: Id,
    sender: Option<Id>,
    kind: NotificationType,
    message: string,
    relatedTransaction: Option<Id>,
    relatedListing: Option<Id>,
    relatedPost: Option<Id>,
    relatedChat: Option<Id>,
    data: NotificationData,
    read: bool,
    createdAt: Time)

  /** A new notification as the schema builds it: unread. */
  function NewNotification(recipient: Id, sender: Option<Id>, kind: NotificationType, message: string,
                           relatedTransaction: Option<Id>, relatedListing: Option<Id>,
                           relatedPost: Option<Id>, relatedChat: Option<Id>,
                           data: NotificationData, now: Time): Notification
  {
    Notification(recipient, sender, kind, message, relatedTransaction, relatedListing,
                 relatedPost, relatedChat, data, false, now)
  }

  /** The schema's required `message`: a non-empty string. */
  predicate ValidNotification(n: Notification) {
    n.message != ""
  }

  /** A new notification is unread, and valid exactly when it has a message. */
  lemma NewNotificationDefaults(recipient: Id, sender: Option<Id>, kind: NotificationType, message: string,
                                rt: Option<Id>, rl: Option<Id>, rp: Option<Id>, rc: Option<Id>,
                                data: NotificationData, now: Time)
    ensures var n := NewNotification(recipient, sender, kind, message, rt, rl, rp, rc, data, now);
            !n.read && n.recipient == recipient && (ValidNotification(n) <==> message != "")
  {
  }
}
