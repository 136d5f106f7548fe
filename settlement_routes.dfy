/** The seller's side of the escrow-style sale (routes/notifications.js): the
    pending-claims projection, confirming a claim (which transfers the
    collection), rejecting it, and marking a notification as read. */
module SettlementRoutes {
  import opened Common
  import opened ListingModel
  import opened TransactionModel
  import opened CollectionModel
  import opened NotificationModel
  import opened MarketDb

  /** `GET /api/pending-transactions`: the claims awaiting the caller's decision. */
  function PendingTransactions(db: Db, caller: Caller): set<Id> {
    set id | id in db.transactions && db.transactions[id].seller == caller.id
                                    && db.transactions[id].status == PaymentSubmitted
  }

  /** `Listing.findByIdAndUpdate(id, { status })`: no validation, and no
      effect when the listing is gone. */
  function SetListingStatus(listings: map<Id, Listing>, id: Id, s: ListingStatus): (m: map<Id, Listing>)
    ensures m.Keys == listings.Keys
    ensures id in listings ==> m[id] == listings[id].(status := s)
    ensures forall other :: other in listings && other != id ==> m[other] == listings[other]
  {
    if id in listings then listings[id := listings[id].(status := s)] else listings
  }

  // ---------------------------------------------------------------- confirm

  /** The caller is the transaction's seller, that seller, its buyer and its
      collection all exist, and it awaits confirmation. */
  predicate ConfirmAccepted(db: Db, caller: Caller, txId: Id) {
    && txId in db.transactions
    && var t := db.transactions[txId];
    && t.seller in db.users && t.seller == caller.id
    && t.status == PaymentSubmitted
    && t.collection in db.collections
    && t.buyer in db.users
  }

  /** The buyer's `purchase_complete` notification. */
  function CompletedNotice(t: Transaction, txId: Id, caller: Caller, brand: string, now: Time): Notification {
    NewNotification(t.buyer, Some(caller.id), PurchaseCompleteN,
                    "Payment confirmed! " + brand + " has been transferred to your collection.",
                    Some(txId), None, None, None, NoData, now)
  }

  /** The transaction as confirm leaves it. */
  function ConfirmedTx(t: Transaction, now: Time): Transaction {
    t.(status := Completed, paymentConfirmedAt := Some(now), completedAt := Some(now))
  }

  /** `POST /api/transactions/:transactionId/confirm`. The transaction is
      read with its collection, buyer and seller populated: a missing one of
      these reads as null, and the first dereference of it throws (500)
      before anything is written. Then: 404 for a missing transaction, 403
      for a caller other than the seller, 400 unless it is
      `payment_submitted`. On success the collection is handed to the buyer
      (the seller's username appended to `previousOwners`, one ledger entry
      with the transaction's amount), the transaction is `completed`, its
      listing is `sold` whatever state it was in, and the buyer is notified. */
  function ConfirmPayment(db: Db, caller: Caller, txId: Id, now: Time): (r: Outcome<()>)
    ensures r.response == Fail(NotFound) <==> txId !in db.transactions
    ensures r.response == Fail(Forbidden) <==>
              txId in db.transactions && db.transactions[txId].seller in db.users
              && db.transactions[txId].seller != caller.id
    ensures r.response == Fail(BadRequest) <==>
              txId in db.transactions && db.transactions[txId].seller in db.users
              && db.transactions[txId].seller == caller.id
              && db.transactions[txId].status != PaymentSubmitted
    ensures r.response.Fail? && r.response.error != ServerError ==> r.db == db
    ensures r.response.Ok? ==>
              && ConfirmAccepted(db, caller, txId)
              && var t := db.transactions[txId];
              && var c := db.collections[t.collection];
              && r.db == db.(collections := db.collections[t.collection :=
                               Transferred(c, db.users[t.seller], t.seller, t.buyer, txId, t.amount, now)],
                             transactions := db.transactions[txId := ConfirmedTx(t, now)],
                             listings := SetListingStatus(db.listings, t.listing, Sold),
                             notifications := db.notifications[db.nextId := CompletedNotice(t, txId, caller, c.brand, now)],
                             nextId := db.nextId + 1)
  {
    if txId !in db.transactions then Outcome(Fail(NotFound), db)
    else
      var t := db.transactions[txId];
      if t.seller !in db.users then Outcome(Fail(ServerError), db)          // populated seller is null
      else if t.seller != caller.id then Outcome(Fail(Forbidden), db)
      else if t.status != PaymentSubmitted then Outcome(Fail(BadRequest), db)
      else if t.collection !in db.collections then Outcome(Fail(ServerError), db)  // populated collection is null
      else if t.buyer !in db.users then Outcome(Fail(ServerError), db)     // populated buyer is null
      else
        var c := db.collections[t.collection];
        var c' := Transferred(c, db.users[t.seller], t.seller, t.buyer, txId, t.amount, now);
        if !ValidCollection(c') then Outcome(Fail(ServerError), db)
        else
          var db1 := db.(collections := db.collections[t.collection := c']);
          var t' := ConfirmedTx(t, now);
          if !ValidTransaction(t') then Outcome(Fail(ServerError), db1)
          else
            var db2 := db1.(transactions := db1.transactions[txId := t'],
                            listings := SetListingStatus(db1.listings, t.listing, Sold));
            Outcome(Ok(()), db2.(notifications := db2.notifications[db2.nextId := CompletedNotice(t, txId, caller, c.brand, now)],
                                 nextId := db2.nextId + 1))
  }

  // ---------------------------------------------------------------- reject

  /** `reason || 'Payment not received'` */
  function ReasonText(reason: Option<string>): (s: string)
    ensures s != ""
    ensures reason.Some? && reason.value != "" ==> s == reason.value
  {
    if reason.None? || reason.value == "" then "Payment not received" else reason.value
  }

  /** The transaction as reject leaves it. */
  function RejectedTx(t: Transaction, reason: Option<string>, now: Time): Transaction {
    t.(status := Rejected, rejectedAt := Some(now), rejectionReason := Some(ReasonText(reason)))
  }

  /** The buyer's `payment_rejected` notification. */
  function RejectedNotice(t: Transaction, txId: Id, caller: Caller, reason: Option<string>, now: Time): Notification {
    NewNotification(t.buyer, Some(caller.id), PaymentRejectedN,
                    "Payment rejected: " + ReasonText(reason) + ". Your purchase was cancelled.",
                    Some(txId), None, None, None, NoData, now)
  }

  /** Reactivating the transaction's listing would give its collection a
      second active listing, which the unique index refuses. */
  predicate ReactivationClashes(db: Db, listingId: Id) {
    listingId in db.listings && ActiveElsewhere(db.listings, db.listings[listingId].collection, Some(listingId))
  }

  /** `POST /api/transactions/:transactionId/reject`: 404 for a missing
      transaction, 403 for a caller other than its seller, and no check of
      its status. The transaction is saved as `rejected` with the reason (or
      the default), then its listing is set back to `active` (refused by the
      unique index when another listing of the collection is active: 500,
      with the rejection already saved), then the buyer is notified (a
      missing buyer throws: 500 after both writes). */
  function RejectPayment(db: Db, caller: Caller, txId: Id, reason: Option<string>, now: Time): (r: Outcome<()>)
    ensures r.response == Fail(NotFound) <==> txId !in db.transactions
    ensures r.response == Fail(Forbidden) <==> txId in db.transactions && db.transactions[txId].seller != caller.id
    ensures r.response.Fail? && r.response.error != ServerError ==> r.db == db
    ensures r.response.Ok? ==>
              && txId in db.transactions && db.transactions[txId].seller == caller.id
              && var t := db.transactions[txId];
              && !ReactivationClashes(db, t.listing) && t.buyer in db.users
              && r.db == db.(transactions := db.transactions[txId := RejectedTx(t, reason, now)],
                             listings := SetListingStatus(db.listings, t.listing, Active),
                             notifications := db.notifications[db.nextId := RejectedNotice(t, txId, caller, reason, now)],
                             nextId := db.nextId + 1)
  {
    if txId !in db.transactions then Outcome(Fail(NotFound), db)
    else
      var t := db.transactions[txId];
      if t.seller != caller.id then Outcome(Fail(Forbidden), db)
      else
        var t' := RejectedTx(t, reason, now);
        if !ValidTransaction(t') then Outcome(Fail(ServerError), db)
        else
          var db1 := db.(transactions := db.transactions[txId := t']);
          if ReactivationClashes(db1, t.listing) then Outcome(Fail(ServerError), db1)   // duplicate key
          else
            var db2 := db1.(listings := SetListingStatus(db1.listings, t.listing, Active));
            if t.buyer !in db.users then Outcome(Fail(ServerError), db2)                 // populated buyer is null
            else
              Outcome(Ok(()), db2.(notifications := db2.notifications[db2.nextId := RejectedNotice(t, txId, caller, reason, now)],
                                   nextId := db2.nextId + 1))
  }

  // ---------------------------------------------------------------- read

  /** `POST /api/notifications/:notificationId/read`: sets `read` on the
      notification whoever it is addressed to; a missing one is not an error. */
  function MarkRead(db: Db, notificationId: Id): (r: Outcome<()>)
    ensures r.response.Ok?
    ensures r.db.notifications.Keys == db.notifications.Keys
    ensures notificationId in db.notifications ==>
              r.db.notifications[notificationId] == db.notifications[notificationId].(read := true)
    ensures forall id :: id in db.notifications && id != notificationId ==>
              r.db.notifications[id] == db.notifications[id]
    ensures r.db == db.(notifications := r.db.notifications)
  {
    if notificationId in db.notifications then
      Outcome(Ok(()), db.(notifications := db.notifications[notificationId := db.notifications[notificationId].(read := true)]))
    else Outcome(Ok(()), db)
  }
}
