/** The two purchase paths of `POST /api/purchase/:listingId`
    (routes/marketplace.js): the escrow-style payment claim, and the direct
    all-or-nothing transfer selected when the store supports multi-document
    transactions. */
module PurchaseRoutes {
  import opened Common
  import opened ListingModel
  import opened TransactionModel
  import opened CollectionModel
  import opened NotificationModel
  import opened MarketDb

  /** The checks both paths make before writing anything, in the order they
      make them: the listing must exist and be `active` (404), the caller
      must not be its seller (400), its collection must exist (404) and that
      collection's owner must be a known user (404). */
  function PurchaseGuard(db: Db, caller: Caller, listingId: Id): (e: Option<HttpError>)
    ensures e == Some(NotFound) <==>
              || listingId !in db.listings || db.listings[listingId].status != Active
              || (db.listings[listingId].seller != caller.id
                  && (db.listings[listingId].collection !in db.collections
                      || db.collections[db.listings[listingId].collection].user !in db.users))
    ensures e == Some(BadRequest) <==>
              listingId in db.listings && db.listings[listingId].status == Active
              && db.listings[listingId].seller == caller.id
    ensures e.None? ==> listingId in db.listings && db.listings[listingId].collection in db.collections
  {
    if listingId !in db.listings || db.listings[listingId].status != Active then Some(NotFound)
    else
      var l := db.listings[listingId];
      if l.seller == caller.id then Some(BadRequest)
      else if l.collection !in db.collections then Some(NotFound)
      else if db.collections[l.collection].user !in db.users then Some(NotFound)
      else None
  }

  // ---------------------------------------------------------------- escrow

  /** `req.body.paymentMethod` when it is an object; a missing field is "". */
  datatype PaymentClaim = PaymentClaim(kind: string, details: string)

  /** `!paymentMethod || !paymentMethod.type || !paymentMethod.details` */
  predicate ClaimIncomplete(pm: Option<PaymentClaim>) {
    pm.None? || pm.value.kind == "" || pm.value.details == ""
  }

  /** The transaction the escrow path records: `payment_submitted`, for the
      listing's price, between the caller and the listing's seller. */
  function SubmittedTransaction(listingId: Id, l: Listing, buyer: Id, pm: PaymentClaim,
                                proof: Option<PaymentProof>, now: Time): Transaction
  {
    var t := NewTransaction(listingId, l.collection, buyer, l.seller, l.price,
                            Some(TxPaymentMethod(pm.kind, pm.details)),
                            if proof.None? then NoProof else proof.value, now);
    t.(status := PaymentSubmitted, paymentSubmittedAt := Some(now))
  }

  /** The text of the seller's `payment_submitted` notification. */
  function SubmittedMessage(buyerName: string, brand: string): string {
    buyerName + " has submitted payment for " + brand + ". Please confirm receipt."
  }

  /** The notification the seller receives about a claim. */
  function SubmittedNotice(l: Listing, listingId: Id, caller: Caller, brand: string, txId: Id, now: Time): Notification {
    NewNotification(l.seller, Some(caller.id), PaymentSubmittedN, SubmittedMessage(caller.username, brand),
                    Some(txId), Some(listingId), None, None, NoData, now)
  }

  /** `purchaseWithoutTransaction`: after the common guards and the payment
      method check (400), a `payment_submitted` transaction is saved, the
      listing becomes `pending`, and the seller is notified. The method the
      buyer names is not compared with the methods the listing accepts. */
  function SubmitPayment(db: Db, caller: Caller, listingId: Id, pm: Option<PaymentClaim>,
                         proof: Option<PaymentProof>, now: Time): (r: Outcome<Receipt>)
    ensures PurchaseGuard(db, caller, listingId).Some? ==>
              r.response == Fail(PurchaseGuard(db, caller, listingId).value) && r.db == db
    ensures PurchaseGuard(db, caller, listingId).None? && ClaimIncomplete(pm) ==>
              r.response == Fail(BadRequest) && r.db == db
    ensures r.response.Ok? ==>
              && PurchaseGuard(db, caller, listingId).None? && !ClaimIncomplete(pm)
              && var l := db.listings[listingId];
              && var c := db.collections[l.collection];
              && r.response.value == Receipt(db.nextId, l.price, db.users[c.user], c.brand)
              && r.db == db.(transactions := db.transactions[db.nextId :=
                                SubmittedTransaction(listingId, l, caller.id, pm.value, proof, now)],
                             listings := db.listings[listingId := l.(status := Pending)],
                             notifications := db.notifications[db.nextId + 1 :=
                                SubmittedNotice(l, listingId, caller, c.brand, db.nextId, now)],
                             nextId := db.nextId + 2)
  {
    var guard := PurchaseGuard(db, caller, listingId);
    if guard.Some? then Outcome(Fail(guard.value), db)
    else if ClaimIncomplete(pm) then Outcome(Fail(BadRequest), db)
    else
      var l := db.listings[listingId];
      var c := db.collections[l.collection];
      var txId := db.nextId;
      var db1 := db.(transactions := db.transactions[txId := SubmittedTransaction(listingId, l, caller.id, pm.value, proof, now)],
                     nextId := db.nextId + 1);
      var pending := l.(status := Pending);
      if !ValidListing(pending) then Outcome(Fail(ServerError), db1)
      else
        var db2 := db1.(listings := db1.listings[listingId := pending]);
        var noteId := db2.nextId;
        Outcome(Ok(Receipt(txId, l.price, db.users[c.user], c.brand)),
                db2.(notifications := db2.notifications[noteId := SubmittedNotice(l, listingId, caller, c.brand, txId, now)],
                     nextId := db2.nextId + 1))
  }

  // ---------------------------------------------------------------- direct

  /** The transaction the direct path builds: `completed` at once, with no
      payment method. */
  function DirectTransaction(listingId: Id, l: Listing, buyer: Id, now: Time): Transaction {
    NewTransaction(listingId, l.collection, buyer, l.seller, l.price, None, NoProof, now)
      .(status := Completed, completedAt := Some(now))
  }

  /** The writes of the direct path once its transaction is accepted: the
      transaction, the collection handed to the buyer (the current owner's
      username recorded as previous owner, the listing's seller as the
      ledger's `from`), and the listing marked `sold`. A failing save aborts
      the whole unit, leaving the store as it was. */
  function DirectTransfer(db: Db, caller: Caller, listingId: Id, now: Time): (r: Outcome<Receipt>)
    requires PurchaseGuard(db, caller, listingId).None?
  {
    var l := db.listings[listingId];
    var c := db.collections[l.collection];
    var txId := db.nextId;
    var owner := db.users[c.user];
    var c' := Transferred(c, owner, l.seller, caller.id, txId, l.price, now);
    var sold := l.(status := Sold);
    if !ValidCollection(c') || !ValidListing(sold) then Outcome(Fail(ServerError), db)
    else
      Outcome(Ok(Receipt(txId, l.price, owner, c.brand)),
              db.(transactions := db.transactions[txId := DirectTransaction(listingId, l, caller.id, now)],
                  collections := db.collections[l.collection := c'],
                  listings := db.listings[listingId := sold],
                  nextId := db.nextId + 1))
  }

  /** Whether `save` accepts the direct path's transaction: under the schema
      as written, or under the store's validation. */
  predicate SaveAccepts(t: Transaction, asWritten: bool) {
    if asWritten then ValidAsWritten(t) else ValidTransaction(t)
  }

  /** `purchaseWithTransaction`: the guards, the transaction's save, then one
      atomic transfer; any failure aborts the session. */
  function DirectPurchase(db: Db, caller: Caller, listingId: Id, now: Time, asWritten: bool): Outcome<Receipt> {
    var guard := PurchaseGuard(db, caller, listingId);
    if guard.Some? then Outcome(Fail(guard.value), db)
    else
      var l := db.listings[listingId];
      if !SaveAccepts(DirectTransaction(listingId, l, caller.id, now), asWritten) then Outcome(Fail(ServerError), db)
      else DirectTransfer(db, caller, listingId, now)
  }

  /** `purchaseWithTransaction` as written: the transaction it builds never
      sets `paymentMethod`, so saving it fails the schema's required nested
      fields and the session is aborted, whatever the store holds. */
  function PurchaseWithTransactionAsWritten(db: Db, caller: Caller, listingId: Id, now: Time): (r: Outcome<Receipt>)
    ensures r.db == db && r.response.Fail?
    ensures PurchaseGuard(db, caller, listingId).Some? ==> r.response == Fail(PurchaseGuard(db, caller, listingId).value)
    ensures PurchaseGuard(db, caller, listingId).None? ==> r.response == Fail(ServerError)
  {
    DirectPurchase(db, caller, listingId, now, true)
  }

  /** `purchaseWithTransaction` with `paymentMethod` treated as optional: the
      guards, then one atomic transfer. On success the buyer owns the
      collection, each history has grown by one entry recording the listing's
      price, the listing is `sold` and the new transaction is `completed`;
      on any failure nothing changes. */
  function PurchaseWithTransaction(db: Db, caller: Caller, listingId: Id, now: Time): (r: Outcome<Receipt>)
    ensures r.response.Fail? ==> r.db == db
    ensures PurchaseGuard(db, caller, listingId).Some? ==> r.response == Fail(PurchaseGuard(db, caller, listingId).value)
    ensures r.response.Ok? ==>
              && PurchaseGuard(db, caller, listingId).None?
              && var l := db.listings[listingId];
              && var c := db.collections[l.collection];
              && r.response.value == Receipt(db.nextId, l.price, db.users[c.user], c.brand)
              && r.db.transactions == db.transactions[db.nextId := DirectTransaction(listingId, l, caller.id, now)]
              && r.db.transactions[db.nextId].status == Completed
              && r.db.collections == db.collections[l.collection :=
                   Transferred(c, db.users[c.user], l.seller, caller.id, db.nextId, l.price, now)]
              && r.db.collections[l.collection].user == caller.id
              && r.db.collections[l.collection].transferHistory
                   == c.transferHistory + [TransferRecord(l.seller, caller.id, db.nextId, l.price, now)]
              && |r.db.collections[l.collection].previousOwners| == |c.previousOwners| + 1
              && r.db.listings == db.listings[listingId := l.(status := Sold)]
              && r.db.notifications == db.notifications && r.db.users == db.users
              && r.db.nextId == db.nextId + 1
  {
    DirectPurchase(db, caller, listingId, now, false)
  }

  /** Where the two definitions part: once the guards pass, the corrected
      direct purchase succeeds on every well-formed store while the one as
      written answers 500. */
  lemma DirectPurchaseDiffers(db: Db, caller: Caller, listingId: Id, now: Time)
    requires Wf(db) && PurchaseGuard(db, caller, listingId).None?
    ensures PurchaseWithTransaction(db, caller, listingId, now).response.Ok?
    ensures PurchaseWithTransactionAsWritten(db, caller, listingId, now).response == Fail(ServerError)
  {
    var l := db.listings[listingId];
    var c := db.collections[l.collection];
    TransferredEffects(c, db.users[c.user], l.seller, caller.id, db.nextId, l.price, now);
  }
}
