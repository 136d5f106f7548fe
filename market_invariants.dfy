/** What every marketplace handler preserves: the store invariant `Wf` (fresh
    identifiers, one active listing per collection, schema-valid documents)
    and the append-only histories of every collection. On a well-formed store
    the save-time failures are unreachable, so every failing handler except
    reject leaves the store exactly as it was. */
module MarketInvariants {
  import opened Common
  import opened ListingModel
  import opened TransactionModel
  import opened CollectionModel
  import opened NotificationModel
  import opened MarketDb
  import opened ListingRoutes
  import opened PurchaseRoutes
  import opened SettlementRoutes

  /** Replacing one collection by a valid one keeps the documents valid. */
  lemma CollectionWriteKeepsValid(db: Db, id: Id, c: Collection)
    requires DocsValid(db) && ValidCollection(c)
    ensures DocsValid(db.(collections := db.collections[id := c]))
  {
  }

  /** Changing only a listing's status keeps the index when the new status
      is not active. */
  lemma {:induction false} DeactivateKeepsIndex(listings: map<Id, Listing>, id: Id, s: ListingStatus)
    requires ActiveUnique(listings) && s != Active
    ensures ActiveUnique(SetListingStatus(listings, id, s))
  {
    if id in listings {
      WriteKeepsActiveUnique(listings, id, listings[id].(status := s));
    }
  }

  // ---------------------------------------------------------------- writes

  /** The writes of a successful create keep the invariant: a new valid
      listing the index accepts, and a valid collection. */
  lemma ListingWritesKeepWf(db: Db, l: Listing, cid: Id, c: Collection)
    requires Wf(db) && ValidListing(l) && ValidCollection(c)
    requires l.status == Active ==> !ActiveElsewhere(db.listings, l.collection, Some(db.nextId))
    ensures Wf(db.(listings := db.listings[db.nextId := l],
                   collections := db.collections[cid := c],
                   nextId := db.nextId + 1))
  {
    WriteKeepsActiveUnique(db.listings, db.nextId, l);
  }

  /** The writes of an accepted claim keep the invariant: a new valid
      transaction, the listing set to `pending`, and a new valid notification. */
  lemma ClaimWritesKeepWf(db: Db, listingId: Id, t: Transaction, note: Notification)
    requires Wf(db) && listingId in db.listings && ValidTransaction(t) && ValidNotification(note)
    ensures Wf(db.(transactions := db.transactions[db.nextId := t],
                   listings := db.listings[listingId := db.listings[listingId].(status := Pending)],
                   notifications := db.notifications[db.nextId + 1 := note],
                   nextId := db.nextId + 2))
  {
    var l := db.listings[listingId];
    WriteKeepsActiveUnique(db.listings, listingId, l.(status := Pending));
  }

  /** The writes of the atomic transfer keep the invariant: a new valid
      transaction, a valid collection, and the listing set to `sold`. */
  lemma TransferWritesKeepWf(db: Db, listingId: Id, t: Transaction, cid: Id, c: Collection)
    requires Wf(db) && listingId in db.listings && ValidTransaction(t) && ValidCollection(c)
    ensures Wf(db.(transactions := db.transactions[db.nextId := t],
                   collections := db.collections[cid := c],
                   listings := db.listings[listingId := db.listings[listingId].(status := Sold)],
                   nextId := db.nextId + 1))
  {
    var l := db.listings[listingId];
    WriteKeepsActiveUnique(db.listings, listingId, l.(status := Sold));
  }

  /** The writes of a confirmation keep the invariant: a valid collection, a
      stored transaction replaced by a valid one, the listing set to `sold`,
      and a new valid notification. */
  lemma ConfirmWritesKeepWf(db: Db, cid: Id, c: Collection, txId: Id, t: Transaction,
                            listingId: Id, note: Notification)
    requires Wf(db) && txId in db.transactions
    requires ValidCollection(c) && ValidTransaction(t) && ValidNotification(note)
    ensures Wf(db.(collections := db.collections[cid := c],
                   transactions := db.transactions[txId := t],
                   listings := SetListingStatus(db.listings, listingId, Sold),
                   notifications := db.notifications[db.nextId := note],
                   nextId := db.nextId + 1))
  {
    DeactivateKeepsIndex(db.listings, listingId, Sold);
  }

  /** Saving the rejection keeps the invariant. */
  lemma RejectionWriteKeepsWf(db: Db, txId: Id, t: Transaction)
    requires Wf(db) && txId in db.transactions && ValidTransaction(t)
    ensures Wf(db.(transactions := db.transactions[txId := t]))
  {
  }

  /** Reactivating the listing, when the index accepts it, keeps the
      invariant, and so does notifying the buyer afterwards. */
  lemma ReactivationWritesKeepWf(db: Db, listingId: Id, note: Notification)
    requires Wf(db) && !ReactivationClashes(db, listingId) && ValidNotification(note)
    ensures Wf(db.(listings := SetListingStatus(db.listings, listingId, Active)))
    ensures Wf(db.(listings := SetListingStatus(db.listings, listingId, Active),
                   notifications := db.notifications[db.nextId := note],
                   nextId := db.nextId + 1))
  {
    if listingId in db.listings {
      WriteKeepsActiveUnique(db.listings, listingId, db.listings[listingId].(status := Active));
    }
  }

  // ---------------------------------------------------------------- histories

  /** No handler deletes a document or shortens a collection's history;
      create, cancel, view, claim, reject and mark-read leave both histories
      of every collection as they were. */
  lemma CreateKeepsHistories(db: Db, caller: Caller, req: CreateRequest, now: Time)
    ensures HistoriesPreserved(db, CreateListing(db, caller, req, now).db)
  {
  }

  lemma CancelKeepsHistories(db: Db, caller: Caller, listingId: Id)
    ensures HistoriesPreserved(db, CancelListing(db, caller, listingId).db)
  {
  }

  lemma SubmitKeepsHistories(db: Db, caller: Caller, listingId: Id, pm: Option<PaymentClaim>,
                             proof: Option<PaymentProof>, now: Time)
    ensures HistoriesPreserved(db, SubmitPayment(db, caller, listingId, pm, proof, now).db)
  {
  }

  lemma RejectKeepsHistories(db: Db, caller: Caller, txId: Id, reason: Option<string>, now: Time)
    ensures HistoriesPreserved(db, RejectPayment(db, caller, txId, reason, now).db)
  {
  }

  /** The two transfers append to the histories of the collection they hand
      over and leave every other collection alone. */
  lemma DirectPurchaseKeepsHistories(db: Db, caller: Caller, listingId: Id, now: Time)
    ensures HistoriesPreserved(db, PurchaseWithTransaction(db, caller, listingId, now).db)
  {
    if PurchaseGuard(db, caller, listingId).None? {
      var l := db.listings[listingId];
      var c := db.collections[l.collection];
      TransferredEffects(c, db.users[c.user], l.seller, caller.id, db.nextId, l.price, now);
    }
  }

  lemma ConfirmKeepsHistories(db: Db, caller: Caller, txId: Id, now: Time)
    ensures HistoriesPreserved(db, ConfirmPayment(db, caller, txId, now).db)
  {
    if ConfirmAccepted(db, caller, txId) {
      var t := db.transactions[txId];
      var c := db.collections[t.collection];
      TransferredEffects(c, db.users[t.seller], t.seller, t.buyer, txId, t.amount, now);
    }
  }

  // ---------------------------------------------------------------- listings

  /** Create keeps the invariant; on a well-formed store it fails only before
      writing, and it grows no history. */
  lemma CreatePreserves(db: Db, caller: Caller, req: CreateRequest, now: Time)
    requires Wf(db)
    ensures var r := CreateListing(db, caller, req, now);
            && Wf(r.db) && HistoriesPreserved(db, r.db)
            && (r.response.Fail? ==> r.db == db)
            && (r.response.Ok? ==> r.response.value !in db.listings && r.response.value in r.db.listings)
  {
    var r := CreateListing(db, caller, req, now);
    CreateKeepsHistories(db, caller, req, now);
    if r.response.Ok? {
      var cid := req.collectionId.value;
      var methods := CastPaymentMethods(req.paymentMethods.value).value;
      var l := ListingFor(db, caller, req, methods, now);
      NewListingValid(cid, caller.id, req.price.value, req.title, l.description, req.paymentMethods.value, now);
      ListingWritesKeepWf(db, l, cid, db.collections[cid].(isListed := true, currentListing := Some(db.nextId)));
    }
  }

  /** Cancel keeps the invariant, writes nothing when it fails, and grows no
      history. */
  lemma CancelPreserves(db: Db, caller: Caller, listingId: Id)
    requires Wf(db)
    ensures var r := CancelListing(db, caller, listingId);
            Wf(r.db) && HistoriesPreserved(db, r.db) && (r.response.Fail? ==> r.db == db)
  {
    var r := CancelListing(db, caller, listingId);
    CancelKeepsHistories(db, caller, listingId);
    if r.response.Ok? {
      DeactivateKeepsIndex(db.listings, listingId, Cancelled);
      assert r.db.listings == SetListingStatus(db.listings, listingId, Cancelled);
    }
  }

  /** Viewing a listing keeps the invariant; it only counts the view. */
  lemma ViewPreserves(db: Db, listingId: Id)
    requires Wf(db)
    ensures var r := ViewListing(db, listingId);
            Wf(r.db) && HistoriesPreserved(db, r.db)
  {
    var r := ViewListing(db, listingId);
    if r.response.Ok? {
      var l := db.listings[listingId];
      WriteKeepsActiveUnique(db.listings, listingId, l.(views := l.views + 1));
    }
  }

  // ---------------------------------------------------------------- purchase

  /** The escrow claim keeps the invariant and, on a well-formed store,
      either succeeds or writes nothing. */
  lemma SubmitPreserves(db: Db, caller: Caller, listingId: Id, pm: Option<PaymentClaim>,
                        proof: Option<PaymentProof>, now: Time)
    requires Wf(db)
    ensures var r := SubmitPayment(db, caller, listingId, pm, proof, now);
            && Wf(r.db) && HistoriesPreserved(db, r.db)
            && (r.response.Fail? ==> r.db == db)
            && (PurchaseGuard(db, caller, listingId).None? && !ClaimIncomplete(pm) ==> r.response.Ok?)
  {
    SubmitKeepsHistories(db, caller, listingId, pm, proof, now);
    if PurchaseGuard(db, caller, listingId).None? && !ClaimIncomplete(pm) {
      var l := db.listings[listingId];
      var note := SubmittedNotice(l, listingId, caller, db.collections[l.collection].brand, db.nextId, now);
      assert ValidNotification(note);
      ClaimWritesKeepWf(db, listingId, SubmittedTransaction(listingId, l, caller.id, pm.value, proof, now), note);
    }
  }

  /** The direct purchase keeps the invariant and succeeds on every
      well-formed store whose guards pass. */
  lemma DirectPurchasePreserves(db: Db, caller: Caller, listingId: Id, now: Time)
    requires Wf(db)
    ensures var r := PurchaseWithTransaction(db, caller, listingId, now);
            && Wf(r.db) && HistoriesPreserved(db, r.db)
            && (PurchaseGuard(db, caller, listingId).None? <==> r.response.Ok?)
  {
    DirectPurchaseKeepsHistories(db, caller, listingId, now);
    if PurchaseGuard(db, caller, listingId).None? {
      var l := db.listings[listingId];
      var c := db.collections[l.collection];
      TransferredEffects(c, db.users[c.user], l.seller, caller.id, db.nextId, l.price, now);
      TransferWritesKeepWf(db, listingId, DirectTransaction(listingId, l, caller.id, now), l.collection,
                           Transferred(c, db.users[c.user], l.seller, caller.id, db.nextId, l.price, now));
    }
  }

  // ---------------------------------------------------------------- settle

  /** Confirm keeps the invariant. On a well-formed store it fails only
      before writing, and it succeeds exactly when its checks pass. */
  lemma ConfirmPreserves(db: Db, caller: Caller, txId: Id, now: Time)
    requires Wf(db)
    ensures var r := ConfirmPayment(db, caller, txId, now);
            && Wf(r.db) && HistoriesPreserved(db, r.db)
            && (r.response.Fail? ==> r.db == db)
            && (ConfirmAccepted(db, caller, txId) <==> r.response.Ok?)
  {
    ConfirmKeepsHistories(db, caller, txId, now);
    if ConfirmAccepted(db, caller, txId) {
      var t := db.transactions[txId];
      var c := db.collections[t.collection];
      TransferredEffects(c, db.users[t.seller], t.seller, t.buyer, txId, t.amount, now);
      assert ValidTransaction(ConfirmedTx(t, now));
      var note := CompletedNotice(t, txId, caller, c.brand, now);
      assert ValidNotification(note);
      ConfirmWritesKeepWf(db, t.collection, Transferred(c, db.users[t.seller], t.seller, t.buyer, txId, t.amount, now),
                          txId, ConfirmedTx(t, now), t.listing, note);
    }
  }

  /** Reject keeps the invariant (the unique index refuses a clashing
      reactivation) and grows no history. Unlike the other handlers it may
      fail after writing: the rejection is saved before the reactivation and
      the notification are attempted. */
  lemma RejectPreserves(db: Db, caller: Caller, txId: Id, reason: Option<string>, now: Time)
    requires Wf(db)
    ensures var r := RejectPayment(db, caller, txId, reason, now);
            Wf(r.db) && HistoriesPreserved(db, r.db)
  {
    RejectKeepsHistories(db, caller, txId, reason, now);
    if txId in db.transactions && db.transactions[txId].seller == caller.id {
      var t := db.transactions[txId];
      assert ValidTransaction(RejectedTx(t, reason, now));
      var note := RejectedNotice(t, txId, caller, reason, now);
      assert ValidNotification(note);
      var t' := RejectedTx(t, reason, now);
      RejectionWriteKeepsWf(db, txId, t');
      var db1 := db.(transactions := db.transactions[txId := t']);
      if !ReactivationClashes(db1, t.listing) {
        ReactivationWritesKeepWf(db1, t.listing, note);
      }
    }
  }

  /** On a well-formed store reject succeeds exactly when the caller is the
      seller, reactivating the listing clashes with no other active listing
      and the buyer exists; its status is never looked at. */
  lemma RejectSucceedsIff(db: Db, caller: Caller, txId: Id, reason: Option<string>, now: Time)
    requires DocsValid(db)
    ensures RejectPayment(db, caller, txId, reason, now).response.Ok? <==>
              && txId in db.transactions && db.transactions[txId].seller == caller.id
              && !ReactivationClashes(db, db.transactions[txId].listing)
              && db.transactions[txId].buyer in db.users
  {
    if txId in db.transactions && db.transactions[txId].seller == caller.id {
      assert ValidTransaction(RejectedTx(db.transactions[txId], reason, now));
    }
  }

  /** Mark-read keeps the invariant and is idempotent. */
  lemma MarkReadPreserves(db: Db, notificationId: Id)
    requires Wf(db)
    ensures var r := MarkRead(db, notificationId);
            && Wf(r.db) && HistoriesPreserved(db, r.db)
            && MarkRead(r.db, notificationId).db == r.db
  {
  }
}
