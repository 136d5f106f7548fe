/** The sale engine as the handlers run it: one object holding the four
    document collections and the user directory, whose methods read and
    update them step by step in the order the routes do (check, build the
    document, save it, update the next one). Each method is proved to leave
    exactly the response and the store that the corresponding function of
    ListingRoutes, PurchaseRoutes or SettlementRoutes describes, so every
    property proved about those functions in MarketInvariants and
    MarketScenarios holds of the engine: each method keeps the store
    invariant `Wf` and the append-only histories. */
module MarketEngine {
  import opened Common
  import opened ListingModel
  import opened TransactionModel
  import opened CollectionModel
  import opened NotificationModel
  import opened MarketDb
  import opened ListingRoutes
  import opened PurchaseRoutes
  import opened SettlementRoutes

  class Marketplace {
    var users: map<Id, string>
    var collections: map<Id, Collection>
    var listings: map<Id, Listing>
    var transactions: map<Id, Transaction>
    var notifications: map<Id, Notification>
    var nextId: Id

    /** The store these fields hold. */
    function State(): Db
      reads this
    {
      Db(users, collections, listings, transactions, notifications, nextId)
    }

    /** An empty store with the given user directory. */
    constructor (directory: map<Id, string>)
      requires forall u :: u in directory ==> directory[u] != ""
      ensures State() == Db(directory, map[], map[], map[], map[], 0)
      ensures Wf(State())
    {
      users := directory;
      collections := map[];
      listings := map[];
      transactions := map[];
      notifications := map[];
      nextId := 0;
    }

    /** `abortTransaction`: every write of the session is undone. */
    method Restore(s: Db)
      modifies this
      ensures State() == s
    {
      users := s.users;
      collections := s.collections;
      listings := s.listings;
      transactions := s.transactions;
      notifications := s.notifications;
      nextId := s.nextId;
    }

    /** `POST /api/listings` */
    method CreateListing(caller: Caller, req: CreateRequest, now: Time) returns (r: Response<Id>)
      modifies this
      ensures var o := ListingRoutes.CreateListing(old(State()), caller, req, now);
              r == o.response && State() == o.db
    {
      if MissingRequired(req) || NoPaymentMethods(req) {
        return Fail(BadRequest);
      }
      var cid := req.collectionId.value;
      if cid !in collections || collections[cid].user != caller.id {
        return Fail(Forbidden);
      }
      if collections[cid].isListed {
        return Fail(BadRequest);
      }
      var methods := CastPaymentMethods(req.paymentMethods.value);
      if methods.None? || ActiveElsewhere(listings, cid, None) {
        return Fail(ServerError);               // validation error or duplicate key
      }
      var listing := ListingFor(State(), caller, req, methods.value, now);
      var id := nextId;
      listings := listings[id := listing];
      nextId := nextId + 1;
      var collection := collections[cid];
      collection := collection.(isListed := true, currentListing := Some(id));
      if !ValidCollection(collection) {
        return Fail(ServerError);
      }
      collections := collections[cid := collection];
      return Ok(id);
    }

    /** `DELETE /api/listings/:listingId` */
    method CancelListing(caller: Caller, listingId: Id) returns (r: Response<()>)
      modifies this
      ensures var o := ListingRoutes.CancelListing(old(State()), caller, listingId);
              r == o.response && State() == o.db
    {
      if listingId !in listings {
        return Fail(NotFound);
      }
      var listing := listings[listingId];
      if listing.seller != caller.id {
        return Fail(Forbidden);
      }
      listing := listing.(status := Cancelled);
      if !ValidListing(listing) {
        return Fail(ServerError);
      }
      listings := listings[listingId := listing];
      collections := ClearListingFlags(collections, listing.collection);
      return Ok(());
    }

    /** `GET /api/listings/:listingId` */
    method ViewListing(listingId: Id) returns (r: Response<Listing>)
      modifies this
      ensures var o := ListingRoutes.ViewListing(old(State()), listingId);
              r == o.response && State() == o.db
    {
      if listingId !in listings {
        return Fail(NotFound);
      }
      var listing := listings[listingId];
      listings := listings[listingId := listing.(views := listing.views + 1)];
      return Ok(listing);
    }

    /** `POST /api/purchase/:listingId`: the atomic transfer when the store
        supports multi-document transactions, the payment claim otherwise.
        The transfer is the corrected one, `PurchaseAtomically`. */
    method Purchase(caller: Caller, listingId: Id, useTransactions: bool,
                    pm: Option<PaymentClaim>, proof: Option<PaymentProof>, now: Time)
      returns (r: Response<Receipt>)
      modifies this
      ensures useTransactions ==>
                var o := PurchaseWithTransaction(old(State()), caller, listingId, now);
                r == o.response && State() == o.db
      ensures !useTransactions ==>
                var o := SubmitPayment(old(State()), caller, listingId, pm, proof, now);
                r == o.response && State() == o.db
    {
      if useTransactions {
        r := PurchaseAtomically(caller, listingId, now);
      } else {
        r := SubmitClaim(caller, listingId, pm, proof, now);
      }
    }

    /** `purchaseWithTransaction`, corrected: the transaction's payment
        method is treated as optional (`PurchaseWithTransaction`; the route as
        written answers 500 once the guards pass,
        `PurchaseWithTransactionAsWritten`). */
    method PurchaseAtomically(caller: Caller, listingId: Id, now: Time) returns (r: Response<Receipt>)
      modifies this
      ensures var o := PurchaseWithTransaction(old(State()), caller, listingId, now);
              r == o.response && State() == o.db
    {
      var guard := PurchaseGuard(State(), caller, listingId);
      if guard.Some? {
        return Fail(guard.value);
      }
      var session := State();
      var listing := listings[listingId];
      var collection := collections[listing.collection];
      var owner := users[collection.user];
      var txId := nextId;
      var t := DirectTransaction(listingId, listing, caller.id, now);
      if !ValidTransaction(t) {
        return Fail(ServerError);
      }
      transactions := transactions[txId := t];
      nextId := nextId + 1;
      collection := Transferred(collection, owner, listing.seller, caller.id, txId, listing.price, now);
      if !ValidCollection(collection) {
        Restore(session);
        return Fail(ServerError);
      }
      collections := collections[listing.collection := collection];
      var sold := listing.(status := Sold);
      if !ValidListing(sold) {
        Restore(session);
        return Fail(ServerError);
      }
      listings := listings[listingId := sold];
      return Ok(Receipt(txId, listing.price, owner, collection.brand));
    }

    /** `purchaseWithoutTransaction`: the buyer's payment claim. */
    method SubmitClaim(caller: Caller, listingId: Id, pm: Option<PaymentClaim>,
                       proof: Option<PaymentProof>, now: Time) returns (r: Response<Receipt>)
      modifies this
      ensures var o := SubmitPayment(old(State()), caller, listingId, pm, proof, now);
              r == o.response && State() == o.db
    {
      var guard := PurchaseGuard(State(), caller, listingId);
      if guard.Some? {
        return Fail(guard.value);
      }
      if ClaimIncomplete(pm) {
        return Fail(BadRequest);
      }
      var listing := listings[listingId];
      var collection := collections[listing.collection];
      var txId := nextId;
      transactions := transactions[txId := SubmittedTransaction(listingId, listing, caller.id, pm.value, proof, now)];
      nextId := nextId + 1;
      var pending := listing.(status := Pending);
      if !ValidListing(pending) {
        return Fail(ServerError);
      }
      listings := listings[listingId := pending];
      notifications := notifications[nextId := SubmittedNotice(listing, listingId, caller, collection.brand, txId, now)];
      nextId := nextId + 1;
      return Ok(Receipt(txId, listing.price, users[collection.user], collection.brand));
    }

    /** `POST /api/transactions/:transactionId/confirm` */
    method ConfirmPayment(caller: Caller, txId: Id, now: Time) returns (r: Response<()>)
      modifies this
      ensures var o := SettlementRoutes.ConfirmPayment(old(State()), caller, txId, now);
              r == o.response && State() == o.db
    {
      if txId !in transactions {
        return Fail(NotFound);
      }
      var t := transactions[txId];
      if t.seller !in users {
        return Fail(ServerError);               // populated seller is null
      }
      if t.seller != caller.id {
        return Fail(Forbidden);
      }
      if t.status != PaymentSubmitted {
        return Fail(BadRequest);
      }
      if t.collection !in collections || t.buyer !in users {
        return Fail(ServerError);               // populated collection or buyer is null
      }
      var collection := collections[t.collection];
      var brand := collection.brand;
      collection := Transferred(collection, users[t.seller], t.seller, t.buyer, txId, t.amount, now);
      if !ValidCollection(collection) {
        return Fail(ServerError);
      }
      collections := collections[t.collection := collection];
      var confirmed := ConfirmedTx(t, now);
      if !ValidTransaction(confirmed) {
        return Fail(ServerError);
      }
      transactions := transactions[txId := confirmed];
      listings := SetListingStatus(listings, t.listing, Sold);
      notifications := notifications[nextId := CompletedNotice(t, txId, caller, brand, now)];
      nextId := nextId + 1;
      return Ok(());
    }

    /** `POST /api/transactions/:transactionId/reject` */
    method RejectPayment(caller: Caller, txId: Id, reason: Option<string>, now: Time) returns (r: Response<()>)
      modifies this
      ensures var o := SettlementRoutes.RejectPayment(old(State()), caller, txId, reason, now);
              r == o.response && State() == o.db
    {
      if txId !in transactions {
        return Fail(NotFound);
      }
      var t := transactions[txId];
      if t.seller != caller.id {
        return Fail(Forbidden);
      }
      var rejected := RejectedTx(t, reason, now);
      if !ValidTransaction(rejected) {
        return Fail(ServerError);
      }
      transactions := transactions[txId := rejected];
      if ReactivationClashes(State(), t.listing) {
        return Fail(ServerError);               // duplicate key
      }
      listings := SetListingStatus(listings, t.listing, Active);
      if t.buyer !in users {
        return Fail(ServerError);               // populated buyer is null
      }
      notifications := notifications[nextId := RejectedNotice(t, txId, caller, reason, now)];
      nextId := nextId + 1;
      return Ok(());
    }

    /** `POST /api/notifications/:notificationId/read` */
    method MarkRead(notificationId: Id) returns (r: Response<()>)
      modifies this
      ensures var o := SettlementRoutes.MarkRead(old(State()), notificationId);
              r == o.response && State() == o.db
    {
      if notificationId in notifications {
        notifications := notifications[notificationId := notifications[notificationId].(read := true)];
      }
      return Ok(());
    }
  }
}
