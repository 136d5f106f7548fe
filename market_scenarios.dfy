/** Properties that relate several handler calls: the claim's path through
    the pending and history projections, the terminal states of a claim, and
    what the missing guards allow (cancelling or rejecting from any status,
    confirming without looking at the listing, an index that ignores pending
    listings). */
module MarketScenarios {
  import opened Common
  import opened ListingModel
  import opened TransactionModel
  import opened CollectionModel
  import opened NotificationModel
  import opened MarketDb
  import opened ListingRoutes
  import opened PurchaseRoutes
  import opened SettlementRoutes
  import opened MarketInvariants

  // ---------------------------------------------------------------- projections

  /** A successful claim shows up among the seller's pending claims. */
  lemma SubmitCreatesPendingClaim(db: Db, caller: Caller, listingId: Id, pm: Option<PaymentClaim>,
                                  proof: Option<PaymentProof>, now: Time)
    requires SubmitPayment(db, caller, listingId, pm, proof, now).response.Ok?
    ensures var r := SubmitPayment(db, caller, listingId, pm, proof, now);
            var seller := db.listings[listingId].seller;
            && r.response.value.transaction in PendingTransactions(r.db, Caller(seller, ""))
            && r.db.transactions[r.response.value.transaction].buyer == caller.id
            && r.db.transactions[r.response.value.transaction].amount == db.listings[listingId].price
            && r.db.listings[listingId].status == Pending
  {
  }

  /** Confirming a claim moves it from the seller's pending claims to the
      seller's sales and the buyer's purchases. */
  lemma ConfirmMovesClaimToHistory(db: Db, caller: Caller, txId: Id, now: Time)
    requires ConfirmPayment(db, caller, txId, now).response.Ok?
    ensures var r := ConfirmPayment(db, caller, txId, now);
            var t := db.transactions[txId];
            && txId in PendingTransactions(db, caller)
            && txId !in PendingTransactions(r.db, caller)
            && txId in Sales(r.db, caller)
            && txId in Purchases(r.db, Caller(t.buyer, ""))
  {
  }

  /** Rejecting a claim removes it from the seller's pending claims and never
      puts it in a purchase or sales history. */
  lemma RejectClosesClaim(db: Db, caller: Caller, txId: Id, reason: Option<string>, now: Time)
    requires RejectPayment(db, caller, txId, reason, now).response.Ok?
    ensures var r := RejectPayment(db, caller, txId, reason, now);
            && txId !in PendingTransactions(r.db, caller)
            && txId !in Sales(r.db, caller)
            && r.db.transactions[txId].rejectionReason == Some(ReasonText(reason))
  {
  }

  // ---------------------------------------------------------------- terminal states

  /** A confirmed claim cannot be confirmed again: the second attempt answers
      400 and writes nothing, so no history entry is duplicated. */
  lemma SecondConfirmFails(db: Db, caller: Caller, txId: Id, now: Time, later: Time)
    requires ConfirmPayment(db, caller, txId, now).response.Ok?
    ensures var db1 := ConfirmPayment(db, caller, txId, now).db;
            var r := ConfirmPayment(db1, caller, txId, later);
            r.response == Fail(BadRequest) && r.db == db1
  {
    var db1 := ConfirmPayment(db, caller, txId, now).db;
    assert db1.transactions[txId].status == Completed;
  }

  /** Reject has no status guard: a completed sale can be rejected. Its
      listing becomes `active` again although the collection now belongs to
      the buyer, so the former seller can take another buyer's claim on it. */
  lemma RejectAfterConfirmRelists(db: Db, caller: Caller, txId: Id, now: Time, later: Time)
    requires Wf(db)
    requires ConfirmPayment(db, caller, txId, now).response.Ok?
    requires db.transactions[txId].buyer != caller.id
    requires db.transactions[txId].listing in db.listings
    requires !ReactivationClashes(ConfirmPayment(db, caller, txId, now).db, db.transactions[txId].listing)
    ensures var db1 := ConfirmPayment(db, caller, txId, now).db;
            var r := RejectPayment(db1, caller, txId, None, later);
            var t := db.transactions[txId];
            && r.response.Ok?
            && r.db.transactions[txId].status == Rejected
            && r.db.listings[t.listing].status == Active
            && r.db.listings[t.listing].seller == db.listings[t.listing].seller
            && r.db.collections[t.collection].user == t.buyer
            && r.db.collections[t.collection].user != caller.id
  {
    var t := db.transactions[txId];
    var db1 := ConfirmPayment(db, caller, txId, now).db;
    assert db1.transactions[txId] == ConfirmedTx(t, now);
    assert db1.listings == SetListingStatus(db.listings, t.listing, Sold);
    assert db1.collections[t.collection].user == t.buyer;
    assert db1.users == db.users;
    var r := RejectPayment(db1, caller, txId, None, later);
    assert r.response.Ok?;
    assert r.db.listings == SetListingStatus(db1.listings, t.listing, Active);
    assert r.db.collections == db1.collections;
  }

  // ---------------------------------------------------------------- double sale

  /** Confirm never looks at the listing or the collection's current owner:
      two open claims on one collection, from two buyers, can both be
      confirmed, and the collection is transferred twice. */
  lemma DoubleSale(db: Db, seller: Caller, t1: Id, t2: Id, now: Time)
    requires Wf(db)
    requires t1 != t2
    requires ConfirmAccepted(db, seller, t1) && ConfirmAccepted(db, seller, t2)
    requires db.transactions[t1].collection == db.transactions[t2].collection
    ensures var r1 := ConfirmPayment(db, seller, t1, now);
            var r2 := ConfirmPayment(r1.db, seller, t2, now);
            var c := db.transactions[t1].collection;
            && r1.response.Ok? && r2.response.Ok?
            && r2.db.collections[c].user == db.transactions[t2].buyer
            && |r2.db.collections[c].transferHistory| == |db.collections[c].transferHistory| + 2
            && r2.db.transactions[t1].status == Completed && r2.db.transactions[t2].status == Completed
  {
    var r1 := ConfirmPayment(db, seller, t1, now);
    ConfirmPreserves(db, seller, t1, now);
    assert ConfirmAccepted(r1.db, seller, t2);
    ConfirmPreserves(r1.db, seller, t2, now);
  }

  /** A claim only adds: every transaction already stored is kept as it
      was, so a claim awaiting confirmation still awaits it afterwards. */
  lemma SubmitKeepsOtherClaims(db: Db, caller: Caller, listingId: Id, pm: Option<PaymentClaim>,
                               proof: Option<PaymentProof>, now: Time, seller: Caller, t: Id)
    requires IdsBelowNext(db)
    requires ConfirmAccepted(db, seller, t)
    ensures var r := SubmitPayment(db, caller, listingId, pm, proof, now);
            ConfirmAccepted(r.db, seller, t) && r.db.transactions[t] == db.transactions[t]
  {
  }

  /** Cancel has no status guard: a listing with a claim pending can be
      cancelled, which unlists its collection, and the seller can then list
      the collection again while the first claim stays open. */
  lemma CancelPendingThenRelist(db: Db, seller: Caller, lid: Id, req: CreateRequest, now: Time)
    requires IdsBelowNext(db)
    requires lid in db.listings && db.listings[lid].seller == seller.id && db.listings[lid].status == Pending
    requires ValidListing(db.listings[lid])
    requires var cid := db.listings[lid].collection;
             && cid in db.collections && db.collections[cid].user == seller.id
             && ValidCollection(db.collections[cid])
             && !ActiveElsewhere(db.listings, cid, None)
             && req.collectionId == Some(cid)
    requires !MissingRequired(req) && !NoPaymentMethods(req)
    requires CastPaymentMethods(req.paymentMethods.value).Some?
    ensures var r1 := CancelListing(db, seller, lid);
            var r2 := CreateListing(r1.db, seller, req, now);
            && r1.response.Ok? && r2.response == Ok(db.nextId)
            && r2.db.transactions == db.transactions
            && r2.db.listings[lid].status == Cancelled
            && r2.db.listings[db.nextId].status == Active
            && r2.db.listings[db.nextId].collection == db.listings[lid].collection
  {
    var cid := db.listings[lid].collection;
    var r1 := CancelListing(db, seller, lid);
    assert r1.response.Ok?;
    assert r1.db.collections[cid] == db.collections[cid].(isListed := false, currentListing := None);
    assert !ActiveElsewhere(r1.db.listings, cid, None) by {
      forall other | other in r1.db.listings && r1.db.listings[other].status == Active
        ensures r1.db.listings[other].collection != cid
      {
        assert other != lid && r1.db.listings[other] == db.listings[other];
      }
    }
  }

  /** After a rejection the listing is on sale again: another buyer's claim
      on it succeeds and awaits the seller, while the rejected claim stays
      rejected with its reason. */
  lemma RejectThenClaimAgain(db: Db, seller: Caller, t1: Id, reason: Option<string>,
                             b: Caller, pm: PaymentClaim, now: Time)
    requires IdsBelowNext(db) && seller.id in db.users
    requires t1 in db.transactions && db.transactions[t1].seller == seller.id
    requires var t := db.transactions[t1];
             && ValidTransaction(t) && t.buyer in db.users
             && t.listing in db.listings && ValidListing(db.listings[t.listing])
             && db.listings[t.listing].seller == seller.id
             && !ReactivationClashes(db, t.listing)
             && db.listings[t.listing].collection in db.collections
             && db.collections[db.listings[t.listing].collection].user in db.users
    requires b.id in db.users && b.id != seller.id && !ClaimIncomplete(Some(pm))
    ensures var lid := db.transactions[t1].listing;
            var r1 := RejectPayment(db, seller, t1, reason, now);
            var r2 := SubmitPayment(r1.db, b, lid, Some(pm), None, now);
            var t2 := r1.db.nextId;
            && r1.response.Ok? && r2.response.Ok? && r2.response.value.transaction == t2
            && ConfirmAccepted(r2.db, seller, t2)
            && r2.db.transactions[t2].buyer == b.id
            && r2.db.transactions[t2].listing == lid
            && r2.db.transactions[t1].status == Rejected
            && r2.db.transactions[t1].rejectionReason == Some(ReasonText(reason))
  {
    var t := db.transactions[t1];
    var lid := t.listing;
    assert ValidTransaction(RejectedTx(t, reason, now));
    var r1 := RejectPayment(db, seller, t1, reason, now);
    assert r1.response.Ok?;
    assert r1.db.listings[lid] == db.listings[lid].(status := Active);
    assert ValidListing(r1.db.listings[lid].(status := Pending));
    assert PurchaseGuard(r1.db, b, lid).None?;
  }
}
