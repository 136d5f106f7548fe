/** The listing lifecycle handlers of routes/marketplace.js as functions from
    a store to a response and a new store: create, cancel, view, the active
    listing query and the per-user history projections. */
module ListingRoutes {
  import opened Common
  import opened Text
  import opened ListingModel
  import opened TransactionModel
  import opened CollectionModel
  import opened MarketDb
  import opened SocialLists

  // ---------------------------------------------------------------- create

  /** The body of `POST /api/listings`. `price` is the JSON number sent (None
      when absent); `paymentMethods` is None when absent or not an array. */
  datatype CreateRequest = CreateRequest(
    collectionId: Option<Id>,
    price: Option<int>,
    title: string,
    description: Option<string>,
    paymentMethods: Option<seq<PaymentMethodInput>>)

  /** `!collectionId || !price || !title`: a field is absent or falsy. */
  predicate MissingRequired(req: CreateRequest) {
    req.collectionId.None? || req.price.None? || req.price.value == 0 || req.title == ""
  }

  /** `!paymentMethods || !Array.isArray(paymentMethods) || paymentMethods.length === 0` */
  predicate NoPaymentMethods(req: CreateRequest) {
    req.paymentMethods.None? || req.paymentMethods.value == []
  }

  /** The request passes the handler's own checks and the caller owns an
      unlisted collection. */
  predicate CreateAccepted(db: Db, caller: Caller, req: CreateRequest) {
    && !MissingRequired(req) && !NoPaymentMethods(req)
    && req.collectionId.value in db.collections
    && db.collections[req.collectionId.value].user == caller.id
    && !db.collections[req.collectionId.value].isListed
  }

  /** The listing `new Listing(...)` builds for an accepted request, when its
      payment methods cast. */
  function ListingFor(db: Db, caller: Caller, req: CreateRequest, methods: seq<PaymentMethod>, now: Time): Listing
    requires CreateAccepted(db, caller, req)
  {
    var description := if req.description.None? then "" else req.description.value;
    NewListing(req.collectionId.value, caller.id, req.price.value, req.title, description, methods, now)
  }

  /** `POST /api/listings`: the field checks (400), ownership (403), the
      already-listed check (400), then the listing is saved (schema validation
      and the unique index on active listings, 500 when either refuses) and
      the collection is marked as listed with this listing as current. */
  function CreateListing(db: Db, caller: Caller, req: CreateRequest, now: Time): (r: Outcome<Id>)
    ensures r.response == Fail(BadRequest) <==>
              || MissingRequired(req) || NoPaymentMethods(req)
              || (&& req.collectionId.value in db.collections
                  && db.collections[req.collectionId.value].user == caller.id
                  && db.collections[req.collectionId.value].isListed)
    ensures r.response.Ok? <==>
              && CreateAccepted(db, caller, req)
              && CastPaymentMethods(req.paymentMethods.value).Some?
              && !ActiveElsewhere(db.listings, req.collectionId.value, None)
              && ValidCollection(db.collections[req.collectionId.value].(isListed := true, currentListing := Some(db.nextId)))
    ensures r.response == Fail(Forbidden) <==>
              !MissingRequired(req) && !NoPaymentMethods(req) &&
              (req.collectionId.value !in db.collections || db.collections[req.collectionId.value].user != caller.id)
    ensures r.response.Fail? && r.response.error != ServerError ==> r.db == db
    ensures r.response.Ok? ==>
              && CreateAccepted(db, caller, req)
              && !ActiveElsewhere(db.listings, req.collectionId.value, None)
              && r.response.value == db.nextId
              && var methods := CastPaymentMethods(req.paymentMethods.value);
              && methods.Some?
              && r.db == db.(listings := db.listings[db.nextId := ListingFor(db, caller, req, methods.value, now)],
                             collections := db.collections[req.collectionId.value :=
                               db.collections[req.collectionId.value].(isListed := true, currentListing := Some(db.nextId))],
                             nextId := db.nextId + 1)
  {
    if MissingRequired(req) then Outcome(Fail(BadRequest), db)
    else if NoPaymentMethods(req) then Outcome(Fail(BadRequest), db)
    else
      var cid := req.collectionId.value;
      if cid !in db.collections || db.collections[cid].user != caller.id then Outcome(Fail(Forbidden), db)
      else if db.collections[cid].isListed then Outcome(Fail(BadRequest), db)
      else
        var methods := CastPaymentMethods(req.paymentMethods.value);
        if methods.None? then Outcome(Fail(ServerError), db)                      // validation error
        else if ActiveElsewhere(db.listings, cid, None) then Outcome(Fail(ServerError), db)  // duplicate key
        else
          var id := db.nextId;
          var db1 := db.(listings := db.listings[id := ListingFor(db, caller, req, methods.value, now)],
                         nextId := db.nextId + 1);
          var c := db.collections[cid].(isListed := true, currentListing := Some(id));
          if !ValidCollection(c) then Outcome(Fail(ServerError), db1)
          else Outcome(Ok(id), db1.(collections := db1.collections[cid := c]))
  }

  // ---------------------------------------------------------------- cancel

  /** The collection update `findByIdAndUpdate(listing.collection, ...)`
      makes: clear both listing flags, or nothing when the collection is gone. */
  function ClearListingFlags(collections: map<Id, Collection>, c: Id): map<Id, Collection> {
    if c in collections then collections[c := collections[c].(isListed := false, currentListing := None)]
    else collections
  }

  /** `DELETE /api/listings/:listingId`: 404 for a missing listing, 403 for a
      caller other than its seller; otherwise the listing becomes `cancelled`
      whatever its status was, and its collection's listing flags are cleared
      whichever listing they pointed at. */
  function CancelListing(db: Db, caller: Caller, listingId: Id): (r: Outcome<()>)
    ensures r.response == Fail(NotFound) <==> listingId !in db.listings
    ensures r.response == Fail(Forbidden) <==>
              listingId in db.listings && db.listings[listingId].seller != caller.id
    ensures r.response.Fail? ==> r.db == db
    ensures r.response.Ok? ==>
              && listingId in db.listings && db.listings[listingId].seller == caller.id
              && var l := db.listings[listingId];
              && r.db == db.(listings := db.listings[listingId := l.(status := Cancelled)],
                             collections := ClearListingFlags(db.collections, l.collection))
  {
    if listingId !in db.listings then Outcome(Fail(NotFound), db)
    else
      var l := db.listings[listingId];
      if l.seller != caller.id then Outcome(Fail(Forbidden), db)
      else
        var cancelled := l.(status := Cancelled);
        if !ValidListing(cancelled) then Outcome(Fail(ServerError), db)
        else
          Outcome(Ok(()), db.(listings := db.listings[listingId := cancelled],
                               collections := ClearListingFlags(db.collections, l.collection)))
  }

  // ---------------------------------------------------------------- detail

  /** `GET /api/listings/:listingId`: 404 for a missing listing; otherwise
      the listing as read, and its stored `views` counter goes up by one. */
  function ViewListing(db: Db, listingId: Id): (r: Outcome<Listing>)
    ensures r.response.Fail? <==> listingId !in db.listings
    ensures r.response.Fail? ==> r.response.error == NotFound && r.db == db
    ensures r.response.Ok? ==>
              && r.response.value == db.listings[listingId]
              && listingId in r.db.listings && r.db.listings.Keys == db.listings.Keys
              && r.db.listings[listingId].views == db.listings[listingId].views + 1
              && r.db.listings[listingId] == db.listings[listingId].(views := db.listings[listingId].views + 1)
              && (forall id :: id in db.listings && id != listingId ==> r.db.listings[id] == db.listings[id])
              && r.db == db.(listings := r.db.listings)
  {
    if listingId !in db.listings then Outcome(Fail(NotFound), db)
    else
      var l := db.listings[listingId];
      Outcome(Ok(l), db.(listings := db.listings[listingId := l.(views := l.views + 1)]))
  }

  // ---------------------------------------------------------------- query

  /** A `minPrice`/`maxPrice` query parameter: absent or empty (no filter), or
      the number `parseFloat` read from it (None for NaN, which no price meets). */
  datatype PriceBound = NoBound | Bound(value: Option<int>)

  datatype ListingQuery = ListingQuery(brand: string, minPrice: PriceBound, maxPrice: PriceBound)

  /** The brand filter: off for an empty `brand`; otherwise the listing's
      collection must exist and its brand, lower-cased, must contain the
      lower-cased query. */
  predicate BrandMatches(db: Db, l: Listing, brand: string) {
    brand == "" ||
    (l.collection in db.collections && Contains(ToLower(db.collections[l.collection].brand), ToLower(brand)))
  }

  predicate AtLeast(price: int, b: PriceBound) {
    b.NoBound? || (b.value.Some? && price >= b.value.value)
  }

  predicate AtMost(price: int, b: PriceBound) {
    b.NoBound? || (b.value.Some? && price <= b.value.value)
  }

  /** A listing the query keeps: stored, `active`, and through every filter. */
  predicate Selected(db: Db, id: Id, q: ListingQuery) {
    && id in db.listings && db.listings[id].status == Active
    && BrandMatches(db, db.listings[id], q.brand)
    && AtLeast(db.listings[id].price, q.minPrice)
    && AtMost(db.listings[id].price, q.maxPrice)
  }

  /** `a` is obtained from `b` by deleting elements. */
  predicate IsSubsequence(a: seq<Id>, b: seq<Id>)
    decreases |b|
  {
    a == [] || (b != [] && (IsSubsequence(a, b[1..]) || (a[0] == b[0] && IsSubsequence(a[1..], b[1..]))))
  }

  /** `GET /api/listings`: the store returns the listings in the order given
      by `order` (the requested sort), and the handler filters them. Every
      returned listing is active and passes the filters, and every listing of
      `order` that does is returned. */
  function SelectListings(db: Db, order: seq<Id>, q: ListingQuery): (r: seq<Id>)
    ensures forall k :: 0 <= k < |r| ==> r[k] in order && Selected(db, r[k], q)
    ensures forall id :: id in order && Selected(db, id, q) ==> id in r
  {
    if order == [] then []
    else (if Selected(db, order[0], q) then [order[0]] else []) + SelectListings(db, order[1..], q)
  }

  /** The query keeps the store's order: its result is a subsequence. */
  lemma {:induction false} SelectIsSubsequence(db: Db, order: seq<Id>, q: ListingQuery)
    ensures IsSubsequence(SelectListings(db, order, q), order)
  {
    if order != [] {
      var rest := SelectListings(db, order[1..], q);
      SelectIsSubsequence(db, order[1..], q);
      if Selected(db, order[0], q) {
        assert SelectListings(db, order, q) == [order[0]] + rest;
      } else {
        assert SelectListings(db, order, q) == rest;
        if rest != [] {
          assert IsSubsequence(rest, order[1..]);
        }
      }
    }
  }

  /** The sort order the store applies ranks every stored listing once. */
  ghost predicate RanksStore(db: Db, order: seq<Id>) {
    (forall id :: id in db.listings <==> id in order) && Distinct(order)
  }

  /** Over such an order the query returns every stored listing that is
      active and passes the filters, each once, and nothing else. */
  lemma SelectListingsOfStore(db: Db, order: seq<Id>, q: ListingQuery)
    requires RanksStore(db, order)
    ensures var r := SelectListings(db, order, q);
            (forall id :: id in r <==> id in db.listings && Selected(db, id, q)) && Distinct(r)
  {
    SelectKeepsDistinct(db, order, q);
  }

  /** Filtering a sequence without repetitions repeats nothing. */
  lemma {:induction false} SelectKeepsDistinct(db: Db, order: seq<Id>, q: ListingQuery)
    requires Distinct(order)
    ensures Distinct(SelectListings(db, order, q))
  {
    if order != [] {
      var tail := order[1..];
      var rest := SelectListings(db, tail, q);
      assert order == [order[0]] + tail;
      assert multiset(order) == multiset{order[0]} + multiset(tail);
      assert Distinct(tail) by {
        forall y | y in tail ensures multiset(tail)[y] <= 1 {
          assert y in order;
        }
      }
      assert order[0] !in tail by {
        assert order[0] in order;
      }
      SelectKeepsDistinct(db, tail, q);
      if Selected(db, order[0], q) {
        assert SelectListings(db, order, q) == [order[0]] + rest;
        DistinctCons(order[0], rest);
      } else {
        assert SelectListings(db, order, q) == rest;
      }
    }
  }

  /** An id that is not in a sequence without repetitions can go in front. */
  lemma DistinctCons(x: Id, s: seq<Id>)
    requires x !in s && Distinct(s)
    ensures Distinct([x] + s)
  {
    assert multiset([x] + s) == multiset{x} + multiset(s);
    forall y | y in [x] + s ensures multiset([x] + s)[y] <= 1 {
      if y != x { assert y in s; }
    }
  }

  /** Lower-casing is idempotent. */
  lemma ToLowerIdempotent(s: string)
    ensures ToLower(ToLower(s)) == ToLower(s)
  {
    assert forall k :: 0 <= k < |s| ==> LowerChar(LowerChar(s[k])) == LowerChar(s[k]);
  }

  /** The brand filter ignores the case of the query: a query and its
      lower-cased form select the same listings. */
  lemma BrandMatchIgnoresQueryCase(db: Db, l: Listing, brand: string)
    ensures BrandMatches(db, l, brand) <==> BrandMatches(db, l, ToLower(brand))
  {
    ToLowerIdempotent(brand);
    if brand != "" {
      assert ToLower(brand) != [];
    } else {
      assert ToLower(brand) == [];
    }
  }

  /** The collection's own brand, in any case, selects its listing. */
  lemma OwnBrandMatches(db: Db, l: Listing)
    requires l.collection in db.collections
    ensures BrandMatches(db, l, db.collections[l.collection].brand)
  {
    var b := ToLower(db.collections[l.collection].brand);
    assert OccursAt(b, b, 0) by { assert b[0..|b|] == b; }
  }

  /** A price bound that is not a number (NaN) selects nothing. */
  lemma NaNBoundSelectsNothing(db: Db, order: seq<Id>, q: ListingQuery)
    requires q.minPrice == Bound(None) || q.maxPrice == Bound(None)
    ensures SelectListings(db, order, q) == []
  {
  }

  // ---------------------------------------------------------------- history

  /** `GET /api/user-listings`: every listing the caller sells, in any status. */
  function UserListings(db: Db, caller: Caller): set<Id> {
    set id | id in db.listings && db.listings[id].seller == caller.id
  }

  /** `GET /api/purchases`: the caller's completed purchases. */
  function Purchases(db: Db, caller: Caller): set<Id> {
    set id | id in db.transactions && db.transactions[id].buyer == caller.id
                                    && db.transactions[id].status == Completed
  }

  /** `GET /api/sales`: the caller's completed sales. */
  function Sales(db: Db, caller: Caller): set<Id> {
    set id | id in db.transactions && db.transactions[id].seller == caller.id
                                    && db.transactions[id].status == Completed
  }
}
