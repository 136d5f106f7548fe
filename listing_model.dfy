/** The `Listing` schema (models/Listing.js): an offer to sell one collection
    item, its accepted payment methods, its status, and the partial unique
    index that allows at most one `active` listing per collection. */
module ListingModel {
  import opened Common

  datatype ListingStatus = Active | Pending | Sold | Cancelled

  /** The closed enum of payment-method kinds a seller may offer. */
  datatype PaymentType = UPI | BankTransfer | PayPal | Cash | Other

  datatype PaymentMethod = PaymentMethod(kind: PaymentType, details: string, name: string)

  /** A payment method as it arrives in a request body, before the schema casts it. */
  datatype PaymentMethodInput = PaymentMethodInput(kind: string, details: string, name: string)

  datatype Listing = Listing(
    collection: Id,
    seller: Id,
    price: int,
    title: string,
    description: string,
    paymentMethods: seq<PaymentMethod>,
    status: ListingStatus,
    views: nat,
    createdAt: Time)

  /** The enum check on `paymentMethods[].type`. */
  function ParsePaymentType(s: string): (r: Option<PaymentType>)
    ensures r.Some? <==> s in {"UPI", "Bank Transfer", "PayPal", "Cash", "Other"}
  {
    if s == "UPI" then Some(UPI)
    else if s == "Bank Transfer" then Some(BankTransfer)
    else if s == "PayPal" then Some(PayPal)
    else if s == "Cash" then Some(Cash)
    else if s == "Other" then Some(Other)
    else None
  }

  function PaymentTypeName(t: PaymentType): string {
    match t
    case UPI => "UPI"
    case BankTransfer => "Bank Transfer"
    case PayPal => "PayPal"
    case Cash => "Cash"
    case Other => "Other"
  }

  /** Every kind is accepted back under its own name. */
  lemma PaymentTypeRoundTrip(t: PaymentType)
    ensures ParsePaymentType(PaymentTypeName(t)) == Some(t)
  {
  }

  /** A stored payment method: `details` is a required, hence non-empty, string. */
  predicate ValidPaymentMethod(m: PaymentMethod) {
    m.details != ""
  }

  /** Casting the request's payment methods to the schema, as `save` validates
      them: every kind must be in the enum and every `details` non-empty, or
      the whole document is refused. */
  function CastPaymentMethods(inputs: seq<PaymentMethodInput>): (r: Option<seq<PaymentMethod>>)
    ensures r.Some? <==> forall k :: 0 <= k < |inputs| ==>
                           ParsePaymentType(inputs[k].kind).Some? && inputs[k].details != ""
    ensures r.Some? ==> |r.value| == |inputs|
    ensures r.Some? ==> forall k :: 0 <= k < |inputs| ==>
              r.value[k] == PaymentMethod(ParsePaymentType(inputs[k].kind).value, inputs[k].details, inputs[k].name)
  {
    if inputs == [] then Some([])
    else
      var head := inputs[0];
      match (ParsePaymentType(head.kind), CastPaymentMethods(inputs[1..]))
      case (Some(kind), Some(rest)) =>
        if head.details == "" then None
        else Some([PaymentMethod(kind, head.details, head.name)] + rest)
      case _ => None
  }

  /** A new listing as the schema builds it: status defaults to `active`,
      `views` to 0. */
  function NewListing(collection: Id, seller: Id, price: int, title: string, description: string,
                      methods: seq<PaymentMethod>, now: Time): Listing
  {
    Listing(collection, seller, price, title, description, methods, Active, 0, now)
  }

  /** The schema's required fields: `title` is a non-empty string, and every
      payment method has its details. */
  predicate ValidListing(l: Listing) {
    l.title != "" && forall k :: 0 <= k < |l.paymentMethods| ==> ValidPaymentMethod(l.paymentMethods[k])
  }

  /** A fresh listing built from cast methods and a title is schema-valid and
      starts out active with no views. */
  lemma NewListingValid(collection: Id, seller: Id, price: int, title: string, description: string,
                        inputs: seq<PaymentMethodInput>, now: Time)
    requires title != "" && CastPaymentMethods(inputs).Some?
    ensures var l := NewListing(collection, seller, price, title, description, CastPaymentMethods(inputs).value, now);
            ValidListing(l) && l.status == Active && l.views == 0 && l.seller == seller
  {
  }

  /** The partial unique index on `{collection, status}` restricted to
      `status: 'active'`: no two active listings share a collection. Listings
      in any other status are not constrained. */
  predicate ActiveUnique(listings: map<Id, Listing>) {
    forall a, b :: a in listings && b in listings && a != b
      && listings[a].status == Active && listings[b].status == Active
      ==> listings[a].collection != listings[b].collection
  }

  /** Some listing other than `except` is active for the collection `c`: an
      insert or update making `except` active for `c` would violate the index. */
  predicate ActiveElsewhere(listings: map<Id, Listing>, c: Id, except: Option<Id>) {
    exists other :: other in listings && Some(other) != except
      && listings[other].status == Active && listings[other].collection == c
  }

  /** Writing a listing keeps the index exactly when it is not active or no
      other listing of its collection is active. */
  lemma {:induction false} WriteKeepsActiveUnique(listings: map<Id, Listing>, id: Id, l: Listing)
    requires ActiveUnique(listings)
    requires l.status == Active ==> !ActiveElsewhere(listings, l.collection, Some(id))
    ensures ActiveUnique(listings[id := l])
  {
    var m := listings[id := l];
    forall a, b | a in m && b in m && a != b && m[a].status == Active && m[b].status == Active
      ensures m[a].collection != m[b].collection
    {
      if a == id {
        assert !(b in listings && Some(b) != Some(id) && listings[b].status == Active
                 && listings[b].collection == l.collection);
      } else if b == id {
        assert !(a in listings && Some(a) != Some(id) && listings[a].status == Active
                 && listings[a].collection == l.collection);
      }
    }
  }

  /** The index says nothing about `pending` listings: two pending listings of
      the same collection satisfy it. */
  lemma PendingNotConstrained(c: Id, seller: Id)
    ensures var l := Listing(c, seller, 100, "t", "", [], Pending, 0, 0);
            ActiveUnique(map[1 := l, 2 := l])
  {
  }

  /** Two active listings of one collection are exactly what the index forbids. */
  lemma TwoActiveViolate(c: Id, seller: Id)
    ensures var l := Listing(c, seller, 100, "t", "", [], Active, 0, 0);
            !ActiveUnique(map[1 := l, 2 := l])
  {
    var l := Listing(c, seller, 100, "t", "", [], Active, 0, 0);
    var m := map[1 := l, 2 := l];
    assert 1 in m && 2 in m && m[1].status == Active && m[2].status == Active;
  }
}
