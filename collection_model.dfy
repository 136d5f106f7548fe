/** The `Collection` schema (models/Collection.js): one collectible item with its
    owner, its previous owners, its marketplace flags and its transfer ledger. */
module CollectionModel {
  import opened Common

  /** An entry of `previousOwners`: a required user label and optional dates. */
  datatype PreviousOwner = PreviousOwner(user: string, from: Option<Time>, to: Option<Time>)

  /** An entry of `transferHistory`. */
  datatype TransferRecord = TransferRecord(from: Id, to: Id, transaction: Id, price: int, transferredAt: Time)

  datatype Collection = Collection(
    user: Id,
    images: seq<string>,
    brand: string,
    boughtOn: Time,
    boughtAtPrice: int,
    marketPrice: int,
    previousOwners: seq<PreviousOwner>,
    isListed: bool,
    currentListing: Option<Id>,
    transferHistory: seq<TransferRecord>,
    createdAt: Time)

  /** A new collection as the schema builds it: not listed, no current
      listing, an empty transfer ledger. */
  function NewCollection(user: Id, images: seq<string>, brand: string, boughtOn: Time, boughtAtPrice: int,
                         marketPrice: int, previousOwners: seq<PreviousOwner>, now: Time): Collection
  {
    Collection(user, images, brand, boughtOn, boughtAtPrice, marketPrice, previousOwners, false, None, [], now)
  }

  /** The schema's required strings: `brand` and every previous owner's `user`. */
  predicate ValidCollection(c: Collection) {
    c.brand != "" && forall k :: 0 <= k < |c.previousOwners| ==> c.previousOwners[k].user != ""
  }

  /** The marketplace flags agree: listed exactly when a current listing is set. */
  predicate ListingFlagsAgree(c: Collection) {
    c.isListed <==> c.currentListing.Some?
  }

  /** A new collection is unlisted with an empty ledger, and it is valid exactly
      when its brand and all its previous-owner labels are non-empty. */
  lemma NewCollectionDefaults(user: Id, images: seq<string>, brand: string, boughtOn: Time,
                              boughtAtPrice: int, marketPrice: int, prev: seq<PreviousOwner>, now: Time)
    ensures var c := NewCollection(user, images, brand, boughtOn, boughtAtPrice, marketPrice, prev, now);
            && !c.isListed && c.currentListing.None? && c.transferHistory == [] && ListingFlagsAgree(c)
            && (ValidCollection(c) <==> brand != "" && forall k :: 0 <= k < |prev| ==> prev[k].user != "")
  {
  }

  /** The ownership transfer both purchase paths perform on the item: the old
      owner's label is appended to `previousOwners` (held from the item's
      creation until `now`), the new owner takes over, the listing flags are
      cleared, and one ledger entry is appended. */
  function Transferred(c: Collection, ownerLabel: string, from: Id, to: Id, tx: Id, price: int, now: Time)
    : Collection
  {
    c.(previousOwners := c.previousOwners + [PreviousOwner(ownerLabel, Some(c.createdAt), Some(now))],
       user := to,
       isListed := false,
       currentListing := None,
       transferHistory := c.transferHistory + [TransferRecord(from, to, tx, price, now)])
  }

  /** A transfer grows each history by exactly one entry, keeps the old
      entries, moves ownership, leaves the item unlisted and touches nothing
      else; it keeps the schema's required fields. */
  lemma TransferredEffects(c: Collection, ownerLabel: string, from: Id, to: Id, tx: Id, price: int, now: Time)
    ensures var c' := Transferred(c, ownerLabel, from, to, tx, price, now);
            && |c'.previousOwners| == |c.previousOwners| + 1
            && c'.previousOwners[..|c.previousOwners|] == c.previousOwners
            && c'.previousOwners[|c.previousOwners|].user == ownerLabel
            && |c'.transferHistory| == |c.transferHistory| + 1
            && c'.transferHistory[..|c.transferHistory|] == c.transferHistory
            && c'.transferHistory[|c.transferHistory|] == TransferRecord(from, to, tx, price, now)
            && c'.user == to && !c'.isListed && c'.currentListing.None? && ListingFlagsAgree(c')
            && c'.brand == c.brand && c'.images == c.images && c'.createdAt == c.createdAt
            && (ValidCollection(c) && ownerLabel != "" ==> ValidCollection(c'))
  {
    var c' := Transferred(c, ownerLabel, from, to, tx, price, now);
    assert c'.previousOwners[..|c.previousOwners|] == c.previousOwners;
    assert c'.transferHistory[..|c.transferHistory|] == c.transferHistory;
  }

  /** `previousOwners` and `transferHistory` of `c'` extend those of `c`. */
  predicate HistoriesExtend(c: Collection, c': Collection) {
    c.previousOwners <= c'.previousOwners && c.transferHistory <= c'.transferHistory
  }
}
