/** The marketplace's persistent state: the four collections of documents the
    sale engine reads and writes, the user directory it consults, and the
    invariant every handler keeps. */
module MarketDb {
  import opened Common
  import opened ListingModel
  import opened TransactionModel
  import opened CollectionModel
  import opened NotificationModel

  /** The store. `users` maps a user id to its username; `nextId` is the next
      identifier handed out to a new listing, transaction or notification. */
  datatype Db = Db(
    users: map<Id, string>,
    collections: map<Id, Collection>,
    listings: map<Id, Listing>,
    transactions: map<Id, Transaction>,
    notifications: map<Id, Notification>,
    nextId: Id)

  /** A handler's response together with the store it leaves behind. */
  datatype Outcome<T> = Outcome(response: Response<T>, db: Db)

  /** What both purchase paths report to the buyer on success. */
  datatype Receipt = Receipt(transaction: Id, amount: int, seller: string, collection: string)

  /** Identifiers below `nextId` are taken; new documents get fresh ones. */
  predicate IdsBelowNext(db: Db) {
    && (forall id :: id in db.listings ==> id < db.nextId)
    && (forall id :: id in db.transactions ==> id < db.nextId)
    && (forall id :: id in db.notifications ==> id < db.nextId)
  }

  /** Every stored document passes its schema's validation. */
  predicate DocsValid(db: Db) {
    && (forall id :: id in db.listings ==> ValidListing(db.listings[id]))
    && (forall id :: id in db.transactions ==> ValidTransaction(db.transactions[id]))
    && (forall id :: id in db.collections ==> ValidCollection(db.collections[id]))
    && (forall id :: id in db.notifications ==> ValidNotification(db.notifications[id]))
  }

  /** The store invariant: fresh identifiers, the partial unique index on
      active listings, schema-valid documents and non-empty usernames. */
  predicate Wf(db: Db) {
    && IdsBelowNext(db)
    && ActiveUnique(db.listings)
    && DocsValid(db)
    && (forall u :: u in db.users ==> db.users[u] != "")
  }

  /** No handler deletes a document, and the histories of every collection
      only grow: `db'` keeps every key of `db`, and each collection's
      `previousOwners` and `transferHistory` extend the old ones. */
  predicate HistoriesPreserved(db: Db, db': Db) {
    && db.collections.Keys <= db'.collections.Keys
    && db.listings.Keys <= db'.listings.Keys
    && db.transactions.Keys <= db'.transactions.Keys
    && db.notifications.Keys <= db'.notifications.Keys
    && db.nextId <= db'.nextId
    && forall c :: c in db.collections ==> HistoriesExtend(db.collections[c], db'.collections[c])
  }

  /** `HistoriesPreserved` composes, so it holds along any sequence of handler calls. */
  lemma HistoriesPreservedTrans(a: Db, b: Db, c: Db)
    requires HistoriesPreserved(a, b) && HistoriesPreserved(b, c)
    ensures HistoriesPreserved(a, c)
  {
    forall k | k in a.collections
      ensures HistoriesExtend(a.collections[k], c.collections[k])
    {
      assert HistoriesExtend(a.collections[k], b.collections[k]);
      assert HistoriesExtend(b.collections[k], c.collections[k]);
    }
  }
}
