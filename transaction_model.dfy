/** The `Transaction` schema (models/Transaction.js): one buyer's purchase of a
    listing, its claimed payment, its status and one timestamp per transition. */
module TransactionModel {
  import opened Common

  datatype TxStatus = TxPending | PaymentSubmitted | PaymentConfirmed | Completed | Rejected | Refunded

  /** `paymentMethod.type` is a free string here (not the listing enum). */
  datatype TxPaymentMethod = TxPaymentMethod(kind: string, details: string)

  datatype PaymentProof = PaymentProof(transactionId: string, screenshot: string, notes: string)

  const NoProof := PaymentProof("", "", "")

  datatype Transaction = Transaction(
    listing: Id,
    collection: Id,
    buyer: Id,
    seller: Id,
    amount: int,
    paymentMethod: Option<TxPaymentMethod>,   // None: the nested path was never set
    paymentProof: PaymentProof,
    status: TxStatus,
    paymentSubmittedAt: Option<Time>,
    paymentConfirmedAt: Option<Time>,
    completedAt: Option<Time>,
    rejectedAt: Option<Time>,
    rejectionReason: Option<string>,
    createdAt: Time)

  /** A transaction as the constructor builds it from its references and
      amount: status defaults to `pending`, every timestamp and the rejection
      reason are absent. */
  function NewTransaction(listing: Id, collection: Id, buyer: Id, seller: Id, amount: int,
                          pm: Option<TxPaymentMethod>, proof: PaymentProof, now: Time): Transaction
  {
    Transaction(listing, collection, buyer, seller, amount, pm, proof, TxPending,
                None, None, None, None, None, now)
  }

  /** The payment method is present with both of its fields non-empty. */
  predicate PaymentMethodComplete(t: Transaction) {
    t.paymentMethod.Some? && t.paymentMethod.value.kind != "" && t.paymentMethod.value.details != ""
  }

  /** The validation `save` runs on the schema as written. `paymentMethod` is
      declared as a nested path whose `type` and `details` are required, so
      both must be present and non-empty whether or not the caller ever set
      `paymentMethod`. */
  predicate ValidAsWritten(t: Transaction) {
    PaymentMethodComplete(t)
  }

  /** The validation the model's store applies: `paymentMethod` is an optional
      sub-document whose two fields are required when it is given. It agrees
      with `ValidAsWritten` on every transaction that carries a payment method. */
  predicate ValidTransaction(t: Transaction) {
    t.paymentMethod.None? || PaymentMethodComplete(t)
  }

  /** A transaction built without a payment method can never be saved under
      the schema as written, but is accepted by the store's validation. */
  lemma MissingPaymentMethodInvalid(listing: Id, collection: Id, buyer: Id, seller: Id, amount: int,
                                    proof: PaymentProof, now: Time)
    ensures var t := NewTransaction(listing, collection, buyer, seller, amount, None, proof, now);
            !ValidAsWritten(t) && ValidTransaction(t)
  {
  }

  /** The two validations differ only on a missing payment method. */
  lemma ValidationsAgreeWithMethod(t: Transaction)
    requires t.paymentMethod.Some?
    ensures ValidAsWritten(t) <==> ValidTransaction(t)
  {
  }

  /** A freshly built transaction is `pending` with no timestamps, and it
      passes the schema as written exactly when its payment method has both
      fields. */
  lemma NewTransactionDefaults(listing: Id, collection: Id, buyer: Id, seller: Id, amount: int,
                               pm: Option<TxPaymentMethod>, proof: PaymentProof, now: Time)
    ensures var t := NewTransaction(listing, collection, buyer, seller, amount, pm, proof, now);
            && t.status == TxPending
            && t.paymentSubmittedAt.None? && t.paymentConfirmedAt.None?
            && t.completedAt.None? && t.rejectedAt.None? && t.rejectionReason.None?
            && (ValidAsWritten(t) <==> pm.Some? && pm.value.kind != "" && pm.value.details != "")
  {
  }
}
