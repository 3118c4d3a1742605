/**
 * Identities and idempotency keys. A key the program hashes out of several parts is an
 * injective constructor term here; rows are numbered by their position in their table.
 */
module Keys {
  type UserId = nat

  /** The tag of a `release` key: which path gave the hold back. */
  datatype ReleaseTag = ProviderTag | InternalTag | ReviewTag | CancelTag

  /** The last part of a `refund` key: a provider status, or the user's own cancel. */
  datatype RefundTag = CanceledTag | FailedTag | UserCancelTag

  /** Idempotency keys of ledger entries and of refund records. */
  datatype Key =
    | ReserveKey(order: nat)
    | CaptureKey(order: nat)
    | ReleaseKey(order: nat, releaseTag: ReleaseTag)
    | PartialKey(order: nat)
    | RefundKey(order: nat, refundTag: RefundTag)
    | DepositKey(payment: nat)
    | OrderCommissionKey(order: nat)
    | DepositCommissionKey(buyer: UserId)
    | PayoutKey(payout: nat)
    | AdjustmentKey(nonce: nat)
    | WelcomeKey(user: UserId)

  /** `reference_type` and `reference_id` of a ledger entry. */
  datatype Ref =
    | ForOrder(order: nat)
    | ForPayment(payment: nat)
    | ForReferredOrder(order: nat)
    | ForReferredDeposit(payment: nat)
    | ForPayout(payout: nat)
    | ForAdmin(actor: UserId)
    | ForBonus

  /** Keys under which a user's order request is remembered. */
  datatype OrderKey =
    | ClientKey(user: UserId, token: string)
    | DerivedKey(user: UserId, digest: nat)
    | RetryKey(first: OrderKey, stamp: nat)

  /** Keys under which a user's deposit request is remembered. */
  datatype InvoiceKey =
    | InvoiceClientKey(user: UserId, token: string)
    | InvoiceBucketKey(user: UserId, amount: int, bucket: int)
}
