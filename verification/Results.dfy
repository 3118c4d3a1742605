/** The option and result types, and every error an engine call can raise. */
module Results {
  datatype Option<+T> = None | Some(value: T)

  datatype Error =
    // wallet
    | AmountNotPositive
    | InsufficientFunds
    | WalletInvariantViolated
    | CaptureExceedsReserve
    // orders
    | Suspended
    | TermsNotAccepted
    | Closed
    | ServiceUnavailable
    | ProviderOffline
    | QuantityOutOfRange
    | ChargeInvalid
    | DuplicateKey
    | UnknownOrder
    | NotYourOrder
    | NotSupported
    | WrongStatus
    | NoProviderOrder
    | ProviderRefused
    | ChooseExactlyOne
    | UnknownUser
    // coupons
    | CouponUnknown
    | CouponExpired
    | CouponMinimum
    | CouponExhausted
    | CouponAlreadyUsed
    // deposits and payouts
    | DepositOutOfRange
    | BelowMinimumPayout

  /** An exception is a `Failure`; a caller that lets it propagate rolls its transaction back. */
  datatype Result<+T> = Success(value: T) | Failure(error: Error) {
    predicate IsFailure() {
      Failure?
    }

    function PropagateFailure<U>(): Result<U>
      requires Failure?
    {
      Failure(error)
    }

    function Extract(): T
      requires Success?
    {
      value
    }
  }
}
