/** Outcomes of a service call: a committed value or the error that rolls the transaction back. */
module Results {

  datatype Option<+T> = None | Some(value: T)

  /** The exceptions of app/core/exceptions.py and the database constraints, by kind. */
  datatype Error =
    | NotFound
    | Conflict
    | Validation
    | Forbidden
    | InvalidTransition
    | AlreadyAssigned
    | InsufficientFunds
    | AmountMismatch
    | LedgerImbalance
    | NegativeBalance     // chk_balance_non_negative
    | UniqueViolation     // a (partial) unique index
    | CheckViolation      // chk_invoice_amounts_non_negative and its peers
    | PricingPromoValue   // a promo without the value its kind needs
    | PricingAllocation   // the allocation does not sum to the discount
    | PricingLegs         // the total is not the sum of its legs
    | PricingNotPositive
    | PricingTooLarge
    | PromoInactive
    | PromoNotStarted
    | PromoExpired
    | PromoMinOrder
    | PromoUsageExceeded
    | PromoUserLimit

  datatype Result<+T> = Ok(value: T) | Err(error: Error) {
    predicate IsFailure() {
      Err?
    }

    function PropagateFailure<U>(): Result<U>
      requires Err?
    {
      Err(error)
    }

    function Extract(): T
      requires Ok?
    {
      value
    }
  }

  /** Fail with `error` unless `condition` holds. */
  function Require(condition: bool, error: Error): (r: Result<()>) {
    if condition then Ok(()) else Err(error)
  }
}
