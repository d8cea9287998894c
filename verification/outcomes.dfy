/** Optional values and fallible results shared by every component. */
module Outcomes {

  datatype Option<+T> = None | Some(value: T)

  /** What a caller of the program sees as a raised exception. */
  datatype Error =
    | NotFound
    | StaleOwner
    | Conflict
    | IntegrityError
    | InjectedFailure
    | BudgetExhausted
    | ProtocolViolation
    | ProviderError
    | PricingError
    | TypeError
    | ValueError
    | RecoveryConflict

  datatype Result<+T> = Success(value: T) | Failure(error: Error) {

    predicate IsFailure() {
      Failure?
    }

    function PropagateFailure<U>(): Result<U>
      requires Failure?
    {
      Failure(error)
    }

    function Extract(): T
      requires Success?
    {
      value
    }
  }
}
