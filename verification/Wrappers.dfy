/** Results and errors shared by every contract.

    A handler either returns a value or fails. `Panic` stands for the places where the
    contract aborts (an unsigned subtraction below zero, a division by zero, an `unwrap` of an
    error); the other constructors are the contracts' own errors. Either way the runtime undoes
    every write of the failing transaction. */
module Wrappers {

  datatype Error =
    | Panic
    | Overflow
    | EmptyValidatorSet
    | ExceedUndelegation
    | DistributionFailed
    | OnlyOneCoinAllowed
    | InvalidAmount
    | Unauthorized
    | InsufficientFunds
    | InsufficientAllowance
    | NoWithdrawableAssets
    | InvalidEpochLength
    | InvalidUnstakingPeriod
    | InvalidPeriods
    | HubPaused
    | LstTokenAlreadySet
    | LstTokenNotSet
    | ValidatorRegistryNotSet
    | RewardDispatcherNotSet

  datatype Result<+T> = Ok(value: T) | Err(error: Error) {
    predicate IsFailure() { Err? }

    function PropagateFailure<U>(): Result<U>
      requires Err?
    {
      Err(error)
    }

    function Extract(): T
      requires Ok?
    {
      value
    }
  }

  /** Unsigned subtraction: the contracts fail, one way or another, rather than wrap. */
  function Minus(a: nat, b: nat, error: Error): Result<nat> {
    if b <= a then Ok(a - b) else Err(error)
  }

  function Min(a: nat, b: nat): nat { if a <= b then a else b }

  function Max(a: nat, b: nat): nat { if a <= b then b else a }
}
