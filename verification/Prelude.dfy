/** Shared value types: optional values, call results, and the machine integers of the contract. */
module Prelude {

  datatype Option<+T> = None | Some(value: T)

  /** The outcome of one contract call.  A call that returns `Err` leaves the state as it was. */
  datatype Result<+T, +E> = Ok(value: T) | Err(error: E)

  const U32_MAX: int := 0xffff_ffff
  const U64_MAX: int := 0xffff_ffff_ffff_ffff
  const I128_MAX: int := 0x7fff_ffff_ffff_ffff_ffff_ffff_ffff_ffff
  const I128_MIN: int := -I128_MAX - 1

  type u32 = x: int | 0 <= x <= U32_MAX
  type u64 = x: int | 0 <= x <= U64_MAX
  type i128 = x: int | I128_MIN <= x <= I128_MAX

  predicate Distinct<T(==)>(s: seq<T>) {
    forall i, j :: 0 <= i < j < |s| ==> s[i] != s[j]
  }

  function Min(a: int, b: int): int { if a <= b then a else b }

  function Max(a: int, b: int): int { if a <= b then b else a }

  /** The contract's error codes that the modelled calls can return. */
  datatype ContractError =
    | NotInitialized | NotAuthorized | NotRegistered | AlreadyRegistered | NotFound
    | InvalidAmount | InvalidInput | InvalidFee | InsufficientBalance | OverflowError
    | ContractPaused | ContractNotPaused | CannotTipSelf | WdrBelowMin | BalanceNotZero | EmergencyNotAllowed
    | NotTipper | NotCreator | RefundAlreadyRequested | RefundWindowExpired | NoRefundRequest
    | RefundAlreadyProcessed | RefundRequestExpired | RateLimitExceeded
    | MultisigRequired | AlreadyVerified | ProposalExpired | ProposalEpochMismatch | SubscriptionLimitReached
}
