/** The withdrawal fee, its rounding, and what rounding can change over a run of withdrawals. */
module Fees {
  import opened Prelude

  /** Division that truncates toward zero. */
  function Truncated(a: int, d: int): int
    requires 0 < d
  {
    if a >= 0 then a / d else -(-a / d)
  }

  datatype Split = Split(fee: i128, net: i128)

  function CalculateFee(amount: i128, feeBps: u32): Result<Split, ContractError> {
    if feeBps == 0 then Ok(Split(0, amount))
    else if !(I128_MIN <= amount * feeBps <= I128_MAX) then Err(OverflowError)
    else
      var fee := Max(Truncated(amount * feeBps, 10_000), 1);
      if amount - fee < I128_MIN then Err(OverflowError)
      else Ok(Split(fee, amount - fee))
  }

  /** The split is exact, takes at least one stroop and never more than the amount, and rounds down beyond that. */
  lemma FeeSplitsAmount(amount: i128, feeBps: u32)
    requires 0 < amount && 0 < feeBps <= 1000
    ensures var r := CalculateFee(amount, feeBps);
            && (r.Ok? <==> amount * feeBps <= I128_MAX)
            && (r.Ok? ==> r.value.fee + r.value.net == amount
                          && 1 <= r.value.fee <= amount
                          && (r.value.fee == 1 || 10_000 * r.value.fee <= amount * feeBps)
                          && amount * feeBps < 10_000 * (r.value.fee + 1))
    ensures CalculateFee(amount, 0) == Ok(Split(0, amount))
  {
    Scale(amount, amount, feeBps);
    assert amount * feeBps <= amount * 1000;
  }

  function Sum(parts: seq<int>): int {
    if parts == [] then 0 else Sum(parts[..|parts| - 1]) + parts[|parts| - 1]
  }

  /** The fees of a run of withdrawals, added up; an error if one of them fails. */
  function FeeSum(parts: seq<int>, feeBps: u32): Result<int, ContractError> {
    if parts == [] then Ok(0)
    else
      var last := parts[|parts| - 1];
      var front := FeeSum(parts[..|parts| - 1], feeBps);
      if front.Err? then front
      else if !(I128_MIN <= last <= I128_MAX) then Err(InvalidAmount)
      else
        match CalculateFee(last, feeBps)
        case Ok(s) => Ok(front.value + s.fee)
        case Err(e) => Err(e)
  }

  function FeeOf(amount: int, feeBps: int): int
    requires 0 <= amount && 0 <= feeBps
  {
    Max(amount * feeBps / 10_000, 1)
  }

  lemma FeeOfSum(a: int, b: int, feeBps: int)
    requires 0 < a && 0 < b && 0 < feeBps
    ensures FeeOf(a + b, feeBps) <= FeeOf(a, feeBps) + FeeOf(b, feeBps) + 1
    ensures FeeOf(a, feeBps) + FeeOf(b, feeBps) <= FeeOf(a + b, feeBps) + 1
  {
  }

  /** Splitting one total into n withdrawals changes the total fee by at most n - 1 stroops either way. */
  lemma {:induction false} SplittingFees(parts: seq<int>, feeBps: u32)
    requires parts != [] && 0 < feeBps <= 1000
    requires forall i :: 0 <= i < |parts| ==> 0 < parts[i]
    requires Sum(parts) * feeBps <= I128_MAX
    ensures 0 < Sum(parts) <= I128_MAX
    ensures var split, whole := FeeSum(parts, feeBps), CalculateFee(Sum(parts), feeBps);
            && split.Ok? && whole.Ok?
            && -(|parts| - 1) <= split.value - whole.value.fee <= |parts| - 1
  {
    var front, last := parts[..|parts| - 1], parts[|parts| - 1];
    SumPositive(parts);
    Scale(last, Sum(parts), feeBps);
    Scale(Sum(parts), Sum(parts), feeBps);
    FeeIsFeeOf(Sum(parts), feeBps);
    FeeIsFeeOf(last, feeBps);
    if front != [] {
      SumPositive(front);
      Scale(Sum(front), Sum(parts), feeBps);
      SplittingFees(front, feeBps);
      FeeIsFeeOf(Sum(front), feeBps);
      FeeOfSum(Sum(front), last, feeBps);
    }
  }

  lemma FeeIsFeeOf(amount: int, feeBps: u32)
    requires 0 < amount <= I128_MAX && 0 < feeBps && amount * feeBps <= I128_MAX
    ensures CalculateFee(amount, feeBps).Ok? && CalculateFee(amount, feeBps).value.fee == FeeOf(amount, feeBps)
  {
    Scale(amount, amount, feeBps);
  }

  lemma {:induction false} SumPositive(parts: seq<int>)
    requires forall i :: 0 <= i < |parts| ==> 0 < parts[i]
    ensures 0 <= Sum(parts)
    ensures parts != [] ==> 0 < parts[|parts| - 1] <= Sum(parts)
  {
    if parts != [] {
      SumPositive(parts[..|parts| - 1]);
    }
  }

  lemma Scale(a: int, b: int, k: int)
    requires 0 < a <= b && 0 < k
    ensures a * k <= b * k && a <= a * k
  {
  }
}
