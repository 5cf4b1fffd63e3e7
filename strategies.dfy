/**
 * The three allocation strategies and their lookup table (src/strategies.py).
 * Each computes a proposed transfer, in cents, from an allocation and a
 * budget; `0` means "no transfer".
 */
module Strategies {
  import opened Wrappers
  import opened AllocationRecords

  function Abs(x: int): nat { if x < 0 then -x else x }

  /** The floor of `_check_minimum_amount`: an unset or zero `min_amount` counts as 0. */
  function MinimumThreshold(minAmount: Option<int>): int {
    if minAmount.Some? && minAmount.value != 0 then minAmount.value else 0
  }

  /** `_check_minimum_amount`: keeps `amount` only when it is strictly above the floor. */
  function CheckMinimumAmount(amount: int, minAmount: Option<int>): (r: int)
    ensures r == 0 || r > MinimumThreshold(minAmount)
    ensures r != 0 ==> r == amount
    ensures amount > MinimumThreshold(minAmount) ==> r == amount
    ensures amount == MinimumThreshold(minAmount) ==> r == 0
  {
    if amount > MinimumThreshold(minAmount) then amount else 0
  }

  /** `_check_remainder`: the amount, capped by the remainder; the same `min` caps a top-up by `max_amount`. */
  function CheckRemainder(amount: int, remainder: int): (r: int)
    ensures r <= amount && r <= remainder
    ensures r == amount || r == remainder
  {
    if amount <= remainder then amount else remainder
  }

  /**
   * Python's `round(x, 0)` on the exact quotient `n / d`: the nearest
   * integer, and on a tie the even one.
   */
  function RoundHalfEven(n: int, d: int): (r: int)
    requires d > 0
    ensures 2 * Abs(r * d - n) <= d
    ensures 2 * Abs(r * d - n) == d ==> r % 2 == 0
  {
    var q, m := n / d, n % d;
    assert n == q * d + m;
    if 2 * m < d then q
    else if 2 * m > d then q + 1
    else if q % 2 == 0 then q
    else q + 1
  }

  /** `percentage` per cent of `budget` cents, rounded to whole cents; `percentage` is in hundredths of a percent. */
  function PercentageOf(budget: int, percentage: int): (r: int)
    ensures 2 * Abs(r * 10000 - budget * percentage) <= 10000
    ensures 2 * Abs(r * 10000 - budget * percentage) == 10000 ==> r % 2 == 0
  {
    RoundHalfEven(budget * percentage, 10000)
  }

  /**
   * `top_up_strategy`: what brings the destination up to `target_balance`,
   * capped by the budget and by a truthy `max_amount`, then filtered by the
   * minimum. The destination's balance comes from `balanceOf`.
   */
  function TopUpStrategy(a: Allocation, budget: int, balanceOf: string -> Option<int>): (r: int)
    requires a.targetBalance.Some? && balanceOf(a.iban).Some?
    ensures r == 0 || r > MinimumThreshold(a.minAmount)
    // whenever it is not filtered out (and whenever every cap that applies
    // is above the floor) it is the tightest of those caps
    ensures var shortfall, floor := a.targetBalance.value - balanceOf(a.iban).value, MinimumThreshold(a.minAmount);
      var capped := a.maxAmount.Some? && a.maxAmount.value != 0;
      (r != 0 || (shortfall > floor && budget > floor && (capped ==> a.maxAmount.value > floor))) ==>
        && r <= shortfall && r <= budget && (capped ==> r <= a.maxAmount.value)
        && (r == shortfall || r == budget || (capped && r == a.maxAmount.value))
    // nothing for a destination already at or above its target
    ensures balanceOf(a.iban).value >= a.targetBalance.value && MinimumThreshold(a.minAmount) >= 0 ==> r == 0
  {
    var balance := balanceOf(a.iban).value;
    var amount := a.targetBalance.value - balance;
    var amount := CheckRemainder(amount, budget);
    var amount := if a.maxAmount.Some? && a.maxAmount.value != 0 then CheckRemainder(amount, a.maxAmount.value) else amount;
    CheckMinimumAmount(amount, a.minAmount)
  }

  /** `fixed_strategy`: `fixed_amount`, capped by the budget, then filtered by the minimum. */
  function FixedStrategy(a: Allocation, budget: int): (r: int)
    requires a.fixedAmount.Some?
    ensures r == 0 || r > MinimumThreshold(a.minAmount)
    ensures var fixed, floor := a.fixedAmount.value, MinimumThreshold(a.minAmount);
      && (fixed <= budget && fixed > floor ==> r == fixed)
      && (budget < fixed && budget > floor ==> r == budget)
      && (fixed <= floor || budget <= floor ==> r == 0)
  {
    CheckMinimumAmount(CheckRemainder(a.fixedAmount.value, budget), a.minAmount)
  }

  /**
   * `percentage_strategy`: `percentage` of the budget, rounded to cents, then
   * filtered by the minimum. Neither the live remainder nor `max_amount`
   * caps it.
   */
  function PercentageStrategy(a: Allocation, budget: int): (r: int)
    requires a.percentage.Some?
    ensures r == 0 || r > MinimumThreshold(a.minAmount)
    ensures r != 0 ==> 2 * Abs(r * 10000 - budget * a.percentage.value) <= 10000
    ensures PercentageOf(budget, a.percentage.value) > MinimumThreshold(a.minAmount) ==> r == PercentageOf(budget, a.percentage.value)
    ensures PercentageOf(budget, a.percentage.value) <= MinimumThreshold(a.minAmount) ==> r == 0
  {
    CheckMinimumAmount(PercentageOf(budget, a.percentage.value), a.minAmount)
  }

  /** The kinds of strategy the table knows. */
  datatype StrategyKind = TopUpKind | FixedKind | PercentageKind

  /** `all_strategies`. */
  const AllStrategies: map<string, StrategyKind> :=
    map["top_up" := TopUpKind, "fixed" := FixedKind, "percentage" := PercentageKind]

  /** `all_strategies.get(key)`: `None` for every key but the three. */
  function Lookup(key: string): (r: Option<StrategyKind>)
    ensures r == Some(TopUpKind) <==> key == "top_up"
    ensures r == Some(FixedKind) <==> key == "fixed"
    ensures r == Some(PercentageKind) <==> key == "percentage"
    ensures r == None <==> key != "top_up" && key != "fixed" && key != "percentage"
  {
    if key in AllStrategies then Some(AllStrategies[key]) else None
  }

  /**
   * What a strategy needs so that calling it does not raise: a known key, and
   * the field (and, for a top-up, the destination balance) it reads.
   */
  predicate Runnable(a: Allocation, balanceOf: string -> Option<int>) {
    match Lookup(a.strategy)
    case None => false
    case Some(TopUpKind) => a.targetBalance.Some? && balanceOf(a.iban).Some?
    case Some(FixedKind) => a.fixedAmount.Some?
    case Some(PercentageKind) => a.percentage.Some?
  }

  /** The strategy the table gives for `a.strategy`, applied to `a` and `budget`. */
  function Apply(a: Allocation, budget: int, balanceOf: string -> Option<int>): (r: int)
    requires Runnable(a, balanceOf)
    ensures r == 0 || r > MinimumThreshold(a.minAmount)
    ensures a.strategy == "top_up" ==> r == TopUpStrategy(a, budget, balanceOf)
    ensures a.strategy == "fixed" ==> r == FixedStrategy(a, budget)
    ensures a.strategy == "percentage" ==> r == PercentageStrategy(a, budget)
  {
    match Lookup(a.strategy).value
    case TopUpKind => TopUpStrategy(a, budget, balanceOf)
    case FixedKind => FixedStrategy(a, budget)
    case PercentageKind => PercentageStrategy(a, budget)
  }

  /** Zero percent never yields a transfer, whatever the budget and minimum. */
  lemma PercentageZeroGivesNothing(a: Allocation, budget: int)
    requires a.percentage == Some(0)
    ensures PercentageStrategy(a, budget) == 0
  {
    assert PercentageOf(budget, 0) == 0;
  }

  /** One hundred percent of a budget above the minimum is the whole budget. */
  lemma PercentageFullGivesBudget(a: Allocation, budget: int)
    requires a.percentage == Some(10000)
    requires budget > MinimumThreshold(a.minAmount)
    ensures PercentageStrategy(a, budget) == budget
  {
    var r := PercentageOf(budget, 10000);
    assert 2 * Abs((r - budget) * 10000) <= 10000;
  }

  /** Between 0% and 100% of a non-negative budget lies between 0 and the budget. */
  lemma PercentageOfBounded(budget: int, percentage: int)
    requires budget >= 0 && 0 <= percentage <= 10000
    ensures 0 <= PercentageOf(budget, percentage) <= budget
  {
    var r, p := PercentageOf(budget, percentage), budget * percentage;
    MulNonNegative(budget, percentage);
    MulNonNegative(budget, 10000 - percentage);
    assert budget * (10000 - percentage) == budget * 10000 - p;
    assert 0 <= p <= budget * 10000;
    assert -5000 <= r * 10000 - p <= 5000;
  }

  lemma MulNonNegative(x: int, y: int)
    requires x >= 0 && y >= 0
    ensures x * y >= 0
  {
  }
}
