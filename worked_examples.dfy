/**
 * The engine on the allocation sets of the repository's mixed-flow test
 * scenarios (main_test.py:335-472), amounts in cents. Those scenarios were written for
 * an engine that subtracted the settings' minimum first, so the starting
 * remainders here are the balance minus that minimum. The lemmas hold for
 * any allocations with the scenario's settings, whatever their names and
 * accounts.
 */
module WorkedExamples {
  import opened Wrappers
  import opened AllocationRecords
  import opened Strategies
  import opened PriorityOrder
  import opened Automate

  /** A top-up to `target` at `priority`, no caps, whose account holds `balance`. */
  predicate TopUp(a: Allocation, target: int, priority: int, balanceOf: string -> Option<int>, balance: int) {
    && a.strategy == "top_up" && a.targetBalance == Some(target) && a.maxAmount == None
    && a.minAmount == None && a.priority == Some(priority) && balanceOf(a.iban) == Some(balance)
  }

  /** A fixed transfer of `amount` at `priority`, no minimum. */
  predicate Fixed(a: Allocation, amount: int, priority: int) {
    a.strategy == "fixed" && a.fixedAmount == Some(amount) && a.minAmount == None && a.priority == Some(priority)
  }

  /** A share of `percentage` hundredths of a percent at `priority`, no minimum. */
  predicate Share(a: Allocation, percentage: int, priority: int) {
    a.strategy == "percentage" && a.percentage == Some(percentage) && a.minAmount == None && a.priority == Some(priority)
  }

  /** A share of `percentage` hundredths of a percent at `priority`, paid only above `minimum`. */
  predicate ShareAbove(a: Allocation, percentage: int, priority: int, minimum: int) {
    a.strategy == "percentage" && a.percentage == Some(percentage) && a.minAmount == Some(minimum) && a.priority == Some(priority)
  }

  /** Three allocations at priority 1 followed by two at priority 2. */
  predicate TwoPriorities(xs: seq<Allocation>) {
    && |xs| == 5
    && xs[0].priority == Some(1) && xs[1].priority == Some(1) && xs[2].priority == Some(1)
    && xs[3].priority == Some(2) && xs[4].priority == Some(2)
  }

  /**
   * The scenario: two top-ups (to 4000.00 of an account holding 3800.00 and
   * to 250.00 of one holding 189.56) and a fixed 250.00 at priority 1, then
   * 33.33% and 66.67% at priority 2.
   */
  predicate Scenario(balanceOf: string -> Option<int>, xs: seq<Allocation>) {
    && |xs| == 5
    && TopUp(xs[0], 400000, 1, balanceOf, 380000) && TopUp(xs[1], 25000, 1, balanceOf, 18956)
    && Fixed(xs[2], 25000, 1) && Share(xs[3], 3333, 2) && Share(xs[4], 6667, 2)
  }

  lemma ScenarioRunnable(balanceOf: string -> Option<int>, xs: seq<Allocation>)
    requires Scenario(balanceOf, xs)
    ensures AllRunnable(xs, balanceOf)
  {
    assert Lookup("top_up") == Some(TopUpKind) && Lookup("fixed") == Some(FixedKind);
    assert Lookup("percentage") == Some(PercentageKind);
  }

  /** Such allocations are already in priority order and split into their two priorities. */
  lemma ScenarioGroups(xs: seq<Allocation>)
    requires TwoPriorities(xs)
    ensures Groups(xs) == [xs[..3], xs[3..]]
  {
    TwoPrioritiesSorted(xs);
    SortByKeepsSorted(xs, Rank);
    SplitAtThree(xs);
  }

  lemma TwoPrioritiesSorted(xs: seq<Allocation>)
    requires TwoPriorities(xs)
    ensures SortedBy(xs, Rank)
  {
    assert forall k :: 0 <= k < 3 ==> Rank(xs[k]) == 1;
    assert forall k :: 3 <= k < 5 ==> Rank(xs[k]) == 2;
  }

  lemma SplitAtThree(xs: seq<Allocation>)
    requires TwoPriorities(xs)
    ensures GroupBy(xs, Rank) == [xs[..3], xs[3..]]
  {
    assert forall k :: 0 <= k < 3 ==> Rank(xs[k]) == 1;
    GroupByFirst(xs, Rank, 3);
    TwoOfAKind(xs[3..]);
  }

  lemma TwoOfAKind(s: seq<Allocation>)
    requires |s| == 2 && Rank(s[0]) == Rank(s[1])
    ensures GroupBy(s, Rank) == [s]
  {
    GroupByFirst(s, Rank, 2);
    assert s[..2] == s && s[2..] == [];
  }

  lemma TopUpStep(ctx: Context, a: Allocation, target: int, priority: int, balance: int, remainder: int)
    requires TopUp(a, target, priority, ctx.balanceOf, balance) && 0 < target - balance <= remainder
    ensures Runnable(a, ctx.balanceOf)
    ensures Process(ctx, a, None, remainder)
      == Ledger(remainder - (target - balance), [PaymentFor(ctx, a, target - balance)])
  {
    assert Lookup(a.strategy) == Some(TopUpKind);
  }

  lemma FixedStep(ctx: Context, a: Allocation, amount: int, priority: int, remainder: int)
    requires Fixed(a, amount, priority) && 0 < amount && 0 < remainder
    ensures Runnable(a, ctx.balanceOf)
    ensures var paid := if amount <= remainder then amount else remainder;
      Process(ctx, a, None, remainder) == Ledger(remainder - paid, [PaymentFor(ctx, a, paid)])
  {
    assert Lookup(a.strategy) == Some(FixedKind);
  }

  lemma ShareStep(ctx: Context, a: Allocation, percentage: int, priority: int, base: int, remainder: int)
    requires Share(a, percentage, priority) && base != 0 && PercentageOf(base, percentage) > 0
    ensures Runnable(a, ctx.balanceOf)
    ensures var paid := PercentageOf(base, percentage);
      Process(ctx, a, Some(base), remainder) == Ledger(remainder - paid, [PaymentFor(ctx, a, paid)])
  {
    assert Lookup(a.strategy) == Some(PercentageKind);
  }

  /** The non-percentage pass of the priority-1 group. */
  lemma FirstGroupFirstPass(ctx: Context, g: seq<Allocation>, start: int)
    requires |g| == 3 && TopUp(g[0], 400000, 1, ctx.balanceOf, 380000) && TopUp(g[1], 25000, 1, ctx.balanceOf, 18956)
    requires Fixed(g[2], 25000, 1) && start > 26044
    ensures AllRunnable(g, ctx.balanceOf)
    ensures var fixed := if 25000 <= start - 26044 then 25000 else start - 26044;
      Pass(ctx, g, false, None, start) == Ledger(start - 26044 - fixed,
        [PaymentFor(ctx, g[0], 20000), PaymentFor(ctx, g[1], 6044), PaymentFor(ctx, g[2], fixed)])
  {
    TopUpsPass(ctx, g, start);
    FixedStep(ctx, g[2], 25000, 1, start - 26044);
    PassStep(ctx, g, 2, false, None, start);
    assert g[..3] == g;
  }

  /** The two top-ups of the priority-1 group take 200.00 and 60.44. */
  lemma TopUpsPass(ctx: Context, g: seq<Allocation>, start: int)
    requires |g| == 3 && TopUp(g[0], 400000, 1, ctx.balanceOf, 380000) && TopUp(g[1], 25000, 1, ctx.balanceOf, 18956)
    requires Fixed(g[2], 25000, 1) && start > 26044
    ensures AllRunnable(g, ctx.balanceOf)
    ensures Pass(ctx, g[..2], false, None, start)
      == Ledger(start - 26044, [PaymentFor(ctx, g[0], 20000), PaymentFor(ctx, g[1], 6044)])
  {
    assert Lookup("top_up") == Some(TopUpKind) && Lookup("fixed") == Some(FixedKind);
    assert g[..0] == [];
    TopUpPassStep(ctx, g, 0, 400000, 380000, start, start, []);
    TopUpPassStep(ctx, g, 1, 25000, 18956, start, start - 20000, [PaymentFor(ctx, g[0], 20000)]);
  }

  /** A first pass over one more top-up whose shortfall the remainder covers. */
  lemma TopUpPassStep(ctx: Context, g: seq<Allocation>, j: nat, target: int, balance: int,
                      start: int, remainder: int, paid: seq<Payment>)
    requires j < |g| && AllRunnable(g, ctx.balanceOf)
    requires TopUp(g[j], target, 1, ctx.balanceOf, balance) && 0 < target - balance <= remainder
    requires Pass(ctx, g[..j], false, None, start) == Ledger(remainder, paid)
    ensures Pass(ctx, g[..j + 1], false, None, start)
      == Ledger(remainder - (target - balance), paid + [PaymentFor(ctx, g[j], target - balance)])
  {
    TopUpStep(ctx, g[j], target, 1, balance, remainder);
    PassStep(ctx, g, j, false, None, start);
  }

  /** A pass over allocations none of which belongs to it pays nothing. */
  lemma {:induction false} PassOverOtherKind(ctx: Context, xs: seq<Allocation>, pct: bool, original: Option<int>, remainder: int)
    requires AllRunnable(xs, ctx.balanceOf)
    requires forall k :: 0 <= k < |xs| ==> IsPercentage(xs[k]) != pct
    ensures Pass(ctx, xs, pct, original, remainder) == Ledger(remainder, [])
    decreases |xs|
  {
    if |xs| != 0 {
      PassOverOtherKind(ctx, xs[..|xs| - 1], pct, original, remainder);
    }
  }

  /**
   * The priority-1 group from any start that covers both top-ups: 200.00
   * and 60.44 in top-ups, then the fixed 250.00 capped by what is left.
   */
  lemma FirstGroup(ctx: Context, g: seq<Allocation>, start: int)
    requires |g| == 3 && TopUp(g[0], 400000, 1, ctx.balanceOf, 380000) && TopUp(g[1], 25000, 1, ctx.balanceOf, 18956)
    requires Fixed(g[2], 25000, 1) && start > 26044
    ensures AllRunnable(g, ctx.balanceOf)
    ensures var fixed := if 25000 <= start - 26044 then 25000 else start - 26044;
      RunGroup(ctx, g, start) == Ledger(start - 26044 - fixed,
        [PaymentFor(ctx, g[0], 20000), PaymentFor(ctx, g[1], 6044), PaymentFor(ctx, g[2], fixed)])
  {
    FirstGroupFirstPass(ctx, g, start);
    var first := Pass(ctx, g, false, None, start);
    PassOverOtherKind(ctx, g, true, Some(first.remainder), first.remainder);
    assert first.payments + [] == first.payments;
  }

  /**
   * The priority-2 group: both shares are taken of the remainder the group
   * starts with, which the empty first pass leaves untouched.
   */
  lemma SecondGroup(ctx: Context, g: seq<Allocation>, start: int)
    requires |g| == 2 && Share(g[0], 3333, 2) && Share(g[1], 6667, 2)
    requires start != 0 && PercentageOf(start, 3333) > 0 && PercentageOf(start, 6667) > 0
    ensures AllRunnable(g, ctx.balanceOf)
    ensures var small, large := PercentageOf(start, 3333), PercentageOf(start, 6667);
      RunGroup(ctx, g, start) == Ledger(start - small - large, [PaymentFor(ctx, g[0], small), PaymentFor(ctx, g[1], large)])
  {
    assert Lookup("percentage") == Some(PercentageKind);
    PassOverOtherKind(ctx, g, false, None, start);
    assert g[..0] == [] && g[..2] == g;
    var small := PercentageOf(start, 3333);
    SharePassStep(ctx, g, 0, 3333, 2, start, start, []);
    SharePassStep(ctx, g, 1, 6667, 2, start, start - small, [PaymentFor(ctx, g[0], small)]);
  }

  /** The priority-2 group when nothing is left: both shares are of nothing, so nothing is paid. */
  lemma SecondGroupOfNothing(ctx: Context, g: seq<Allocation>)
    requires |g| == 2 && Share(g[0], 3333, 2) && Share(g[1], 6667, 2)
    ensures AllRunnable(g, ctx.balanceOf)
    ensures RunGroup(ctx, g, 0) == Ledger(0, [])
  {
    assert Lookup("percentage") == Some(PercentageKind);
    assert PercentageOf(0, 3333) == 0 && PercentageOf(0, 6667) == 0;
    PassOverOtherKind(ctx, g, false, None, 0);
    assert g[..2] == g;
    PassStep(ctx, g, 0, true, Some(0), 0);
    PassStep(ctx, g, 1, true, Some(0), 0);
  }

  /** Two groups run one after the other. */
  lemma TwoGroups(ctx: Context, g1: seq<Allocation>, g2: seq<Allocation>, start: int)
    requires AllRunnable(g1, ctx.balanceOf) && AllRunnable(g2, ctx.balanceOf)
    ensures AllGroupsRunnable([g1, g2], ctx.balanceOf)
    ensures var one := RunGroup(ctx, g1, start);
      var two := RunGroup(ctx, g2, one.remainder);
      RunGroups(ctx, [g1, g2], start) == Ledger(two.remainder, one.payments + two.payments)
  {
    var one := RunGroup(ctx, g1, start);
    assert [g1, g2][..1] == [g1] && [g1][..0] == [];
    assert [] + one.payments == one.payments;
    assert RunGroups(ctx, [g1], start) == one;
  }

  /**
   * Starting from 2200.00: 200.00, 60.44 and 250.00 in the priority-1 group
   * leave 1689.56, of which the priority-2 group pays 33.33% (563.13) and
   * 66.67% (1126.43), spending the balance exactly.
   */
  lemma FullScenario(ctx: Context, xs: seq<Allocation>)
    requires Scenario(ctx.balanceOf, xs)
    ensures AllRunnable(xs, ctx.balanceOf)
    ensures RunAllocations(ctx, xs, 220000) == Ledger(0,
      [PaymentFor(ctx, xs[0], 20000), PaymentFor(ctx, xs[1], 6044), PaymentFor(ctx, xs[2], 25000),
       PaymentFor(ctx, xs[3], 56313), PaymentFor(ctx, xs[4], 112643)])
  {
    ScenarioRunnable(ctx.balanceOf, xs);
    ScenarioGroups(xs);
    FirstGroup(ctx, xs[..3], 220000);
    assert PercentageOf(168956, 3333) == 56313 && PercentageOf(168956, 6667) == 112643;
    SecondGroup(ctx, xs[3..], 168956);
    TwoGroups(ctx, xs[..3], xs[3..], 220000);
  }

  /**
   * Starting from 360.00: the top-ups take 260.44, the fixed transfer gets
   * only the 99.56 left, and the percentage group, starting from nothing,
   * pays nothing.
   */
  lemma ShortScenario(ctx: Context, xs: seq<Allocation>)
    requires Scenario(ctx.balanceOf, xs)
    ensures AllRunnable(xs, ctx.balanceOf)
    ensures RunAllocations(ctx, xs, 36000) == Ledger(0,
      [PaymentFor(ctx, xs[0], 20000), PaymentFor(ctx, xs[1], 6044), PaymentFor(ctx, xs[2], 9956)])
  {
    ScenarioRunnable(ctx.balanceOf, xs);
    ScenarioGroups(xs);
    FirstGroup(ctx, xs[..3], 36000);
    SecondGroupOfNothing(ctx, xs[3..]);
    TwoGroups(ctx, xs[..3], xs[3..], 36000);
  }

  /**
   * Percentages that add up to less than 100% can still overdraw: three
   * shares of 33.33% of 0.02 each round up to 0.01, paying 0.03 out of 0.02.
   */
  lemma RoundingOverdraws(ctx: Context, g: seq<Allocation>, priority: int)
    requires |g| == 3 && Share(g[0], 3333, priority) && Share(g[1], 3333, priority) && Share(g[2], 3333, priority)
    ensures AllRunnable(g, ctx.balanceOf)
    ensures RunGroup(ctx, g, 2) == Ledger(-1, [PaymentFor(ctx, g[0], 1), PaymentFor(ctx, g[1], 1), PaymentFor(ctx, g[2], 1)])
  {
    OverdrawingPass(ctx, g, priority);
    PassOverOtherKind(ctx, g, false, None, 2);
  }

  lemma OverdrawingPass(ctx: Context, g: seq<Allocation>, priority: int)
    requires |g| == 3 && Share(g[0], 3333, priority) && Share(g[1], 3333, priority) && Share(g[2], 3333, priority)
    ensures AllRunnable(g, ctx.balanceOf)
    ensures Pass(ctx, g, true, Some(2), 2) == Ledger(-1, [PaymentFor(ctx, g[0], 1), PaymentFor(ctx, g[1], 1), PaymentFor(ctx, g[2], 1)])
  {
    assert PercentageOf(2, 3333) == 1;
    assert Lookup("percentage") == Some(PercentageKind);
    assert g[..0] == [] && g[..3] == g;
    SharePassStep(ctx, g, 0, 3333, priority, 2, 2, []);
    SharePassStep(ctx, g, 1, 3333, priority, 2, 1, [PaymentFor(ctx, g[0], 1)]);
    SharePassStep(ctx, g, 2, 3333, priority, 2, 0, [PaymentFor(ctx, g[0], 1), PaymentFor(ctx, g[1], 1)]);
  }

  /** A percentage pass over one more allocation that gets a positive share of `base`. */
  lemma SharePassStep(ctx: Context, g: seq<Allocation>, j: nat, percentage: int, priority: int,
                      base: int, remainder: int, paid: seq<Payment>)
    requires j < |g| && AllRunnable(g, ctx.balanceOf) && Share(g[j], percentage, priority)
    requires base != 0 && PercentageOf(base, percentage) > 0
    requires Pass(ctx, g[..j], true, Some(base), base) == Ledger(remainder, paid)
    ensures AllRunnable(g[..j + 1], ctx.balanceOf)
    ensures var share := PercentageOf(base, percentage);
      Pass(ctx, g[..j + 1], true, Some(base), base) == Ledger(remainder - share, paid + [PaymentFor(ctx, g[j], share)])
  {
    ShareStep(ctx, g[j], percentage, priority, base, remainder);
    PassStep(ctx, g, j, true, Some(base), base);
  }

  /**
   * The scenario with a late minimum: the same priority-1 group, then two
   * 50% shares at priority 2, the second paid only above 100.00.
   */
  predicate LateMinimumScenario(balanceOf: string -> Option<int>, xs: seq<Allocation>) {
    && |xs| == 5
    && TopUp(xs[0], 400000, 1, balanceOf, 380000) && TopUp(xs[1], 25000, 1, balanceOf, 18956)
    && Fixed(xs[2], 25000, 1) && Share(xs[3], 5000, 2) && ShareAbove(xs[4], 5000, 2, 10000)
  }

  /** A share that does not exceed its nonzero minimum pays nothing and leaves the remainder alone. */
  lemma FilteredShareStep(ctx: Context, a: Allocation, percentage: int, priority: int, minimum: int,
                          base: int, remainder: int)
    requires ShareAbove(a, percentage, priority, minimum) && minimum != 0
    requires base != 0 && PercentageOf(base, percentage) <= minimum
    ensures Runnable(a, ctx.balanceOf)
    ensures Process(ctx, a, Some(base), remainder) == Ledger(remainder, [])
  {
    assert Lookup(a.strategy) == Some(PercentageKind);
  }

  /**
   * The priority-2 group of the late-minimum scenario: both halves are of
   * the group's starting remainder; the first is paid, the second is not
   * above its minimum of 100.00 and is dropped.
   */
  lemma LateMinimumGroup(ctx: Context, g: seq<Allocation>, start: int)
    requires |g| == 2 && Share(g[0], 5000, 2) && ShareAbove(g[1], 5000, 2, 10000)
    requires start != 0 && 0 < PercentageOf(start, 5000) <= 10000
    ensures AllRunnable(g, ctx.balanceOf)
    ensures var half := PercentageOf(start, 5000);
      RunGroup(ctx, g, start) == Ledger(start - half, [PaymentFor(ctx, g[0], half)])
  {
    var half := PercentageOf(start, 5000);
    assert Lookup("percentage") == Some(PercentageKind);
    FilteredShareStep(ctx, g[1], 5000, 2, 10000, start, start - half);
    PassOverOtherKind(ctx, g, false, None, start);
    assert g[..0] == [] && g[..2] == g;
    SharePassStep(ctx, g, 0, 5000, 2, start, start, []);
    PassStep(ctx, g, 1, true, Some(start), start);
  }

  /**
   * Starting from 560.00: 200.00, 60.44 and 250.00 in the priority-1 group
   * leave 49.56; the first 50% share pays 24.78, and the second, also 24.78,
   * is not above its 100.00 minimum and pays nothing.
   */
  lemma LateMinimum(ctx: Context, xs: seq<Allocation>)
    requires LateMinimumScenario(ctx.balanceOf, xs)
    ensures AllRunnable(xs, ctx.balanceOf)
    ensures RunAllocations(ctx, xs, 56000) == Ledger(2478,
      [PaymentFor(ctx, xs[0], 20000), PaymentFor(ctx, xs[1], 6044), PaymentFor(ctx, xs[2], 25000),
       PaymentFor(ctx, xs[3], 2478)])
  {
    ScenarioGroups(xs);
    FirstGroup(ctx, xs[..3], 56000);
    assert PercentageOf(4956, 5000) == 2478;
    LateMinimumGroup(ctx, xs[3..], 4956);
    assert AllRunnable(xs, ctx.balanceOf) by {
      assert forall k :: 0 <= k < 3 ==> xs[k] == xs[..3][k];
      assert forall k :: 3 <= k < 5 ==> xs[k] == xs[3..][k - 3];
    }
    TwoGroups(ctx, xs[..3], xs[3..], 56000);
  }
}
