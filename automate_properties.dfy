/**
 * What a run of the engine (src/automate.py) guarantees, proved about the
 * functions in automate.dfy that the engine's methods are proved to follow.
 */
module AutomateProperties {
  import opened Wrappers
  import opened AllocationRecords
  import opened Strategies
  import opened PriorityOrder
  import opened Automate

  /** The sum of the payments' amounts. */
  function Total(ps: seq<Payment>): int {
    if |ps| == 0 then 0 else Total(ps[..|ps| - 1]) + ps[|ps| - 1].amount
  }

  lemma {:induction false} TotalAppend(a: seq<Payment>, b: seq<Payment>)
    ensures Total(a + b) == Total(a) + Total(b)
    decreases |b|
  {
    if |b| != 0 {
      assert (a + b)[..|a + b| - 1] == a + b[..|b| - 1];
      assert (a + b)[|a + b| - 1] == b[|b| - 1];
      TotalAppend(a, b[..|b| - 1]);
    } else {
      assert a + b == a;
    }
  }

  /** Every payment moves a positive amount. */
  predicate AllPositive(ps: seq<Payment>) {
    forall k :: 0 <= k < |ps| ==> ps[k].amount > 0
  }

  /**
   * Every payment is the one `_process_allocation` makes for its allocation
   * and amount: from the settings' account, to the allocation's IBAN, with
   * the run's `simulate` flag and starting balance.
   */
  predicate Issued(ctx: Context, ps: seq<Payment>) {
    forall k :: 0 <= k < |ps| ==> ps[k] == PaymentFor(ctx, ps[k].allocation, ps[k].amount)
  }

  /** Every payment pays one of `xs`. */
  predicate PaysFrom(ps: seq<Payment>, xs: seq<Allocation>) {
    forall k :: 0 <= k < |ps| ==> ps[k].allocation in xs
  }

  /**
   * One `_process_allocation`: at most one payment, for a positive amount,
   * and the remainder drops by exactly what was paid; a payment is made
   * exactly when the strategy's amount is positive.
   */
  lemma ProcessConserves(ctx: Context, a: Allocation, original: Option<int>, remainder: int)
    requires Runnable(a, ctx.balanceOf)
    ensures var l := Process(ctx, a, original, remainder);
      && l.remainder == remainder - Total(l.payments)
      && AllPositive(l.payments) && Issued(ctx, l.payments) && PaysFrom(l.payments, [a])
      && |l.payments| <= 1
      && (|l.payments| == 1 <==> Apply(a, Budget(original, remainder), ctx.balanceOf) > 0)
  {
    var l := Process(ctx, a, original, remainder);
    if |l.payments| == 1 {
      assert l.payments[..0] == [];
    }
  }

  /**
   * A pass's payments are each positive and as `_process_allocation` makes
   * them, and the remainder drops by exactly the total paid.
   */
  lemma {:induction false} PassConserves(ctx: Context, xs: seq<Allocation>, pct: bool, original: Option<int>, remainder: int)
    requires AllRunnable(xs, ctx.balanceOf)
    ensures var l := Pass(ctx, xs, pct, original, remainder);
      l.remainder == remainder - Total(l.payments) && AllPositive(l.payments) && Issued(ctx, l.payments)
    decreases |xs|
  {
    if |xs| != 0 {
      var n := |xs| - 1;
      var before := Pass(ctx, xs[..n], pct, original, remainder);
      PassConserves(ctx, xs[..n], pct, original, remainder);
      PassStep(ctx, xs, n, pct, original, remainder);
      assert xs[..n + 1] == xs;
      if IsPercentage(xs[n]) == pct {
        var step := Process(ctx, xs[n], original, before.remainder);
        ProcessConserves(ctx, xs[n], original, before.remainder);
        ConservedAppend(ctx, before.payments, step.payments);
      }
    }
  }

  /** Positive, correctly issued payments stay so when concatenated, and their totals add. */
  lemma ConservedAppend(ctx: Context, a: seq<Payment>, b: seq<Payment>)
    requires AllPositive(a) && Issued(ctx, a) && AllPositive(b) && Issued(ctx, b)
    ensures AllPositive(a + b) && Issued(ctx, a + b) && Total(a + b) == Total(a) + Total(b)
  {
    TotalAppend(a, b);
  }

  /** A pass pays only allocations of `xs`, and only those of its own kind. */
  lemma {:induction false} PassPaysOwnKind(ctx: Context, xs: seq<Allocation>, pct: bool, original: Option<int>, remainder: int)
    requires AllRunnable(xs, ctx.balanceOf)
    ensures var ps := Pass(ctx, xs, pct, original, remainder).payments;
      PaysFrom(ps, xs) && forall k :: 0 <= k < |ps| ==> IsPercentage(ps[k].allocation) == pct
    decreases |xs|
  {
    if |xs| != 0 {
      var n := |xs| - 1;
      var before := Pass(ctx, xs[..n], pct, original, remainder).payments;
      PassPaysOwnKind(ctx, xs[..n], pct, original, remainder);
      assert forall k :: 0 <= k < |before| ==> before[k].allocation in xs by {
        forall k | 0 <= k < |before|
          ensures before[k].allocation in xs
        {
          assert before[k].allocation in xs[..n];
        }
      }
    }
  }

  /**
   * A first pass started with money never overdraws it: each fixed or
   * top-up amount is at most the live remainder, so the remainder stays
   * between 0 and where it started.
   */
  lemma {:induction false} FirstPassStaysCovered(ctx: Context, xs: seq<Allocation>, remainder: int)
    requires AllRunnable(xs, ctx.balanceOf) && remainder >= 0
    ensures 0 <= Pass(ctx, xs, false, None, remainder).remainder <= remainder
    decreases |xs|
  {
    if |xs| != 0 {
      var n := |xs| - 1;
      FirstPassStaysCovered(ctx, xs[..n], remainder);
      var before := Pass(ctx, xs[..n], false, None, remainder);
      if !IsPercentage(xs[n]) {
        NonPercentageWithinBudget(xs[n], before.remainder, ctx.balanceOf);
      }
    }
  }

  /** A fixed or top-up amount that is positive is at most the budget. */
  lemma NonPercentageWithinBudget(a: Allocation, budget: int, balanceOf: string -> Option<int>)
    requires Runnable(a, balanceOf) && !IsPercentage(a)
    ensures Apply(a, budget, balanceOf) > 0 ==> Apply(a, budget, balanceOf) <= budget
  {
  }

  /**
   * With nothing (or less than nothing) left, a first pass pays nobody and
   * leaves the remainder alone.
   */
  lemma {:induction false} FirstPassIdleWhenEmpty(ctx: Context, xs: seq<Allocation>, remainder: int)
    requires AllRunnable(xs, ctx.balanceOf) && remainder <= 0
    ensures Pass(ctx, xs, false, None, remainder) == Ledger(remainder, [])
    decreases |xs|
  {
    if |xs| != 0 {
      var n := |xs| - 1;
      FirstPassIdleWhenEmpty(ctx, xs[..n], remainder);
      if !IsPercentage(xs[n]) {
        NonPercentageWithinBudget(xs[n], remainder, ctx.balanceOf);
      }
    }
  }

  /**
   * The percentage payments of `xs` on the fixed base `base`, independent of
   * any remainder: one payment per percentage allocation whose share of
   * `base` is positive, in order.
   */
  function PercentagePayments(ctx: Context, xs: seq<Allocation>, base: int): seq<Payment>
    requires AllRunnable(xs, ctx.balanceOf)
    decreases |xs|
  {
    if |xs| == 0 then []
    else
      var a := xs[|xs| - 1];
      PercentagePayments(ctx, xs[..|xs| - 1], base)
        + if IsPercentage(a) && PercentageStrategy(a, base) > 0
          then [PaymentFor(ctx, a, PercentageStrategy(a, base))] else []
  }

  /** A share of nothing is nothing. */
  lemma PercentageOfNothing(a: Allocation)
    requires a.percentage.Some?
    ensures PercentageStrategy(a, 0) == 0
  {
    assert PercentageOf(0, a.percentage.value) == 0;
  }

  lemma {:induction false} NoPercentagePaymentsOfNothing(ctx: Context, xs: seq<Allocation>)
    requires AllRunnable(xs, ctx.balanceOf)
    ensures PercentagePayments(ctx, xs, 0) == []
    decreases |xs|
  {
    if |xs| != 0 {
      NoPercentagePaymentsOfNothing(ctx, xs[..|xs| - 1]);
      if IsPercentage(xs[|xs| - 1]) {
        PercentageOfNothing(xs[|xs| - 1]);
      }
    }
  }

  /**
   * The frozen base: a second pass started at `base` with `base` as
   * `original_remainder` pays every percentage allocation its share of
   * `base`, never of the shrinking live remainder. When `base` is 0 the
   * code hands the live remainder over instead (0 is falsy), but that
   * remainder is then 0 as well and stays 0, so the outcome is the same.
   */
  lemma {:induction false} SecondPassUsesFrozenBase(ctx: Context, xs: seq<Allocation>, base: int)
    requires AllRunnable(xs, ctx.balanceOf)
    ensures var ps := PercentagePayments(ctx, xs, base);
      Pass(ctx, xs, true, Some(base), base) == Ledger(base - Total(ps), ps)
    decreases |xs|
  {
    if |xs| != 0 {
      var n := |xs| - 1;
      var before := Pass(ctx, xs[..n], true, Some(base), base);
      var ps := PercentagePayments(ctx, xs[..n], base);
      SecondPassUsesFrozenBase(ctx, xs[..n], base);
      if base == 0 {
        NoPercentagePaymentsOfNothing(ctx, xs[..n]);
        assert before.remainder == 0;
      }
      FrozenStep(ctx, xs, base, before.remainder, ps);
    }
  }

  /** `SecondPassUsesFrozenBase` over one more allocation. */
  lemma FrozenStep(ctx: Context, xs: seq<Allocation>, base: int, remainder: int, ps: seq<Payment>)
    requires |xs| > 0 && AllRunnable(xs, ctx.balanceOf)
    requires Budget(Some(base), remainder) == base
    requires ps == PercentagePayments(ctx, xs[..|xs| - 1], base)
    requires Pass(ctx, xs[..|xs| - 1], true, Some(base), base) == Ledger(remainder, ps) && remainder == base - Total(ps)
    ensures var ps' := PercentagePayments(ctx, xs, base);
      Pass(ctx, xs, true, Some(base), base) == Ledger(base - Total(ps'), ps')
  {
    var n := |xs| - 1;
    var a := xs[n];
    if IsPercentage(a) {
      var step := Process(ctx, a, Some(base), remainder);
      assert Apply(a, base, ctx.balanceOf) == PercentageStrategy(a, base);
      assert step.payments == if PercentageStrategy(a, base) > 0 then [PaymentFor(ctx, a, PercentageStrategy(a, base))] else [];
      TotalAppend(ps, step.payments);
      assert PercentagePayments(ctx, xs, base) == ps + step.payments;
      assert Pass(ctx, xs, true, Some(base), base) == Ledger(step.remainder, ps + step.payments);
    } else {
      assert PercentagePayments(ctx, xs, base) == ps + [];
      assert ps + [] == ps;
    }
  }

  /**
   * A group is its first pass on the live remainder followed by the
   * percentage payments on the remainder that pass leaves.
   */
  lemma RunGroupIsTwoPasses(ctx: Context, g: seq<Allocation>, remainder: int)
    requires AllRunnable(g, ctx.balanceOf)
    ensures var first := Pass(ctx, g, false, None, remainder);
      var ps := PercentagePayments(ctx, g, first.remainder);
      RunGroup(ctx, g, remainder) == Ledger(first.remainder - Total(ps), first.payments + ps)
  {
    SecondPassUsesFrozenBase(ctx, g, Pass(ctx, g, false, None, remainder).remainder);
  }

  /** Within a group, no fixed or top-up payment comes after a percentage payment. */
  lemma RunGroupPaysNonPercentageFirst(ctx: Context, g: seq<Allocation>, remainder: int)
    requires AllRunnable(g, ctx.balanceOf)
    ensures var ps := RunGroup(ctx, g, remainder).payments;
      forall i, j :: 0 <= i < j < |ps| && IsPercentage(ps[i].allocation) ==> IsPercentage(ps[j].allocation)
    ensures PaysFrom(RunGroup(ctx, g, remainder).payments, g)
  {
    var first := Pass(ctx, g, false, None, remainder);
    var second := Pass(ctx, g, true, Some(first.remainder), first.remainder);
    PassPaysOwnKind(ctx, g, false, None, remainder);
    PassPaysOwnKind(ctx, g, true, Some(first.remainder), first.remainder);
    var ps := first.payments + second.payments;
    forall i, j | 0 <= i < j < |ps| && IsPercentage(ps[i].allocation)
      ensures IsPercentage(ps[j].allocation)
    {
      assert ps[j] == second.payments[j - |first.payments|];
    }
  }

  /** A group's payments are positive, as issued, and take exactly what they pay from the remainder. */
  lemma RunGroupConserves(ctx: Context, g: seq<Allocation>, remainder: int)
    requires AllRunnable(g, ctx.balanceOf)
    ensures var l := RunGroup(ctx, g, remainder);
      l.remainder == remainder - Total(l.payments) && AllPositive(l.payments) && Issued(ctx, l.payments)
  {
    var first := Pass(ctx, g, false, None, remainder);
    var second := Pass(ctx, g, true, Some(first.remainder), first.remainder);
    PassConserves(ctx, g, false, None, remainder);
    PassConserves(ctx, g, true, Some(first.remainder), first.remainder);
    TotalAppend(first.payments, second.payments);
  }

  /** Over all groups: positive payments, as issued, and the remainder drops by exactly the total. */
  lemma {:induction false} RunGroupsConserves(ctx: Context, gs: seq<seq<Allocation>>, remainder: int)
    requires AllGroupsRunnable(gs, ctx.balanceOf)
    ensures var l := RunGroups(ctx, gs, remainder);
      l.remainder == remainder - Total(l.payments) && AllPositive(l.payments) && Issued(ctx, l.payments)
    decreases |gs|
  {
    if |gs| != 0 {
      var n := |gs| - 1;
      var before := RunGroups(ctx, gs[..n], remainder);
      RunGroupsConserves(ctx, gs[..n], remainder);
      RunGroupConserves(ctx, gs[n], before.remainder);
      TotalAppend(before.payments, RunGroup(ctx, gs[n], before.remainder).payments);
    }
  }

  /** Every allocation of a group has that group's priority. */
  predicate UniformRank(gs: seq<seq<Allocation>>) {
    forall i, j :: 0 <= i < |gs| && 0 <= j < |gs[i]| ==> Rank(gs[i][j]) == Rank(gs[i][0])
  }

  /** The payments are in nondecreasing priority of the allocations they pay. */
  predicate InPriorityOrder(ps: seq<Payment>) {
    forall i, j :: 0 <= i < j < |ps| ==> Rank(ps[i].allocation) <= Rank(ps[j].allocation)
  }

  /** No payment pays an allocation with priority above `top`. */
  predicate RanksAtMost(ps: seq<Payment>, top: int) {
    forall k :: 0 <= k < |ps| ==> Rank(ps[k].allocation) <= top
  }

  lemma AppendInPriorityOrder(before: seq<Payment>, step: seq<Payment>, below: int, top: int)
    requires InPriorityOrder(before) && RanksAtMost(before, below) && below < top
    requires forall k :: 0 <= k < |step| ==> Rank(step[k].allocation) == top
    ensures InPriorityOrder(before + step) && RanksAtMost(before + step, top)
  {
    var ps := before + step;
    forall i, j | 0 <= i < j < |ps|
      ensures Rank(ps[i].allocation) <= Rank(ps[j].allocation)
    {
      if j >= |before| {
        assert ps[j] == step[j - |before|];
        if i < |before| {
          assert ps[i] == before[i];
        } else {
          assert ps[i] == step[i - |before|];
        }
      }
    }
    forall k | 0 <= k < |ps|
      ensures Rank(ps[k].allocation) <= top
    {
      if k >= |before| {
        assert ps[k] == step[k - |before|];
      }
    }
  }

  /** A group whose allocations share one priority pays only at that priority. */
  lemma RunGroupPaysAtItsRank(ctx: Context, g: seq<Allocation>, remainder: int)
    requires AllRunnable(g, ctx.balanceOf) && |g| > 0
    requires forall j :: 0 <= j < |g| ==> Rank(g[j]) == Rank(g[0])
    ensures var ps := RunGroup(ctx, g, remainder).payments;
      forall k :: 0 <= k < |ps| ==> Rank(ps[k].allocation) == Rank(g[0])
  {
    var ps := RunGroup(ctx, g, remainder).payments;
    RunGroupPaysNonPercentageFirst(ctx, g, remainder);
    forall k | 0 <= k < |ps|
      ensures Rank(ps[k].allocation) == Rank(g[0])
    {
      var j :| 0 <= j < |g| && g[j] == ps[k].allocation;
    }
  }

  lemma PrefixKeepsShape(gs: seq<seq<Allocation>>, n: nat, balanceOf: string -> Option<int>)
    requires n <= |gs| && AllGroupsRunnable(gs, balanceOf)
    requires forall i :: 0 <= i < |gs| ==> |gs[i]| > 0
    requires UniformRank(gs) && KeysAscending(gs, Rank)
    ensures AllGroupsRunnable(gs[..n], balanceOf)
    ensures forall i :: 0 <= i < n ==> |gs[..n][i]| > 0 && gs[..n][i] == gs[i]
    ensures UniformRank(gs[..n]) && KeysAscending(gs[..n], Rank)
  {
  }

  /** Groups in ascending priority make payments in ascending priority. */
  lemma {:induction false} RunGroupsInPriorityOrder(ctx: Context, gs: seq<seq<Allocation>>, remainder: int)
    requires AllGroupsRunnable(gs, ctx.balanceOf)
    requires forall i :: 0 <= i < |gs| ==> |gs[i]| > 0
    requires UniformRank(gs) && KeysAscending(gs, Rank)
    ensures var ps := RunGroups(ctx, gs, remainder).payments;
      InPriorityOrder(ps) && (|gs| > 0 ==> RanksAtMost(ps, Rank(gs[|gs| - 1][0])))
    decreases |gs|
  {
    if |gs| != 0 {
      var n := |gs| - 1;
      var before := RunGroups(ctx, gs[..n], remainder);
      var step := RunGroup(ctx, gs[n], before.remainder).payments;
      PrefixKeepsShape(gs, n, ctx.balanceOf);
      RunGroupsInPriorityOrder(ctx, gs[..n], remainder);
      RunGroupPaysAtItsRank(ctx, gs[n], before.remainder);
      if n > 0 {
        assert gs[..n][n - 1] == gs[n - 1];
        AppendInPriorityOrder(before.payments, step, Rank(gs[n - 1][0]), Rank(gs[n][0]));
      } else {
        AppendInPriorityOrder(before.payments, step, Rank(gs[n][0]) - 1, Rank(gs[n][0]));
      }
    }
  }

  /**
   * The order `run` visits allocations in: ascending priority, equal
   * priorities in their input order, and every allocation exactly once.
   */
  lemma RunVisitOrder(allocations: seq<Allocation>, k: int)
    ensures var visited := Flatten(Groups(allocations));
      && SortedBy(visited, Rank)
      && multiset(visited) == multiset(allocations)
      && WithKey(visited, Rank, k) == WithKey(allocations, Rank, k)
  {
    SortByStable(allocations, Rank, k);
  }

  /** A whole run: positive payments, as issued, and the final remainder is the balance minus the total paid. */
  lemma RunConserves(ctx: Context, allocations: seq<Allocation>, balance: int)
    requires AllRunnable(allocations, ctx.balanceOf)
    ensures var l := RunAllocations(ctx, allocations, balance);
      l.remainder == balance - Total(l.payments) && AllPositive(l.payments) && Issued(ctx, l.payments)
  {
    GroupsRunnable(allocations, ctx.balanceOf);
    RunGroupsConserves(ctx, Groups(allocations), balance);
  }

  /** A whole run pays in nondecreasing priority. */
  lemma RunInPriorityOrder(ctx: Context, allocations: seq<Allocation>, balance: int)
    requires AllRunnable(allocations, ctx.balanceOf)
    ensures InPriorityOrder(RunAllocations(ctx, allocations, balance).payments)
  {
    var sorted := SortBy(allocations, Rank);
    var gs := GroupBy(sorted, Rank);
    GroupsRunnable(allocations, ctx.balanceOf);
    GroupByAscending(sorted, Rank);
    assert UniformRank(gs);
    RunGroupsInPriorityOrder(ctx, gs, balance);
  }

  /** Every payment in `ps` pays an allocation of one of the groups `gs`. */
  predicate PaysFromGroups(ps: seq<Payment>, gs: seq<seq<Allocation>>) {
    forall k :: 0 <= k < |ps| ==> exists i :: 0 <= i < |gs| && ps[k].allocation in gs[i]
  }

  lemma {:induction false} RunGroupsPayFromGroups(ctx: Context, gs: seq<seq<Allocation>>, remainder: int)
    requires AllGroupsRunnable(gs, ctx.balanceOf)
    ensures PaysFromGroups(RunGroups(ctx, gs, remainder).payments, gs)
    decreases |gs|
  {
    if |gs| != 0 {
      var n := |gs| - 1;
      var before := RunGroups(ctx, gs[..n], remainder);
      var step := RunGroup(ctx, gs[n], before.remainder).payments;
      RunGroupsPayFromGroups(ctx, gs[..n], remainder);
      RunGroupPaysNonPercentageFirst(ctx, gs[n], before.remainder);
      var ps := before.payments + step;
      assert RunGroups(ctx, gs, remainder).payments == ps;
      forall k | 0 <= k < |ps|
        ensures exists i :: 0 <= i < |gs| && ps[k].allocation in gs[i]
      {
        if k < |before.payments| {
          assert ps[k] == before.payments[k];
          var i :| 0 <= i < n && ps[k].allocation in gs[..n][i];
          assert gs[i] == gs[..n][i];
        } else {
          assert ps[k] == step[k - |before.payments|];
          assert ps[k].allocation in gs[n];
        }
      }
    }
  }

  /** A run pays only allocations it was given. */
  lemma RunPaysOnlyGivenAllocations(ctx: Context, allocations: seq<Allocation>, balance: int)
    requires AllRunnable(allocations, ctx.balanceOf)
    ensures PaysFrom(RunAllocations(ctx, allocations, balance).payments, allocations)
  {
    var gs := Groups(allocations);
    GroupsRunnable(allocations, ctx.balanceOf);
    var ps := RunGroups(ctx, gs, balance).payments;
    assert RunAllocations(ctx, allocations, balance).payments == ps;
    RunGroupsPayFromGroups(ctx, gs, balance);
    forall k | 0 <= k < |ps|
      ensures ps[k].allocation in allocations
    {
      GroupMemberGiven(allocations, ps[k].allocation);
    }
  }

  /** An allocation in one of the groups is one of the allocations grouped. */
  lemma GroupMemberGiven(allocations: seq<Allocation>, x: Allocation)
    requires exists i :: 0 <= i < |Groups(allocations)| && x in Groups(allocations)[i]
    ensures x in allocations
  {
    var sorted := SortBy(allocations, Rank);
    var gs := GroupBy(sorted, Rank);
    var i :| 0 <= i < |gs| && x in gs[i];
    var j :| 0 <= j < |gs[i]| && gs[i][j] == x;
    FlattenContains(gs, i, j);
    assert x in multiset(sorted);
  }
}
