/**
 * The allocation engine (src/automate.py): allocations are visited in
 * priority order, group by group; inside a group the non-percentage
 * allocations are paid from the live remainder first, then the percentage
 * allocations from the remainder frozen at the end of that first pass.
 *
 * The functions below say what a run computes; the class
 * `AutomateAllocations` is the engine itself, and its methods are proved to
 * compute exactly that. Properties of the functions are proved in
 * automate_properties.dfy.
 */
module Automate {
  import opened Wrappers
  import opened AllocationRecords
  import opened Strategies
  import opened PriorityOrder

  /**
   * What `_process_allocation` reads besides the allocation and the
   * remainder: the paying account's id (from the settings), the `simulate`
   * flag, the main-account balance the run started from, and the bank's
   * balance lookup by IBAN.
   */
  datatype Context = Context(
    accountId: int,
    simulate: bool,
    originalAmount: Option<int>,
    balanceOf: string -> Option<int>)

  /** One call of `make_payment`, together with the allocation it pays for. */
  datatype Payment = Payment(
    allocation: Allocation,
    fromAccountId: int,
    toAccountAlias: string,
    toAccountType: string,
    amount: int,
    description: string,
    toIban: string,
    simulate: bool,
    originalAmountToSort: Option<int>)

  /** The remainder after some steps, and the payments those steps issued, in order. */
  datatype Ledger = Ledger(remainder: int, payments: seq<Payment>)

  /** The sort and group key, `priority` (every allocation the engine runs has one). */
  function Rank(a: Allocation): int {
    if a.priority.Some? then a.priority.value else 0
  }

  /** The test that splits a group into its two passes. */
  predicate IsPercentage(a: Allocation) {
    a.strategy == "percentage"
  }

  /** `original_remainder if original_remainder else remainder`: `None` and `0` are both falsy. */
  function Budget(original: Option<int>, remainder: int): int {
    if original.Some? && original.value != 0 then original.value else remainder
  }

  /** The payment `_process_allocation` issues to `a` for `amount`. */
  function PaymentFor(ctx: Context, a: Allocation, amount: int): (p: Payment)
    ensures p.allocation == a && p.amount == amount
    ensures p.fromAccountId == ctx.accountId && p.toIban == a.iban
    ensures p.toAccountAlias == a.description && p.toAccountType == a.accountType
    ensures p.description == "Deel salaris voor " + a.description
    ensures p.simulate == ctx.simulate && p.originalAmountToSort == ctx.originalAmount
  {
    Payment(a, ctx.accountId, a.description, a.accountType, amount,
            "Deel salaris voor " + a.description, a.iban, ctx.simulate, ctx.originalAmount)
  }

  /**
   * `_process_allocation`: the strategy's amount for `a` on the budget; a
   * payment and a decremented remainder when that amount is positive,
   * nothing otherwise.
   */
  function Process(ctx: Context, a: Allocation, original: Option<int>, remainder: int): Ledger
    requires Runnable(a, ctx.balanceOf)
  {
    var amount := Apply(a, Budget(original, remainder), ctx.balanceOf);
    if amount > 0 then Ledger(remainder - amount, [PaymentFor(ctx, a, amount)])
    else Ledger(remainder, [])
  }

  /** Every allocation of `xs` can be run without raising. */
  predicate AllRunnable(xs: seq<Allocation>, balanceOf: string -> Option<int>) {
    forall k :: 0 <= k < |xs| ==> Runnable(xs[k], balanceOf)
  }

  /**
   * One filtered pass over a group: `Process` on each allocation of `xs`
   * whose `IsPercentage` is `pct`, in order, threading the remainder and
   * always passing the same `original`.
   */
  function Pass(ctx: Context, xs: seq<Allocation>, pct: bool, original: Option<int>, remainder: int): Ledger
    requires AllRunnable(xs, ctx.balanceOf)
    decreases |xs|
  {
    if |xs| == 0 then Ledger(remainder, [])
    else
      var before := Pass(ctx, xs[..|xs| - 1], pct, original, remainder);
      var a := xs[|xs| - 1];
      if IsPercentage(a) == pct then
        var step := Process(ctx, a, original, before.remainder);
        Ledger(step.remainder, before.payments + step.payments)
      else before
  }

  /** `Pass` over one more allocation: `Process` on it when it belongs to the pass, nothing otherwise. */
  lemma PassStep(ctx: Context, xs: seq<Allocation>, j: nat, pct: bool, original: Option<int>, remainder: int)
    requires j < |xs| && AllRunnable(xs, ctx.balanceOf)
    ensures AllRunnable(xs[..j], ctx.balanceOf) && AllRunnable(xs[..j + 1], ctx.balanceOf)
    ensures var before := Pass(ctx, xs[..j], pct, original, remainder);
      Pass(ctx, xs[..j + 1], pct, original, remainder)
        == if IsPercentage(xs[j]) == pct then
             var step := Process(ctx, xs[j], original, before.remainder);
             Ledger(step.remainder, before.payments + step.payments)
           else before
  {
    assert xs[..j + 1][..j] == xs[..j];
  }

  /**
   * One group: the non-percentage pass on the live remainder, then the
   * percentage pass with the remainder at the end of the first pass as
   * `original_remainder`.
   */
  function RunGroup(ctx: Context, g: seq<Allocation>, remainder: int): Ledger
    requires AllRunnable(g, ctx.balanceOf)
  {
    var first := Pass(ctx, g, false, None, remainder);
    var second := Pass(ctx, g, true, Some(first.remainder), first.remainder);
    Ledger(second.remainder, first.payments + second.payments)
  }

  /** Every group of `gs` can be run without raising. */
  predicate AllGroupsRunnable(gs: seq<seq<Allocation>>, balanceOf: string -> Option<int>) {
    forall i :: 0 <= i < |gs| ==> AllRunnable(gs[i], balanceOf)
  }

  /** The groups one after another, the remainder carried from each group to the next. */
  function RunGroups(ctx: Context, gs: seq<seq<Allocation>>, remainder: int): Ledger
    requires AllGroupsRunnable(gs, ctx.balanceOf)
    decreases |gs|
  {
    if |gs| == 0 then Ledger(remainder, [])
    else
      var before := RunGroups(ctx, gs[..|gs| - 1], remainder);
      var step := RunGroup(ctx, gs[|gs| - 1], before.remainder);
      Ledger(step.remainder, before.payments + step.payments)
  }

  /**
   * `RunGroups` over one more group: if `paid` and `remainder` are what the
   * first `i` groups leave, running group `i` on them gives what the first
   * `i + 1` groups leave.
   */
  lemma RunGroupsStep(ctx: Context, gs: seq<seq<Allocation>>, i: nat, start: int, earlier: seq<Payment>,
                      paid: seq<Payment>, remainder: int, paid': seq<Payment>, remainder': int)
    requires i < |gs| && AllGroupsRunnable(gs, ctx.balanceOf)
    requires AllGroupsRunnable(gs[..i], ctx.balanceOf)
    requires paid == earlier + RunGroups(ctx, gs[..i], start).payments
    requires remainder == RunGroups(ctx, gs[..i], start).remainder
    requires paid' == paid + RunGroup(ctx, gs[i], remainder).payments
    requires remainder' == RunGroup(ctx, gs[i], remainder).remainder
    ensures AllGroupsRunnable(gs[..i + 1], ctx.balanceOf)
    ensures paid' == earlier + RunGroups(ctx, gs[..i + 1], start).payments
    ensures remainder' == RunGroups(ctx, gs[..i + 1], start).remainder
  {
    assert gs[..i + 1][..i] == gs[..i];
  }

  /** The allocations sorted by priority and cut into runs of equal priority. */
  function Groups(allocations: seq<Allocation>): seq<seq<Allocation>> {
    GroupBy(SortBy(allocations, Rank), Rank)
  }

  /** Grouping keeps every allocation, so it keeps them all runnable. */
  lemma GroupsRunnable(allocations: seq<Allocation>, balanceOf: string -> Option<int>)
    requires AllRunnable(allocations, balanceOf)
    ensures AllGroupsRunnable(Groups(allocations), balanceOf)
  {
    var sorted := SortBy(allocations, Rank);
    var gs := GroupBy(sorted, Rank);
    forall i, k | 0 <= i < |gs| && 0 <= k < |gs[i]|
      ensures Runnable(gs[i][k], balanceOf)
    {
      FlattenContains(gs, i, k);
      assert gs[i][k] in multiset(sorted);
      assert gs[i][k] in allocations;
    }
  }

  /** An element of a group is an element of the flattened groups. */
  lemma {:induction false} FlattenContains<T>(gs: seq<seq<T>>, i: nat, k: nat)
    requires i < |gs| && k < |gs[i]|
    ensures gs[i][k] in Flatten(gs)
  {
    if i > 0 {
      FlattenContains(gs[1..], i - 1, k);
      assert gs[1..][i - 1] == gs[i];
    }
  }

  /** What `run` pays, and what is left, starting from `balance`. */
  function RunAllocations(ctx: Context, allocations: seq<Allocation>, balance: int): Ledger
    requires AllRunnable(allocations, ctx.balanceOf)
  {
    GroupsRunnable(allocations, ctx.balanceOf);
    RunGroups(ctx, Groups(allocations), balance)
  }

  /**
   * `AutomateAllocations`: the bank and the store are not modelled; the
   * bank's effect is the sequence of payments it was asked to make.
   */
  class AutomateAllocations {
    var simulate: bool
    var mainAccountBalance: Option<int>
    /** The `make_payment` calls made so far, oldest first. */
    var payments: seq<Payment>

    constructor(simulate: bool := true)
      ensures this.simulate == simulate
      ensures mainAccountBalance == None && payments == []
    {
      this.simulate := simulate;
      mainAccountBalance := None;
      payments := [];
    }

    /**
     * `_process_allocation`: pays `Process`'s amount, if any, and returns
     * the new remainder.
     */
    method ProcessAllocation(a: Allocation, settings: Settings, remainder: int,
                             balanceOf: string -> Option<int>, originalRemainder: Option<int>)
      returns (r: int)
      requires Runnable(a, balanceOf)
      modifies this`payments
      ensures var l := Process(Context(settings.id, simulate, mainAccountBalance, balanceOf), a, originalRemainder, remainder);
        r == l.remainder && payments == old(payments) + l.payments
    {
      var amount := Apply(a, Budget(originalRemainder, remainder), balanceOf);
      r := remainder;
      if amount > 0 {
        payments := payments + [PaymentFor(Context(settings.id, simulate, mainAccountBalance, balanceOf), a, amount)];
        r := remainder - amount;
      }
    }

    /**
     * One of `run`'s two filtered loops over a group `g`:
     * `_process_allocation` on each allocation whose `IsPercentage` is
     * `pct`, in order, with `originalRemainder` as `original_remainder`.
     */
    method ProcessPass(g: seq<Allocation>, pct: bool, settings: Settings, remainder: int,
                       balanceOf: string -> Option<int>, originalRemainder: Option<int>)
      returns (r: int)
      requires AllRunnable(g, balanceOf)
      modifies this`payments
      ensures var l := Pass(Context(settings.id, simulate, mainAccountBalance, balanceOf), g, pct, originalRemainder, remainder);
        r == l.remainder && payments == old(payments) + l.payments
    {
      ghost var ctx := Context(settings.id, simulate, mainAccountBalance, balanceOf);
      ghost var done := Ledger(remainder, []);
      r := remainder;
      var j := 0;
      while j < |g|
        invariant 0 <= j <= |g|
        invariant done == Pass(ctx, g[..j], pct, originalRemainder, remainder)
        invariant r == done.remainder && payments == old(payments) + done.payments
      {
        PassStep(ctx, g, j, pct, originalRemainder, remainder);
        if IsPercentage(g[j]) == pct {
          ghost var step := Process(ctx, g[j], originalRemainder, r);
          r := ProcessAllocation(g[j], settings, r, balanceOf, originalRemainder);
          done := Ledger(step.remainder, done.payments + step.payments);
        }
        j := j + 1;
      }
      assert g[..j] == g;
    }

    /**
     * The body of `run`'s loop for one group `g`: the non-percentage
     * allocations on the live remainder, then the percentage allocations
     * with the remainder reached so far as `original_remainder`.
     */
    method ProcessGroup(g: seq<Allocation>, settings: Settings, remainder: int,
                        balanceOf: string -> Option<int>)
      returns (r: int)
      requires AllRunnable(g, balanceOf)
      modifies this`payments
      ensures var l := RunGroup(Context(settings.id, simulate, mainAccountBalance, balanceOf), g, remainder);
        r == l.remainder && payments == old(payments) + l.payments
    {
      r := ProcessPass(g, false, settings, remainder, balanceOf, None);
      var originalRemainder := r;
      r := ProcessPass(g, true, settings, r, balanceOf, Some(originalRemainder));
    }

    /**
     * `run`'s loop over the groups: each group in turn, the remainder
     * carried from one to the next.
     */
    method ProcessGroups(groups: seq<seq<Allocation>>, settings: Settings, remainder: int,
                         balanceOf: string -> Option<int>)
      returns (r: int)
      requires AllGroupsRunnable(groups, balanceOf)
      modifies this`payments
      ensures var l := RunGroups(Context(settings.id, simulate, mainAccountBalance, balanceOf), groups, remainder);
        r == l.remainder && payments == old(payments) + l.payments
    {
      ghost var ctx := Context(settings.id, simulate, mainAccountBalance, balanceOf);
      r := remainder;
      var i := 0;
      while i < |groups|
        invariant 0 <= i <= |groups|
        invariant AllGroupsRunnable(groups[..i], balanceOf)
        invariant r == RunGroups(ctx, groups[..i], remainder).remainder
        invariant payments == old(payments) + RunGroups(ctx, groups[..i], remainder).payments
      {
        ghost var paid, before := payments, r;
        r := ProcessGroup(groups[i], settings, r, balanceOf);
        RunGroupsStep(ctx, groups, i, remainder, old(payments), paid, before, payments, r);
        i := i + 1;
      }
      assert groups[..i] == groups;
    }

    /**
     * `run`: `allocations` is what the store returned, `balanceById` the
     * bank's balance of an account by id. Sorts and groups the allocations,
     * records the main account's balance and pays the groups from it; the
     * payments made are those of `RunAllocations`.
     */
    method Run(allocations: seq<Allocation>, settings: Settings, balanceById: int -> int,
               balanceOf: string -> Option<int>)
      returns (status: string)
      // sorting two or more records compares priorities, which raises on a missing one
      requires |allocations| >= 2 ==> forall k :: 0 <= k < |allocations| ==> allocations[k].priority.Some?
      requires AllRunnable(allocations, balanceOf)
      modifies this`mainAccountBalance, this`payments
      ensures status == "Success"
      ensures mainAccountBalance == Some(balanceById(settings.id))
      ensures payments == old(payments)
        + RunAllocations(Context(settings.id, simulate, mainAccountBalance, balanceOf), allocations, balanceById(settings.id)).payments
    {
      GroupsRunnable(allocations, balanceOf);
      var groups := Groups(allocations);
      mainAccountBalance := Some(balanceById(settings.id));
      var remainder := mainAccountBalance.value;
      remainder := ProcessGroups(groups, settings, remainder, balanceOf);
      status := "Success";
    }
  }
}
