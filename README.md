# Salary allocation engine

This project models the engine of a salary-splitting tool in Dafny. When the
salary arrives on the main bank account, the engine:

1. reads the user's allocation rules;
2. sorts them by priority and groups equal priorities;
3. within each group, pays the top-up and fixed rules from the live
   remainder first;
4. then pays the percentage rules of the group, each a share of the
   remainder frozen at the end of that first pass.

Money is modelled as whole cents. A percentage is a whole number of
hundredths of a percent (33.33% is `3333`).

The modules:

- `AllocationRecords` (allocation.dfy): the `Allocation` and `Settings`
  records, and the mapping from a stored document to a record
  (`pop_value_to_decimal`, `transform_data`, `get_allocations`).
  - `ToAllocation` states the record a document denotes.
  - `TransformData` pops the keys step by step, as the code does, and is
    proved to produce `ToAllocation`.
- `Strategies` (strategies.dfy):
  - the minimum filter and the remainder cap;
  - the three strategies and the table that dispatches on the strategy key;
  - the cent rounding of the percentage strategy.
- `PriorityOrder` (priority_order.dfy): Python's stable `sorted` by a key,
  and `itertools.groupby`. Both are generic, with sortedness, permutation,
  stability and grouping proved.
- `Automate` (automate.dfy): the engine.
  - Functions (`Process`, `Pass`, `RunGroup`, `RunGroups`, `RunAllocations`)
    state what a run pays and leaves.
  - The class `AutomateAllocations` holds the fields the code updates:
    `main_account_balance`, the `simulate` flag, and the payments made so far.
  - Its methods are proved to append exactly those payments.
- `AutomateProperties` (automate_properties.dfy): what a run guarantees.
  - The remainder drops by exactly the total paid.
  - Every payment is positive and addressed as the code addresses it.
  - Top-ups and fixed amounts never overdraw a remainder that started
    non-negative.
  - Within a group, non-percentage payments come before percentage payments.
  - Percentages are taken of the frozen base.
  - Payments come out in priority order.
  - Only the given allocations are paid.
- `WorkedExamples` (worked_examples.dfy): the repository's three mixed-flow
  test scenarios (main_test.py:335-472), proved for any allocations with the
  scenario's settings.
  - Percentage rules summing to under 100% can still overdraw through
    rounding: three shares of 33.33% of 0.02 pay 0.03.

The bank and the document store are parameters:

- the destination balance lookup by IBAN is a function `string -> Option<int>`;
- the main account's balance by id is a function `int -> int`;
- the stored documents are a `seq` of maps;
- a call of `make_payment` is a `Payment` value appended to the engine's
  `payments` field, carrying every argument of the call and the allocation
  it pays.

## Model

| member | source | states |
|---|---|---|
| AllocationRecords.DecimalOrNone | src/money_flow/allocation.py:46-48 | the result is a number exactly when the stored value is a nonzero number, and then it is that number; a stored 0 or a missing value gives `None` |
| AllocationRecords.PopValueToDecimal | src/money_flow/allocation.py:46-48 | the key is removed from the document and nothing else changes; the value is `Some` exactly when the key held a truthy value, and then it is that value |
| AllocationRecords.ConstructFields | src/money_flow/allocation.py:62-69 | the record is built exactly when all four required keywords are present and no keyword outside the record's remaining fields is; each field carries the keyword or the argument given for it |
| AllocationRecords.ToAllocationFields | src/money_flow/allocation.py:50-69 | amounts go through the falsy-to-`None` conversion; `percentage` and `priority` are kept as stored; a truthy `id` missing from the accounts fails with that id; a resolved `id` supplies description, iban and balance; without an `id`, description and iban come from the document and the balance is `None` |
| AllocationRecords.TransformData | src/money_flow/allocation.py:50-69 | popping the four amounts and the id in place and then building the record gives exactly `ToAllocation` of the document, the unknown-account failure included |
| AllocationRecords.GetAllocations | src/money_flow/allocation.py:43-71 | success exactly when every document converts; on success one record per document, in document order; on failure the error is that of the first document that fails |
| Strategies.CheckMinimumAmount | src/strategies.py:7-11 | returns the amount exactly when it is strictly above the minimum (unset or 0 counting as 0), else 0; an amount equal to the minimum gives 0 |
| Strategies.CheckRemainder | src/strategies.py:14-15 | the result is at most both inputs and equal to one of them |
| Strategies.RoundHalfEven | src/strategies.py:39 | the result is within half a unit of the exact quotient, and an exact tie rounds to the even integer |
| Strategies.PercentageOf | src/strategies.py:39 | the share is within half a cent of budget times percentage, and an exact half cent rounds to the even cent |
| Strategies.PercentageOfBounded | src/strategies.py:39 | a share between 0% and 100% of a non-negative budget lies between 0 and the budget |
| Strategies.TopUpStrategy | src/strategies.py:18-27 | the result is 0 or above the minimum; when not filtered out it is at most the shortfall, the budget and a truthy `max_amount`, and equal to one of them; a destination already at its target gets 0 when the minimum is not negative |
| Strategies.FixedStrategy | src/strategies.py:30-33 | the full fixed amount when the budget covers it and it is above the minimum; the budget when the budget is smaller but above the minimum; 0 when the capped value does not exceed the minimum |
| Strategies.PercentageStrategy | src/strategies.py:36-40 | the result is 0 or above the minimum; a nonzero result is within half a cent of the share; the rounded share is returned whenever it exceeds the minimum and 0 whenever it does not; neither the remainder nor `max_amount` caps it |
| Strategies.PercentageZeroGivesNothing | src/strategies.py:36-40 | 0% yields nothing, whatever the budget and minimum |
| Strategies.PercentageFullGivesBudget | src/strategies.py:36-40 | 100% of a budget above the minimum is the whole budget |
| Strategies.Lookup | src/strategies.py:43-47 | the table maps exactly `top_up`, `fixed` and `percentage` to their strategies; every other key gives `None` |
| Strategies.Apply | src/automate.py:44-49 | the dispatched strategy's result, which is 0 or above the allocation's minimum |
| PriorityOrder.Insert | src/automate.py:17 | one insertion step of the sort adds exactly the element |
| PriorityOrder.InsertSorted | src/automate.py:17 | inserting into a sorted sequence keeps it sorted |
| PriorityOrder.SortBy | src/automate.py:17 | the result is a permutation of the input and sorted by the key |
| PriorityOrder.InsertWithKey | src/automate.py:17 | an insertion keeps the relative order of the elements that share a key |
| PriorityOrder.SortByStable | src/automate.py:17 | for every key, the elements with that key keep their input order |
| PriorityOrder.SortByKeepsSorted | src/automate.py:17 | input already in key order comes out unchanged |
| PriorityOrder.RunLength | src/automate.py:18 | the first run of equal keys is nonempty, uniform and maximal |
| PriorityOrder.GroupBy | src/automate.py:18 | concatenating the groups gives back the input; every group is nonempty and uniform in key; neighbouring groups differ in key |
| PriorityOrder.GroupByFirst | src/automate.py:18 | a uniform prefix that ends where the key changes is the first group |
| PriorityOrder.GroupByAscending | src/automate.py:17-18 | grouping sorted input gives groups in strictly increasing key order |
| Automate.PaymentFor | src/automate.py:51-60 | the payment goes from the settings' account to the allocation's IBAN and alias, for the amount, described as "Deel salaris voor " plus the allocation's description, with the run's `simulate` flag and starting balance |
| Automate.AutomateAllocations.constructor | src/automate.py:9-13 | a new engine has the given `simulate` flag, no main-account balance and no payments |
| Automate.AutomateAllocations.ProcessAllocation | src/automate.py:41-62 | appends exactly the payments of `Process` and returns its remainder |
| Automate.AutomateAllocations.ProcessPass | src/automate.py:26-38 | one filtered loop appends exactly the payments of `Pass` and returns its remainder |
| Automate.AutomateAllocations.ProcessGroup | src/automate.py:25-38 | the two loops over a group append exactly the payments of `RunGroup`, with the second loop frozen at the first loop's final remainder |
| Automate.AutomateAllocations.ProcessGroups | src/automate.py:24-38 | the loop over the groups appends exactly the payments of `RunGroups` |
| Automate.AutomateAllocations.Run | src/automate.py:15-39 | returns "Success"; records the main account's balance; appends exactly the payments of `RunAllocations` on the sorted and grouped allocations, starting from that balance |
| AutomateProperties.ProcessConserves | src/automate.py:44-62 | at most one payment, made exactly when the strategy's amount is positive; that payment pays the allocation; the remainder drops by exactly what is paid |
| AutomateProperties.PassConserves | src/automate.py:26-38 | a pass makes only positive payments, each as `make_payment` is called, and the remainder drops by exactly their total |
| AutomateProperties.PassPaysOwnKind | src/automate.py:26-38 | a pass pays only allocations of its group, and only those its filter selects |
| AutomateProperties.NonPercentageWithinBudget | src/strategies.py:18-33 | a positive top-up or fixed amount never exceeds the budget |
| AutomateProperties.FirstPassStaysCovered | src/automate.py:26-29 | a first pass that starts with a non-negative remainder keeps it between 0 and its start |
| AutomateProperties.FirstPassIdleWhenEmpty | src/automate.py:26-29 | with no money left, a first pass pays nobody and leaves the remainder alone |
| AutomateProperties.PercentageOfNothing | src/strategies.py:36-40 | a share of a zero budget is 0 |
| AutomateProperties.SecondPassUsesFrozenBase | src/automate.py:31-47 | the percentage loop pays each percentage allocation its share of the frozen base, not of the shrinking remainder; this holds also when the base is 0 and the code hands over the live remainder instead |
| AutomateProperties.RunGroupIsTwoPasses | src/automate.py:25-38 | a group is its first pass followed by the percentage payments on the first pass's final remainder |
| AutomateProperties.RunGroupPaysNonPercentageFirst | src/automate.py:26-38 | in a group no fixed or top-up payment follows a percentage payment, and only the group's allocations are paid |
| AutomateProperties.RunGroupConserves | src/automate.py:25-38 | a group's payments are positive and as issued, and the remainder drops by exactly their total |
| AutomateProperties.RunGroupsConserves | src/automate.py:24-38 | the same holds over any sequence of groups |
| AutomateProperties.RunGroupsInPriorityOrder | src/automate.py:24-38 | groups in increasing priority pay in nondecreasing priority, never above the last group's |
| AutomateProperties.RunVisitOrder | src/automate.py:17-18 | `run` visits the allocations in ascending priority, every allocation exactly once, and equal priorities in their input order |
| AutomateProperties.RunConserves | src/automate.py:15-39 | over a whole run, payments are positive and as issued, and the final remainder is the starting balance minus the total paid |
| AutomateProperties.RunInPriorityOrder | src/automate.py:17-38 | a whole run pays in nondecreasing priority |
| AutomateProperties.RunPaysOnlyGivenAllocations | src/automate.py:16-38 | every payment pays one of the allocations the run was given |
| WorkedExamples.FirstGroup | main_test.py:335-402 | from any start above 260.44, the priority-1 group of the scenario pays 200.00, 60.44, then the fixed 250.00 capped by what is left |
| WorkedExamples.SecondGroup | main_test.py:335-372 | the 33.33% and 66.67% shares are both taken of the remainder the group starts with |
| WorkedExamples.SecondGroupOfNothing | main_test.py:374-402 | starting from nothing, the percentage group pays nothing |
| WorkedExamples.FullScenario | main_test.py:335-372 | from 2200.00 the run pays 200.00, 60.44, 250.00, 563.13 and 1126.43, in that order, and leaves 0 |
| WorkedExamples.ShortScenario | main_test.py:374-402 | from 360.00 the run pays 200.00, 60.44 and 99.56, and no percentage payments |
| WorkedExamples.FilteredShareStep | src/strategies.py:36-40 | a share that is not above its nonzero minimum pays nothing and leaves the remainder as it was |
| WorkedExamples.LateMinimumGroup | main_test.py:404-472 | of two 50% shares of the same starting remainder, the first is paid and the second, not above its 100.00 minimum, is not |
| WorkedExamples.LateMinimum | main_test.py:404-472 | from 560.00 the run pays 200.00, 60.44, 250.00 and 24.78, in that order, and leaves 24.78 |
| WorkedExamples.RoundingOverdraws | src/automate.py:31-38 | three 33.33% shares of 0.02 pay 0.01 each and leave a remainder of -0.01 |

## Left out

- Binary floats behind every `Decimal`. The code builds its amounts from floats: the share in `percentage_strategy` is `Decimal(round(float, 2))` (src/strategies.py:39), and the balances are `Decimal` of the float the bank returns (src/money_flow/bunq.py:128-129, 141; src/money_flow/allocation.py:61). Such a `Decimal` keeps the float's exact binary value, so an amount like 563.13 or 60.44 carries a sub-cent residue. The model works in whole cents and drops every such residue, not only the rounding ties of the share. In the code the residues add up through `remainder -= amount` (src/automate.py:61), so a remainder the model has at 0 can be a tiny positive or negative `Decimal`, and a later rule can then pass `amount > 0` and pay a sub-cent amount that the model never pays.
- `Decimal(value)` on a stored string. A document's amount fields must hold a number or nothing, so parsing decimal text is not modelled.
- The document store. Reading the `allocation` collection and the `settings/salary_account` document is not modelled: `GetAllocations` takes the documents, and `Run` takes the allocations and the settings, as parameters.
- The bank client (src/bunq.py, src/money_flow/bunq.py) is not part of this model:
  - balances by IBAN and by id are function parameters;
  - `balanceById` is total, while `get_balance_by_id` raises `KeyError` on an id the bank does not list (src/money_flow/bunq.py:128), so that crash is not modelled;
  - `make_payment` is the appended `Payment` record, without its retries, sleeps, printing or network calls.
- Printing (src/automate.py:22), main.py and the legacy record shape in src/allocation.py are not part of this model.
- The `bunq` and `store` fields of the engine are not fields of the class. Their reads are the parameters above.
- Automate.AutomateAllocations.Run: the code raises where the model has a precondition. These cases are:
  - an unknown strategy key (calling `None`);
  - a top-up without a target or without a destination balance;
  - a fixed or percentage rule without its amount;
  - a missing priority among two or more allocations, which the sort compares.

  The payments made before such an exception are not modelled.
- `Settings.minimum` and `Allocation.current_balance` are read by no engine code, so no property involves them beyond their being carried.
- The engine's `run` is one method in the code. The model splits its loop nest into `ProcessGroups`, `ProcessGroup` and `ProcessPass`, one method per loop, so that each can be proved on its own.
