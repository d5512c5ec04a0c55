# Budgeted ad allocation: ledger, pessimistic, optimistic and balanced allocators

This project models, in Dafny, the allocation core of an online budgeted
ad-matching simulator. Queries (keywords such as `k1`, `k2`, …) arrive one at a
time, and each one is given to at most one advertiser. The advertiser pays its
bid for that keyword out of a fixed budget.

The model has four parts.

- **Budget ledger** (`Ledger`). `Advertiser` records have a name, an initial
  budget and the amount spent so far. They have a single guarded mutator,
  `DeductBudget`, which rejects any amount above the remaining budget.
  - `Registry` holds the class-level state: the list of every advertiser
    created, in creation order, and a cached deep copy of it (the "shadow").
  - A deep copy makes new records with equal fields, so charging a copy never
    touches the registry.
- **Pessimistic allocator** (`Pessimistic`). A single scan keeps the eligible
  advertiser with the strictly highest `phi(budget fraction, alpha) * bid`.
  Eligible means the bid is positive and affordable. The winner is charged its
  bid.
- **Optimistic allocator** (`OracleLayout`, `Rounding`, `Optimistic`).
  - Offline, the LP over (advertiser, keyword) variables is laid out. Its
    fractional solution is then rounded greedily into an integer plan, visiting
    variables by descending value and charging the working copy of the records
    as it goes.
  - Online, each query goes to the highest affordable bidder among the
    advertisers the plan still assigns to it. One unit comes off its plan cell
    and one off the keyword's remaining count.
- **Balanced allocator** (`Balanced`).
  - Both allocators run on the shadow list that they captured when they were
    built: the optimistic one first, then the pessimistic one, each charging
    the shadow.
  - Each candidate is mapped back by name to the authoritative registry
    record. Both are scored, and the optimistic one wins when
    `alpha * o_score >= p_score`, where a missing candidate scores `-inf`.
  - Exactly one deduction is committed to the registry, and the winning
    branch's counter goes up by one.

The imperative parts are proved against value-level specification functions:
- `Best` for the pessimistic scan;
- `Round`, a fold of `Step` over the visiting order, for the rounding;
- `Decide` for the online optimistic step;
- `Arbitrate` and `Settled` for the balanced decision and commit.

The properties the source relies on are proved about those functions:
- argmax with first-wins ties;
- the dismissal conditions;
- feasibility of the rounded plan;
- the decision rule;
- that the shadow always stays "ahead" of the registry. Ahead means each
  shadow record has spent at least as much as its registry twin, so the commit
  can never trip the budget guard.

The two aliasing facts of the source are reproduced by object identity:
- The oracle's shallow copy of the cached list means its rounding charges the
  cached copy's records. Both sub-allocators of the balanced allocator then
  hold that same, already charged, list.
- `reset_advertiser_list_copy` only rebinds the cache to fresh records. The
  shadow held by the allocators persists across queries.

`Advertiser.get_advertisers()` (`advertiser.py:45-47`) is the read of
`Registry.advertisers`.

The scoring function `phi_alpha` and the LP solution are inputs:
- `phi` is a function-valued parameter.
- The solver's vector `x` is a sequence of reals handed to the constructors.

## Model

| member | source | states |
|---|---|---|
| Market.KeywordsDistinct | optimistic.py:27 | the keyword names are pairwise distinct, so dictionaries keyed by keyword hold one entry per index |
| Market.IndexOf | optimistic.py:146 | `list.index`: the first position holding the value |
| Market.Min3 | optimistic.py:94-98 | `min` of three integers: a lower bound of each that equals one of them |
| Ledger.Account.RemainingBudget | advertiser.py:20-22 | the remaining budget is non-negative exactly when spend is within the budget, and equals the initial budget exactly when nothing is spent |
| Ledger.Account.BudgetFraction | advertiser.py:24-28 | 1.0 for a zero budget, otherwise the fraction f with f × initial = spent, lying in [0, 1] for a record within a positive budget |
| Ledger.Account.Deduct | advertiser.py:40-42 | rejected exactly when the amount exceeds the remaining budget; otherwise only the spend grows, by exactly the amount, and a non-negative amount keeps 0 ≤ spent ≤ initial |
| Ledger.Advertiser.constructor | advertiser.py:7-18 | a new record with the given name and budget and nothing spent, appended at the end of the registry; the cache is untouched |
| Ledger.Advertiser.Copy | advertiser.py:53 | a deep-copied record has the same name, budget and spend as the original |
| Ledger.Advertiser.DeductBudget | advertiser.py:30-42 | outcome InsufficientBudget exactly when the amount exceeds the remaining budget, leaving spend unchanged; otherwise the record becomes `Deduct(amount)` of its old value |
| Ledger.Registry.constructor | advertiser.py:4-5 | the class starts with an empty registry and no cached copy |
| Ledger.Registry.GetAdvertiserListCopy | advertiser.py:49-54 | returns the existing cache unchanged when set; otherwise stores and returns a fresh copy equal record by record to the registry; the registry list is unchanged |
| Ledger.Registry.ResetAdvertiserListCopy | advertiser.py:56-59 | the cache becomes fresh records equal to the registry's; the registry list is unchanged |
| Ledger.Registry.ResetBudgets | advertiser.py:61-64 | every registered record has spend 0 with its name and budget kept; only registry records are modified |
| Ledger.DeepCopy | advertiser.py:59 | `copy.deepcopy` of a list: fresh, pairwise distinct records with the same values, sharing no record with the original |
| Pessimistic.BestIsEligible | pessimistic.py:38-41 | only an advertiser with a positive bid it can afford is chosen (a missing bid entry counts as 0) |
| Pessimistic.BestNoneIffNoneEligible | pessimistic.py:38-53 | nothing is chosen exactly when no advertiser is eligible |
| Pessimistic.BestIsFirstMaximum | pessimistic.py:42-46 | the chosen advertiser's score is at least every eligible one's and strictly above every eligible one listed before it, so ties go to the first |
| Pessimistic.PessimisticAlgorithm.constructor | pessimistic.py:10-21 | in balanced mode it uses the cached copy (created if absent) and the given alpha; standalone it uses the registry list itself and alpha 1.0 |
| Pessimistic.PessimisticAlgorithm.HighestScore | pessimistic.py:33-46 | the scan's result is `Best` of the current records, with that advertiser's bid, or no one and bid 0; it changes nothing |
| Pessimistic.PessimisticAlgorithm.AllocateQuery | pessimistic.py:23-53 | with no eligible advertiser it returns `(None, 0)` and no record changes; otherwise it returns `Best`'s record and its bid, and that record alone is charged exactly the bid (the deduction is never rejected) |
| OracleLayout.LayoutDecode | optimistic.py:88-89 | decoding `idx % n_adv`, `idx // n_adv` inverts the layout `i + j*n_adv` |
| OracleLayout.LayoutEncode | optimistic.py:88-91 | every variable position below `n_adv*n_kw` decodes to an in-range (advertiser, keyword) pair whose layout is that position |
| OracleLayout.LayoutInjective | optimistic.py:42 | two (advertiser, keyword) pairs share a variable position only when they are equal |
| OracleLayout.ObjectiveLayout | optimistic.py:30-32 | the objective has `n_adv*n_kw` entries, and the entry of (i, j) is minus advertiser i's bid for keyword j (0 when missing) |
| OracleLayout.BudgetRowLayout | optimistic.py:39-44 | budget row i holds advertiser i's bid at each of its variables and 0 at every other advertiser's |
| OracleLayout.DemandRowLayout | optimistic.py:47-52 | demand row j holds 1 at every variable of keyword j and 0 elsewhere |
| OracleLayout.ConstraintMatrix | optimistic.py:35-52 | `n_adv + n_kw` rows of `n_adv*n_kw` entries: row i is advertiser i's budget row (its bids at its own variables, 0 elsewhere, by `BudgetRowLayout`) and row `n_adv + j` is keyword j's demand row (1 at its variables, 0 elsewhere, by `DemandRowLayout`) |
| OracleLayout.SortByValue | optimistic.py:80-82 | the visiting order holds each variable position exactly once |
| OracleLayout.FractionalOrderCorrect | optimistic.py:80-82 | the visiting order is by non-increasing value, with equal values in position order (a stable sort on `-x`) |
| Rounding.CellBounds | optimistic.py:94-98 | a rounded cell lies between 0 and `int(x)`, within the remaining demand, and its cost fits in the remaining working budget |
| Rounding.StepNeverOverdraws | optimistic.py:97-100 | the charge `cell * unit cost` never exceeds the remaining working budget, so the deduction does not raise |
| Rounding.StepBounded | optimistic.py:84-101 | one step keeps demand non-negative, spend within budget, and every cell in [0, int(x)] |
| Rounding.FoldInvariant | optimistic.py:84-101 | after any prefix of the visiting order, unvisited and zero-valued cells are 0; each planned unit and cost is accounted for in demand and spend; the bounds are kept |
| Rounding.RoundTouchesOnlyPositive | optimistic.py:85-86 | every cell whose LP value is 0 stays 0 in the rounded plan |
| Rounding.RoundingFeasible | optimistic.py:71-104 | column sums equal the demand consumed and stay within each predicted count; each advertiser's plan costs exactly what was charged and fits what it had left; cells lie in [0, int(x)], and cells of zero variables are 0 |
| Rounding.RoundingOnlyAddsSpend | optimistic.py:97-100 | the rounding only adds to each working record's spend and never takes it past its budget |
| Optimistic.CellToWrite | optimistic.py:88-98 | an iteration at a non-zero variable decodes its (advertiser, keyword) pair and computes exactly the rounding's `Cell` value and unit cost |
| Optimistic.ChargeRecord | optimistic.py:100 | the deduction charges one record of a list of distinct records, and only that one |
| Optimistic.RoundingStep | optimistic.py:84-101 | one loop iteration takes the array, the records' spend and the demand dictionary exactly as `Step` takes the working state |
| Optimistic.StartRounding | optimistic.py:75-77 | a fresh all-zero matrix and the predicted counts per keyword hold the rounding's start state |
| Optimistic.RoundSolutionToIntegers | optimistic.py:71-104 | the matrix written and the spend left on the (shared) records are exactly `Round` of the inputs, for which `RoundingFeasible` holds |
| Optimistic.SolveAllocation | optimistic.py:21-64 | with the LP solution given, the rounding runs over keywords `k1..kn` and yields `Round`'s plan and spend |
| Optimistic.OfflinePlan | optimistic.py:119-120 | the oracle rounds against the cached copy, whose records take the charges; the registry's records are left as they were, and every advertiser assigned a unit has a bid-table row |
| Optimistic.Assigned | optimistic.py:149-152 | the candidate list is exactly the positions with a positive plan cell, in list order |
| Optimistic.PositiveRows | optimistic.py:149-152 | the loop collects exactly `Assigned` of the plan column |
| Optimistic.PickNoneIff | optimistic.py:158-165 | the highest-bid scan finds nothing exactly when no candidate can pay its bid |
| Optimistic.PickIsFirstHighest | optimistic.py:158-165 | the scan's pick bids at least as much as every candidate that can pay, and strictly more than every such one before it |
| Optimistic.DecideSome | optimistic.py:139-173 | a served query has a positive remaining count, is a keyword, and goes to an advertiser with a positive plan cell that can pay its bid; that bid is the highest among such advertisers and strictly above every earlier one |
| Optimistic.DecideNone | optimistic.py:139-176 | a query is dismissed exactly when its remaining count is ≤ 0, it is not a keyword, or no advertiser the plan assigns to it can pay |
| Optimistic.ServingKeepsCountsNonNegative | optimistic.py:170-172 | serving a query never takes a plan cell or a remaining count below 0 |
| Optimistic.OptimisticAlgorithm.constructor | optimistic.py:108-127 | remaining counts copy the predicted ones, keywords are `k1..kn`, and the plan is `Round` against the cached copy, which takes its charges; the served list is the cached copy in balanced mode and the registry standalone |
| Optimistic.OptimisticAlgorithm.AssignedAdvertisers | optimistic.py:148-152 | the candidates are `Assigned` of the plan column of the query's keyword |
| Optimistic.OptimisticAlgorithm.HighestBidder | optimistic.py:158-165 | the scan's result is `Pick` over the candidates, with the picked bid |
| Optimistic.OptimisticAlgorithm.Choose | optimistic.py:139-169 | the dismissals, the candidate list, the scan and `advertisers.index` together compute `Decide` on the current state, changing nothing |
| Optimistic.OptimisticAlgorithm.AllocateQuery | optimistic.py:129-176 | when `Decide` gives nothing it returns `(None, 0)` and no state changes; otherwise it returns that advertiser and bid, takes one unit off its plan cell and one off the query's count, and charges only that record its bid |
| Optimistic.OptimisticAlgorithm.Serve | optimistic.py:168-173 | the commit takes one unit off the plan cell and off the count and charges the record alone; the charge is never rejected |
| Balanced.Scale | balanced.py:70 | `alpha * score` for alpha ≥ 0: a real score scales and always beats `-inf`; an absent optimistic branch's `-inf` never reaches any real score, whether it stays `-inf` (alpha > 0) or becomes NaN (alpha 0), which compares false |
| Balanced.FindByName | balanced.py:44 | the first registry record of that name, or none exactly when no record has that name |
| Balanced.ArbitrateRule | balanced.py:53-77 | nothing is charged exactly when both candidates are absent; a lone candidate always wins; with both present, optimistic wins exactly when `alpha*o_score >= p_score`, so ties favour it |
| Balanced.TwinIsSame | balanced.py:43-51 | with distinct names, mapping a shadow candidate by name finds the registry record at the same position and keeps its bid |
| Balanced.RecreatedNamesRepeat | advertiser.py:7-18 | records are only appended, so registering the same names a second time leaves the registry with repeated names |
| Balanced.TwinTakesFirstNamesake | balanced.py:43-51 | with a repeated name, the by-name lookup maps a shadow candidate to the first record of that name, never the candidate's own later position, keeping the bid |
| Balanced.StaleTwinOverdraws | balanced.py:43-51 | a registry `[A1 with 1 left, A1 with 20 left]`, both bidding 5: the pessimistic scan picks the second A1, which can pay; the lookup maps it to the first A1, the decision charges that record, and its `deduct_budget` rejects the 5 |
| Balanced.DistinctTwinPays | balanced.py:43-51 | with distinct names, a candidate the shadow can pay maps to its own twin, and that registry record accepts the charge |
| Balanced.ChargeKeepsAhead | balanced.py:80 | a bid the shadow record could pay is affordable on its registry twin, and charging it keeps the shadow ahead |
| Balanced.ShadowStaysAhead | balanced.py:39-80 | after both sub-allocators charge the shadow it is still ahead of the registry, and either candidate's registry record can pay its bid |
| Balanced.CommitKeepsAhead | balanced.py:70-80 | whichever way the decision goes, after the commit the shadow is still ahead of the registry, whose names stay distinct |
| Balanced.StartsAhead | optimistic.py:119-125 | the shadow the oracle charged starts ahead of the registry it was copied from |
| Balanced.BuildAllocators | balanced.py:22-24 | both allocators capture the same cached list, whose spends are exactly `Round`'s on the registry's values; the optimistic allocator holds the predicted counts, keywords `k1..kn` and `Round`'s plan in a fresh matrix; the registry is unchanged, shares no record with the list, and is behind it |
| Balanced.BalancedAlgorithm.constructor | balanced.py:12-27 | the allocators share the shadow, whose spends are exactly `Round`'s; the optimistic allocator starts with the predicted counts, keywords `k1..kn` and `Round`'s plan; counters start at `[0, 0]`; the registry's records are untouched; the balanced invariant holds |
| Balanced.BalancedAlgorithm.RunOptimistic | balanced.py:40 | the optimistic answer is `Decide` on the shadow; the shadow is charged for it and the allocator's counters step; records outside the shadow are unchanged |
| Balanced.BalancedAlgorithm.RunPessimistic | balanced.py:41 | the pessimistic answer is `Best` on the shadow as the optimistic step left it, and is charged to the shadow |
| Balanced.BalancedAlgorithm.Resolve | balanced.py:43-51 | the copy returned by a sub-allocator maps by name to the registry record at the candidate's own position, with the copy's bid |
| Balanced.BalancedAlgorithm.Prefer | balanced.py:57-77 | the scores on the registry records and the comparison choose exactly `Arbitrate`'s verdict |
| Balanced.BalancedAlgorithm.Pay | balanced.py:80 | the deduction on the registry record is never rejected, charges exactly that record, and changes no other record |
| Balanced.BalancedAlgorithm.Award | balanced.py:70-80 | the winning branch's counter grows by one and only the chosen record is charged its bid |
| Balanced.BalancedAlgorithm.Commit | balanced.py:43-82 | the registry becomes `Settled` by `Arbitrate`'s verdict; `(None, 0)` with counters untouched when there is no candidate, otherwise the winner's record and bid and one counter up |
| Balanced.BalancedAlgorithm.ResetCache | balanced.py:39 | the cache becomes fresh records equal to the registry, sharing no record with the shadow the allocators hold |
| Balanced.BalancedAlgorithm.Explore | balanced.py:39-41 | after the reset both allocators run on the persistent shadow, optimistic first; the registry is unchanged and the balanced invariant holds |
| Balanced.BalancedAlgorithm.Finish | balanced.py:43-82 | the commit settles the registry by `Arbitrate` on the mapped candidates, keeping the invariant and the shadow |
| Balanced.BalancedAlgorithm.AllocateQuery | balanced.py:29-82 | the shadow takes both allocators' charges; the registry takes exactly `Arbitrate`'s single charge (never rejected); the result is `(None, 0)` with counters unchanged when neither branch answers, else the winner and its bid with its branch's counter up; the invariant (shadow ahead, counters sum to queries served) is kept |

## Left out

- The `linprog` call and its failure branch (`optimistic.py:57-69`) belong to an external solver. Its solution `x` is a parameter, required to be non-negative with one entry per variable.
- `phi_alpha` (`utils.py:5-14`) is floating-point `exp`. It is a function parameter with no property assumed.
- Floating point is modelled as exact `real`. `int(x)` and `//` on non-negative values are `.Floor`; no rounding error is modelled.
- Python `dict` iteration order is not modelled. The oracle's keyword list is `k1..kn`. The online keyword list (`list(predicted_queries.keys())`) is taken to be that same list. The driver builds `predicted_queries` by inserting `k1..kn` in that order (`utils.py:31`, `utils.py:64`, `balanced.py:98`), and a Python dict iterates in insertion order. The constructor's requirement that the keys be exactly `k1..kn` covers the key set only; the model takes the order from the driver.
- `Rounding.WellFormed`: the rounding's precondition. Wherever the LP value is positive, the advertiser must have a bid-table row and a positive unit cost. Otherwise `bids[name]` raises a KeyError, or `//` by a zero bid raises a ZeroDivisionError; those crash paths are not modelled.
- `Balanced.BalancedAlgorithm.constructor` requires what the driver supplies:
  - alpha ≥ 0;
  - non-negative bids;
  - non-negative predicted counts;
  - registry records within budget;
  - a cache that is absent or mirrors the registry (the driver resets it before each construction).
- `Balanced.BalancedAlgorithm.constructor` also requires distinct advertiser names. The driver does not supply these from its second replication on (see Findings). The model implements the intended behaviour, where each candidate maps to its own twin; the stale-namesake charge is exhibited by `Balanced.StaleTwinOverdraws` and is not otherwise modelled.
- `Optimistic.OfflinePlan`, `Optimistic.OptimisticAlgorithm.constructor` and `Balanced.BuildAllocators` require the same mirroring cache, which the driver establishes with `reset_budgets` and `reset_advertiser_list_copy` before constructing.
- The standalone allocators keep a `seq` snapshot of the registry's list of records, taken at construction. The Python list object is live: records appended to the registry afterwards would be seen by the source's allocators but not by the model's.
- With a negative alpha, an absent optimistic candidate scores `-alpha * -inf = +inf` and the source calls `None.deduct_budget`. That crash is not modelled.
- With distinct names the lookup's `[0]` IndexError is unreachable, because every shadow record has a namesake in the registry; the model has no path for it.
- The diagnostic `print` calls (`optimistic.py:66-68`, `balanced.py:78`) and the `__main__` demo blocks are left out. `__str__`/`__repr__` are left out too.
- `algorithm.py` is an abstract signature with no behaviour and is not part of this model.
- `utils.py`'s random predicted-sequence generation, `input_generator.py` and `experiment.py` produce inputs and drive experiments; they are not part of this model.
- Aliasing of the Python class-level registry is modelled by an explicit `Registry` object passed to each constructor, not by global state.

## Findings

| source | as written | input that shows it | evidently intended | confidence | as-written member | corrected member |
|---|---|---|---|---|---|---|
| balanced.py:43-51 | the commit maps the winning shadow candidate to the registry by name and takes the first match; the driver recreates `A1..An` on every replication (`experiment.py:92-93`, `input_generator.py:42`) and the registry only appends (`advertiser.py:18`), so from the second replication on every name is repeated | registry `[A1 (budget 10, spent 9), A1 (budget 20, spent 0)]`, pessimistic pick `(second A1, bid 5)`: the first A1 is charged 5 with 1 left, and `deduct_budget` raises ValueError | the candidate is charged to its own record, which can pay it | not executed | `Balanced.StaleTwinOverdraws` | `Balanced.DistinctTwinPays` |
