/** The greedy rounding of the LP solution, as a function of values: one step
    per visited variable, folded over the visiting order. The imperative
    rounding in module Optimistic is proved to compute exactly this fold. */
module Rounding {
  import opened Market
  import opened OracleLayout

  /** `bids[name].get(keyword, 1)`: the rounding's unit cost; a missing keyword
      costs 1 here, whereas the LP reads it as a bid of 0. */
  function RoundingPrice(bids: BidTable, name: string, keyword: string): real
    requires name in bids
  {
    if keyword in bids[name] then bids[name][keyword] else 1.0
  }

  /** The oracle's inputs: the LP solution `x`, the working copy's names and
      initial budgets (in list order), the keywords and the bid table. */
  datatype Instance = Instance(x: seq<real>, names: seq<string>, budgets: seq<real>,
                               keywords: seq<string>, bids: BidTable)
  {
    function NAdv(): nat { |names| }
    function NKw(): nat { |keywords| }

    /** The LP gave (advertiser i, keyword j) a positive amount. */
    predicate PositiveAt(i: nat, j: nat)
    {
      VarIndex(NAdv(), i, j) < |x| && x[VarIndex(NAdv(), i, j)] > 0.0
    }

    /** What the rounding needs of its inputs: `x` has one non-negative entry
        per (advertiser, keyword), and wherever it is positive the advertiser
        has a bid-table row (else `bids[name]` raises) and a positive unit
        cost (bids are non-negative and a zero one would divide by zero). */
    predicate WellFormed()
    {
      && |budgets| == |names|
      && |x| == |names| * |keywords|
      && (forall idx :: 0 <= idx < |x| ==> x[idx] >= 0.0)
      && (forall i, j :: 0 <= i < |names| && 0 <= j < |keywords| && PositiveAt(i, j) ==>
            names[i] in bids && RoundingPrice(bids, names[i], keywords[j]) > 0.0)
    }

    function Price(i: nat, j: nat): (p: real)
      requires WellFormed() && i < NAdv() && j < NKw() && PositiveAt(i, j)
      ensures p > 0.0
    {
      RoundingPrice(bids, names[i], keywords[j])
    }
  }

  /** The rounding's working state: the plan matrix, the working copy's spend,
      and the remaining demand per keyword. */
  datatype Work = Work(plan: seq<seq<int>>, spent: seq<real>, demand: seq<int>)

  /** One row per advertiser, one column per keyword. */
  predicate PlanShaped(inst: Instance, plan: seq<seq<int>>)
  {
    |plan| == inst.NAdv() && forall i :: 0 <= i < |plan| ==> |plan[i]| == inst.NKw()
  }

  predicate Shaped(inst: Instance, w: Work)
  {
    && PlanShaped(inst, w.plan)
    && |w.spent| == inst.NAdv()
    && |w.demand| == inst.NKw()
  }

  function ZeroPlan(nAdv: nat, nKw: nat): (p: seq<seq<int>>)
    ensures |p| == nAdv && forall i :: 0 <= i < nAdv ==> p[i] == seq(nKw, _ => 0)
  {
    seq(nAdv, _ => seq(nKw, _ => 0))
  }

  /** The state before the first step: an all-zero plan. */
  function Start(inst: Instance, spent: seq<real>, demand: seq<int>): (w: Work)
    requires |spent| == inst.NAdv() && |demand| == inst.NKw()
    ensures Shaped(inst, w)
  {
    Work(ZeroPlan(inst.NAdv(), inst.NKw()), spent, demand)
  }

  /** `min(int(x[idx]), remaining demand, remaining budget // unit cost)` */
  function Cell(inst: Instance, w: Work, i: nat, j: nat): int
    requires inst.WellFormed() && Shaped(inst, w)
    requires i < inst.NAdv() && j < inst.NKw() && inst.PositiveAt(i, j)
  {
    Min3(inst.x[VarIndex(inst.NAdv(), i, j)].Floor, w.demand[j],
         ((inst.budgets[i] - w.spent[i]) / inst.Price(i, j)).Floor)
  }

  /** One iteration of the rounding loop, at variable position `idx`. */
  function Step(inst: Instance, w: Work, idx: nat): (r: Work)
    requires inst.WellFormed() && Shaped(inst, w) && idx < |inst.x|
    ensures Shaped(inst, r)
  {
    if inst.x[idx] == 0.0 then w
    else
      LayoutEncode(inst.NAdv(), inst.NKw(), idx);
      var i, j := idx % inst.NAdv(), idx / inst.NAdv();
      var cell := Cell(inst, w, i, j);
      Work(w.plan[i := w.plan[i][j := cell]],
           w.spent[i := w.spent[i] + cell as real * inst.Price(i, j)],
           w.demand[j := w.demand[j] - cell])
  }

  /** A step at a position the LP left positive writes exactly one cell. */
  lemma StepAt(inst: Instance, w: Work, idx: nat, i: nat, j: nat)
    requires inst.WellFormed() && Shaped(inst, w) && idx < |inst.x| && inst.x[idx] != 0.0
    requires inst.NAdv() > 0 && i == idx % inst.NAdv() && j == idx / inst.NAdv()
    requires i < inst.NAdv() && j < inst.NKw() && inst.PositiveAt(i, j)
    ensures Step(inst, w, idx).plan == w.plan[i := w.plan[i][j := Cell(inst, w, i, j)]]
    ensures Step(inst, w, idx).spent == w.spent[i := w.spent[i] + Cell(inst, w, i, j) as real * inst.Price(i, j)]
    ensures Step(inst, w, idx).demand == w.demand[j := w.demand[j] - Cell(inst, w, i, j)]
  {
    var charge := Cell(inst, w, i, j) as real * inst.Price(i, j);
    assert Step(inst, w, idx).spent[i] == w.spent[i] + charge;
  }

  /** The state after visiting the positions of `order`, first to last. */
  function Fold(inst: Instance, w: Work, order: seq<nat>): (r: Work)
    requires inst.WellFormed() && Shaped(inst, w) && InRange(inst.x, order)
    ensures Shaped(inst, r)
  {
    if |order| == 0 then w
    else Step(inst, Fold(inst, w, order[..|order| - 1]), order[|order| - 1])
  }

  /** `round_solution_to_integers`: the fold over the descending-value order,
      from an all-zero plan, the working copy's spend and the predicted counts. */
  function Round(inst: Instance, spent: seq<real>, demand: seq<int>): (r: Work)
    requires inst.WellFormed() && |spent| == inst.NAdv() && |demand| == inst.NKw()
    ensures Shaped(inst, r)
  {
    Fold(inst, Start(inst, spent, demand), FractionalOrder(inst.x))
  }

  // ---------------------------------------------------------------------
  // Column sums and row costs of a plan.

  /** Units of keyword j planned for the first m advertisers. */
  function ColSum(plan: seq<seq<int>>, j: nat, m: nat): int
    requires m <= |plan| && forall i :: 0 <= i < |plan| ==> j < |plan[i]|
  {
    if m == 0 then 0 else ColSum(plan, j, m - 1) + plan[m - 1][j]
  }

  function CellCost(inst: Instance, plan: seq<seq<int>>, i: nat, j: nat): real
    requires inst.WellFormed() && PlanShaped(inst, plan)
    requires i < inst.NAdv() && j < inst.NKw()
  {
    if inst.PositiveAt(i, j) then plan[i][j] as real * inst.Price(i, j) else 0.0
  }

  /** Cost of advertiser i's plan over the first m keywords. */
  function RowCost(inst: Instance, plan: seq<seq<int>>, i: nat, m: nat): real
    requires inst.WellFormed() && PlanShaped(inst, plan)
    requires i < inst.NAdv() && m <= inst.NKw()
  {
    if m == 0 then 0.0 else RowCost(inst, plan, i, m - 1) + CellCost(inst, plan, i, m - 1)
  }

  lemma {:induction false} ColSumUpdate(plan: seq<seq<int>>, i: nat, j: nat, v: int, j': nat, m: nat)
    requires i < |plan| && j < |plan[i]| && m <= |plan|
    requires forall r :: 0 <= r < |plan| ==> j' < |plan[r]|
    ensures ColSum(plan[i := plan[i][j := v]], j', m) ==
      ColSum(plan, j', m) + (if j' == j && i < m then v - plan[i][j] else 0)
  {
    if m > 0 {
      ColSumUpdate(plan, i, j, v, j', m - 1);
    }
  }

  /** Writing cell (i, j) leaves the cost of every other cell as it was. */
  lemma CellCostElsewhere(inst: Instance, plan: seq<seq<int>>, plan': seq<seq<int>>, i: nat, j: nat, v: int, i': nat, k: nat)
    requires inst.WellFormed() && PlanShaped(inst, plan) && PlanShaped(inst, plan')
    requires i < inst.NAdv() && j < inst.NKw()
    requires plan' == plan[i := plan[i][j := v]]
    requires i' < inst.NAdv() && k < inst.NKw() && (i' != i || k != j)
    ensures CellCost(inst, plan', i', k) == CellCost(inst, plan, i', k)
  {
    var c := plan[i'][k];
    assert plan'[i'][k] == c;
    if inst.PositiveAt(i', k) {
      var p := inst.Price(i', k);
      assert CellCost(inst, plan', i', k) == c as real * p;
      assert CellCost(inst, plan, i', k) == c as real * p;
    }
  }

  /** Writing cell (i, j) changes row i's cost by that cell's change in cost. */
  lemma {:induction false} RowCostUpdate(inst: Instance, plan: seq<seq<int>>, plan': seq<seq<int>>, i: nat, j: nat, v: int, i': nat, m: nat)
    requires inst.WellFormed() && PlanShaped(inst, plan) && PlanShaped(inst, plan')
    requires i < inst.NAdv() && j < inst.NKw()
    requires plan' == plan[i := plan[i][j := v]]
    requires i' < inst.NAdv() && m <= inst.NKw()
    ensures RowCost(inst, plan', i', m) == RowCost(inst, plan, i', m) +
      (if i' == i && j < m then CellCost(inst, plan', i, j) - CellCost(inst, plan, i, j) else 0.0)
  {
    if m > 0 {
      RowCostUpdate(inst, plan, plan', i, j, v, i', m - 1);
      if i' != i || m - 1 != j {
        CellCostElsewhere(inst, plan, plan', i, j, v, i', m - 1);
      }
    }
  }

  lemma {:induction false} ZeroColSum(nAdv: nat, nKw: nat, j: nat, m: nat)
    requires j < nKw && m <= nAdv
    ensures ColSum(ZeroPlan(nAdv, nKw), j, m) == 0
  {
    if m > 0 {
      ZeroColSum(nAdv, nKw, j, m - 1);
    }
  }

  lemma {:induction false} ZeroRowCost(inst: Instance, i: nat, m: nat)
    requires inst.WellFormed() && i < inst.NAdv() && m <= inst.NKw()
    ensures RowCost(inst, ZeroPlan(inst.NAdv(), inst.NKw()), i, m) == 0.0
  {
    if m > 0 {
      ZeroRowCost(inst, i, m - 1);
    }
  }

  /** Before the first step nothing is planned, so nothing is charged. */
  lemma StartInvariant(inst: Instance, w0: Work)
    requires inst.WellFormed() && Shaped(inst, w0) && w0.plan == ZeroPlan(inst.NAdv(), inst.NKw())
    ensures Untouched(inst, w0.plan, []) && Conserved(inst, w0, w0)
  {
    forall j | 0 <= j < inst.NKw() ensures ColSum(w0.plan, j, inst.NAdv()) == 0 {
      ZeroColSum(inst.NAdv(), inst.NKw(), j, inst.NAdv());
    }
    forall i | 0 <= i < inst.NAdv() ensures RowCost(inst, w0.plan, i, inst.NKw()) == 0.0 {
      ZeroRowCost(inst, i, inst.NKw());
    }
  }

  lemma DistinctPrefix(order: seq<nat>, x: seq<real>)
    requires |order| > 0 && InRange(x, order) && Distinct(order)
    ensures InRange(x, order[..|order| - 1]) && Distinct(order[..|order| - 1])
    ensures order[|order| - 1] !in order[..|order| - 1]
    ensures order == order[..|order| - 1] + [order[|order| - 1]]
  {
  }

  /** `c <= floor(r / p)` with a positive `p` means `c * p <= r`. */
  lemma FloorQuotient(c: int, r: real, p: real)
    requires p > 0.0 && c <= (r / p).Floor
    ensures c as real * p <= r
  {
    var q := r / p;
    assert c as real <= q;
    assert c as real * p <= q * p;
    assert q * p == r;
  }

  lemma FloorNonNegative(r: real)
    requires r >= 0.0
    ensures r.Floor >= 0
  {
  }

  /** The charge of a step never exceeds the working copy's remaining budget,
      so the deduction made with it is never rejected. */
  lemma StepNeverOverdraws(inst: Instance, w: Work, i: nat, j: nat)
    requires inst.WellFormed() && Shaped(inst, w)
    requires i < inst.NAdv() && j < inst.NKw() && inst.PositiveAt(i, j)
    ensures Cell(inst, w, i, j) as real * inst.Price(i, j) <= inst.budgets[i] - w.spent[i]
  {
    FloorQuotient(Cell(inst, w, i, j), inst.budgets[i] - w.spent[i], inst.Price(i, j));
  }

  /** Cells at positions not yet visited, or where the LP put zero, are 0. */
  ghost predicate Untouched(inst: Instance, plan: seq<seq<int>>, visited: seq<nat>)
    requires PlanShaped(inst, plan)
  {
    forall i, j ::
      (0 <= i < inst.NAdv() && 0 <= j < inst.NKw() &&
       (VarIndex(inst.NAdv(), i, j) !in visited || !inst.PositiveAt(i, j))) ==> plan[i][j] == 0
  }

  /** Every planned unit is taken from its keyword's demand, and every planned
      cost is charged to its advertiser's working spend. */
  ghost predicate Conserved(inst: Instance, w0: Work, w: Work)
    requires inst.WellFormed() && Shaped(inst, w0) && Shaped(inst, w)
  {
    && (forall j :: 0 <= j < inst.NKw() ==> ColSum(w.plan, j, inst.NAdv()) + w.demand[j] == w0.demand[j])
    && (forall i :: 0 <= i < inst.NAdv() ==> w.spent[i] == w0.spent[i] + RowCost(inst, w.plan, i, inst.NKw()))
  }

  /** Demand and budgets are not overdrawn and cells lie between 0 and `int(x)`. */
  ghost predicate Bounded(inst: Instance, w: Work)
    requires inst.WellFormed() && Shaped(inst, w)
  {
    && (forall j :: 0 <= j < inst.NKw() ==> w.demand[j] >= 0)
    && (forall i :: 0 <= i < inst.NAdv() ==> w.spent[i] <= inst.budgets[i])
    && (forall i, j :: 0 <= i < inst.NAdv() && 0 <= j < inst.NKw() ==>
          0 <= w.plan[i][j] && (inst.PositiveAt(i, j) ==> w.plan[i][j] <= inst.x[VarIndex(inst.NAdv(), i, j)].Floor))
  }

  /** The cell a step at a positive position writes, and that it was still 0. */
  lemma StepTarget(inst: Instance, w: Work, prefix: seq<nat>, idx: nat)
    requires inst.WellFormed() && Shaped(inst, w) && idx < |inst.x| && inst.x[idx] != 0.0
    requires idx !in prefix && Untouched(inst, w.plan, prefix)
    ensures inst.NAdv() > 0 && idx % inst.NAdv() < inst.NAdv() && idx / inst.NAdv() < inst.NKw()
    ensures VarIndex(inst.NAdv(), idx % inst.NAdv(), idx / inst.NAdv()) == idx
    ensures inst.PositiveAt(idx % inst.NAdv(), idx / inst.NAdv())
    ensures w.plan[idx % inst.NAdv()][idx / inst.NAdv()] == 0
  {
    LayoutEncode(inst.NAdv(), inst.NKw(), idx);
  }

  lemma StepUntouched(inst: Instance, w: Work, prefix: seq<nat>, idx: nat)
    requires inst.WellFormed() && Shaped(inst, w) && idx < |inst.x|
    requires idx !in prefix && Untouched(inst, w.plan, prefix)
    ensures Untouched(inst, Step(inst, w, idx).plan, prefix + [idx])
  {
    if inst.x[idx] != 0.0 {
      StepTarget(inst, w, prefix, idx);
    }
  }

  lemma StepConserved(inst: Instance, w0: Work, w: Work, prefix: seq<nat>, idx: nat)
    requires inst.WellFormed() && Shaped(inst, w0) && Shaped(inst, w) && idx < |inst.x|
    requires idx !in prefix && Untouched(inst, w.plan, prefix) && Conserved(inst, w0, w)
    ensures Conserved(inst, w0, Step(inst, w, idx))
  {
    if inst.x[idx] != 0.0 {
      StepTarget(inst, w, prefix, idx);
      StepDemandConserved(inst, w0, w, idx);
      StepSpendConserved(inst, w0, w, idx);
    }
  }

  lemma StepDemandConserved(inst: Instance, w0: Work, w: Work, idx: nat)
    requires inst.WellFormed() && Shaped(inst, w0) && Shaped(inst, w) && idx < |inst.x| && inst.x[idx] != 0.0
    requires inst.NAdv() > 0 && idx % inst.NAdv() < inst.NAdv() && idx / inst.NAdv() < inst.NKw()
    requires inst.PositiveAt(idx % inst.NAdv(), idx / inst.NAdv())
    requires w.plan[idx % inst.NAdv()][idx / inst.NAdv()] == 0
    requires forall j :: 0 <= j < inst.NKw() ==> ColSum(w.plan, j, inst.NAdv()) + w.demand[j] == w0.demand[j]
    ensures var w' := Step(inst, w, idx);
      forall j :: 0 <= j < inst.NKw() ==> ColSum(w'.plan, j, inst.NAdv()) + w'.demand[j] == w0.demand[j]
  {
    var w' := Step(inst, w, idx);
    var i, j := idx % inst.NAdv(), idx / inst.NAdv();
    var cell := Cell(inst, w, i, j);
    assert w'.plan == w.plan[i := w.plan[i][j := cell]];
    assert w'.demand == w.demand[j := w.demand[j] - cell];
    forall j' | 0 <= j' < inst.NKw()
      ensures ColSum(w'.plan, j', inst.NAdv()) + w'.demand[j'] == w0.demand[j']
    {
      ColSumUpdate(w.plan, i, j, cell, j', inst.NAdv());
    }
  }

  lemma StepSpendConserved(inst: Instance, w0: Work, w: Work, idx: nat)
    requires inst.WellFormed() && Shaped(inst, w0) && Shaped(inst, w) && idx < |inst.x| && inst.x[idx] != 0.0
    requires inst.NAdv() > 0 && idx % inst.NAdv() < inst.NAdv() && idx / inst.NAdv() < inst.NKw()
    requires inst.PositiveAt(idx % inst.NAdv(), idx / inst.NAdv())
    requires w.plan[idx % inst.NAdv()][idx / inst.NAdv()] == 0
    requires forall i :: 0 <= i < inst.NAdv() ==> w.spent[i] == w0.spent[i] + RowCost(inst, w.plan, i, inst.NKw())
    ensures var w' := Step(inst, w, idx);
      forall i :: 0 <= i < inst.NAdv() ==> w'.spent[i] == w0.spent[i] + RowCost(inst, w'.plan, i, inst.NKw())
  {
    var w' := Step(inst, w, idx);
    var i, j := idx % inst.NAdv(), idx / inst.NAdv();
    var cell := Cell(inst, w, i, j);
    var p := inst.Price(i, j);
    assert w'.plan == w.plan[i := w.plan[i][j := cell]];
    assert w'.spent == w.spent[i := w.spent[i] + cell as real * p];
    assert CellCost(inst, w.plan, i, j) == 0.0;
    assert CellCost(inst, w'.plan, i, j) == cell as real * p;
    forall i' | 0 <= i' < inst.NAdv()
      ensures w'.spent[i'] == w0.spent[i'] + RowCost(inst, w'.plan, i', inst.NKw())
    {
      RowCostUpdate(inst, w.plan, w'.plan, i, j, cell, i', inst.NKw());
    }
  }

  /** The cell a step writes lies between 0 and `int(x)`, within the remaining
      demand, and its cost within the remaining budget. */
  lemma CellBounds(inst: Instance, w: Work, i: nat, j: nat)
    requires inst.WellFormed() && Shaped(inst, w)
    requires i < inst.NAdv() && j < inst.NKw() && inst.PositiveAt(i, j)
    requires w.demand[j] >= 0 && w.spent[i] <= inst.budgets[i]
    ensures 0 <= Cell(inst, w, i, j) <= inst.x[VarIndex(inst.NAdv(), i, j)].Floor
    ensures Cell(inst, w, i, j) <= w.demand[j]
    ensures Cell(inst, w, i, j) as real * inst.Price(i, j) <= inst.budgets[i] - w.spent[i]
  {
    StepNeverOverdraws(inst, w, i, j);
    FloorNonNegative(inst.x[VarIndex(inst.NAdv(), i, j)]);
    FloorNonNegative((inst.budgets[i] - w.spent[i]) / inst.Price(i, j));
  }

  lemma StepBounded(inst: Instance, w: Work, idx: nat)
    requires inst.WellFormed() && Shaped(inst, w) && idx < |inst.x|
    requires Bounded(inst, w)
    ensures Bounded(inst, Step(inst, w, idx))
  {
    if inst.x[idx] != 0.0 {
      LayoutEncode(inst.NAdv(), inst.NKw(), idx);
      var i, j := idx % inst.NAdv(), idx / inst.NAdv();
      assert inst.PositiveAt(i, j);
      StepAt(inst, w, idx, i, j);
      var cell := Cell(inst, w, i, j);
      CellBounds(inst, w, i, j);
      var w' := Step(inst, w, idx);
      forall j' | 0 <= j' < inst.NKw()
        ensures w'.demand[j'] >= 0
      {
      }
      forall i' | 0 <= i' < inst.NAdv()
        ensures w'.spent[i'] <= inst.budgets[i']
      {
      }
      forall i', j' | 0 <= i' < inst.NAdv() && 0 <= j' < inst.NKw()
        ensures 0 <= w'.plan[i'][j']
        ensures inst.PositiveAt(i', j') ==> w'.plan[i'][j'] <= inst.x[VarIndex(inst.NAdv(), i', j')].Floor
      {
      }
    }
  }

  lemma {:induction false} FoldInvariant(inst: Instance, w0: Work, order: seq<nat>)
    requires inst.WellFormed() && Shaped(inst, w0) && w0.plan == ZeroPlan(inst.NAdv(), inst.NKw())
    requires InRange(inst.x, order) && Distinct(order)
    ensures var w := Fold(inst, w0, order);
      && Untouched(inst, w.plan, order) && Conserved(inst, w0, w)
      && (Bounded(inst, w0) ==> Bounded(inst, w))
  {
    if |order| == 0 {
      StartInvariant(inst, w0);
    } else {
      var m := |order| - 1;
      var prefix := order[..m];
      DistinctPrefix(order, inst.x);
      FoldInvariant(inst, w0, prefix);
      var w := Fold(inst, w0, prefix);
      StepUntouched(inst, w, prefix, order[m]);
      StepConserved(inst, w0, w, prefix, order[m]);
      if Bounded(inst, w0) {
        StepBounded(inst, w, order[m]);
      }
    }
  }

  /** The rounding writes only cells whose LP variable is positive; every
      other cell of its plan is 0, whatever the starting spend and demand. */
  lemma RoundTouchesOnlyPositive(inst: Instance, spent: seq<real>, demand: seq<int>)
    requires inst.WellFormed() && |spent| == inst.NAdv() && |demand| == inst.NKw()
    ensures var w := Round(inst, spent, demand);
      forall i, j :: 0 <= i < inst.NAdv() && 0 <= j < inst.NKw() && !inst.PositiveAt(i, j) ==> w.plan[i][j] == 0
  {
    var order := FractionalOrder(inst.x);
    FractionalOrderCorrect(inst.x, |inst.x|);
    SortedDistinct(inst.x, order);
    FoldInvariant(inst, Start(inst, spent, demand), order);
  }

  /** Feasibility of the rounded plan: starting from non-negative demand and
      a working copy within budget, every keyword's column sum stays within its
      predicted count (remaining demand never goes negative), every advertiser's
      planned cost is exactly what was charged to the working copy and fits in
      what it had left, every cell lies between 0 and `int(x)`, and a variable
      the LP left at zero gets no units. */
  lemma RoundingFeasible(inst: Instance, spent: seq<real>, demand: seq<int>)
    requires inst.WellFormed() && |spent| == inst.NAdv() && |demand| == inst.NKw()
    requires forall j :: 0 <= j < |demand| ==> demand[j] >= 0
    requires forall i :: 0 <= i < |spent| ==> spent[i] <= inst.budgets[i]
    ensures var w := Round(inst, spent, demand);
      && (forall j :: 0 <= j < inst.NKw() ==>
            0 <= w.demand[j] && ColSum(w.plan, j, inst.NAdv()) == demand[j] - w.demand[j])
      && (forall i :: 0 <= i < inst.NAdv() ==>
            w.spent[i] == spent[i] + RowCost(inst, w.plan, i, inst.NKw())
            && RowCost(inst, w.plan, i, inst.NKw()) <= inst.budgets[i] - spent[i])
      && (forall i, j :: 0 <= i < inst.NAdv() && 0 <= j < inst.NKw() ==>
            && 0 <= w.plan[i][j]
            && (inst.PositiveAt(i, j) ==> w.plan[i][j] <= inst.x[VarIndex(inst.NAdv(), i, j)].Floor)
            && (!inst.PositiveAt(i, j) ==> w.plan[i][j] == 0))
  {
    var order := FractionalOrder(inst.x);
    FractionalOrderCorrect(inst.x, |inst.x|);
    SortedDistinct(inst.x, order);
    var w0 := Start(inst, spent, demand);
    forall i, j | 0 <= i < inst.NAdv() && 0 <= j < inst.NKw() && inst.PositiveAt(i, j)
      ensures 0 <= inst.x[VarIndex(inst.NAdv(), i, j)].Floor
    {
      FloorNonNegative(inst.x[VarIndex(inst.NAdv(), i, j)]);
    }
    assert Bounded(inst, w0);
    FoldInvariant(inst, w0, order);
  }

  /** A plan with no negative cell costs each advertiser a non-negative amount. */
  lemma {:induction false} RowCostNonNegative(inst: Instance, plan: seq<seq<int>>, i: nat, m: nat)
    requires inst.WellFormed() && PlanShaped(inst, plan)
    requires i < inst.NAdv() && m <= inst.NKw()
    requires forall j :: 0 <= j < inst.NKw() ==> plan[i][j] >= 0
    ensures RowCost(inst, plan, i, m) >= 0.0
  {
    if m > 0 {
      RowCostNonNegative(inst, plan, i, m - 1);
      if inst.PositiveAt(i, m - 1) {
        var c := plan[i][m - 1];
        var p := inst.Price(i, m - 1);
        assert c as real * p >= 0.0;
      }
    }
  }

  /** The rounding only ever adds to the working copy's spend: every record
      ends with at least what it had spent before the oracle ran. */
  lemma RoundingOnlyAddsSpend(inst: Instance, spent: seq<real>, demand: seq<int>)
    requires inst.WellFormed() && |spent| == inst.NAdv() && |demand| == inst.NKw()
    requires forall j :: 0 <= j < |demand| ==> demand[j] >= 0
    requires forall i :: 0 <= i < |spent| ==> spent[i] <= inst.budgets[i]
    ensures var w := Round(inst, spent, demand);
      forall i :: 0 <= i < inst.NAdv() ==> spent[i] <= w.spent[i] <= inst.budgets[i]
  {
    var w := Round(inst, spent, demand);
    RoundingFeasible(inst, spent, demand);
    forall i | 0 <= i < inst.NAdv()
      ensures spent[i] <= w.spent[i]
    {
      RowCostNonNegative(inst, w.plan, i, inst.NKw());
    }
  }
}
