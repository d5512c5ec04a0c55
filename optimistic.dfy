/** The optimistic allocator: the offline oracle rounds an LP solution into an
    integer plan (charging the working copy as it goes), and the online step
    serves a query to the highest affordable bidder among the advertisers the
    plan still assigns to it. */
module Optimistic {
  import opened Market
  import opened Ledger
  import opened OracleLayout
  import opened Rounding

  // ---------------------------------------------------------------------
  // Views of a list of records and of a plan matrix.

  /** The rounding's inputs read off a list of records. */
  function OracleInstance(accts: seq<Account>, x: seq<real>, keywords: seq<string>, bids: BidTable): (inst: Instance)
    ensures inst.NAdv() == |accts| && inst.NKw() == |keywords| && inst.x == x && inst.bids == bids
    ensures |inst.budgets| == |accts|
    ensures forall i :: 0 <= i < |accts| ==> inst.names[i] == accts[i].name && inst.budgets[i] == accts[i].initialBudget
  {
    Instance(x, seq(|accts|, i requires 0 <= i < |accts| => accts[i].name),
             seq(|accts|, i requires 0 <= i < |accts| => accts[i].initialBudget), keywords, bids)
  }

  function Spends(accts: seq<Account>): (s: seq<real>)
    ensures |s| == |accts| && forall i :: 0 <= i < |accts| ==> s[i] == accts[i].spentBudget
  {
    seq(|accts|, i requires 0 <= i < |accts| => accts[i].spentBudget)
  }

  /** `{keyword: predicted_queries[keyword] for keyword in keywords}`, by position. */
  function Demand(predicted: map<string, int>, keywords: seq<string>): (d: seq<int>)
    requires forall k :: k in keywords ==> k in predicted
    ensures |d| == |keywords| && forall j :: 0 <= j < |keywords| ==> d[j] == predicted[keywords[j]]
  {
    seq(|keywords|, j requires 0 <= j < |keywords| => predicted[keywords[j]])
  }

  function Grid(m: array2<int>): (g: seq<seq<int>>)
    reads m
    ensures |g| == m.Length0
    ensures forall i :: 0 <= i < m.Length0 ==> |g[i]| == m.Length1
    ensures forall i, j :: 0 <= i < m.Length0 && 0 <= j < m.Length1 ==> g[i][j] == m[i, j]
  {
    seq(m.Length0, i requires 0 <= i < m.Length0 reads m =>
      seq(m.Length1, j requires 0 <= j < m.Length1 reads m => m[i, j]))
  }

  /** Column `j` of a plan: the units each advertiser still holds for keyword `j`. */
  function Column(plan: seq<seq<int>>, j: nat): (c: seq<int>)
    requires forall i :: 0 <= i < |plan| ==> j < |plan[i]|
    ensures |c| == |plan| && forall i :: 0 <= i < |plan| ==> c[i] == plan[i][j]
  {
    seq(|plan|, i requires 0 <= i < |plan| => plan[i][j])
  }

  // ---------------------------------------------------------------------
  // The offline oracle.

  /** The rounding's imperative state (the allocations matrix, the records'
      spend and the remaining-queries dictionary) holds the working state `w`. */
  ghost predicate Mirrors(advertisers: seq<Advertiser>, keywords: seq<string>, allocations: array2<int>,
                          remaining: map<string, int>, inst: Instance, w: Work)
    reads advertisers, allocations
  {
    && Shaped(inst, w) && inst.NAdv() == |advertisers| && inst.NKw() == |keywords|
    && allocations.Length0 == |advertisers| && allocations.Length1 == |keywords|
    && (forall i, j :: 0 <= i < |advertisers| && 0 <= j < |keywords| ==> allocations[i, j] == w.plan[i][j])
    && (forall i :: 0 <= i < |advertisers| ==> advertisers[i].spentBudget == w.spent[i])
    && (forall j :: 0 <= j < |keywords| ==> keywords[j] in remaining && remaining[keywords[j]] == w.demand[j])
  }

  /** The cell a rounding iteration at a positive position writes, and its
      value `min(int(x), remaining demand, remaining budget // unit cost)`
      read off the imperative state. */
  method CellToWrite(advertisers: seq<Advertiser>, x: seq<real>, bids: BidTable, keywords: seq<string>,
                     allocations: array2<int>, remaining: map<string, int>, idx: nat,
                     ghost inst: Instance, ghost w: Work)
    returns (i: nat, j: nat, price: real, maxAllocation: int)
    requires inst.WellFormed() && inst.x == x && inst.bids == bids && inst.keywords == keywords
    requires idx < |x| && x[idx] != 0.0 && Mirrors(advertisers, keywords, allocations, remaining, inst, w)
    requires forall i :: 0 <= i < |advertisers| ==>
      inst.names[i] == advertisers[i].name && inst.budgets[i] == advertisers[i].initialBudget
    ensures inst.NAdv() > 0 && i == idx % inst.NAdv() && j == idx / inst.NAdv()
    ensures i < inst.NAdv() && j < inst.NKw() && inst.PositiveAt(i, j)
    ensures price == inst.Price(i, j) && maxAllocation == Cell(inst, w, i, j)
  {
    LayoutEncode(|advertisers|, |keywords|, idx);
    i, j := idx % |advertisers|, idx / |advertisers|;
    var advertiser := advertisers[i];
    var keyword := keywords[j];
    assert advertiser.name == inst.names[i] && advertiser.initialBudget == inst.budgets[i];
    assert advertiser.spentBudget == w.spent[i] && remaining[keyword] == w.demand[j];
    assert inst.PositiveAt(i, j);
    price := RoundingPrice(bids, advertiser.name, keyword);
    maxAllocation := Min3(x[idx].Floor, remaining[keyword],
                          ((advertiser.initialBudget - advertiser.spentBudget) / price).Floor);
  }

  /** `allocations[i, j] = v`, seen through the plan it holds. */
  method WriteCell(allocations: array2<int>, i: nat, j: nat, v: int, ghost plan: seq<seq<int>>)
    requires i < allocations.Length0 && j < allocations.Length1
    requires |plan| == allocations.Length0 && forall r :: 0 <= r < |plan| ==> |plan[r]| == allocations.Length1
    requires forall r, c :: 0 <= r < allocations.Length0 && 0 <= c < allocations.Length1 ==> allocations[r, c] == plan[r][c]
    modifies allocations
    ensures forall r, c :: 0 <= r < allocations.Length0 && 0 <= c < allocations.Length1 ==>
      allocations[r, c] == plan[i := plan[i][j := v]][r][c]
  {
    allocations[i, j] := v;
  }

  /** `advertiser.deduct_budget(amount)` on the record at position `i` of a
      list of distinct records, seen through the spends they hold. */
  method ChargeRecord(advertisers: seq<Advertiser>, i: nat, amount: real, ghost spent: seq<real>)
    requires Distinct(advertisers) && i < |advertisers| && |spent| == |advertisers|
    requires forall r :: 0 <= r < |advertisers| ==> advertisers[r].spentBudget == spent[r]
    requires amount <= advertisers[i].State().RemainingBudget()
    modifies advertisers[i]
    ensures forall r :: 0 <= r < |advertisers| ==> advertisers[r].spentBudget == spent[i := spent[i] + amount][r]
  {
    var outcome := advertisers[i].DeductBudget(amount);
    assert outcome == Deducted;
    forall r | 0 <= r < |advertisers| && r != i ensures advertisers[r].spentBudget == spent[r] {
      assert advertisers[r] != advertisers[i];
    }
  }

  /** One iteration of the rounding loop, at variable position `idx`: it does
      to the imperative state what `Step` does to the working state. */
  method RoundingStep(advertisers: seq<Advertiser>, x: seq<real>, bids: BidTable, keywords: seq<string>,
                      allocations: array2<int>, remaining: map<string, int>, idx: nat,
                      ghost inst: Instance, ghost w: Work)
    returns (remaining': map<string, int>)
    requires Distinct(advertisers) && Distinct(keywords)
    requires inst.WellFormed() && inst.x == x && inst.bids == bids && inst.keywords == keywords
    requires idx < |x| && Mirrors(advertisers, keywords, allocations, remaining, inst, w)
    requires forall i :: 0 <= i < |advertisers| ==>
      inst.names[i] == advertisers[i].name && inst.budgets[i] == advertisers[i].initialBudget
    modifies advertisers, allocations
    ensures Mirrors(advertisers, keywords, allocations, remaining', inst, Step(inst, w, idx))
  {
    remaining' := remaining;
    if x[idx] == 0.0 {
      return;
    }
    var i, j, price, maxAllocation := CellToWrite(advertisers, x, bids, keywords, allocations, remaining, idx, inst, w);
    StepAt(inst, w, idx, i, j);
    ghost var w' := Work(w.plan[i := w.plan[i][j := maxAllocation]],
                         w.spent[i := w.spent[i] + maxAllocation as real * price],
                         w.demand[j := w.demand[j] - maxAllocation]);
    assert Step(inst, w, idx) == w';
    StepNeverOverdraws(inst, w, i, j);
    WriteCell(allocations, i, j, maxAllocation, w.plan);
    ChargeRecord(advertisers, i, maxAllocation as real * price, w.spent);
    remaining' := remaining[keywords[j] := remaining[keywords[j]] - maxAllocation];
    DemandMirrored(keywords, remaining, w.demand, j, maxAllocation);
    MirrorsIntro(advertisers, keywords, allocations, remaining', inst, w');
  }

  lemma MirrorsIntro(advertisers: seq<Advertiser>, keywords: seq<string>, allocations: array2<int>,
                     remaining: map<string, int>, inst: Instance, w: Work)
    requires Shaped(inst, w) && inst.NAdv() == |advertisers| && inst.NKw() == |keywords|
    requires allocations.Length0 == |advertisers| && allocations.Length1 == |keywords|
    requires forall i, j :: 0 <= i < |advertisers| && 0 <= j < |keywords| ==> allocations[i, j] == w.plan[i][j]
    requires forall i :: 0 <= i < |advertisers| ==> advertisers[i].spentBudget == w.spent[i]
    requires forall j :: 0 <= j < |keywords| ==> keywords[j] in remaining && remaining[keywords[j]] == w.demand[j]
    ensures Mirrors(advertisers, keywords, allocations, remaining, inst, w)
  {
  }

  /** Counting `v` queries off keyword `j` in the dictionary counts them off
      entry `j` of the demand it holds. */
  lemma DemandMirrored(keywords: seq<string>, remaining: map<string, int>, demand: seq<int>, j: nat, v: int)
    requires Distinct(keywords) && |demand| == |keywords| && j < |keywords|
    requires forall j' :: 0 <= j' < |keywords| ==> keywords[j'] in remaining && remaining[keywords[j']] == demand[j']
    ensures var remaining' := remaining[keywords[j] := remaining[keywords[j]] - v];
      forall j' :: 0 <= j' < |keywords| ==>
        keywords[j'] in remaining' && remaining'[keywords[j']] == demand[j := demand[j] - v][j']
  {
    forall j' | 0 <= j' < |keywords| && j' != j
      ensures keywords[j'] != keywords[j]
    {
    }
  }

  /** A state that holds `w` shows it as the plan matrix and the spends. */
  lemma MirroredViews(advertisers: seq<Advertiser>, keywords: seq<string>, allocations: array2<int>,
                      remaining: map<string, int>, inst: Instance, w: Work)
    requires Mirrors(advertisers, keywords, allocations, remaining, inst, w)
    ensures Grid(allocations) == w.plan && Spends(Accounts(advertisers)) == w.spent
  {
    var g := Grid(allocations);
    forall i | 0 <= i < |g| ensures g[i] == w.plan[i] {
    }
  }

  /** `np.zeros((n_advertisers, len(keywords)), dtype=int)` and
      `{keyword: predicted_queries[keyword] for keyword in keywords}`. */
  method StartRounding(advertisers: seq<Advertiser>, keywords: seq<string>, predicted: map<string, int>,
                       ghost inst: Instance)
    returns (allocations: array2<int>, remaining: map<string, int>)
    requires forall k :: k in keywords ==> k in predicted
    requires inst.NAdv() == |advertisers| && inst.NKw() == |keywords|
    ensures fresh(allocations)
    ensures Mirrors(advertisers, keywords, allocations, remaining, inst,
                    Start(inst, Spends(Accounts(advertisers)), Demand(predicted, keywords)))
  {
    allocations := new int[|advertisers|, |keywords|]((i, j) => 0);
    remaining := map k | k in keywords :: predicted[k];
  }

  /** `round_solution_to_integers`: visits the LP variables by descending value
      and gives each positive one `min(int(x), remaining demand, remaining
      budget // unit cost)` units, charging that cost to the record in the
      (shallow-copied, hence shared) list. Proved to compute `Round`, so the
      feasibility lemma `RoundingFeasible` applies to its result; no charge it
      makes is ever rejected. */
  method RoundSolutionToIntegers(advertisers: seq<Advertiser>, x: seq<real>, bids: BidTable,
                                 keywords: seq<string>, predicted: map<string, int>)
    returns (allocations: array2<int>)
    requires Distinct(advertisers) && Distinct(keywords)
    requires forall k :: k in keywords ==> k in predicted
    requires OracleInstance(Accounts(advertisers), x, keywords, bids).WellFormed()
    modifies advertisers
    ensures fresh(allocations)
    ensures allocations.Length0 == |advertisers| && allocations.Length1 == |keywords|
    ensures var w := Round(OracleInstance(old(Accounts(advertisers)), x, keywords, bids),
                           Spends(old(Accounts(advertisers))), Demand(predicted, keywords));
      Grid(allocations) == w.plan && Spends(Accounts(advertisers)) == w.spent
  {
    ghost var accts := Accounts(advertisers);
    ghost var inst := OracleInstance(accts, x, keywords, bids);
    ghost var w0 := Start(inst, Spends(accts), Demand(predicted, keywords));
    ghost var w := w0;
    var remaining;
    allocations, remaining := StartRounding(advertisers, keywords, predicted, inst);
    var fractionalIndices := FractionalOrder(x);
    FractionalOrderCorrect(x, |x|);
    for t := 0 to |fractionalIndices|
      invariant w == Fold(inst, w0, fractionalIndices[..t])
      invariant Mirrors(advertisers, keywords, allocations, remaining, inst, w)
    {
      var idx := fractionalIndices[t];
      assert fractionalIndices[..t + 1] == fractionalIndices[..t] + [idx];
      remaining := RoundingStep(advertisers, x, bids, keywords, allocations, remaining, idx, inst, w);
      w := Step(inst, w, idx);
    }
    assert fractionalIndices[..|fractionalIndices|] == fractionalIndices;
    MirroredViews(advertisers, keywords, allocations, remaining, inst, w);
  }

  /** `solve_allocation`: the LP over `keywords = ["k1", ..., "kn"]` is
      handed to the solver, whose solution `x` is a parameter here, and the
      solution is rounded against the given list of records. */
  method SolveAllocation(nKeywords: nat, bids: BidTable, advertisers: seq<Advertiser>,
                         predicted: map<string, int>, x: seq<real>)
    returns (allocations: array2<int>)
    requires Distinct(advertisers)
    requires forall k :: k in Keywords(nKeywords) ==> k in predicted
    requires OracleInstance(Accounts(advertisers), x, Keywords(nKeywords), bids).WellFormed()
    modifies advertisers
    ensures fresh(allocations)
    ensures allocations.Length0 == |advertisers| && allocations.Length1 == nKeywords
    ensures var w := Round(OracleInstance(old(Accounts(advertisers)), x, Keywords(nKeywords), bids),
                           Spends(old(Accounts(advertisers))), Demand(predicted, Keywords(nKeywords)));
      Grid(allocations) == w.plan && Spends(Accounts(advertisers)) == w.spent
  {
    var keywords := Keywords(nKeywords);
    KeywordsDistinct(nKeywords);
    allocations := RoundSolutionToIntegers(advertisers, x, bids, keywords, predicted);
  }

  // ---------------------------------------------------------------------
  // The online step, as a function of values.

  /** `[i for i, a in enumerate(advertisers) if plan[i][keyword_idx] > 0]`
      over the first `n` entries of a plan column: the positions of the
      advertisers the plan still assigns to the keyword, in list order. */
  function Assigned(col: seq<int>, n: nat): (r: seq<nat>)
    requires n <= |col|
    ensures forall p :: 0 <= p < |r| ==> r[p] < n && col[r[p]] > 0
    ensures forall i :: 0 <= i < n && col[i] > 0 ==> i in r
    ensures forall p, q :: 0 <= p < q < |r| ==> r[p] < r[q]
  {
    if n == 0 then []
    else Assigned(col, n - 1) + (if col[n - 1] > 0 then [n - 1] else [])
  }

  /** One more entry of the column extends the candidates by at most itself. */
  lemma AssignedNext(col: seq<int>, i: nat)
    requires i < |col|
    ensures Assigned(col, i + 1) == Assigned(col, i) + (if col[i] > 0 then [i] else [])
  {
  }

  /** Where a position the column still assigns sits among the candidates. */
  lemma {:induction false} AssignedPosition(col: seq<int>, n: nat, i: nat) returns (p: nat)
    requires n <= |col| && i < n && col[i] > 0
    ensures p < |Assigned(col, n)| && Assigned(col, n)[p] == i
  {
    var prev := Assigned(col, n - 1);
    if i == n - 1 {
      p := |prev|;
    } else {
      p := AssignedPosition(col, n - 1, i);
    }
  }

  /** The bid of the candidate at position `p` of `cand`. */
  function BidAt(accts: seq<Account>, bids: BidTable, query: string, cand: seq<nat>, p: nat): real
    requires p < |cand| && cand[p] < |accts|
  {
    BidOrZero(bids, accts[cand[p]].name, query)
  }

  /** The candidate can pay its bid, and the bid beats the scan's starting
      value of -1. */
  predicate CanTake(accts: seq<Account>, bids: BidTable, query: string, cand: seq<nat>, p: nat)
    requires p < |cand| && cand[p] < |accts|
  {
    var bid := BidAt(accts, bids, query, cand, p);
    accts[cand[p]].RemainingBudget() >= bid && bid > -1.0
  }

  predicate InBounds(accts: seq<Account>, cand: seq<nat>)
  {
    forall p :: 0 <= p < |cand| ==> cand[p] < |accts|
  }

  /** The scan over the first `n` candidates, as a position in `cand`: a
      candidate replaces the current choice when it can pay its bid and the
      bid is strictly higher than the current highest (initially -1). */
  function Pick(accts: seq<Account>, bids: BidTable, query: string, cand: seq<nat>, n: nat): (r: Option<nat>)
    requires n <= |cand| && InBounds(accts, cand)
    ensures r.Some? ==> r.value < n
  {
    if n == 0 then None
    else
      var prev := Pick(accts, bids, query, cand, n - 1);
      var bid := BidAt(accts, bids, query, cand, n - 1);
      var highest := if prev.None? then -1.0 else BidAt(accts, bids, query, cand, prev.value);
      if accts[cand[n - 1]].RemainingBudget() >= bid && bid > highest then Some(n - 1) else prev
  }

  lemma {:induction false} PickCanTake(accts: seq<Account>, bids: BidTable, query: string, cand: seq<nat>, n: nat)
    requires n <= |cand| && InBounds(accts, cand)
    ensures var r := Pick(accts, bids, query, cand, n);
      r.Some? ==> CanTake(accts, bids, query, cand, r.value)
  {
    if n > 0 {
      PickCanTake(accts, bids, query, cand, n - 1);
    }
  }

  /** Nothing is picked exactly when no candidate can take the query. */
  lemma {:induction false} PickNoneIff(accts: seq<Account>, bids: BidTable, query: string, cand: seq<nat>, n: nat)
    requires n <= |cand| && InBounds(accts, cand)
    ensures Pick(accts, bids, query, cand, n).None? <==>
      forall p :: 0 <= p < n ==> !CanTake(accts, bids, query, cand, p)
  {
    if n > 0 {
      PickNoneIff(accts, bids, query, cand, n - 1);
      PickCanTake(accts, bids, query, cand, n - 1);
      if Pick(accts, bids, query, cand, n).None? {
        assert !CanTake(accts, bids, query, cand, n - 1);
      } else if Pick(accts, bids, query, cand, n - 1).None? {
        assert CanTake(accts, bids, query, cand, n - 1);
      }
    }
  }

  /** The pick bids at least as much as every candidate that can take the
      query, and strictly more than every such candidate before it. */
  lemma {:induction false} PickIsFirstHighest(accts: seq<Account>, bids: BidTable, query: string, cand: seq<nat>, n: nat)
    requires n <= |cand| && InBounds(accts, cand)
    ensures var r := Pick(accts, bids, query, cand, n);
      r.Some? ==>
        && (forall p :: 0 <= p < n && CanTake(accts, bids, query, cand, p) ==>
              BidAt(accts, bids, query, cand, p) <= BidAt(accts, bids, query, cand, r.value))
        && (forall p :: 0 <= p < r.value && CanTake(accts, bids, query, cand, p) ==>
              BidAt(accts, bids, query, cand, p) < BidAt(accts, bids, query, cand, r.value))
  {
    if n > 0 {
      PickIsFirstHighest(accts, bids, query, cand, n - 1);
      PickNoneIff(accts, bids, query, cand, n - 1);
    }
  }

  /** What `allocate_query` decides: the advertiser position, the keyword
      position and the bid. */
  datatype Choice = Choice(adv: nat, kw: nat, bid: real)

  /** The plan matrix has one row per record and one column per keyword. */
  predicate PlanFits(plan: seq<seq<int>>, accts: seq<Account>, keywords: seq<string>)
  {
    |plan| == |accts| && forall i :: 0 <= i < |plan| ==> |plan[i]| == |keywords|
  }

  /** `allocate_query(query)` on values: dismissed when its remaining count is
      not positive or it is not a keyword; otherwise the pick among the
      advertisers the plan still assigns to it. */
  function Decide(remaining: map<string, int>, keywords: seq<string>, plan: seq<seq<int>>,
                  accts: seq<Account>, bids: BidTable, query: string): (r: Option<Choice>)
    requires PlanFits(plan, accts, keywords)
    ensures r.Some? ==> r.value.adv < |accts| && r.value.kw < |keywords|
  {
    if CountOrZero(remaining, query) <= 0 then None
    else if query !in keywords then None
    else
      var j := IndexOf(keywords, query);
      var cand := Assigned(Column(plan, j), |accts|);
      var q := Pick(accts, bids, query, cand, |cand|);
      if q.None? then None
      else Some(Choice(cand[q.value], j, BidAt(accts, bids, query, cand, q.value)))
  }

  /** When the scan picks candidate `q`, `Decide` serves its advertiser. */
  lemma DecideChooses(remaining: map<string, int>, keywords: seq<string>, plan: seq<seq<int>>,
                      accts: seq<Account>, bids: BidTable, query: string, cand: seq<nat>, q: nat)
    requires PlanFits(plan, accts, keywords)
    requires CountOrZero(remaining, query) > 0 && query in keywords
    requires cand == Assigned(Column(plan, IndexOf(keywords, query)), |accts|)
    requires Pick(accts, bids, query, cand, |cand|) == Some(q)
    ensures q < |cand| && cand[q] < |accts|
    ensures Decide(remaining, keywords, plan, accts, bids, query) ==
      Some(Choice(cand[q], IndexOf(keywords, query), BidAt(accts, bids, query, cand, q)))
  {
  }

  /** The served query takes one unit from the plan cell. */
  function Served(plan: seq<seq<int>>, i: nat, j: nat): seq<seq<int>>
    requires i < |plan| && j < |plan[i]|
  {
    plan[i := plan[i][j := plan[i][j] - 1]]
  }

  /** The advertiser at position `i` of a plan column's candidates can take
      the query: it can pay its bid, and the bid is above -1. */
  predicate Takes(accts: seq<Account>, bids: BidTable, query: string, i: nat)
    requires i < |accts|
  {
    var bid := BidOrZero(bids, accts[i].name, query);
    accts[i].RemainingBudget() >= bid && bid > -1.0
  }

  /** The scan's pick bids at least as much as any advertiser the column
      assigns that can take the query, and more than any such one listed
      before it. */
  lemma PickDominates(accts: seq<Account>, bids: BidTable, query: string, col: seq<int>, i: nat)
    requires |col| == |accts| && i < |accts| && col[i] > 0 && Takes(accts, bids, query, i)
    requires var cand := Assigned(col, |accts|); Pick(accts, bids, query, cand, |cand|).Some?
    ensures var cand := Assigned(col, |accts|);
      var q := Pick(accts, bids, query, cand, |cand|).value;
      && BidOrZero(bids, accts[i].name, query) <= BidAt(accts, bids, query, cand, q)
      && (i < cand[q] ==> BidOrZero(bids, accts[i].name, query) < BidAt(accts, bids, query, cand, q))
  {
    var cand := Assigned(col, |accts|);
    var q := Pick(accts, bids, query, cand, |cand|).value;
    var p := AssignedPosition(col, |accts|, i);
    PickIsFirstHighest(accts, bids, query, cand, |cand|);
    assert BidAt(accts, bids, query, cand, p) == BidOrZero(bids, accts[i].name, query);
    assert CanTake(accts, bids, query, cand, p);
    if i < cand[q] {
      assert p < q;
    }
  }

  /** Candidates that can take the query are the assigned advertisers that can. */
  lemma CanTakeIsTakes(accts: seq<Account>, bids: BidTable, query: string, cand: seq<nat>, p: nat)
    requires p < |cand| && cand[p] < |accts|
    ensures CanTake(accts, bids, query, cand, p) == Takes(accts, bids, query, cand[p])
  {
  }

  /** No candidate of column `j` can take the query exactly when no advertiser
      the plan assigns to keyword `j` can. */
  lemma CandidatesTake(plan: seq<seq<int>>, accts: seq<Account>, keywords: seq<string>,
                       bids: BidTable, query: string, j: nat)
    requires PlanFits(plan, accts, keywords) && j < |keywords|
    ensures var cand := Assigned(Column(plan, j), |accts|);
      (forall p :: 0 <= p < |cand| ==> !CanTake(accts, bids, query, cand, p)) <==>
      (forall i :: 0 <= i < |accts| && plan[i][j] > 0 ==> !Takes(accts, bids, query, i))
  {
    var col := Column(plan, j);
    var cand := Assigned(col, |accts|);
    if forall p :: 0 <= p < |cand| ==> !CanTake(accts, bids, query, cand, p) {
      forall i | 0 <= i < |accts| && plan[i][j] > 0
        ensures !Takes(accts, bids, query, i)
      {
        var p := AssignedPosition(col, |accts|, i);
        CanTakeIsTakes(accts, bids, query, cand, p);
      }
    } else {
      var p :| 0 <= p < |cand| && CanTake(accts, bids, query, cand, p);
      CanTakeIsTakes(accts, bids, query, cand, p);
      assert col[cand[p]] > 0;
    }
  }

  /** A served query goes to an advertiser the plan still assigns to it, with
      a remaining count above 0, that can pay its bid (`bids[name].get(query,
      0)`), whose bid is the highest among such advertisers and strictly
      higher than that of every such advertiser listed before it. */
  lemma DecideSome(remaining: map<string, int>, keywords: seq<string>, plan: seq<seq<int>>,
                   accts: seq<Account>, bids: BidTable, query: string)
    requires PlanFits(plan, accts, keywords)
    ensures var r := Decide(remaining, keywords, plan, accts, bids, query);
      r.Some? ==>
        && query in remaining && remaining[query] > 0
        && query in keywords && r.value.kw == IndexOf(keywords, query)
        && plan[r.value.adv][r.value.kw] > 0
        && r.value.bid == BidOrZero(bids, accts[r.value.adv].name, query)
        && Takes(accts, bids, query, r.value.adv)
        && (forall i :: 0 <= i < |accts| && plan[i][r.value.kw] > 0 && Takes(accts, bids, query, i) ==>
              BidOrZero(bids, accts[i].name, query) <= r.value.bid)
        && (forall i :: 0 <= i < r.value.adv && plan[i][r.value.kw] > 0 && Takes(accts, bids, query, i) ==>
              BidOrZero(bids, accts[i].name, query) < r.value.bid)
  {
    var r := Decide(remaining, keywords, plan, accts, bids, query);
    if r.Some? {
      var j := IndexOf(keywords, query);
      var col := Column(plan, j);
      var cand := Assigned(col, |accts|);
      var q := Pick(accts, bids, query, cand, |cand|).value;
      assert r.value == Choice(cand[q], j, BidAt(accts, bids, query, cand, q));
      PickCanTake(accts, bids, query, cand, |cand|);
      assert col[cand[q]] > 0;
      forall i | 0 <= i < |accts| && plan[i][j] > 0 && Takes(accts, bids, query, i)
        ensures BidOrZero(bids, accts[i].name, query) <= r.value.bid
        ensures i < r.value.adv ==> BidOrZero(bids, accts[i].name, query) < r.value.bid
      {
        PickDominates(accts, bids, query, col, i);
      }
    }
  }

  /** A query is dismissed exactly when its remaining count is not positive,
      it is not a keyword, or no advertiser the plan assigns to it can take it. */
  lemma DecideNone(remaining: map<string, int>, keywords: seq<string>, plan: seq<seq<int>>,
                   accts: seq<Account>, bids: BidTable, query: string)
    requires PlanFits(plan, accts, keywords)
    ensures Decide(remaining, keywords, plan, accts, bids, query).None? <==>
      || CountOrZero(remaining, query) <= 0
      || query !in keywords
      || forall i :: 0 <= i < |accts| && plan[i][IndexOf(keywords, query)] > 0 ==> !Takes(accts, bids, query, i)
  {
    if CountOrZero(remaining, query) > 0 && query in keywords {
      var j := IndexOf(keywords, query);
      var cand := Assigned(Column(plan, j), |accts|);
      assert Decide(remaining, keywords, plan, accts, bids, query).None? <==>
        Pick(accts, bids, query, cand, |cand|).None?;
      PickNoneIff(accts, bids, query, cand, |cand|);
      CandidatesTake(plan, accts, keywords, bids, query, j);
    }
  }

  /** Serving never takes a plan cell or a remaining count below 0: the
      online phase serves each (advertiser, keyword) at most as many queries
      as the rounded plan gave it, and each keyword at most its predicted count. */
  lemma ServingKeepsCountsNonNegative(remaining: map<string, int>, keywords: seq<string>, plan: seq<seq<int>>,
                                      accts: seq<Account>, bids: BidTable, query: string)
    requires PlanFits(plan, accts, keywords)
    requires forall i, j :: 0 <= i < |plan| && 0 <= j < |plan[i]| ==> plan[i][j] >= 0
    requires forall k :: k in remaining ==> remaining[k] >= 0
    ensures var r := Decide(remaining, keywords, plan, accts, bids, query);
      r.Some? ==>
        var plan' := Served(plan, r.value.adv, r.value.kw);
        var remaining' := remaining[query := remaining[query] - 1];
        && (forall i, j :: 0 <= i < |plan'| && 0 <= j < |plan'[i]| ==> plan'[i][j] >= 0)
        && (forall k :: k in remaining' ==> remaining'[k] >= 0)
  {
    DecideSome(remaining, keywords, plan, accts, bids, query);
  }

  /** `OfflineMaximizationProblem(n_keywords, bids,
      Advertiser.get_advertiser_list_copy(), predicted_queries).solve_allocation()`:
      the oracle works on the cached copy, whose records the rounding charges;
      the registry's own records are left as they were. */
  method OfflinePlan(nKeywords: nat, bids: BidTable, predicted: map<string, int>, x: seq<real>, registry: Registry)
    returns (oracleList: seq<Advertiser>, allocations: array2<int>)
    requires registry.Valid() && registry.CacheMirrors()
    requires forall k :: k in Keywords(nKeywords) ==> k in predicted
    requires OracleInstance(Accounts(registry.advertisers), x, Keywords(nKeywords), bids).WellFormed()
    modifies registry, if registry.cache.Some? then registry.cache.value else []
    ensures registry.Valid() && registry.advertisers == old(registry.advertisers)
    ensures registry.cache == Some(oracleList)
    ensures old(registry.cache).Some? ==> registry.cache == old(registry.cache)
    ensures Accounts(registry.advertisers) == old(Accounts(registry.advertisers))
    ensures fresh(allocations)
    ensures allocations.Length0 == |oracleList| == |registry.advertisers| && allocations.Length1 == nKeywords
    ensures forall i :: 0 <= i < |oracleList| ==>
      oracleList[i].name == registry.advertisers[i].name && oracleList[i].initialBudget == registry.advertisers[i].initialBudget
    ensures var w := Round(OracleInstance(old(Accounts(registry.advertisers)), x, Keywords(nKeywords), bids),
                           Spends(old(Accounts(registry.advertisers))), Demand(predicted, Keywords(nKeywords)));
      && Grid(allocations) == w.plan
      && Spends(Accounts(oracleList)) == w.spent
    ensures forall i, j :: 0 <= i < allocations.Length0 && 0 <= j < allocations.Length1 && allocations[i, j] > 0 ==>
      registry.advertisers[i].name in bids
  {
    ghost var accts := Accounts(registry.advertisers);
    oracleList := registry.GetAdvertiserListCopy();
    assert Accounts(oracleList) == accts;
    allocations := SolveAllocation(nKeywords, bids, oracleList, predicted, x);
    forall i | 0 <= i < |registry.advertisers| ensures registry.advertisers[i].State() == accts[i] {
      assert registry.advertisers[i] !in oracleList;
    }
    ghost var inst := OracleInstance(accts, x, Keywords(nKeywords), bids);
    RoundTouchesOnlyPositive(inst, Spends(accts), Demand(predicted, Keywords(nKeywords)));
  }

  // ---------------------------------------------------------------------
  // The allocator object.

  class OptimisticAlgorithm {
    var remainingQueries: map<string, int>
    const offlineAllocations: array2<int>
    const advertisers: seq<Advertiser>
    const bids: BidTable
    const keywords: seq<string>

    /** The plan fits the list, the records are distinct, and every advertiser
        the plan assigns anything to has a row in the bid table (the online
        step reads `bids[name]`). */
    ghost predicate Valid()
      reads this, offlineAllocations
    {
      && offlineAllocations.Length0 == |advertisers| && offlineAllocations.Length1 == |keywords|
      && Distinct(advertisers)
      && forall i, j :: 0 <= i < |advertisers| && 0 <= j < |keywords| && offlineAllocations[i, j] > 0 ==>
           advertisers[i].name in bids
    }

    /** `remaining_queries` is a copy of the predicted counts, the plan is the
        oracle's, and the list served from is the cached copy inside the
        balanced allocator and the registry standalone. */
    constructor (nKeywords: nat, bids: BidTable, predicted: map<string, int>, runningInBalanced: bool,
                 x: seq<real>, registry: Registry)
      requires registry.Valid() && registry.CacheMirrors()
      requires forall k :: k in predicted <==> k in Keywords(nKeywords)
      requires OracleInstance(Accounts(registry.advertisers), x, Keywords(nKeywords), bids).WellFormed()
      modifies registry, if registry.cache.Some? then registry.cache.value else []
      ensures Valid() && registry.Valid()
      ensures this.bids == bids && keywords == Keywords(nKeywords) && remainingQueries == predicted
      ensures registry.advertisers == old(registry.advertisers) && registry.cache.Some?
      ensures old(registry.cache).Some? ==> registry.cache == old(registry.cache)
      ensures Accounts(registry.advertisers) == old(Accounts(registry.advertisers))
      ensures fresh(offlineAllocations)
      ensures |registry.cache.value| == |registry.advertisers|
      ensures forall i :: 0 <= i < |registry.advertisers| ==>
        registry.cache.value[i].name == registry.advertisers[i].name &&
        registry.cache.value[i].initialBudget == registry.advertisers[i].initialBudget
      ensures var w := Round(OracleInstance(old(Accounts(registry.advertisers)), x, keywords, bids),
                             Spends(old(Accounts(registry.advertisers))), Demand(predicted, keywords));
        && Grid(offlineAllocations) == w.plan
        && Spends(Accounts(registry.cache.value)) == w.spent
      ensures advertisers == if runningInBalanced then registry.cache.value else registry.advertisers
    {
      var oracleList, allocations := OfflinePlan(nKeywords, bids, predicted, x, registry);
      remainingQueries := predicted;
      offlineAllocations := allocations;
      advertisers := if runningInBalanced then oracleList else registry.advertisers;
      this.bids := bids;
      keywords := Keywords(nKeywords);
    }

    /** `[i for i, a in enumerate(self.advertisers) if plan[i][keyword_idx] > 0]` */
    method AssignedAdvertisers(keywordIdx: nat) returns (candidates: seq<nat>)
      requires Valid() && keywordIdx < |keywords|
      ensures candidates == Assigned(Column(Grid(offlineAllocations), keywordIdx), |advertisers|)
    {
      candidates := PositiveRows(offlineAllocations, keywordIdx, Column(Grid(offlineAllocations), keywordIdx));
    }

    /** The scan for the highest bid among the candidates advertisers. */
    method HighestBidder(query: string, keywordIdx: nat, candidates: seq<nat>) returns (chosen: Option<nat>, highestBid: real)
      requires Valid() && keywordIdx < |keywords|
      requires forall p :: 0 <= p < |candidates| ==>
        candidates[p] < |advertisers| && offlineAllocations[candidates[p], keywordIdx] > 0
      ensures InBounds(Accounts(advertisers), candidates)
      ensures chosen == Pick(Accounts(advertisers), bids, query, candidates, |candidates|)
      ensures chosen.Some? ==> highestBid == BidAt(Accounts(advertisers), bids, query, candidates, chosen.value)
    {
      ghost var accts := Accounts(advertisers);
      chosen, highestBid := None, -1.0;
      for p := 0 to |candidates|
        invariant chosen == Pick(accts, bids, query, candidates, p)
        invariant chosen.Some? ==> highestBid == BidAt(accts, bids, query, candidates, chosen.value)
        invariant chosen.None? ==> highestBid == -1.0
      {
        var advertiser := advertisers[candidates[p]];
        var row := bids[advertiser.name];
        var bid := if query in row then row[query] else 0.0;
        if advertiser.State().RemainingBudget() >= bid && bid > highestBid {
          chosen, highestBid := Some(p), bid;
        }
      }
    }

    /** The decision half of `allocate_query(query)`: the early dismissals,
        the candidate list, the highest-bid scan and `self.advertisers.index`
        of the winner. Changes nothing. */
    method Choose(query: string) returns (choice: Option<Choice>)
      requires Valid()
      ensures PlanFits(Grid(offlineAllocations), Accounts(advertisers), keywords)
      ensures choice == Decide(remainingQueries, keywords, Grid(offlineAllocations), Accounts(advertisers), bids, query)
    {
      if CountOrZero(remainingQueries, query) <= 0 {
        return None;
      }
      if query !in keywords {
        return None;
      }
      var keywordIdx := IndexOf(keywords, query);
      choice := ChooseAssigned(query, keywordIdx);
    }

    /** The part of `Choose` after the dismissals: the candidates, the scan
        and the winner's position in the list. */
    method ChooseAssigned(query: string, keywordIdx: nat) returns (choice: Option<Choice>)
      requires Valid() && CountOrZero(remainingQueries, query) > 0 && query in keywords
      requires keywordIdx == IndexOf(keywords, query)
      ensures PlanFits(Grid(offlineAllocations), Accounts(advertisers), keywords)
      ensures choice == Decide(remainingQueries, keywords, Grid(offlineAllocations), Accounts(advertisers), bids, query)
    {
      ghost var accts := Accounts(advertisers);
      ghost var plan := Grid(offlineAllocations);
      var candidates := AssignedAdvertisers(keywordIdx);
      if |candidates| == 0 {
        return None;
      }
      var chosen, highestBid := HighestBidder(query, keywordIdx, candidates);
      if chosen.None? {
        return None;
      }
      var assignedAdvertiser := advertisers[candidates[chosen.value]];
      var advertiserIdx := IndexOf(advertisers, assignedAdvertiser);
      assert advertiserIdx == candidates[chosen.value];
      DecideChooses(remainingQueries, keywords, plan, accts, bids, query, candidates, chosen.value);
      return Some(Choice(advertiserIdx, keywordIdx, highestBid));
    }

    /** `allocate_query(query)`: carries out `Decide` on the current state; on
        a winner, takes one unit from its plan cell, charges its bid to that
        record alone (the charge cannot be rejected) and counts the query off;
        otherwise changes nothing and returns `(None, 0)`. */
    method AllocateQuery(query: string) returns (winner: Option<Advertiser>, bid: real)
      requires Valid()
      modifies this, offlineAllocations, advertisers
      ensures Valid()
      ensures PlanFits(old(Grid(offlineAllocations)), old(Accounts(advertisers)), keywords)
      ensures var d := Decide(old(remainingQueries), keywords, old(Grid(offlineAllocations)),
                              old(Accounts(advertisers)), bids, query);
        && (d.None? ==>
              && winner.None? && bid == 0.0 && remainingQueries == old(remainingQueries)
              && Grid(offlineAllocations) == old(Grid(offlineAllocations))
              && Accounts(advertisers) == old(Accounts(advertisers)))
        && (d.Some? ==>
              && winner == Some(advertisers[d.value.adv]) && bid == d.value.bid
              && remainingQueries == old(remainingQueries)[query := old(remainingQueries)[query] - 1]
              && Grid(offlineAllocations) == Served(old(Grid(offlineAllocations)), d.value.adv, d.value.kw)
              && Accounts(advertisers) == Charged(old(Accounts(advertisers)), d.value.adv, bid))
    {
      var choice := Choose(query);
      if choice.None? {
        return None, 0.0;
      }
      var c := choice.value;
      DecideSome(remainingQueries, keywords, Grid(offlineAllocations), Accounts(advertisers), bids, query);
      Serve(c.adv, c.kw, query, c.bid);
      return Some(advertisers[c.adv]), c.bid;
    }

    /** The commit of a served query: one unit off plan cell (i, j), `amount`
        charged to record i alone (never rejected), the query counted off. */
    method Serve(i: nat, j: nat, query: string, amount: real)
      requires Valid() && i < |advertisers| && j < |keywords| && offlineAllocations[i, j] > 0
      requires query in remainingQueries
      requires amount <= advertisers[i].State().RemainingBudget()
      modifies this, offlineAllocations, advertisers[i]
      ensures Valid()
      ensures remainingQueries == old(remainingQueries)[query := old(remainingQueries)[query] - 1]
      ensures Grid(offlineAllocations) == Served(old(Grid(offlineAllocations)), i, j)
      ensures Accounts(advertisers) == Charged(old(Accounts(advertisers)), i, amount)
    {
      ghost var accts := Accounts(advertisers);
      ghost var plan := Grid(offlineAllocations);
      offlineAllocations[i, j] := offlineAllocations[i, j] - 1;
      GridIs(offlineAllocations, Served(plan, i, j));
      var outcome := advertisers[i].DeductBudget(amount);
      assert outcome == Deducted;
      assert forall r :: 0 <= r < |advertisers| && r != i ==> advertisers[r].State() == accts[r];
      remainingQueries := remainingQueries[query := remainingQueries[query] - 1];
    }
  }

  /** The rows whose entry in column `j` of `m` is positive, in order. */
  method PositiveRows(m: array2<int>, j: nat, ghost col: seq<int>) returns (rows: seq<nat>)
    requires j < m.Length1 && |col| == m.Length0
    requires forall i :: 0 <= i < m.Length0 ==> col[i] == m[i, j]
    ensures rows == Assigned(col, m.Length0)
  {
    rows := [];
    for i := 0 to m.Length0
      invariant rows == Assigned(col, i)
    {
      AssignedNext(col, i);
      if m[i, j] > 0 {
        rows := rows + [i];
      }
    }
  }

  /** A matrix that agrees with `g` cell by cell shows `g`. */
  lemma GridIs(m: array2<int>, g: seq<seq<int>>)
    requires |g| == m.Length0 && forall i :: 0 <= i < |g| ==> |g[i]| == m.Length1
    requires forall i, j :: 0 <= i < m.Length0 && 0 <= j < m.Length1 ==> m[i, j] == g[i][j]
    ensures Grid(m) == g
  {
    var h := Grid(m);
    forall i | 0 <= i < |g| ensures h[i] == g[i] {
    }
  }
}
