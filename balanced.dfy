/** The balanced allocator: both allocators run against one shadow list of
    records, their candidates are mapped back to the authoritative records by
    name, scored, and one of them is charged to the authoritative ledger. */
module Balanced {
  import opened Market
  import opened Ledger
  import opened Rounding
  import opened Pessimistic
  import opened Optimistic

  // ---------------------------------------------------------------------
  // Scores with -inf, as floating point computes them for alpha >= 0.

  /** A score: a real, `float('-inf')`, or the NaN that `0 * -inf` gives. */
  datatype Ext = Fin(value: real) | NegInf | NaN

  /** `alpha * s` for a non-negative alpha. */
  function Scale(alpha: real, s: Ext): (r: Ext)
    requires alpha >= 0.0
    ensures s.Fin? ==> r.Fin? && r.value == alpha * s.value
    ensures s.NegInf? ==> (r.NaN? <==> alpha == 0.0) && (r.NegInf? <==> alpha > 0.0)
    ensures s.NegInf? ==> forall v :: !AtLeast(r, Fin(v))
    ensures s.Fin? ==> AtLeast(r, NegInf)
  {
    match s
    case Fin(v) => Fin(alpha * v)
    case NegInf => if alpha == 0.0 then NaN else NegInf
    case NaN => NaN
  }

  /** `a >= b`: false whenever a NaN takes part; -inf lies below every real. */
  predicate AtLeast(a: Ext, b: Ext)
  {
    match (a, b)
    case (Fin(x), Fin(y)) => x >= y
    case (Fin(_), NegInf) => true
    case (NegInf, NegInf) => true
    case (_, _) => false
  }

  // ---------------------------------------------------------------------
  // Candidates and the decision, as functions of values.

  /** A sub-allocator's answer: a position in a list of records and a bid. */
  datatype Candidate = Candidate(adv: nat, bid: real)

  /** The balanced allocator's decision: the authoritative position charged,
      the bid, and whether the optimistic branch won. */
  datatype Verdict = Verdict(adv: nat, bid: real, optimistic: bool)

  /** Names never repeat in the registry. */
  predicate DistinctNames(accts: seq<Account>)
  {
    forall k, l :: 0 <= k < l < |accts| ==> accts[k].name != accts[l].name
  }

  /** `[adv for adv in registry if adv.name == name][0]`, as a position;
      None where the source's `[0]` raises. */
  function FindByName(accts: seq<Account>, name: string): (r: Option<nat>)
    ensures r.Some? ==> r.value < |accts| && accts[r.value].name == name
    ensures r.Some? ==> forall k :: 0 <= k < r.value ==> accts[k].name != name
    ensures r.None? <==> forall k :: 0 <= k < |accts| ==> accts[k].name != name
  {
    if |accts| == 0 then None
    else if accts[0].name == name then Some(0)
    else
      match FindByName(accts[1..], name)
      case None => None
      case Some(k) => Some(k + 1)
  }

  /** The optimistic answer as a candidate. */
  function OptimisticCandidate(d: Option<Choice>): Option<Candidate>
  {
    if d.Some? then Some(Candidate(d.value.adv, d.value.bid)) else None
  }

  /** The pessimistic answer as a candidate: the winner's position and its bid. */
  function PessimisticCandidate(accts: seq<Account>, bids: BidTable, query: string, best: Option<nat>): Option<Candidate>
    requires best.Some? ==> best.value < |accts|
  {
    if best.Some? then Some(Candidate(best.value, BidOrZero(bids, accts[best.value].name, query))) else None
  }

  /** A sub-allocator's returned record and bid stand for candidate `c` on
      the records `accts`: nothing and bid 0 when there is no candidate, else
      a record of the candidate's name and the candidate's bid, which that
      record can pay. */
  predicate Answers(copy: Option<Advertiser>, b: real, accts: seq<Account>, c: Option<Candidate>)
  {
    && (c.None? ==> copy.None? && b == 0.0)
    && (c.Some? ==>
          && c.value.adv < |accts| && 0.0 <= c.value.bid <= accts[c.value.adv].RemainingBudget()
          && copy.Some? && b == c.value.bid && copy.value.name == accts[c.value.adv].name)
  }

  /** The records after a sub-allocator charged its candidate, if any. */
  function ChargeFor(accts: seq<Account>, c: Option<Candidate>): (r: seq<Account>)
    requires c.Some? ==> c.value.adv < |accts|
    ensures |r| == |accts|
  {
    if c.Some? then Charged(accts, c.value.adv, c.value.bid) else accts
  }

  /** A shadow candidate replaced by the authoritative record of the same
      name, keeping its bid. */
  function Twin(ledger: seq<Account>, shadow: seq<Account>, c: Option<Candidate>): (r: Option<Candidate>)
    requires c.Some? ==> c.value.adv < |shadow|
    ensures r.Some? ==> r.value.adv < |ledger|
  {
    if c.None? then None
    else
      match FindByName(ledger, shadow[c.value.adv].name)
      case None => None
      case Some(k) => Some(Candidate(k, c.value.bid))
  }

  /** `phi(budget_fraction(), alpha) * bid` on the authoritative record, or
      -inf when there is no candidate. */
  function ScoreOf(ledger: seq<Account>, c: Option<Candidate>, alpha: real, phi: (real, real) -> real): Ext
    requires c.Some? ==> c.value.adv < |ledger|
  {
    if c.Some? then Fin(phi(ledger[c.value.adv].BudgetFraction(), alpha) * c.value.bid) else NegInf
  }

  /** The decision of `allocate_query` between the two mapped candidates: none
      when both are absent, the optimistic one when `alpha * o_score >=
      p_score`, else the pessimistic one. The two `None`s after a winning
      branch stand for the source's `None.deduct_budget`, which
      `ArbitrateRule` shows cannot happen. */
  function Arbitrate(ledger: seq<Account>, o: Option<Candidate>, p: Option<Candidate>,
                     alpha: real, phi: (real, real) -> real): (v: Option<Verdict>)
    requires alpha >= 0.0
    requires o.Some? ==> o.value.adv < |ledger|
    requires p.Some? ==> p.value.adv < |ledger|
    ensures v.Some? ==> v.value.adv < |ledger|
  {
    if o.None? && p.None? then None
    else if AtLeast(Scale(alpha, ScoreOf(ledger, o, alpha, phi)), ScoreOf(ledger, p, alpha, phi)) then
      if o.Some? then Some(Verdict(o.value.adv, o.value.bid, true)) else None
    else if p.Some? then Some(Verdict(p.value.adv, p.value.bid, false))
    else None
  }

  /** The ledger after the commit: the verdict's record charged its bid, or
      nothing charged. */
  function Settled(ledger: seq<Account>, v: Option<Verdict>): seq<Account>
    requires v.Some? ==> v.value.adv < |ledger|
  {
    ChargeFor(ledger, if v.Some? then Some(Candidate(v.value.adv, v.value.bid)) else None)
  }

  /** The decision rule: nothing is charged exactly when neither branch has a
      candidate; a lone candidate always wins; with both present the
      optimistic one wins exactly when `alpha * o_score >= p_score`, so ties
      go to it. */
  lemma ArbitrateRule(ledger: seq<Account>, o: Option<Candidate>, p: Option<Candidate>,
                      alpha: real, phi: (real, real) -> real)
    requires alpha >= 0.0
    requires o.Some? ==> o.value.adv < |ledger|
    requires p.Some? ==> p.value.adv < |ledger|
    ensures var v := Arbitrate(ledger, o, p, alpha, phi);
      && (v.None? <==> o.None? && p.None?)
      && (o.Some? && p.None? ==> v == Some(Verdict(o.value.adv, o.value.bid, true)))
      && (o.None? && p.Some? ==> v == Some(Verdict(p.value.adv, p.value.bid, false)))
      && (o.Some? && p.Some? ==>
            var os := phi(ledger[o.value.adv].BudgetFraction(), alpha) * o.value.bid;
            var ps := phi(ledger[p.value.adv].BudgetFraction(), alpha) * p.value.bid;
            v == if alpha * os >= ps then Some(Verdict(o.value.adv, o.value.bid, true))
                 else Some(Verdict(p.value.adv, p.value.bid, false)))
  {
    var os := ScoreOf(ledger, o, alpha, phi);
    var ps := ScoreOf(ledger, p, alpha, phi);
    if o.None? && p.Some? {
      assert !AtLeast(Scale(alpha, os), ps);
    }
  }

  // ---------------------------------------------------------------------
  // The shadow runs ahead of the ledger.

  /** Shadow and ledger hold the same records in the same order, and every
      shadow record has spent at least as much as its authoritative twin. */
  predicate Ahead(shadow: seq<Account>, ledger: seq<Account>)
  {
    && |shadow| == |ledger|
    && forall k :: 0 <= k < |shadow| ==>
         && shadow[k].name == ledger[k].name
         && shadow[k].initialBudget == ledger[k].initialBudget
         && shadow[k].spentBudget >= ledger[k].spentBudget
  }

  /** With distinct names, mapping a shadow candidate by name finds the
      record at its own position. */
  lemma TwinIsSame(ledger: seq<Account>, shadow: seq<Account>, c: Option<Candidate>)
    requires Ahead(shadow, ledger) && DistinctNames(ledger)
    requires c.Some? ==> c.value.adv < |shadow|
    ensures Twin(ledger, shadow, c) == c
  {
    if c.Some? {
      var k := c.value.adv;
      var f := FindByName(ledger, shadow[k].name);
      assert ledger[k].name == shadow[k].name;
      assert f.Some?;
    }
  }

  /** A second round of `Advertiser(name, budget)` calls that reuses the names
      already registered leaves the registry with repeated names: records are
      only ever appended. */
  lemma RecreatedNamesRepeat(ledger: seq<Account>, again: seq<Account>)
    requires 0 < |again| <= |ledger|
    requires forall k :: 0 <= k < |again| ==> again[k].name == ledger[k].name
    ensures !DistinctNames(ledger + again)
  {
    var all := ledger + again;
    assert all[0].name == all[|ledger|].name;
  }

  /** With a repeated name, mapping a shadow candidate by name lands on the
      first record of that name, at or before any earlier namesake, and so
      not on the candidate's own position. */
  lemma TwinTakesFirstNamesake(ledger: seq<Account>, shadow: seq<Account>, c: Option<Candidate>, k: nat)
    requires Ahead(shadow, ledger) && c.Some? && c.value.adv < |shadow|
    requires k < c.value.adv && ledger[k].name == shadow[c.value.adv].name
    ensures var t := Twin(ledger, shadow, c);
      t.Some? && t.value.adv <= k && t.value.adv != c.value.adv && t.value.bid == c.value.bid
  {
    var f := FindByName(ledger, shadow[c.value.adv].name);
    assert f.Some?;
  }

  /** The registry of a second replication, `[A1 (old), A1 (new)]`, both
      bidding 5 on `q`: the pessimistic scan skips the old A1, which cannot
      pay, and picks the new A1, which can, but the lookup by
      name maps it to the old A1, which has 1 left. The decision charges the
      old record, whose `deduct_budget` rejects the amount. */
  lemma StaleTwinOverdraws(phi: (real, real) -> real)
    ensures var ledger := [Account("A1", 10.0, 9.0), Account("A1", 20.0, 0.0)];
      var bids := map["A1" := map["q" := 5.0]];
      var c := Some(Candidate(1, 5.0));
      && PessimisticCandidate(ledger, bids, "q", Best(ledger, bids, "q", 1.0, phi, 2)) == c
      && Ahead(ledger, ledger) && !DistinctNames(ledger)
      && 0.0 <= c.value.bid <= ledger[c.value.adv].RemainingBudget()
      && Twin(ledger, ledger, c) == Some(Candidate(0, 5.0))
      && Arbitrate(ledger, None, Twin(ledger, ledger, c), 1.0, phi) == Some(Verdict(0, 5.0, false))
      && ledger[0].Deduct(5.0).None?
  {
    var ledger := [Account("A1", 10.0, 9.0), Account("A1", 20.0, 0.0)];
    var c := Some(Candidate(1, 5.0));
    TwinTakesFirstNamesake(ledger, ledger, c, 0);
    ArbitrateRule(ledger, None, Twin(ledger, ledger, c), 1.0, phi);
  }

  /** With distinct names, a candidate the shadow could pay maps to its own
      twin, and the twin's `deduct_budget` accepts the bid. */
  lemma DistinctTwinPays(ledger: seq<Account>, shadow: seq<Account>, c: Option<Candidate>)
    requires Ahead(shadow, ledger) && DistinctNames(ledger)
    requires c.Some? ==> c.value.adv < |shadow| && 0.0 <= c.value.bid <= shadow[c.value.adv].RemainingBudget()
    ensures Twin(ledger, shadow, c) == c
    ensures c.Some? ==> ledger[c.value.adv].Deduct(c.value.bid).Some?
  {
    TwinIsSame(ledger, shadow, c);
  }

  /** A candidate that could pay `bid` from the shadow record at `k`, charged
      there, can pay it from the authoritative record too, and charging both
      keeps the shadow ahead. */
  lemma ChargeKeepsAhead(shadow: seq<Account>, ledger: seq<Account>, k: nat, bid: real)
    requires Ahead(shadow, ledger) && k < |shadow|
    requires 0.0 <= bid <= shadow[k].RemainingBudget()
    ensures ledger[k].RemainingBudget() >= bid
    ensures Ahead(Charged(shadow, k, bid), Charged(ledger, k, bid))
    ensures Ahead(Charged(shadow, k, bid), ledger)
  {
  }

  /** The commit of `allocate_query` never trips the budget guard: whichever
      candidate wins, its authoritative record can pay its bid, and after the
      commit the shadow is still ahead of the ledger. Both sub-allocators
      charge the shadow only for what it can pay, and bids are not negative. */
  lemma {:induction false} ShadowStaysAhead(s0: seq<Account>, ledger: seq<Account>,
                                            oc: Option<Candidate>, pc: Option<Candidate>)
    requires Ahead(s0, ledger)
    requires oc.Some? ==> oc.value.adv < |s0| && 0.0 <= oc.value.bid <= s0[oc.value.adv].RemainingBudget()
    requires var s1 := ChargeFor(s0, oc);
      pc.Some? ==> pc.value.adv < |s1| && 0.0 <= pc.value.bid <= s1[pc.value.adv].RemainingBudget()
    ensures Ahead(ChargeFor(s0, oc), ledger)
    ensures var s2 := ChargeFor(ChargeFor(s0, oc), pc);
      && Ahead(s2, ledger)
      && (oc.Some? ==> ledger[oc.value.adv].RemainingBudget() >= oc.value.bid
                       && Ahead(s2, Charged(ledger, oc.value.adv, oc.value.bid)))
      && (pc.Some? ==> ledger[pc.value.adv].RemainingBudget() >= pc.value.bid
                       && Ahead(s2, Charged(ledger, pc.value.adv, pc.value.bid)))
  {
    var s1 := ChargeFor(s0, oc);
    if oc.Some? {
      ChargeKeepsAhead(s0, ledger, oc.value.adv, oc.value.bid);
      var l1 := Charged(ledger, oc.value.adv, oc.value.bid);
      if pc.Some? {
        ChargeKeepsAhead(s1, l1, pc.value.adv, pc.value.bid);
        ChargeKeepsAhead(s1, ledger, pc.value.adv, pc.value.bid);
      }
    } else if pc.Some? {
      ChargeKeepsAhead(s1, ledger, pc.value.adv, pc.value.bid);
    }
  }

  /** After the commit the shadow is still ahead of the ledger, whichever
      way `Arbitrate` decided. */
  lemma CommitKeepsAhead(s0: seq<Account>, ledger: seq<Account>, oc: Option<Candidate>, pc: Option<Candidate>,
                         alpha: real, phi: (real, real) -> real)
    requires alpha >= 0.0 && Ahead(s0, ledger)
    requires oc.Some? ==> oc.value.adv < |s0| && 0.0 <= oc.value.bid <= s0[oc.value.adv].RemainingBudget()
    requires var s1 := ChargeFor(s0, oc);
      pc.Some? ==> pc.value.adv < |s1| && 0.0 <= pc.value.bid <= s1[pc.value.adv].RemainingBudget()
    ensures var s2 := ChargeFor(ChargeFor(s0, oc), pc);
      var v := Arbitrate(ledger, oc, pc, alpha, phi);
      && Ahead(s2, Settled(ledger, v))
      && (DistinctNames(ledger) ==> DistinctNames(Settled(ledger, v)))
  {
    ShadowStaysAhead(s0, ledger, oc, pc);
  }

  /** The oracle leaves the shadow ahead of the ledger it was copied from:
      the rounding only adds to the copy's spend. */
  lemma StartsAhead(shadow: seq<Account>, ledger: seq<Account>, x: seq<real>, keywords: seq<string>,
                    bids: BidTable, demand: seq<int>)
    requires OracleInstance(ledger, x, keywords, bids).WellFormed() && |demand| == |keywords|
    requires forall j :: 0 <= j < |demand| ==> demand[j] >= 0
    requires forall i :: 0 <= i < |ledger| ==> ledger[i].spentBudget <= ledger[i].initialBudget
    requires |shadow| == |ledger|
    requires forall i :: 0 <= i < |ledger| ==>
      shadow[i].name == ledger[i].name && shadow[i].initialBudget == ledger[i].initialBudget
    requires Spends(shadow) == Round(OracleInstance(ledger, x, keywords, bids), Spends(ledger), demand).spent
    ensures Ahead(shadow, ledger)
  {
    var inst := OracleInstance(ledger, x, keywords, bids);
    RoundingOnlyAddsSpend(inst, Spends(ledger), demand);
    forall i | 0 <= i < |ledger|
      ensures shadow[i].spentBudget >= ledger[i].spentBudget
    {
      assert Spends(shadow)[i] == shadow[i].spentBudget;
    }
  }

  /** The optimistic allocator's own state after one query: on a decision one
      unit off its plan cell and one off the query's count, else unchanged. */
  ghost predicate OptimisticStepped(remaining0: map<string, int>, plan0: seq<seq<int>>,
                                    remaining: map<string, int>, plan: seq<seq<int>>,
                                    d: Option<Choice>, query: string)
  {
    && (d.None? ==> remaining == remaining0 && plan == plan0)
    && (d.Some? ==>
          && query in remaining0 && d.value.adv < |plan0| && d.value.kw < |plan0[d.value.adv]|
          && remaining == remaining0[query := remaining0[query] - 1]
          && plan == Served(plan0, d.value.adv, d.value.kw))
  }

  /** The counters after a win of the optimistic (index 0) or the
      pessimistic (index 1) branch. */
  function Counted(allocations: seq<int>, optimistic: bool): (r: seq<int>)
    requires |allocations| == 2
    ensures |r| == 2 && r[0] + r[1] == allocations[0] + allocations[1] + 1
    ensures optimistic ==> r[0] == allocations[0] + 1 && r[1] == allocations[1]
    ensures !optimistic ==> r[0] == allocations[0] && r[1] == allocations[1] + 1
  {
    if optimistic then allocations[0 := allocations[0] + 1] else allocations[1 := allocations[1] + 1]
  }

  /** `OptimisticAlgorithm(n_keywords, bids, predicted_queries, True)` then
      `PessimisticAlgorithm(bids, alpha, True)`: both capture the cached copy,
      which the optimistic oracle has charged with its plan. */
  method BuildAllocators(nKeywords: nat, bids: BidTable, predicted: map<string, int>, alpha: real,
                         phi: (real, real) -> real, x: seq<real>, registry: Registry)
    returns (o: OptimisticAlgorithm, p: PessimisticAlgorithm)
    requires registry.Valid() && registry.CacheMirrors()
    requires forall k :: k in predicted <==> k in Keywords(nKeywords)
    requires forall k :: k in predicted ==> predicted[k] >= 0
    requires OracleInstance(Accounts(registry.advertisers), x, Keywords(nKeywords), bids).WellFormed()
    requires forall i :: 0 <= i < |registry.advertisers| ==>
      registry.advertisers[i].spentBudget <= registry.advertisers[i].initialBudget
    modifies registry, if registry.cache.Some? then registry.cache.value else []
    ensures o.Valid() && p.Valid() && registry.Valid()
    ensures p.advertisers == o.advertisers && registry.cache == Some(o.advertisers)
    ensures o.bids == bids && p.bids == bids && p.alpha == alpha && p.phi == phi
    ensures registry.advertisers == old(registry.advertisers)
    ensures Accounts(registry.advertisers) == old(Accounts(registry.advertisers))
    ensures Disjoint(o.advertisers, registry.advertisers)
    ensures Ahead(Accounts(o.advertisers), Accounts(registry.advertisers))
    ensures o.remainingQueries == predicted && o.keywords == Keywords(nKeywords) && fresh(o.offlineAllocations)
    ensures var w := Round(OracleInstance(old(Accounts(registry.advertisers)), x, Keywords(nKeywords), bids),
                           Spends(old(Accounts(registry.advertisers))), Demand(predicted, Keywords(nKeywords)));
      && Grid(o.offlineAllocations) == w.plan
      && Spends(Accounts(o.advertisers)) == w.spent
  {
    ghost var accts := Accounts(registry.advertisers);
    ghost var keywords := Keywords(nKeywords);
    o := new OptimisticAlgorithm(nKeywords, bids, predicted, true, x, registry);
    StartsAhead(Accounts(o.advertisers), accts, x, keywords, bids, Demand(predicted, keywords));
    p := new PessimisticAlgorithm(bids, alpha, true, phi, registry);
  }

  class BalancedAlgorithm {
    const bids: BidTable
    const optimisticAlgorithm: OptimisticAlgorithm
    const pessimisticAlgorithm: PessimisticAlgorithm
    const alpha: real
    const phi: (real, real) -> real
    /** The class-level registry of `Advertiser`, held here by reference. */
    const registry: Registry
    /** `[optimistic wins, pessimistic wins]` */
    var allocations: seq<int>
    /** The number of queries that were given to an advertiser so far. */
    ghost var served: nat

    /** The shadow list: the cached copy both allocators captured when they
        were built, which they keep reading and charging. */
    function Shadow(): seq<Advertiser>
    {
      optimisticAlgorithm.advertisers
    }

    /** Both allocators share the shadow, the bids, alpha and phi; the shadow
        holds other records than the registry, in the same order, each one
        ahead of its authoritative twin; names do not repeat; the counters
        add up to the queries served. */
    ghost predicate Valid()
      reads this, registry, registry.advertisers, Shadow(), optimisticAlgorithm, optimisticAlgorithm.offlineAllocations
    {
      && optimisticAlgorithm.Valid() && pessimisticAlgorithm.Valid()
      && pessimisticAlgorithm.advertisers == Shadow()
      && optimisticAlgorithm.bids == bids && pessimisticAlgorithm.bids == bids
      && pessimisticAlgorithm.alpha == alpha && pessimisticAlgorithm.phi == phi
      && alpha >= 0.0 && NonNegativeBids(bids)
      && registry.Valid() && DistinctNames(Accounts(registry.advertisers))
      && Disjoint(Shadow(), registry.advertisers)
      && Ahead(Accounts(Shadow()), Accounts(registry.advertisers))
      && |allocations| == 2 && 0 <= allocations[0] && 0 <= allocations[1]
      && allocations[0] + allocations[1] == served
    }

    /** `BalancedAlgorithm(n_keywords, bids, predicted_queries, alpha)`: the
        optimistic allocator first (its oracle charges the cached copy), then
        the pessimistic one, both in balanced mode and so both on the cached
        copy; the counters start at `[0, 0]`. */
    constructor (nKeywords: nat, bids: BidTable, predicted: map<string, int>, alpha: real,
                 phi: (real, real) -> real, x: seq<real>, registry: Registry)
      requires registry.Valid() && registry.CacheMirrors()
      requires forall k :: k in predicted <==> k in Keywords(nKeywords)
      requires forall k :: k in predicted ==> predicted[k] >= 0
      requires OracleInstance(Accounts(registry.advertisers), x, Keywords(nKeywords), bids).WellFormed()
      requires forall i :: 0 <= i < |registry.advertisers| ==>
        registry.advertisers[i].spentBudget <= registry.advertisers[i].initialBudget
      requires DistinctNames(Accounts(registry.advertisers))
      requires alpha >= 0.0 && NonNegativeBids(bids)
      modifies registry, if registry.cache.Some? then registry.cache.value else []
      ensures Valid()
      ensures this.registry == registry && this.bids == bids && this.alpha == alpha && this.phi == phi
      ensures allocations == [0, 0] && served == 0
      ensures registry.cache == Some(Shadow())
      ensures registry.advertisers == old(registry.advertisers)
      ensures Accounts(registry.advertisers) == old(Accounts(registry.advertisers))
      ensures optimisticAlgorithm.remainingQueries == predicted
      ensures optimisticAlgorithm.keywords == Keywords(nKeywords)
      ensures fresh(optimisticAlgorithm.offlineAllocations)
      ensures var w := Round(OracleInstance(old(Accounts(registry.advertisers)), x, Keywords(nKeywords), bids),
                             Spends(old(Accounts(registry.advertisers))), Demand(predicted, Keywords(nKeywords)));
        && Grid(optimisticAlgorithm.offlineAllocations) == w.plan
        && Spends(Accounts(Shadow())) == w.spent
    {
      this.bids := bids;
      var o, p := BuildAllocators(nKeywords, bids, predicted, alpha, phi, x, registry);
      optimisticAlgorithm := o;
      pessimisticAlgorithm := p;
      this.alpha := alpha;
      this.phi := phi;
      this.registry := registry;
      allocations := [0, 0];
      served := 0;
    }

    /** `o_copy = self.optimistic_algorithm.allocate_query(query)`: the
        optimistic allocator's answer, charged to the shadow; records outside
        the shadow (`keepA`, `keepB`) do not change. */
    method RunOptimistic(query: string, ghost keepA: seq<Advertiser>, ghost keepB: seq<Advertiser>)
      returns (oCopy: Option<Advertiser>, oBid: real, ghost oc: Option<Candidate>)
      requires optimisticAlgorithm.Valid() && optimisticAlgorithm.bids == bids && NonNegativeBids(bids)
      requires Disjoint(Shadow(), keepA) && Disjoint(Shadow(), keepB)
      modifies optimisticAlgorithm, optimisticAlgorithm.offlineAllocations, Shadow()
      ensures optimisticAlgorithm.Valid()
      ensures var s0 := old(Accounts(Shadow()));
        var d := Decide(old(optimisticAlgorithm.remainingQueries), optimisticAlgorithm.keywords,
                        old(Grid(optimisticAlgorithm.offlineAllocations)), s0, bids, query);
        && oc == OptimisticCandidate(d)
        && OptimisticStepped(old(optimisticAlgorithm.remainingQueries), old(Grid(optimisticAlgorithm.offlineAllocations)),
                             optimisticAlgorithm.remainingQueries, Grid(optimisticAlgorithm.offlineAllocations), d, query)
        && Accounts(Shadow()) == ChargeFor(s0, oc)
      ensures Answers(oCopy, oBid, old(Accounts(Shadow())), oc)
      ensures Accounts(keepA) == old(Accounts(keepA)) && Accounts(keepB) == old(Accounts(keepB))
    {
      ghost var s0 := Accounts(Shadow());
      ghost var plan0 := Grid(optimisticAlgorithm.offlineAllocations);
      ghost var d := Decide(optimisticAlgorithm.remainingQueries, optimisticAlgorithm.keywords, plan0, s0, bids, query);
      DecideSome(optimisticAlgorithm.remainingQueries, optimisticAlgorithm.keywords, plan0, s0, bids, query);
      oCopy, oBid := optimisticAlgorithm.AllocateQuery(query);
      oc := OptimisticCandidate(d);
      if oc.Some? {
        BidOrZeroNonNegative(bids, s0[oc.value.adv].name, query);
        assert oCopy.value == Shadow()[oc.value.adv];
      }
      forall i | 0 <= i < |keepA| ensures keepA[i].State() == old(keepA[i].State()) {
        assert keepA[i] !in Shadow();
      }
      forall i | 0 <= i < |keepB| ensures keepB[i].State() == old(keepB[i].State()) {
        assert keepB[i] !in Shadow();
      }
    }

    /** `p_copy = self.pessimistic_algorithm.allocate_query(query)`: the
        pessimistic allocator's answer on the shadow as the optimistic step
        left it, charged to the shadow; records outside the shadow do not
        change. */
    method RunPessimistic(query: string, ghost keepA: seq<Advertiser>, ghost keepB: seq<Advertiser>)
      returns (pCopy: Option<Advertiser>, pBid: real, ghost pc: Option<Candidate>)
      requires pessimisticAlgorithm.Valid() && pessimisticAlgorithm.advertisers == Shadow()
      requires pessimisticAlgorithm.bids == bids && pessimisticAlgorithm.alpha == alpha && pessimisticAlgorithm.phi == phi
      requires Disjoint(Shadow(), keepA) && Disjoint(Shadow(), keepB)
      modifies Shadow()
      ensures var s1 := old(Accounts(Shadow()));
        && pc == PessimisticCandidate(s1, bids, query, Best(s1, bids, query, alpha, phi, |s1|))
        && Accounts(Shadow()) == ChargeFor(s1, pc)
      ensures Answers(pCopy, pBid, old(Accounts(Shadow())), pc)
      ensures Accounts(keepA) == old(Accounts(keepA)) && Accounts(keepB) == old(Accounts(keepB))
    {
      ghost var s1 := Accounts(Shadow());
      BestIsEligible(s1, bids, query, alpha, phi, |s1|);
      pCopy, pBid := pessimisticAlgorithm.AllocateQuery(query);
      pc := PessimisticCandidate(s1, bids, query, Best(s1, bids, query, alpha, phi, |s1|));
      if pc.Some? {
        assert pCopy.value == Shadow()[pc.value.adv];
      }
      forall i | 0 <= i < |keepA| ensures keepA[i].State() == old(keepA[i].State()) {
        assert keepA[i] !in Shadow();
      }
      forall i | 0 <= i < |keepB| ensures keepB[i].State() == old(keepB[i].State()) {
        assert keepB[i] !in Shadow();
      }
    }

    /** `[adv for adv in Advertiser.advertisers if adv.name == copy.name][0]`
        with the copy's bid: the registry record of the same name, which with
        distinct names sits at the candidate's own position. */
    method Resolve(copy: Option<Advertiser>, b: real, ghost shadow: seq<Account>, ghost c: Option<Candidate>)
      returns (r: Option<Candidate>)
      requires Ahead(shadow, Accounts(registry.advertisers)) && DistinctNames(Accounts(registry.advertisers))
      requires c.None? ==> copy.None?
      requires c.Some? ==> (c.value.adv < |shadow| && copy.Some? && b == c.value.bid
                            && copy.value.name == shadow[c.value.adv].name)
      ensures r == c
    {
      var accts := Accounts(registry.advertisers);
      TwinIsSame(accts, shadow, c);
      r := None;
      if copy.Some? {
        var k := FindByName(accts, copy.value.name);
        r := Some(Candidate(k.value, b));
      }
    }

    /** The scores `phi(budget_fraction(), alpha) * bid` of both mapped
        candidates on their registry records, -inf for a missing one, and the
        choice `alpha * o_score >= p_score`. */
    method Prefer(o: Option<Candidate>, p: Option<Candidate>) returns (chosen: Candidate, optimistic: bool)
      requires alpha >= 0.0 && (o.Some? || p.Some?)
      requires o.Some? ==> o.value.adv < |registry.advertisers|
      requires p.Some? ==> p.value.adv < |registry.advertisers|
      ensures Arbitrate(Accounts(registry.advertisers), o, p, alpha, phi) == Some(Verdict(chosen.adv, chosen.bid, optimistic))
    {
      ghost var ledger := Accounts(registry.advertisers);
      var oScore := if o.Some? then Fin(phi(registry.advertisers[o.value.adv].State().BudgetFraction(), alpha) * o.value.bid)
                    else NegInf;
      var pScore := if p.Some? then Fin(phi(registry.advertisers[p.value.adv].State().BudgetFraction(), alpha) * p.value.bid)
                    else NegInf;
      assert oScore == ScoreOf(ledger, o, alpha, phi) && pScore == ScoreOf(ledger, p, alpha, phi);
      ArbitrateRule(ledger, o, p, alpha, phi);
      if AtLeast(Scale(alpha, oScore), pScore) {
        chosen, optimistic := o.value, true;
      } else {
        chosen, optimistic := p.value, false;
      }
    }

    /** `chosen.deduct_budget(bid)` on the registry record, which can pay: the
        record is charged and no other record changes. */
    method Pay(k: nat, amount: real, ghost keepA: seq<Advertiser>, ghost keepB: seq<Advertiser>)
      returns (winner: Advertiser)
      requires registry.Valid() && k < |registry.advertisers|
      requires amount <= registry.advertisers[k].State().RemainingBudget()
      requires Disjoint(keepA, registry.advertisers) && Disjoint(keepB, registry.advertisers)
      modifies registry.advertisers[k]
      ensures winner == registry.advertisers[k]
      ensures Accounts(registry.advertisers) == Charged(old(Accounts(registry.advertisers)), k, amount)
      ensures Accounts(keepA) == old(Accounts(keepA)) && Accounts(keepB) == old(Accounts(keepB))
    {
      ghost var ledger := Accounts(registry.advertisers);
      winner := registry.advertisers[k];
      var outcome := winner.DeductBudget(amount);
      assert outcome == Deducted;
      forall r | 0 <= r < |registry.advertisers| && r != k
        ensures registry.advertisers[r].State() == ledger[r]
      {
        assert registry.advertisers[r] != winner;
      }
      forall i | 0 <= i < |keepA| ensures keepA[i] != winner { }
      forall i | 0 <= i < |keepB| ensures keepB[i] != winner { }
    }

    /** The second half of `allocate_query`: each candidate replaced by the
        registry record of the same name, the decision, the winning branch's
        counter and the single charge to the registry. */
    method Commit(oCopy: Option<Advertiser>, oBid: real, pCopy: Option<Advertiser>, pBid: real,
                  ghost ledger: seq<Account>, ghost s0: seq<Account>, ghost s1: seq<Account>,
                  ghost oc: Option<Candidate>, ghost pc: Option<Candidate>,
                  ghost keepA: seq<Advertiser>, ghost keepB: seq<Advertiser>)
      returns (winner: Option<Advertiser>, bid: real)
      requires registry.Valid() && alpha >= 0.0 && |allocations| == 2
      requires Accounts(registry.advertisers) == ledger
      requires Ahead(s0, ledger) && Ahead(s1, ledger) && DistinctNames(ledger)
      requires Answers(oCopy, oBid, s0, oc) && Answers(pCopy, pBid, s1, pc)
      requires oc.Some? ==> ledger[oc.value.adv].RemainingBudget() >= oc.value.bid
      requires pc.Some? ==> ledger[pc.value.adv].RemainingBudget() >= pc.value.bid
      requires Disjoint(keepA, registry.advertisers) && Disjoint(keepB, registry.advertisers)
      modifies this`allocations, this`served, registry.advertisers
      ensures unchanged(registry, optimisticAlgorithm, optimisticAlgorithm.offlineAllocations)
      ensures old(optimisticAlgorithm.Valid()) ==> optimisticAlgorithm.Valid()
      ensures served == old(served) + (if winner.Some? then 1 else 0)
      ensures var v := Arbitrate(ledger, oc, pc, alpha, phi);
        && Accounts(registry.advertisers) == Settled(ledger, v)
        && (v.None? ==> winner.None? && bid == 0.0 && allocations == old(allocations) && served == old(served))
        && (v.Some? ==>
              && winner == Some(registry.advertisers[v.value.adv]) && bid == v.value.bid
              && allocations == Counted(old(allocations), v.value.optimistic) && served == old(served) + 1)
      ensures Accounts(keepA) == old(Accounts(keepA)) && Accounts(keepB) == old(Accounts(keepB))
    {
      var o := Resolve(oCopy, oBid, s0, oc);
      var p := Resolve(pCopy, pBid, s1, pc);
      ghost var v := Arbitrate(ledger, o, p, alpha, phi);
      if o.None? && p.None? {
        ArbitrateRule(ledger, o, p, alpha, phi);
        return None, 0.0;
      }
      var chosen, optimistic := Prefer(o, p);
      assert v == Some(Verdict(chosen.adv, chosen.bid, optimistic));
      ArbitrateRule(ledger, o, p, alpha, phi);
      var w := Award(chosen, optimistic, ledger, keepA, keepB);
      winner, bid := Some(w), chosen.bid;
    }

    /** The winning branch's counter and `chosen.deduct_budget(bid)` on the
        registry record, which can pay. */
    method Award(chosen: Candidate, optimistic: bool, ghost ledger: seq<Account>,
                 ghost keepA: seq<Advertiser>, ghost keepB: seq<Advertiser>)
      returns (winner: Advertiser)
      requires registry.Valid() && |allocations| == 2 && Accounts(registry.advertisers) == ledger
      requires chosen.adv < |ledger| && ledger[chosen.adv].RemainingBudget() >= chosen.bid
      requires Disjoint(keepA, registry.advertisers) && Disjoint(keepB, registry.advertisers)
      modifies this`allocations, this`served, registry.advertisers
      ensures unchanged(registry, optimisticAlgorithm, optimisticAlgorithm.offlineAllocations)
      ensures old(optimisticAlgorithm.Valid()) ==> optimisticAlgorithm.Valid()
      ensures allocations == Counted(old(allocations), optimistic) && served == old(served) + 1
      ensures winner == registry.advertisers[chosen.adv]
      ensures Accounts(registry.advertisers) == Charged(ledger, chosen.adv, chosen.bid)
      ensures Accounts(keepA) == old(Accounts(keepA)) && Accounts(keepB) == old(Accounts(keepB))
    {
      allocations := Counted(allocations, optimistic);
      served := served + 1;
      assert Accounts(registry.advertisers) == ledger;
      winner := Pay(chosen.adv, chosen.bid, keepA, keepB);
    }

    /** `Advertiser.reset_advertiser_list_copy()`: a fresh copy of the
        registry becomes the cache, so the shadow the allocators hold is not
        that copy. */
    method ResetCache()
      requires registry.Valid()
      modifies registry
      ensures registry.Valid() && registry.advertisers == old(registry.advertisers)
      ensures registry.cache.Some? && Accounts(registry.cache.value) == Accounts(registry.advertisers)
      ensures Disjoint(Shadow(), registry.cache.value)
    {
      registry.ResetAdvertiserListCopy();
      ghost var copy := registry.cache.value;
      forall i, k | 0 <= i < |Shadow()| && 0 <= k < |copy| ensures Shadow()[i] != copy[k] {
        assert fresh(copy[k]);
      }
    }

    /** The first half of `allocate_query`: the cache reset, then both
        allocators on the shadow, the optimistic one first, each charging the
        shadow for its candidate. The registry records do not change. */
    method Explore(query: string, ghost s0: seq<Account>, ghost ledger: seq<Account>)
      returns (oCopy: Option<Advertiser>, oBid: real, pCopy: Option<Advertiser>, pBid: real,
               ghost oc: Option<Candidate>, ghost pc: Option<Candidate>)
      requires Valid() && Accounts(Shadow()) == s0 && Accounts(registry.advertisers) == ledger
      modifies registry, optimisticAlgorithm, optimisticAlgorithm.offlineAllocations, Shadow()
      ensures Valid() && allocations == old(allocations) && served == old(served)
      ensures registry.advertisers == old(registry.advertisers) && Accounts(registry.advertisers) == ledger
      ensures registry.cache.Some? && Accounts(registry.cache.value) == ledger
      ensures Disjoint(Shadow(), registry.cache.value)
      ensures var d := Decide(old(optimisticAlgorithm.remainingQueries), optimisticAlgorithm.keywords,
                              old(Grid(optimisticAlgorithm.offlineAllocations)), s0, bids, query);
        && oc == OptimisticCandidate(d)
        && OptimisticStepped(old(optimisticAlgorithm.remainingQueries), old(Grid(optimisticAlgorithm.offlineAllocations)),
                             optimisticAlgorithm.remainingQueries, Grid(optimisticAlgorithm.offlineAllocations), d, query)
      ensures var s1 := ChargeFor(s0, oc);
        && pc == PessimisticCandidate(s1, bids, query, Best(s1, bids, query, alpha, phi, |s1|))
        && Accounts(Shadow()) == ChargeFor(s1, pc)
      ensures Answers(oCopy, oBid, s0, oc) && Answers(pCopy, pBid, ChargeFor(s0, oc), pc)
    {
      ghost var records := registry.advertisers;
      ghost var rq0 := optimisticAlgorithm.remainingQueries;
      ghost var plan0 := Grid(optimisticAlgorithm.offlineAllocations);
      ResetCache();
      assert optimisticAlgorithm.remainingQueries == rq0 && Grid(optimisticAlgorithm.offlineAllocations) == plan0;
      ghost var copy := registry.cache.value;
      assert Accounts(records) == ledger && Accounts(copy) == ledger && Accounts(Shadow()) == s0;
      oCopy, oBid, oc := RunOptimistic(query, records, copy);
      ghost var s1 := ChargeFor(s0, oc);
      ghost var rq1 := optimisticAlgorithm.remainingQueries;
      ghost var plan1 := Grid(optimisticAlgorithm.offlineAllocations);
      assert Accounts(Shadow()) == s1;
      pCopy, pBid, pc := RunPessimistic(query, records, copy);
      assert Answers(pCopy, pBid, s1, pc);
      assert optimisticAlgorithm.remainingQueries == rq1 && Grid(optimisticAlgorithm.offlineAllocations) == plan1;
      assert registry.advertisers == records && registry.cache == Some(copy);
      ShadowStaysAhead(s0, ledger, oc, pc);
    }

    /** The commit after `Explore`: the shadow's charges and candidates in
        hand, `Commit` runs on the registry, which the shadow stays ahead of. */
    method Finish(oCopy: Option<Advertiser>, oBid: real, pCopy: Option<Advertiser>, pBid: real,
                  ghost s0: seq<Account>, ghost ledger: seq<Account>, ghost oc: Option<Candidate>, ghost pc: Option<Candidate>)
      returns (winner: Option<Advertiser>, bid: real)
      requires Valid() && registry.cache.Some?
      requires Accounts(registry.advertisers) == ledger && Ahead(s0, ledger)
      requires Answers(oCopy, oBid, s0, oc) && Answers(pCopy, pBid, ChargeFor(s0, oc), pc)
      requires Accounts(Shadow()) == ChargeFor(ChargeFor(s0, oc), pc)
      modifies this`allocations, this`served, registry.advertisers
      ensures Valid()
      ensures unchanged(registry, optimisticAlgorithm, optimisticAlgorithm.offlineAllocations)
      ensures Accounts(Shadow()) == ChargeFor(ChargeFor(s0, oc), pc)
      ensures Accounts(registry.cache.value) == old(Accounts(registry.cache.value))
      ensures var v := Arbitrate(ledger, Twin(ledger, s0, oc), Twin(ledger, ChargeFor(s0, oc), pc), alpha, phi);
        && Accounts(registry.advertisers) == Settled(ledger, v)
        && (v.None? ==> winner.None? && bid == 0.0 && allocations == old(allocations))
        && (v.Some? ==>
              && winner == Some(registry.advertisers[v.value.adv]) && bid == v.value.bid
              && allocations == Counted(old(allocations), v.value.optimistic))
      ensures served == old(served) + (if winner.Some? then 1 else 0)
    {
      ghost var s1 := ChargeFor(s0, oc);
      ShadowStaysAhead(s0, ledger, oc, pc);
      winner, bid := Commit(oCopy, oBid, pCopy, pBid, ledger, s0, s1, oc, pc, Shadow(), registry.cache.value);
      CommitKeepsAhead(s0, ledger, oc, pc, alpha, phi);
      TwinIsSame(ledger, s0, oc);
      TwinIsSame(ledger, s1, pc);
    }

    /** `allocate_query(query)`: the cache reset, both allocators on the
        shadow list (the optimistic one first), then the mapping, scoring and
        single charge of `Arbitrate` on the registry. The charge is never
        rejected, and the shadow stays ahead of the registry. */
    method AllocateQuery(query: string) returns (winner: Option<Advertiser>, bid: real)
      requires Valid()
      modifies this, registry, optimisticAlgorithm, optimisticAlgorithm.offlineAllocations, Shadow(), registry.advertisers
      ensures Valid()
      ensures registry.advertisers == old(registry.advertisers)
      ensures registry.cache.Some? && Accounts(registry.cache.value) == old(Accounts(registry.advertisers))
      ensures Disjoint(Shadow(), registry.cache.value)
      ensures var s0 := old(Accounts(Shadow()));
        var d := Decide(old(optimisticAlgorithm.remainingQueries), optimisticAlgorithm.keywords,
                        old(Grid(optimisticAlgorithm.offlineAllocations)), s0, bids, query);
        var oc := OptimisticCandidate(d);
        var s1 := ChargeFor(s0, oc);
        var pc := PessimisticCandidate(s1, bids, query, Best(s1, bids, query, alpha, phi, |s1|));
        var ledger := old(Accounts(registry.advertisers));
        var v := Arbitrate(ledger, Twin(ledger, s0, oc), Twin(ledger, s1, pc), alpha, phi);
        && OptimisticStepped(old(optimisticAlgorithm.remainingQueries), old(Grid(optimisticAlgorithm.offlineAllocations)),
                             optimisticAlgorithm.remainingQueries, Grid(optimisticAlgorithm.offlineAllocations), d, query)
        && Accounts(Shadow()) == ChargeFor(s1, pc)
        && Accounts(registry.advertisers) == Settled(ledger, v)
        && (v.None? ==> winner.None? && bid == 0.0 && allocations == old(allocations))
        && (v.Some? ==>
              && winner == Some(registry.advertisers[v.value.adv]) && bid == v.value.bid
              && allocations == Counted(old(allocations), v.value.optimistic))
      ensures served == old(served) + (if winner.Some? then 1 else 0)
    {
      ghost var s0 := Accounts(Shadow());
      ghost var ledger := Accounts(registry.advertisers);
      ghost var alloc0 := allocations;
      var oCopy, oBid, pCopy, pBid, oc, pc := Explore(query, s0, ledger);
      assert allocations == alloc0;
      ghost var copy := registry.cache.value;
      ghost var rq1 := optimisticAlgorithm.remainingQueries;
      ghost var plan1 := Grid(optimisticAlgorithm.offlineAllocations);
      winner, bid := Finish(oCopy, oBid, pCopy, pBid, s0, ledger, oc, pc);
      assert registry.cache == Some(copy);
      assert optimisticAlgorithm.remainingQueries == rq1 && Grid(optimisticAlgorithm.offlineAllocations) == plan1;
    }
  }
}
