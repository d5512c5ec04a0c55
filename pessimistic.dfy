/** The pessimistic allocator: a single pass over the advertisers that keeps the
    eligible one with the strictly highest `phi(fraction, alpha) * bid`. */
module Pessimistic {
  import opened Market
  import opened Ledger

  /** A record may take the query when its bid is positive and affordable. */
  predicate Eligible(a: Account, bid: real)
  {
    bid > 0.0 && a.RemainingBudget() >= bid
  }

  function Score(a: Account, bid: real, alpha: real, phi: (real, real) -> real): real
  {
    phi(a.BudgetFraction(), alpha) * bid
  }

  /** The winner among the first `n` accounts, as the scan leaves it after
      `n` iterations: an eligible account replaces the current one only when
      its score is strictly higher. */
  function Best(accts: seq<Account>, bids: BidTable, query: string, alpha: real,
                phi: (real, real) -> real, n: nat): (r: Option<nat>)
    requires n <= |accts|
    ensures r.Some? ==> r.value < n
  {
    if n == 0 then None
    else
      var prev := Best(accts, bids, query, alpha, phi, n - 1);
      var a := accts[n - 1];
      var bid := BidOrZero(bids, a.name, query);
      if Eligible(a, bid) && (prev.None? || Score(a, bid, alpha, phi) > ScoreAt(accts, bids, query, alpha, phi, prev.value))
      then Some(n - 1)
      else prev
  }

  function ScoreAt(accts: seq<Account>, bids: BidTable, query: string, alpha: real,
                   phi: (real, real) -> real, e: nat): real
    requires e < |accts|
  {
    Score(accts[e], BidOrZero(bids, accts[e].name, query), alpha, phi)
  }

  predicate EligibleAt(accts: seq<Account>, bids: BidTable, query: string, e: nat)
    requires e < |accts|
  {
    Eligible(accts[e], BidOrZero(bids, accts[e].name, query))
  }

  /** Only an advertiser with a positive, affordable bid is chosen. */
  lemma {:induction false} BestIsEligible(accts: seq<Account>, bids: BidTable, query: string, alpha: real,
                                          phi: (real, real) -> real, n: nat)
    requires n <= |accts|
    ensures var r := Best(accts, bids, query, alpha, phi, n);
      r.Some? ==> EligibleAt(accts, bids, query, r.value)
  {
    if n > 0 {
      BestIsEligible(accts, bids, query, alpha, phi, n - 1);
    }
  }

  /** Nothing is chosen exactly when no advertiser is eligible. */
  lemma {:induction false} BestNoneIffNoneEligible(accts: seq<Account>, bids: BidTable, query: string, alpha: real,
                                                   phi: (real, real) -> real, n: nat)
    requires n <= |accts|
    ensures Best(accts, bids, query, alpha, phi, n).None? <==>
      forall e :: 0 <= e < n ==> !EligibleAt(accts, bids, query, e)
  {
    if n > 0 {
      BestNoneIffNoneEligible(accts, bids, query, alpha, phi, n - 1);
      if Best(accts, bids, query, alpha, phi, n).None? {
        assert !EligibleAt(accts, bids, query, n - 1);
      } else if Best(accts, bids, query, alpha, phi, n - 1).None? {
        assert EligibleAt(accts, bids, query, n - 1);
      }
    }
  }

  /** The chosen advertiser scores at least as high as every eligible one, and
      strictly higher than every eligible one before it (ties go to the first). */
  lemma {:induction false} BestIsFirstMaximum(accts: seq<Account>, bids: BidTable, query: string, alpha: real,
                                              phi: (real, real) -> real, n: nat)
    requires n <= |accts|
    ensures var r := Best(accts, bids, query, alpha, phi, n);
      r.Some? ==>
        && (forall e :: 0 <= e < n && EligibleAt(accts, bids, query, e) ==>
              ScoreAt(accts, bids, query, alpha, phi, e) <= ScoreAt(accts, bids, query, alpha, phi, r.value))
        && (forall e :: 0 <= e < r.value && EligibleAt(accts, bids, query, e) ==>
              ScoreAt(accts, bids, query, alpha, phi, e) < ScoreAt(accts, bids, query, alpha, phi, r.value))
  {
    if n > 0 {
      BestIsFirstMaximum(accts, bids, query, alpha, phi, n - 1);
      BestNoneIffNoneEligible(accts, bids, query, alpha, phi, n - 1);
    }
  }

  class PessimisticAlgorithm {
    const bids: BidTable
    const advertisers: seq<Advertiser>
    const alpha: real
    const phi: (real, real) -> real

    ghost predicate Valid()
    {
      Distinct(advertisers)
    }

    /** Inside the balanced allocator the cached copy and the given alpha are
        used; standalone, the registry itself and alpha 1.0. */
    constructor (bids: BidTable, alpha: real, runningInBalanced: bool, phi: (real, real) -> real, registry: Registry)
      requires registry.Valid()
      modifies registry
      ensures Valid() && registry.Valid()
      ensures this.bids == bids && this.phi == phi
      ensures registry.advertisers == old(registry.advertisers)
      ensures runningInBalanced ==> registry.cache == Some(advertisers)
      ensures runningInBalanced && old(registry.cache).Some? ==> advertisers == old(registry.cache).value
      ensures runningInBalanced && old(registry.cache).None? ==> Accounts(advertisers) == Accounts(registry.advertisers)
      ensures runningInBalanced && old(registry.cache).None? ==> forall i :: 0 <= i < |advertisers| ==> fresh(advertisers[i])
      ensures !runningInBalanced ==> advertisers == registry.advertisers && registry.cache == old(registry.cache)
      ensures this.alpha == if runningInBalanced then alpha else 1.0
    {
      this.bids := bids;
      this.phi := phi;
      var list: seq<Advertiser>;
      if runningInBalanced {
        list := registry.GetAdvertiserListCopy();
      } else {
        list := registry.advertisers;
      }
      advertisers := list;
      this.alpha := if runningInBalanced then alpha else 1.0;
    }

    /** The scan of `allocate_query`: the eligible advertiser with the highest
        score, the first one on ties, and its bid. Changes nothing. */
    method HighestScore(query: string) returns (bestIndex: Option<nat>, bestBid: real)
      ensures bestIndex == Best(Accounts(advertisers), bids, query, alpha, phi, |advertisers|)
      ensures bestIndex.Some? ==> bestBid == BidOrZero(bids, advertisers[bestIndex.value].name, query)
      ensures bestIndex.None? ==> bestBid == 0.0
    {
      ghost var accts := Accounts(advertisers);
      bestIndex := None;
      var highestScore: real := 0.0;  // stands for -inf while bestIndex is None
      bestBid := 0.0;
      for i := 0 to |advertisers|
        invariant bestIndex == Best(accts, bids, query, alpha, phi, i)
        invariant bestIndex.Some? ==> bestBid == BidOrZero(bids, accts[bestIndex.value].name, query)
        invariant bestIndex.Some? ==> highestScore == ScoreAt(accts, bids, query, alpha, phi, bestIndex.value)
        invariant bestIndex.None? ==> bestBid == 0.0
      {
        var advertiser := advertisers[i];
        assert advertiser.State() == accts[i];
        var bid := BidOrZero(bids, advertiser.name, query);
        if bid > 0.0 && advertiser.State().RemainingBudget() >= bid {
          var score := phi(advertiser.State().BudgetFraction(), alpha) * bid;
          assert score == ScoreAt(accts, bids, query, alpha, phi, i);
          if bestIndex.None? || score > highestScore {
            highestScore := score;
            bestIndex := Some(i);
            bestBid := bid;
          }
        }
      }
    }

    /** `allocate_query(query)`: picks `Best` over the current accounts; on a
        winner, charges exactly its bid to that record alone (the charge
        cannot be rejected), otherwise changes nothing and returns `(None, 0)`. */
    method AllocateQuery(query: string) returns (winner: Option<Advertiser>, bid: real)
      requires Valid()
      modifies advertisers
      ensures var best := Best(old(Accounts(advertisers)), bids, query, alpha, phi, |advertisers|);
        && (best.None? ==> winner.None? && bid == 0.0 && Accounts(advertisers) == old(Accounts(advertisers)))
        && (best.Some? ==>
              && winner == Some(advertisers[best.value])
              && bid == BidOrZero(bids, advertisers[best.value].name, query)
              && Accounts(advertisers) == Charged(old(Accounts(advertisers)), best.value, bid))
    {
      ghost var accts := Accounts(advertisers);
      var bestIndex, bestBid := HighestScore(query);
      if bestIndex.None? {
        return None, 0.0;
      }
      var k := bestIndex.value;
      BestIsEligible(accts, bids, query, alpha, phi, |advertisers|);
      var outcome := advertisers[k].DeductBudget(bestBid);
      assert outcome == Deducted;
      assert forall i :: 0 <= i < |advertisers| && i != k ==> advertisers[i].State() == accts[i];
      return Some(advertisers[k]), bestBid;
    }
  }
}
