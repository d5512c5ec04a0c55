/** The budget ledger: advertiser records, their single guarded mutator, and the
    process-wide registry with its cached deep copy. */
module Ledger {
  import opened Market

  /** The value of one advertiser record at one moment. */
  datatype Account = Account(name: string, initialBudget: real, spentBudget: real)
  {
    /** `remaining_budget()` */
    function RemainingBudget(): (r: real)
      ensures r >= 0.0 <==> spentBudget <= initialBudget
      ensures r == initialBudget <==> spentBudget == 0.0
    {
      initialBudget - spentBudget
    }

    /** `budget_fraction()`: a zero budget counts as fully spent. */
    function BudgetFraction(): (f: real)
      ensures initialBudget == 0.0 ==> f == 1.0
      ensures initialBudget != 0.0 ==> f * initialBudget == spentBudget
      ensures initialBudget > 0.0 && 0.0 <= spentBudget <= initialBudget ==> 0.0 <= f <= 1.0
    {
      if initialBudget == 0.0 then 1.0 else spentBudget / initialBudget
    }

    /** Within budget: the ledger's invariant `0 <= spent <= initial`. */
    predicate WithinBudget()
    {
      0.0 <= spentBudget <= initialBudget
    }

    /** `deduct_budget(amount)` on the value: None when it raises. */
    function Deduct(amount: real): (r: Option<Account>)
      ensures r.None? <==> amount > RemainingBudget()
      ensures r.Some? ==> r.value.name == name && r.value.initialBudget == initialBudget
      ensures r.Some? ==> r.value.spentBudget == spentBudget + amount
      ensures r.Some? && amount >= 0.0 && WithinBudget() ==> r.value.WithinBudget()
    {
      if amount > RemainingBudget() then None
      else Some(Account(name, initialBudget, spentBudget + amount))
    }
  }

  datatype DeductOutcome = Deducted | InsufficientBudget

  class Advertiser {
    const name: string
    const initialBudget: real
    var spentBudget: real

    function State(): Account
      reads this
    {
      Account(name, initialBudget, spentBudget)
    }

    /** `Advertiser(name, initial_budget)`: a new record with nothing spent,
        appended at the end of the registry. */
    constructor (name: string, initialBudget: real, registry: Registry)
      requires registry.Valid()
      modifies registry
      ensures this.name == name && this.initialBudget == initialBudget && spentBudget == 0.0
      ensures registry.advertisers == old(registry.advertisers) + [this]
      ensures registry.cache == old(registry.cache)
      ensures registry.Valid()
    {
      this.name := name;
      this.initialBudget := initialBudget;
      spentBudget := 0.0;
      new;
      registry.advertisers := registry.advertisers + [this];
    }

    /** The per-record step of `copy.deepcopy`: a new record with equal
        fields, which does not register itself. */
    constructor Copy(a: Advertiser)
      ensures State() == a.State()
    {
      name := a.name;
      initialBudget := a.initialBudget;
      spentBudget := a.spentBudget;
    }

    /** `deduct_budget(amount)`: rejects an amount above the remaining budget
        and otherwise adds it to this record's spend; nothing else changes. */
    method DeductBudget(amount: real) returns (outcome: DeductOutcome)
      modifies this
      ensures outcome == InsufficientBudget <==> old(State()).Deduct(amount).None?
      ensures outcome == Deducted ==> State() == old(State()).Deduct(amount).value
      ensures outcome == InsufficientBudget ==> spentBudget == old(spentBudget)
    {
      if amount > State().RemainingBudget() {
        return InsufficientBudget;
      }
      spentBudget := spentBudget + amount;
      return Deducted;
    }
  }

  /** The values of a list of records, in list order. */
  function Accounts(s: seq<Advertiser>): (r: seq<Account>)
    reads s
    ensures |r| == |s|
    ensures forall i :: 0 <= i < |s| ==> r[i] == s[i].State()
  {
    seq(|s|, i requires 0 <= i < |s| reads s => s[i].State())
  }

  /** The accounts after `amount` is charged to the one at position `k`. */
  function Charged(accts: seq<Account>, k: nat, amount: real): (r: seq<Account>)
    requires k < |accts|
  {
    accts[k := Account(accts[k].name, accts[k].initialBudget, accts[k].spentBudget + amount)]
  }

  /** No record occurs in both lists. */
  predicate Disjoint(s: seq<Advertiser>, t: seq<Advertiser>)
  {
    forall i, k :: 0 <= i < |s| && 0 <= k < |t| ==> s[i] != t[k]
  }

  /** The class-level state of `Advertiser`: the registry `advertisers` and the
      cached copy `_advertiser_list_copy` (None until first requested). */
  class Registry {
    var advertisers: seq<Advertiser>
    var cache: Option<seq<Advertiser>>

    ghost predicate Valid()
      reads this
    {
      && Distinct(advertisers)
      && (cache.Some? ==> Distinct(cache.value) && Disjoint(cache.value, advertisers))
    }

    /** The cache is absent or holds exactly the registry's current values. */
    ghost predicate CacheMirrors()
      reads this, advertisers, if cache.Some? then cache.value else []
    {
      cache.Some? ==> Accounts(cache.value) == Accounts(advertisers)
    }

    constructor ()
      ensures Valid() && advertisers == [] && cache == None
    {
      advertisers := [];
      cache := None;
    }

    /** `get_advertiser_list_copy()`: the cached copy if there is one,
        otherwise a new deep copy of the registry, stored and returned. */
    method GetAdvertiserListCopy() returns (copy: seq<Advertiser>)
      requires Valid()
      modifies this
      ensures Valid() && advertisers == old(advertisers)
      ensures cache == Some(copy)
      ensures old(cache).Some? ==> copy == old(cache).value
      ensures old(cache).None? ==> Accounts(copy) == Accounts(advertisers)
      ensures old(cache).None? ==> forall i :: 0 <= i < |copy| ==> fresh(copy[i])
    {
      if cache.None? {
        var c := DeepCopy(advertisers);
        cache := Some(c);
      }
      copy := cache.value;
    }

    /** `reset_advertiser_list_copy()`: rebinds the cache to a new deep copy.
        Whoever kept the previous list keeps its records. */
    method ResetAdvertiserListCopy()
      requires Valid()
      modifies this
      ensures Valid() && advertisers == old(advertisers)
      ensures cache.Some? && Accounts(cache.value) == Accounts(advertisers)
      ensures forall i :: 0 <= i < |cache.value| ==> fresh(cache.value[i])
    {
      var c := DeepCopy(advertisers);
      cache := Some(c);
    }

    /** `reset_budgets()`: every registered record's spend returns to 0;
        names, budgets, order and the cached copy's records are untouched. */
    method ResetBudgets()
      requires Valid()
      modifies advertisers
      ensures forall i :: 0 <= i < |advertisers| ==>
        advertisers[i].State() == Account(advertisers[i].name, advertisers[i].initialBudget, 0.0)
    {
      for k := 0 to |advertisers|
        invariant forall i :: 0 <= i < k ==> advertisers[i].spentBudget == 0.0
      {
        advertisers[k].spentBudget := 0.0;
      }
    }
  }

  /** `copy.deepcopy(list)`: new records, pairwise distinct, equal field by field. */
  method DeepCopy(s: seq<Advertiser>) returns (c: seq<Advertiser>)
    ensures Accounts(c) == Accounts(s)
    ensures forall i :: 0 <= i < |c| ==> fresh(c[i])
    ensures Distinct(c) && Disjoint(c, s)
  {
    c := [];
    for k := 0 to |s|
      invariant |c| == k
      invariant forall i :: 0 <= i < k ==> fresh(c[i]) && c[i].State() == s[i].State()
      invariant Distinct(c)
    {
      var a := new Advertiser.Copy(s[k]);
      c := c + [a];
    }
  }
}
