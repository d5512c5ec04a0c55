/** The offline oracle's linear program: its variable layout, objective and
    constraint rows, and the order in which the rounding visits variables. */
module OracleLayout {
  import opened Market

  /** Position of (advertiser i, keyword j) among the LP's variables. */
  function VarIndex(nAdv: nat, i: nat, j: nat): nat
  {
    i + j * nAdv
  }

  lemma MulAtLeast(a: int, n: nat)
    requires a >= 1
    ensures a * n >= n
  {
    assert a * n == n + (a - 1) * n;
  }

  /** Quotient and remainder are determined by `x == q * n + r, 0 <= r < n`. */
  lemma DivModUnique(x: int, n: nat, q: int, r: int)
    requires 0 <= r < n && x == q * n + r
    ensures x / n == q && x % n == r
  {
    var q', r' := x / n, x % n;
    assert (q - q') * n == r' - r;
    if q > q' {
      MulAtLeast(q - q', n);
    } else if q < q' {
      MulAtLeast(q' - q, n);
    }
  }

  /** Rounding reads a variable position back as `(idx % nAdv, idx // nAdv)`:
      the inverse of the layout. */
  lemma LayoutDecode(nAdv: nat, i: nat, j: nat)
    requires i < nAdv
    ensures VarIndex(nAdv, i, j) % nAdv == i && VarIndex(nAdv, i, j) / nAdv == j
  {
    DivModUnique(VarIndex(nAdv, i, j), nAdv, j, i);
  }

  /** Every variable position is some (advertiser, keyword) pair. */
  lemma LayoutEncode(nAdv: nat, nKw: nat, idx: nat)
    requires idx < nAdv * nKw
    ensures 0 < nAdv
    ensures idx % nAdv < nAdv && idx / nAdv < nKw
    ensures VarIndex(nAdv, idx % nAdv, idx / nAdv) == idx
  {
    var q := idx / nAdv;
    if q >= nKw {
      MulAtLeast(q - nKw + 1, nAdv);
    }
  }

  lemma LayoutBound(nAdv: nat, nKw: nat, i: nat, j: nat)
    requires i < nAdv && j < nKw
    ensures VarIndex(nAdv, i, j) < nAdv * nKw
  {
    assert j * nAdv <= (nKw - 1) * nAdv;
  }

  /** Two pairs share a position only when they are the same pair. */
  lemma LayoutInjective(nAdv: nat, i: nat, j: nat, i': nat, j': nat)
    requires i < nAdv && i' < nAdv
    requires VarIndex(nAdv, i, j) == VarIndex(nAdv, i', j')
    ensures i == i' && j == j'
  {
    LayoutDecode(nAdv, i, j);
    LayoutDecode(nAdv, i', j');
  }

  // ---------------------------------------------------------------------
  // The LP, built as the source builds it.

  /** The bids of every advertiser for one keyword, negated. */
  function ObjectiveBlock(names: seq<string>, bids: BidTable, keyword: string): (b: seq<real>)
    ensures |b| == |names|
    ensures forall i :: 0 <= i < |names| ==> b[i] == -BidOrZero(bids, names[i], keyword)
  {
    seq(|names|, i requires 0 <= i < |names| => -BidOrZero(bids, names[i], keyword))
  }

  /** `c`: one block of negated bids per keyword, keywords in order. */
  function Objective(names: seq<string>, bids: BidTable, keywords: seq<string>): seq<real>
  {
    if |keywords| == 0 then []
    else Objective(names, bids, keywords[..|keywords| - 1]) + ObjectiveBlock(names, bids, keywords[|keywords| - 1])
  }

  /** The objective coefficient of (advertiser i, keyword j) is minus its bid. */
  lemma {:induction false} ObjectiveLayout(names: seq<string>, bids: BidTable, keywords: seq<string>, i: nat, j: nat)
    requires i < |names| && j < |keywords|
    ensures |Objective(names, bids, keywords)| == |names| * |keywords|
    ensures VarIndex(|names|, i, j) < |Objective(names, bids, keywords)|
    ensures Objective(names, bids, keywords)[VarIndex(|names|, i, j)] == -BidOrZero(bids, names[i], keywords[j])
  {
    ObjectiveLength(names, bids, keywords);
    LayoutBound(|names|, |keywords|, i, j);
    var m := |keywords| - 1;
    var front := keywords[..m];
    var prefix := Objective(names, bids, front);
    var block := ObjectiveBlock(names, bids, keywords[m]);
    assert Objective(names, bids, keywords) == prefix + block;
    ObjectiveLength(names, bids, front);
    if j < m {
      ObjectiveLayout(names, bids, front, i, j);
      assert keywords[j] == front[j];
    } else {
      assert VarIndex(|names|, i, j) == |prefix| + i;
    }
  }

  lemma {:induction false} ObjectiveLength(names: seq<string>, bids: BidTable, keywords: seq<string>)
    ensures |Objective(names, bids, keywords)| == |names| * |keywords|
  {
    if |keywords| > 0 {
      ObjectiveLength(names, bids, keywords[..|keywords| - 1]);
    }
  }

  function Zeros(n: nat): (z: seq<real>)
    ensures |z| == n && forall k :: 0 <= k < n ==> z[k] == 0.0
  {
    seq(n, _ => 0.0)
  }

  /** Budget row of advertiser i after the loop has set the first m keywords. */
  function BudgetRow(names: seq<string>, bids: BidTable, keywords: seq<string>, i: nat, m: nat): (row: seq<real>)
    requires i < |names| && m <= |keywords|
    ensures |row| == |names| * |keywords|
  {
    if m == 0 then Zeros(|names| * |keywords|)
    else
      LayoutBound(|names|, |keywords|, i, m - 1);
      BudgetRow(names, bids, keywords, i, m - 1)[VarIndex(|names|, i, m - 1) := BidOrZero(bids, names[i], keywords[m - 1])]
  }

  /** Budget row i holds advertiser i's bids and zero for every other advertiser. */
  lemma {:induction false} BudgetRowLayout(names: seq<string>, bids: BidTable, keywords: seq<string>, i: nat, m: nat, i': nat, j: nat)
    requires i < |names| && m <= |keywords| && i' < |names| && j < |keywords|
    ensures VarIndex(|names|, i', j) < |names| * |keywords|
    ensures BudgetRow(names, bids, keywords, i, m)[VarIndex(|names|, i', j)] ==
        if i' == i && j < m then BidOrZero(bids, names[i], keywords[j]) else 0.0
  {
    LayoutBound(|names|, |keywords|, i', j);
    if m > 0 {
      BudgetRowLayout(names, bids, keywords, i, m - 1, i', j);
      if VarIndex(|names|, i', j) == VarIndex(|names|, i, m - 1) {
        LayoutInjective(|names|, i', j, i, m - 1);
      }
    }
  }

  /** Demand row of keyword j after the loop has set the first m advertisers. */
  function DemandRow(nAdv: nat, nKw: nat, j: nat, m: nat): (row: seq<real>)
    requires j < nKw && m <= nAdv
    ensures |row| == nAdv * nKw
  {
    if m == 0 then Zeros(nAdv * nKw)
    else
      LayoutBound(nAdv, nKw, m - 1, j);
      DemandRow(nAdv, nKw, j, m - 1)[VarIndex(nAdv, m - 1, j) := 1.0]
  }

  /** Demand row j holds 1 at every variable of keyword j and 0 elsewhere. */
  lemma {:induction false} DemandRowLayout(nAdv: nat, nKw: nat, j: nat, i: nat, j': nat)
    requires j < nKw && i < nAdv && j' < nKw
    ensures VarIndex(nAdv, i, j') < nAdv * nKw
    ensures DemandRow(nAdv, nKw, j, nAdv)[VarIndex(nAdv, i, j')] == if j' == j then 1.0 else 0.0
  {
    DemandRowPrefix(nAdv, nKw, j, nAdv, i, j');
  }

  lemma {:induction false} DemandRowPrefix(nAdv: nat, nKw: nat, j: nat, m: nat, i: nat, j': nat)
    requires j < nKw && m <= nAdv && i < nAdv && j' < nKw
    ensures VarIndex(nAdv, i, j') < nAdv * nKw
    ensures DemandRow(nAdv, nKw, j, m)[VarIndex(nAdv, i, j')] == if j' == j && i < m then 1.0 else 0.0
  {
    LayoutBound(nAdv, nKw, i, j');
    if m > 0 {
      DemandRowPrefix(nAdv, nKw, j, m - 1, i, j');
      if VarIndex(nAdv, i, j') == VarIndex(nAdv, m - 1, j) {
        LayoutInjective(nAdv, i, j', m - 1, j);
      }
    }
  }

  /** `A_ub`: the budget rows, one per advertiser, then the demand rows, one per keyword. */
  function ConstraintMatrix(names: seq<string>, bids: BidTable, keywords: seq<string>): (a: seq<seq<real>>)
    ensures |a| == |names| + |keywords|
    ensures forall r :: 0 <= r < |a| ==> |a[r]| == |names| * |keywords|
    ensures forall i :: 0 <= i < |names| ==> a[i] == BudgetRow(names, bids, keywords, i, |keywords|)
    ensures forall j :: 0 <= j < |keywords| ==> a[|names| + j] == DemandRow(|names|, |keywords|, j, |names|)
  {
    seq(|names|, i requires 0 <= i < |names| => BudgetRow(names, bids, keywords, i, |keywords|))
      + seq(|keywords|, j requires 0 <= j < |keywords| => DemandRow(|names|, |keywords|, j, |names|))
  }

  /** `b_ub`: each advertiser's initial budget, then each keyword's predicted count. */
  function ConstraintBounds(budgets: seq<real>, keywords: seq<string>, predicted: map<string, int>): (b: seq<real>)
    requires forall k :: 0 <= k < |keywords| ==> keywords[k] in predicted
    ensures |b| == |budgets| + |keywords|
    ensures forall i :: 0 <= i < |budgets| ==> b[i] == budgets[i]
    ensures forall j :: 0 <= j < |keywords| ==> b[|budgets| + j] == predicted[keywords[j]] as real
  {
    budgets + seq(|keywords|, j requires 0 <= j < |keywords| => predicted[keywords[j]] as real)
  }

  // ---------------------------------------------------------------------
  // `sorted(range(len(x)), key=lambda i: -x[i])`: descending value, and,
  // because the sort is stable, ascending position among equal values.

  predicate Before(x: seq<real>, a: nat, b: nat)
    requires a < |x| && b < |x|
  {
    x[a] > x[b] || (x[a] == x[b] && a < b)
  }

  predicate InRange(x: seq<real>, s: seq<nat>)
  {
    forall p :: 0 <= p < |s| ==> s[p] < |x|
  }

  predicate SortedByValue(x: seq<real>, s: seq<nat>)
  {
    InRange(x, s) && forall p, q :: 0 <= p < q < |s| ==> Before(x, s[p], s[q])
  }

  function Insert(x: seq<real>, i: nat, s: seq<nat>): (r: seq<nat>)
    requires i < |x| && InRange(x, s)
    ensures |r| == |s| + 1 && InRange(x, r)
    ensures forall k :: k in r <==> k in s || k == i
  {
    if s == [] then [i]
    else if x[s[0]] < x[i] then [i] + s
    else [s[0]] + Insert(x, i, s[1..])
  }

  lemma {:induction false} InsertSorted(x: seq<real>, i: nat, s: seq<nat>)
    requires i < |x| && SortedByValue(x, s)
    requires forall p :: 0 <= p < |s| ==> s[p] < i
    ensures SortedByValue(x, Insert(x, i, s))
  {
    if s != [] && x[s[0]] >= x[i] {
      assert SortedByValue(x, s[1..]);
      InsertSorted(x, i, s[1..]);
      var r := Insert(x, i, s);
      forall q | 0 < q < |r| ensures Before(x, r[0], r[q]) {
        assert r[q] in s[1..] || r[q] == i;
      }
    }
  }

  /** Insertion of positions 0 .. n-1, in that order. */
  function SortByValue(x: seq<real>, n: nat): (r: seq<nat>)
    requires n <= |x|
    ensures |r| == n && InRange(x, r)
    ensures forall k: nat :: k in r <==> k < n
  {
    if n == 0 then []
    else
      var s := SortByValue(x, n - 1);
      assert forall k: nat :: k < n - 1 ==> k in s;
      Insert(x, n - 1, s)
  }

  /** The visiting order of the rounding. */
  function FractionalOrder(x: seq<real>): seq<nat>
  {
    SortByValue(x, |x|)
  }

  /** The visiting order lists every variable once, by non-increasing value,
      and equal values by position. */
  lemma {:induction false} FractionalOrderCorrect(x: seq<real>, n: nat)
    requires n <= |x|
    ensures SortedByValue(x, SortByValue(x, n))
  {
    if n > 0 {
      FractionalOrderCorrect(x, n - 1);
      var s := SortByValue(x, n - 1);
      assert forall p :: 0 <= p < |s| ==> s[p] in s;
      InsertSorted(x, n - 1, s);
    }
  }

  lemma SortedDistinct(x: seq<real>, s: seq<nat>)
    requires SortedByValue(x, s)
    ensures Distinct(s)
  {
    forall p, q | 0 <= p < q < |s| ensures s[p] != s[q] {
      assert Before(x, s[p], s[q]);
    }
  }
}
