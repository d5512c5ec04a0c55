/** Shared vocabulary of the allocation core: optional values, the bid table,
    the keyword names "k1" .. "kn" and list lookup by value. */
module Market {

  datatype Option<+T> = None | Some(value: T)

  /** Advertiser name -> keyword -> bid. */
  type BidTable = map<string, map<string, real>>

  /** `bids.get(name, {}).get(keyword, 0)`: a missing entry bids 0. */
  function BidOrZero(bids: BidTable, name: string, keyword: string): real
  {
    if name in bids && keyword in bids[name] then bids[name][keyword] else 0.0
  }

  /** `d.get(key, 0)` on a dictionary of counts. */
  function CountOrZero(d: map<string, int>, key: string): int
  {
    if key in d then d[key] else 0
  }

  /** Every bid in the table is non-negative (the bid table's domain). */
  predicate NonNegativeBids(bids: BidTable)
  {
    forall name, keyword :: name in bids && keyword in bids[name] ==> bids[name][keyword] >= 0.0
  }

  lemma BidOrZeroNonNegative(bids: BidTable, name: string, keyword: string)
    requires NonNegativeBids(bids)
    ensures BidOrZero(bids, name, keyword) >= 0.0
  {
  }

  // ---------------------------------------------------------------------
  // Keyword names: the keyword with index j is f"k{j+1}".

  function DigitChar(d: nat): (c: char)
    requires d < 10
    ensures '0' <= c <= '9' && c as int - '0' as int == d
  {
    ('0' as int + d) as char
  }

  /** Decimal rendering of a natural number, as Python's `str` writes it. */
  function Decimal(n: nat): (s: string)
    ensures 1 <= |s|
    ensures n < 10 <==> |s| == 1
    ensures s[|s| - 1] == DigitChar(n % 10)
  {
    if n < 10 then [DigitChar(n)] else Decimal(n / 10) + [DigitChar(n % 10)]
  }

  lemma {:induction false} DecimalInjective(a: nat, b: nat)
    requires Decimal(a) == Decimal(b)
    ensures a == b
  {
    if a >= 10 && b >= 10 {
      var sa, sb := Decimal(a), Decimal(b);
      assert sa[..|sa| - 1] == Decimal(a / 10);
      assert sb[..|sb| - 1] == Decimal(b / 10);
      DecimalInjective(a / 10, b / 10);
      assert DigitChar(a % 10) == DigitChar(b % 10);
    } else {
      assert DigitChar(a % 10) == DigitChar(b % 10);
    }
  }

  function Keyword(j: nat): string
  {
    "k" + Decimal(j + 1)
  }

  /** `[f"k{i+1}" for i in range(n)]` */
  function Keywords(n: nat): (ks: seq<string>)
    ensures |ks| == n
    ensures forall j :: 0 <= j < n ==> ks[j] == Keyword(j)
  {
    seq(n, (j: nat) => Keyword(j))
  }

  predicate Distinct<T(==)>(s: seq<T>)
  {
    forall p, q :: 0 <= p < q < |s| ==> s[p] != s[q]
  }

  lemma KeywordInjective(a: nat, b: nat)
    requires Keyword(a) == Keyword(b)
    ensures a == b
  {
    assert Keyword(a)[1..] == Decimal(a + 1);
    assert Keyword(b)[1..] == Decimal(b + 1);
    DecimalInjective(a + 1, b + 1);
  }

  /** Different keyword indices name different keywords, so a dictionary keyed
      by keyword name holds one entry per index. */
  lemma KeywordsDistinct(n: nat)
    ensures Distinct(Keywords(n))
  {
    forall p, q | 0 <= p < q < n ensures Keywords(n)[p] != Keywords(n)[q] {
      if Keyword(p) == Keyword(q) {
        KeywordInjective(p, q);
      }
    }
  }

  /** `s.index(x)`: the first position holding `x`. */
  function IndexOf<T(==)>(s: seq<T>, x: T): (r: nat)
    requires x in s
    ensures r < |s| && s[r] == x
    ensures forall p :: 0 <= p < r ==> s[p] != x
  {
    if s[0] == x then 0 else 1 + IndexOf(s[1..], x)
  }

  function Min3(a: int, b: int, c: int): (m: int)
    ensures m <= a && m <= b && m <= c
    ensures m == a || m == b || m == c
  {
    if a <= b && a <= c then a else if b <= c then b else c
  }
}
