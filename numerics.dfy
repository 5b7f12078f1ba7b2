/** Exact-arithmetic helpers shared by the valuation, DCF and simulation models:
    integer powers, sums, extremes, the arithmetic mean and the "upper median"
    taken from an ascending sort. */
module Numerics {

  /** `x ** n` for a natural exponent. */
  function Pow(x: real, n: nat): real
  {
    if n == 0 then 1.0 else x * Pow(x, n - 1)
  }

  lemma {:induction false} PowPositive(x: real, n: nat)
    requires x > 0.0
    ensures Pow(x, n) > 0.0
  {
    if n > 0 {
      PowPositive(x, n - 1);
    }
  }

  lemma {:induction false} PowNonzero(x: real, n: nat)
    requires x != 0.0
    ensures Pow(x, n) != 0.0
  {
    if n > 0 {
      PowNonzero(x, n - 1);
    }
  }

  /** On positive bases a positive power is strictly increasing. */
  lemma {:induction false} PowStrictlyIncreasing(x: real, y: real, n: nat)
    requires 0.0 < x < y && n >= 1
    ensures Pow(x, n) < Pow(y, n)
  {
    assert Pow(x, n) == x * Pow(x, n - 1) && Pow(y, n) == y * Pow(y, n - 1);
    if n > 1 {
      PowStrictlyIncreasing(x, y, n - 1);
      PowPositive(x, n - 1);
      ScaleStrict(Pow(x, n - 1), x, y);
      ScaleStrict(y, Pow(x, n - 1), Pow(y, n - 1));
    }
  }

  lemma ScaleStrict(c: real, a: real, b: real)
    requires c > 0.0 && a < b
    ensures a * c < b * c && c * a < c * b
  {
    assert b * c - a * c == (b - a) * c;
  }

  lemma ScaleWeak(c: real, a: real, b: real)
    requires c >= 0.0 && a <= b
    ensures a * c <= b * c && c * a <= c * b
  {
    assert b * c - a * c == (b - a) * c;
  }

  /** Dividing a bound `n * lo <= x <= n * hi` by a positive `n`. */
  lemma DivideBounds(lo: real, x: real, hi: real, n: real)
    requires n > 0.0 && ScaledBelow(n, lo, x) && ScaledAbove(n, hi, x)
    ensures lo <= x / n <= hi
  {
    var q := x / n;
    assert q * n == x;
    if q < lo {
      ScaleStrict(n, q, lo);
    }
    if q > hi {
      ScaleStrict(n, hi, q);
    }
  }

  function Max(a: real, b: real): real { if a >= b then a else b }

  function Min(a: real, b: real): real { if a <= b then a else b }

  /** `n * c <= x`, kept behind a name so that the solver treats the product as one term. */
  predicate ScaledBelow(n: real, c: real, x: real) { n * c <= x }

  /** `x <= n * c`, kept behind a name for the same reason. */
  predicate ScaledAbove(n: real, c: real, x: real) { x <= n * c }

  lemma ExtendBounds(n: real, lo: real, lo': real, x: real, hi': real, hi: real, y: real)
    requires n >= 0.0 && lo <= lo' && hi' <= hi && lo <= y <= hi
    requires ScaledBelow(n, lo', x) && ScaledAbove(n, hi', x)
    ensures ScaledBelow(n + 1.0, lo, y + x) && ScaledAbove(n + 1.0, hi, y + x)
  {
    assert n * lo' <= x <= n * hi';
    ScaleWeak(n, lo, lo');
    ScaleWeak(n, hi', hi);
    assert (n + 1.0) * lo == n * lo + lo;
    assert (n + 1.0) * hi == n * hi + hi;
  }

  /** Python's `sum` of a list of numbers. */
  function Sum(s: seq<real>): real
  {
    if s == [] then 0.0 else s[0] + Sum(s[1..])
  }

  /** Python's `min` of a non-empty list. */
  function MinOf(s: seq<real>): (m: real)
    requires |s| > 0
    ensures m in s
    ensures forall i :: 0 <= i < |s| ==> m <= s[i]
  {
    if |s| == 1 then s[0]
    else
      var rest := MinOf(s[1..]);
      if s[0] <= rest then s[0] else rest
  }

  /** Python's `max` of a non-empty list. */
  function MaxOf(s: seq<real>): (m: real)
    requires |s| > 0
    ensures m in s
    ensures forall i :: 0 <= i < |s| ==> s[i] <= m
  {
    if |s| == 1 then s[0]
    else
      var rest := MaxOf(s[1..]);
      if s[0] >= rest then s[0] else rest
  }

  lemma {:induction false} SumBetweenExtremes(s: seq<real>)
    requires |s| > 0
    ensures ScaledBelow(|s| as real, MinOf(s), Sum(s)) && ScaledAbove(|s| as real, MaxOf(s), Sum(s))
  {
    if |s| == 1 {
      assert s[1..] == [];
      assert Sum(s) == s[0];
      assert MinOf(s) == s[0] && MaxOf(s) == s[0];
    } else {
      var t := s[1..];
      SumBetweenExtremes(t);
      var lo, hi := MinOf(s), MaxOf(s);
      assert lo <= MinOf(t) && MaxOf(t) <= hi;
      ExtendBounds(|t| as real, lo, MinOf(t), Sum(t), MaxOf(t), hi, s[0]);
      assert Sum(s) == s[0] + Sum(t);
      assert (|s| as real) == (|t| as real) + 1.0;
    }
  }

  /** `sum(values) / len(values)`: the arithmetic mean, never outside the range of the values. */
  function Mean(s: seq<real>): (r: real)
    requires |s| > 0
    ensures MinOf(s) <= r <= MaxOf(s)
  {
    SumBetweenExtremes(s);
    DivideBounds(MinOf(s), Sum(s), MaxOf(s), |s| as real);
    Sum(s) / (|s| as real)
  }

  predicate SortedAsc(s: seq<real>)
  {
    forall i, j :: 0 <= i < j < |s| ==> s[i] <= s[j]
  }

  /** Inserts `x` into an ascending sequence before the first element not below it. */
  function InsertAsc(x: real, t: seq<real>): (r: seq<real>)
    requires SortedAsc(t)
    ensures |r| == |t| + 1
    ensures SortedAsc(r)
    ensures multiset(r) == multiset(t) + multiset{x}
    ensures r[0] == x || (|t| > 0 && r[0] == t[0])
  {
    if t == [] || x <= t[0] then [x] + t
    else
      assert t == [t[0]] + t[1..];
      [t[0]] + InsertAsc(x, t[1..])
  }

  /** Python's `sorted` on numbers: an ascending permutation of the input. */
  function SortAsc(s: seq<real>): (r: seq<real>)
    ensures |r| == |s|
    ensures SortedAsc(r)
    ensures multiset(r) == multiset(s)
  {
    if s == [] then []
    else
      assert s == [s[0]] + s[1..];
      InsertAsc(s[0], SortAsc(s[1..]))
  }

  lemma SortedTail(a: seq<real>)
    requires |a| > 0 && SortedAsc(a)
    ensures SortedAsc(a[1..])
  {
  }

  /** Sorting values that are already ascending leaves them as they are. */
  lemma {:induction false} SortFixesSorted(s: seq<real>)
    requires SortedAsc(s)
    ensures SortAsc(s) == s
  {
    if s != [] {
      SortedTail(s);
      SortFixesSorted(s[1..]);
      assert SortAsc(s) == InsertAsc(s[0], s[1..]);
      assert s[1..] == [] || s[0] <= s[1..][0];
      assert s == [s[0]] + s[1..];
    }
  }

  /** `sorted(values)[len(values) // 2]`: for an even count this is the upper of the
      two middle elements, not their average. */
  function Median(s: seq<real>): (r: real)
    requires |s| > 0
    ensures r in s
    ensures MinOf(s) <= r <= MaxOf(s)
  {
    var sorted := SortAsc(s);
    assert sorted[|s| / 2] in multiset(sorted);
    sorted[|s| / 2]
  }

  /** On values already in ascending order the median is simply the element at `len // 2`. */
  lemma MedianOfSorted(s: seq<real>)
    requires |s| > 0 && SortedAsc(s)
    ensures Median(s) == s[|s| / 2]
  {
    SortFixesSorted(s);
  }
}
