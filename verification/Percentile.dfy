/** The interpolation of metrics/derived/percentile.go, with float64 read as real. */
module Percentile {
  import opened Prelude
  import opened Ordering

  predicate RealLe(a: real, b: real) { a <= b }

  lemma RealLeIsTotalOrder()
    ensures TotalOrder(RealLe)
  {
  }

  predicate Ascending(s: seq<real>) {
    forall i, j :: 0 <= i < j < |s| ==> s[i] <= s[j]
  }

  /** Go's `int(x)`: truncation toward zero. */
  function Truncate(x: real): int {
    if x >= 0.0 then x.Floor else -((-x).Floor)
  }

  function Rank(n: nat, percentile: real): real {
    percentile / 100.0 * (n - 1) as real
  }

  function Between(lo: real, hi: real, weight: real): real {
    lo * (1.0 - weight) + hi * weight
  }

  /** `calculatePercentile`; None is the run-time panic of a negative index. */
  function At(sorted: seq<real>, percentile: real): Option<real> {
    if |sorted| == 0 then Some(0.0)
    else if |sorted| == 1 then Some(sorted[0])
    else
      var index := Rank(|sorted|, percentile);
      var lower := Truncate(index);
      var upper := lower + 1;
      if upper >= |sorted| then Some(sorted[|sorted| - 1])
      else if lower < 0 then None
      else Some(Between(sorted[lower], sorted[upper], index - lower as real))
  }

  lemma RankScales(n: nat, p: real, q: real)
    requires n >= 1 && p <= q
    ensures Rank(n, p) <= Rank(n, q)
    ensures Rank(n, 0.0) == 0.0 && Rank(n, 100.0) == (n - 1) as real
    ensures n >= 2 ==> (Rank(n, p) >= 0.0 <==> p >= 0.0)
  {
    var m := (n - 1) as real;
    Scales(p / 100.0, q / 100.0, m);
    if n >= 2 {
      if p >= 0.0 {
        Scales(0.0, p / 100.0, m);
      } else if Rank(n, p) >= 0.0 {
        ScalesStrictly(p / 100.0, 0.0, m);
      }
    }
  }

  lemma Scales(a: real, b: real, m: real)
    requires a <= b && m >= 0.0
    ensures a * m <= b * m
  {
    ProductSign(b - a, m);
    assert b * m - a * m == (b - a) * m;
  }

  lemma ScalesStrictly(a: real, b: real, m: real)
    requires a < b && m > 0.0
    ensures a * m < b * m
  {
    ProductSign(b - a, m);
    assert b * m - a * m == (b - a) * m;
  }

  lemma ProductSign(a: real, b: real)
    ensures a >= 0.0 && b >= 0.0 ==> a * b >= 0.0
    ensures a > 0.0 && b > 0.0 ==> a * b > 0.0
  {
  }

  lemma TruncateMonotone(x: real, y: real)
    requires x <= y
    ensures Truncate(x) <= Truncate(y)
    ensures x >= 0.0 ==> Truncate(x) as real <= x < Truncate(x) as real + 1.0
    ensures Truncate(x) < 0 <==> x <= -1.0
  {
  }

  lemma BetweenMonotone(lo: real, hi: real, v: real, w: real)
    requires lo <= hi && v <= w
    ensures Between(lo, hi, v) <= Between(lo, hi, w)
  {
    ProductSign(w - v, hi - lo);
    assert Between(lo, hi, w) - Between(lo, hi, v) == (w - v) * (hi - lo);
  }

  lemma BetweenBounds(lo: real, hi: real, w: real)
    requires lo <= hi
    ensures 0.0 <= w ==> lo <= Between(lo, hi, w)
    ensures w <= 1.0 ==> Between(lo, hi, w) <= hi
    ensures w < 0.0 && lo < hi ==> Between(lo, hi, w) < lo
  {
    assert Between(lo, hi, 0.0) == lo && Between(lo, hi, 1.0) == hi;
    if 0.0 <= w {
      BetweenMonotone(lo, hi, 0.0, w);
    } else {
      var v, gap := -w, hi - lo;
      var drop := v * gap;
      ProductSign(v, gap);
      assert Between(lo, hi, w) == lo - drop;
    }
    if w <= 1.0 {
      BetweenMonotone(lo, hi, w, 1.0);
    }
  }

  /** The index is out of range exactly for percentiles one sample spacing below zero. */
  lemma PanicsExactlyWhen(s: seq<real>, p: real)
    ensures At(s, p).None? <==> |s| >= 2 && Rank(|s|, p) <= -1.0
  {
    if |s| >= 2 {
      TruncateMonotone(Rank(|s|, p), Rank(|s|, p));
    }
  }

  /** From 0 upward the value lies between two neighbouring samples. */
  lemma LiesBetweenNeighbours(s: seq<real>, p: real)
    requires Ascending(s) && |s| >= 2 && p >= 0.0
    ensures At(s, p).Some?
    ensures var lower := Truncate(Rank(|s|, p));
            if lower + 1 < |s| then 0 <= lower && s[lower] <= At(s, p).value <= s[lower + 1]
            else At(s, p).value == s[|s| - 1]
  {
    RankScales(|s|, p, p);
    var index := Rank(|s|, p);
    var lower := Truncate(index);
    TruncateMonotone(index, index);
    if lower + 1 < |s| {
      BetweenBounds(s[lower], s[lower + 1], index - lower as real);
    }
  }

  lemma WithinRange(s: seq<real>, p: real)
    requires Ascending(s) && s != [] && p >= 0.0
    ensures At(s, p).Some? && s[0] <= At(s, p).value <= s[|s| - 1]
  {
    if |s| >= 2 {
      LiesBetweenNeighbours(s, p);
    }
  }

  lemma Endpoints(s: seq<real>, p: real)
    requires Ascending(s) && s != []
    ensures At(s, 0.0) == Some(s[0])
    ensures p >= 100.0 ==> At(s, p) == Some(s[|s| - 1])
  {
    if |s| >= 2 {
      RankScales(|s|, 0.0, 0.0);
      if p >= 100.0 {
        RankScales(|s|, 100.0, p);
        TruncateMonotone((|s| - 1) as real, Rank(|s|, p));
      }
    }
  }

  /** The value as an offset into its cell, the gap between two neighbouring samples. */
  lemma InCell(s: seq<real>, p: real)
    requires Ascending(s) && |s| >= 2 && Truncate(Rank(|s|, p)) + 1 < |s| && At(s, p).Some?
    ensures var x := Rank(|s|, p); var i := Truncate(x);
            && 0 <= i
            && At(s, p).value == Between(s[i], s[i + 1], x - i as real)
            && At(s, p).value <= s[i + 1]
            && (i >= 1 ==> s[i] <= At(s, p).value)
  {
    var x := Rank(|s|, p);
    TruncateMonotone(x, x);
    var i := Truncate(x);
    BetweenBounds(s[i], s[i + 1], x - i as real);
  }

  /** Monotone on every percentile that does not panic, negative ones included. */
  lemma Monotone(s: seq<real>, p: real, q: real)
    requires Ascending(s) && p <= q
    ensures At(s, p).Some? ==> At(s, q).Some? && At(s, p).value <= At(s, q).value
  {
    if |s| >= 2 && At(s, p).Some? {
      var x, y := Rank(|s|, p), Rank(|s|, q);
      RankScales(|s|, p, q);
      TruncateMonotone(x, y);
      var i, j := Truncate(x), Truncate(y);
      if i + 1 < |s| {
        InCell(s, p);
        if j + 1 < |s| {
          InCell(s, q);
          if i == j {
            BetweenMonotone(s[i], s[i + 1], x - i as real, y - j as real);
          } else {
            assert i + 1 == j || s[i + 1] <= s[j];
          }
        }
      }
    }
  }

  /** A negative percentile that does not panic extrapolates below the minimum
      unless the two smallest samples are equal. */
  lemma BelowMinimumExactlyWhen(s: seq<real>, p: real)
    requires Ascending(s) && |s| >= 2 && At(s, p).Some?
    ensures At(s, p).value >= s[0] <==> p >= 0.0 || s[0] == s[1]
  {
    RankScales(|s|, p, p);
    TruncateMonotone(Rank(|s|, p), Rank(|s|, p));
    if p >= 0.0 {
      WithinRange(s, p);
    } else {
      assert Truncate(Rank(|s|, p)) == 0;
      BetweenBounds(s[0], s[1], Rank(|s|, p));
    }
  }
}
