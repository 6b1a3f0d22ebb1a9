/** That metrics/derived/percentile.go interpolates: at the percentiles of the samples it gives the
    samples, and between two of them it runs straight. */
module Interpolation {
  import opened Prelude
  import opened Percentile

  /** The percentile at which sample `k` of `n` stands. */
  function Position(k: int, n: nat): real
    requires n >= 2
  {
    100.0 * k as real / (n - 1) as real
  }

  lemma Cancels(x: real, d: real)
    requires d > 0.0
    ensures 100.0 * x / d / 100.0 * d == x
  {
    var q := 100.0 * x / d;
    assert q * d == 100.0 * x;
    assert q / 100.0 * d == q * d / 100.0;
  }

  lemma RankOfPosition(k: int, n: nat)
    requires n >= 2
    ensures Rank(n, Position(k, n)) == k as real
  {
    Cancels(k as real, (n - 1) as real);
  }

  lemma TruncateAt(x: real, k: nat)
    requires k as real <= x < (k + 1) as real
    ensures Truncate(x) == k
  {
  }

  /** Sample `k` is the value at its own percentile. */
  lemma SamplesAreHit(s: seq<real>, k: nat)
    requires Ascending(s) && k < |s| && |s| >= 2
    ensures At(s, Position(k, |s|)) == Some(s[k])
  {
    RankOfPosition(k, |s|);
    TruncateAt(k as real, k);
    if k + 1 < |s| {
      assert s[k] * (1.0 - 0.0) + s[k + 1] * 0.0 == s[k];
    }
  }

  /** One sample is the value at every percentile, and no sample gives zero. */
  lemma ShortLists(x: real, p: real)
    ensures At([], p) == Some(0.0) && At([x], p) == Some(x)
  {
  }

  /** Percentile `p` is in the cell from sample `k` to the next. */
  predicate InCell(p: real, k: nat, n: nat)
    requires n >= 2
  {
    Position(k, n) <= p <= Position(k + 1, n)
  }

  lemma RankInCell(p: real, k: nat, n: nat)
    requires n >= 2 && InCell(p, k, n)
    ensures k as real <= Rank(n, p) <= (k + 1) as real
  {
    RankOfPosition(k, n);
    RankOfPosition(k + 1, n);
    RankScales(n, Position(k, n), p);
    RankScales(n, p, Position(k + 1, n));
  }

  /** How far `p` has come from sample `k` to the next: the part of the way, 0 to 1. */
  function Part(p: real, k: nat, n: nat): real
    requires n >= 2
  {
    (p - Position(k, n)) / (Position(k + 1, n) - Position(k, n))
  }

  lemma PartIsRank(p: real, k: nat, n: nat)
    requires n >= 2
    ensures Position(k + 1, n) - Position(k, n) > 0.0
    ensures Part(p, k, n) == Rank(n, p) - k as real
  {
    var d := (n - 1) as real;
    var unit := 100.0 / d;
    Steps(k as real, d);
    assert Position(k + 1, n) - Position(k, n) == unit;
    assert unit > 0.0;
    PartOfUnit(p, k as real, d);
  }

  lemma Steps(k: real, d: real)
    requires d > 0.0
    ensures 100.0 * (k + 1.0) / d - 100.0 * k / d == 100.0 / d
    ensures 100.0 / d > 0.0
  {
    assert 100.0 * (k + 1.0) / d == (100.0 * k + 100.0) / d;
    DivideSum(100.0 * k, 100.0, d);
  }

  lemma DivideSum(a: real, b: real, d: real)
    requires d > 0.0
    ensures (a + b) / d == a / d + b / d
  {
  }

  lemma PartOfUnit(p: real, k: real, d: real)
    requires d > 0.0
    ensures (p - 100.0 * k / d) / (100.0 / d) == p / 100.0 * d - k
  {
    var unit := 100.0 / d;
    assert unit * d == 100.0;
    var x := p / 100.0 * d - k;
    assert x * unit == p / 100.0 * (d * unit) - k * unit;
    assert k * unit == 100.0 * k / d;
    assert x * unit == p - 100.0 * k / d;
    assert unit != 0.0;
  }

  /** Within a cell, its ends included, the value goes straight from one sample to the next. */
  lemma Interpolates(s: seq<real>, p: real, k: nat)
    requires Ascending(s) && k + 1 < |s| && InCell(p, k, |s|)
    ensures Position(k + 1, |s|) - Position(k, |s|) > 0.0
    ensures At(s, p).Some?
    ensures At(s, p).value == s[k] + (s[k + 1] - s[k]) * Part(p, k, |s|)
  {
    var n, x := |s|, Rank(|s|, p);
    PartIsRank(p, k, n);
    RankInCell(p, k, n);
    var w := x - k as real;
    if x == (k + 1) as real {
      TruncateAt(x, k + 1);
      assert w == 1.0;
      if k + 2 < n {
        assert s[k + 1] * (1.0 - 0.0) + s[k + 2] * 0.0 == s[k + 1];
      }
    } else {
      TruncateAt(x, k);
      assert s[k] * (1.0 - w) + s[k + 1] * w == s[k] + (s[k + 1] - s[k]) * w;
    }
  }

  /** Three points of the line through height `a` with slope `b`. */
  predicate OnLine(x: real, y: real, u: real, a: real, b: real, from: real, span: real) {
    y == a + b * u && x - from == u * span
  }

  lemma ThreeOnLine(p: real, fp: real, u: real, q: real, fq: real, v: real, r: real, fr: real, w: real,
                    a: real, b: real, from: real, span: real)
    requires OnLine(p, fp, u, a, b, from, span) && OnLine(q, fq, v, a, b, from, span)
    requires OnLine(r, fr, w, a, b, from, span)
    ensures (fq - fp) * (r - p) == (fr - fp) * (q - p)
  {
    assert r - p == (w - u) * span && q - p == (v - u) * span;
    assert fq - fp == b * (v - u);
    assert fr - fp == b * (w - u);
    assert (b * (v - u)) * ((w - u) * span) == (b * (w - u)) * ((v - u) * span);
  }

  lemma ValueOnLine(s: seq<real>, p: real, k: nat) returns (u: real)
    requires Ascending(s) && k + 1 < |s| && InCell(p, k, |s|)
    ensures At(s, p).Some?
    ensures OnLine(p, At(s, p).value, u, s[k], s[k + 1] - s[k],
                   Position(k, |s|), Position(k + 1, |s|) - Position(k, |s|))
  {
    Interpolates(s, p, k);
    PartIsRank(p, k, |s|);
    u := Part(p, k, |s|);
  }

  ghost predicate OnSomeLine(x: real, y: real, a: real, b: real, from: real, span: real) {
    exists u :: OnLine(x, y, u, a, b, from, span)
  }

  lemma ThreeOnSomeLine(p: real, fp: real, q: real, fq: real, r: real, fr: real,
                        a: real, b: real, from: real, span: real)
    requires OnSomeLine(p, fp, a, b, from, span) && OnSomeLine(q, fq, a, b, from, span)
    requires OnSomeLine(r, fr, a, b, from, span)
    ensures Aligned(p, fp, q, fq, r, fr)
  {
    var u :| OnLine(p, fp, u, a, b, from, span);
    var v :| OnLine(q, fq, v, a, b, from, span);
    var w :| OnLine(r, fr, w, a, b, from, span);
    ThreeOnLine(p, fp, u, q, fq, v, r, fr, w, a, b, from, span);
  }

  /** The three points are on one line. */
  ghost predicate Aligned(p: real, fp: real, q: real, fq: real, r: real, fr: real) {
    (fq - fp) * (r - p) == (fr - fp) * (q - p)
  }

  lemma ValueAligned(s: seq<real>, p: real, k: nat)
    requires Ascending(s) && k + 1 < |s| && InCell(p, k, |s|)
    ensures At(s, p).Some?
    ensures OnSomeLine(p, At(s, p).value, s[k], s[k + 1] - s[k],
                       Position(k, |s|), Position(k + 1, |s|) - Position(k, |s|))
  {
    var u := ValueOnLine(s, p, k);
  }

  /** Said without parts: any three values within one cell are on one line. */
  lemma CellsAreStraight(s: seq<real>, k: nat, p: real, q: real, r: real)
    requires Ascending(s) && k + 1 < |s| && InCell(p, k, |s|) && InCell(q, k, |s|) && InCell(r, k, |s|)
    ensures At(s, p).Some? && At(s, q).Some? && At(s, r).Some?
    ensures Aligned(p, At(s, p).value, q, At(s, q).value, r, At(s, r).value)
  {
    ValueAligned(s, p, k);
    ValueAligned(s, q, k);
    ValueAligned(s, r, k);
    ThreeOnSomeLine(p, At(s, p).value, q, At(s, q).value, r, At(s, r).value,
                    s[k], s[k + 1] - s[k], Position(k, |s|), Position(k + 1, |s|) - Position(k, |s|));
  }
}
