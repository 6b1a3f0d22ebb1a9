/** What each derived metric of metrics/derived emits for a window of samples, said of the
    samples themselves. */
module WindowValues {
  import opened Prelude
  import opened Ordering
  import opened Percentile
  import opened DerivedMetrics

  /** A maximum: one of the samples, and none is greater. */
  ghost predicate IsGreatest(m: real, w: seq<real>) {
    m in w && forall i :: 0 <= i < |w| ==> w[i] <= m
  }

  ghost predicate IsLeast(m: real, w: seq<real>) {
    m in w && forall i :: 0 <= i < |w| ==> m <= w[i]
  }

  lemma ExtremesAre(w: seq<real>)
    requires w != []
    ensures IsGreatest(Largest(w), w) && IsLeast(Smallest(w), w)
  {
    Extremes(w);
    forall i | 0 <= i < |w| ensures Smallest(w) <= w[i] <= Largest(w) {
      assert w[i] in w;
    }
  }

  lemma MaximumEmitted(w: seq<real>) returns (m: real)
    requires w != []
    ensures Emit(HandleAll(Max(None), w)) == Some([m]) && IsGreatest(m, w)
  {
    StreamRefinesWindow(Max(None), w);
    ExtremesAre(w);
    m := Largest(w);
  }

  lemma MinimumEmitted(w: seq<real>) returns (m: real)
    requires w != []
    ensures Emit(HandleAll(Min(None), w)) == Some([m]) && IsLeast(m, w)
  {
    StreamRefinesWindow(Min(None), w);
    ExtremesAre(w);
    m := Smallest(w);
  }

  /** Sum is what addition over concatenation makes it. */
  lemma {:induction false} SumAddsUp(a: seq<real>, b: seq<real>)
    ensures Sum([]) == 0.0
    ensures forall x :: Sum([x]) == x
    ensures Sum(a + b) == Sum(a) + Sum(b)
  {
    forall x ensures Sum([x]) == x {
      assert [x][..0] == [];
    }
    if b == [] {
      assert a + b == a;
    } else {
      SumAddsUp(a, b[..|b| - 1]);
      assert (a + b)[..|a + b| - 1] == a + b[..|b| - 1];
    }
  }

  lemma Quotient(x: real, n: real)
    requires n > 0.0
    ensures x / n * n == x
  {
  }

  lemma MeanEmitted(w: seq<real>) returns (m: real)
    requires w != []
    ensures Emit(HandleAll(Mean(None, 0), w)) == Some([m]) && m * |w| as real == Sum(w)
  {
    StreamRefinesWindow(Mean(None, 0), w);
    m := Average(w);
    Quotient(Sum(w), |w| as real);
  }

  lemma LatestEmitted(w: seq<real>)
    requires w != []
    ensures Emit(HandleAll(Latest(None), w)) == Some([w[|w| - 1]])
  {
    StreamRefinesWindow(Latest(None), w);
  }

  lemma {:induction false} AllAtMeans(sorted: seq<real>, ps: seq<real>)
    ensures AllAt(sorted, ps).Some? <==> forall i :: 0 <= i < |ps| ==> At(sorted, ps[i]).Some?
    ensures AllAt(sorted, ps).Some? ==>
              && |AllAt(sorted, ps).value| == |ps|
              && forall i :: 0 <= i < |ps| ==> Some(AllAt(sorted, ps).value[i]) == At(sorted, ps[i])
  {
    if ps != [] {
      var last := |ps| - 1;
      AllAtMeans(sorted, ps[..last]);
      assert forall i :: 0 <= i < last ==> ps[..last][i] == ps[i];
    }
  }

  /** One value per percentile, in the order they were asked for; a panic if one of them panics. */
  lemma PercentilesEmitted(ps: seq<real>, w: seq<real>)
    requires w != []
    ensures var emitted, sorted := Emit(HandleAll(Percentiles(ps, []), w)), Sort(w, RealLe);
            && (emitted.Some? <==> forall i :: 0 <= i < |ps| ==> At(sorted, ps[i]).Some?)
            && (emitted.Some? ==>
                  && |emitted.value| == |ps|
                  && forall i :: 0 <= i < |ps| ==> Some(emitted.value[i]) == At(sorted, ps[i]))
  {
    StreamRefinesWindow(Percentiles(ps, []), w);
    AllAtMeans(Sort(w, RealLe), ps);
  }

  /** An empty window emits nothing, whatever the kind. */
  lemma NothingEmitted(kind: Summary)
    requires IsFresh(kind)
    ensures Emit(kind) == Some([])
  {
  }
}
