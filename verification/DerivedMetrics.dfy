/** The derived metrics of metrics/derived: each keeps a summary of the samples
    seen since its last reset and emits values computed from it. */
module DerivedMetrics {
  import opened Prelude
  import opened Ordering
  import opened Percentile

  /** What each kind keeps between messages. */
  datatype Summary =
    | Latest(last: Option<real>)
    | Max(top: Option<real>)
    | Min(low: Option<real>)
    | Mean(sum: Option<real>, count: nat)
    | Percentiles(percentiles: seq<real>, values: seq<real>)

  function Handle(s: Summary, v: real): Summary {
    match s
    case Latest(_) => Latest(Some(v))
    case Max(top) => if top == None || v > top.value then Max(Some(v)) else s
    case Min(low) => if low == None || v < low.value then Min(Some(v)) else s
    case Mean(sum, count) => Mean(Some(if sum == None then v else sum.value + v), count + 1)
    case Percentiles(ps, values) => Percentiles(ps, values + [v])
  }

  /** The emitted values; None is the panic of an out-of-range percentile. */
  function Emit(s: Summary): Option<seq<real>> {
    match s
    case Latest(last) => Some(if last == None then [] else [last.value])
    case Max(top) => Some(if top == None then [] else [top.value])
    case Min(low) => Some(if low == None then [] else [low.value])
    case Mean(sum, count) => Some(if sum == None || count == 0 then [] else [sum.value / count as real])
    case Percentiles(ps, values) => if values == [] then Some([]) else AllAt(Sort(values, RealLe), ps)
  }

  function Reset(s: Summary): Summary {
    match s
    case Latest(_) => Latest(None)
    case Max(_) => Max(None)
    case Min(_) => Min(None)
    case Mean(_, _) => Mean(None, 0)
    case Percentiles(ps, _) => Percentiles(ps, [])
  }

  predicate IsFresh(s: Summary) {
    s == Reset(s)
  }

  function AllAt(sorted: seq<real>, percentiles: seq<real>): Option<seq<real>> {
    if percentiles == [] then Some([])
    else
      var last := |percentiles| - 1;
      match (AllAt(sorted, percentiles[..last]), At(sorted, percentiles[last]))
      case (Some(before), Some(v)) => Some(before + [v])
      case _ => None
  }

  // ---- The reference: a function of the window of samples ----

  function Sum(w: seq<real>): real {
    if w == [] then 0.0 else Sum(w[..|w| - 1]) + w[|w| - 1]
  }

  function Smallest(w: seq<real>): real
    requires w != []
  {
    SortedLength(w);
    Sort(w, RealLe)[0]
  }

  function Largest(w: seq<real>): real
    requires w != []
  {
    SortedLength(w);
    Sort(w, RealLe)[|w| - 1]
  }

  function Average(w: seq<real>): real
    requires w != []
  {
    Sum(w) / |w| as real
  }

  /** What a metric of this kind should emit for the samples `w`. */
  function Expected(kind: Summary, w: seq<real>): Option<seq<real>> {
    if w == [] then Some([])
    else match kind
      case Latest(_) => Some([w[|w| - 1]])
      case Max(_) => Some([Largest(w)])
      case Min(_) => Some([Smallest(w)])
      case Mean(_, _) => Some([Average(w)])
      case Percentiles(ps, _) => AllAt(Sort(w, RealLe), ps)
  }

  lemma SortedLength(w: seq<real>)
    ensures |Sort(w, RealLe)| == |w| && multiset(Sort(w, RealLe)) == multiset(w)
    ensures Ascending(Sort(w, RealLe))
  {
    RealLeIsTotalOrder();
    SortSorts(w, RealLe);
  }

  /** Smallest and Largest are what their names say. */
  lemma Extremes(w: seq<real>)
    requires w != []
    ensures Smallest(w) in w && Largest(w) in w
    ensures forall x :: x in w ==> Smallest(w) <= x <= Largest(w)
  {
    SortedLength(w);
    var s := Sort(w, RealLe);
    assert s[0] in multiset(s) && s[|w| - 1] in multiset(s);
    forall x | x in w ensures Smallest(w) <= x <= Largest(w) {
      assert x in multiset(s);
      var i :| 0 <= i < |s| && s[i] == x;
    }
  }

  function HandleAll(s: Summary, w: seq<real>): Summary {
    if w == [] then s else Handle(HandleAll(s, w[..|w| - 1]), w[|w| - 1])
  }

  /** The streaming summary after the samples `w`, said without recursion over messages. */
  ghost predicate Summarises(s: Summary, kind: Summary, w: seq<real>) {
    match s
    case Latest(last) => kind.Latest? && last == if w == [] then None else Some(w[|w| - 1])
    case Max(top) => kind.Max? && top == if w == [] then None else Some(Largest(w))
    case Min(low) => kind.Min? && low == if w == [] then None else Some(Smallest(w))
    case Mean(sum, count) => kind.Mean? && count == |w| && sum == if w == [] then None else Some(Sum(w))
    case Percentiles(ps, values) => kind.Percentiles? && ps == kind.percentiles && values == w
  }

  lemma ExtremesGrow(w: seq<real>, v: real)
    ensures Largest(w + [v]) == if w == [] || v > Largest(w) then v else Largest(w)
    ensures Smallest(w + [v]) == if w == [] || v < Smallest(w) then v else Smallest(w)
  {
    var grown := w + [v];
    Extremes(grown);
    assert v in grown;
    if w != [] {
      Extremes(w);
      assert Largest(w) in grown && Smallest(w) in grown;
      assert Largest(grown) in w || Largest(grown) == v;
      assert Smallest(grown) in w || Smallest(grown) == v;
    }
  }

  lemma HandleKeepsSummary(s: Summary, kind: Summary, w: seq<real>, v: real)
    requires Summarises(s, kind, w)
    ensures Summarises(Handle(s, v), kind, w + [v])
  {
    ExtremesGrow(w, v);
    assert (w + [v])[..|w|] == w;
    if w == [] { assert Sum(w + [v]) == v; }
  }

  lemma {:induction false} StreamSummarises(kind: Summary, w: seq<real>)
    requires IsFresh(kind)
    ensures Summarises(HandleAll(kind, w), kind, w)
  {
    if w != [] {
      var init := w[..|w| - 1];
      StreamSummarises(kind, init);
      HandleKeepsSummary(HandleAll(kind, init), kind, init, w[|w| - 1]);
      assert w == init + [w[|w| - 1]];
    }
  }

  /** The streaming form emits what the list of samples since the reset calls for. */
  lemma StreamRefinesWindow(kind: Summary, w: seq<real>)
    requires IsFresh(kind)
    ensures Emit(HandleAll(kind, w)) == Expected(kind, w)
  {
    StreamSummarises(kind, w);
  }

  // ---- Runs of messages and flushes ----

  /** A flush is `EmitMetrics` followed by `Reset`, as `emitDerivedMetrics` does it. */
  datatype Event = Message(value: real) | Flush

  /** A percentile's panic ends the process, and with it the run. */
  datatype RunResult =
    | Going(state: Summary, emitted: seq<seq<real>>)
    | Panicked(emitted: seq<seq<real>>)

  function OneEvent(r: RunResult, event: Event): RunResult {
    match r
    case Panicked(_) => r
    case Going(state, emitted) =>
      match event
      case Message(v) => Going(Handle(state, v), emitted)
      case Flush =>
        match Emit(state)
        case Some(values) => Going(Reset(state), emitted + [values])
        case None => Panicked(emitted)
  }

  function Run(kind: Summary, events: seq<Event>): RunResult {
    if events == [] then Going(kind, []) else OneEvent(Run(kind, events[..|events| - 1]), events[|events| - 1])
  }

  datatype Windows = Windows(closed: seq<seq<real>>, open: seq<real>)

  function OneWindow(ws: Windows, event: Event): Windows {
    match event
    case Message(v) => ws.(open := ws.open + [v])
    case Flush => Windows(ws.closed + [ws.open], [])
  }

  function WindowsOf(events: seq<Event>): Windows {
    if events == [] then Windows([], [])
    else OneWindow(WindowsOf(events[..|events| - 1]), events[|events| - 1])
  }

  function Samples(events: seq<Event>): seq<real> {
    if events == [] then []
    else match events[0]
      case Message(v) => [v] + Samples(events[1..])
      case Flush => Samples(events[1..])
  }

  function Flatten(ws: seq<seq<real>>): seq<real> {
    if ws == [] then [] else Flatten(ws[..|ws| - 1]) + ws[|ws| - 1]
  }

  lemma {:induction false} SamplesOfPrefix(events: seq<Event>)
    requires events != []
    ensures var last := events[|events| - 1];
            Samples(events) == Samples(events[..|events| - 1]) + if last.Message? then [last.value] else []
  {
    if |events| > 1 {
      SamplesOfPrefix(events[1..]);
      assert events[1..][..|events| - 2] == events[..|events| - 1][1..];
    }
  }

  /** The windows partition the handled samples, in order, none lost and none counted twice. */
  lemma {:induction false} WindowsPartitionSamples(events: seq<Event>)
    ensures Flatten(WindowsOf(events).closed) + WindowsOf(events).open == Samples(events)
  {
    if events != [] {
      var before := WindowsOf(events[..|events| - 1]);
      WindowsPartitionSamples(events[..|events| - 1]);
      SamplesOfPrefix(events);
      if events[|events| - 1].Flush? {
        assert (before.closed + [before.open])[..|before.closed|] == before.closed;
      }
    }
  }

  /** What a run has come to, told from its windows alone. */
  ghost predicate TellsOf(r: RunResult, kind: Summary, ws: Windows) {
    && |r.emitted| <= |ws.closed|
    && (forall i :: 0 <= i < |r.emitted| ==> Expected(kind, ws.closed[i]) == Some(r.emitted[i]))
    && match r
       case Going(state, emitted) => state == HandleAll(kind, ws.open) && |emitted| == |ws.closed|
       case Panicked(emitted) => |emitted| < |ws.closed| && Expected(kind, ws.closed[|emitted|]) == None
  }

  lemma EventTells(r: RunResult, kind: Summary, ws: Windows, event: Event)
    requires IsFresh(kind) && TellsOf(r, kind, ws)
    ensures TellsOf(OneEvent(r, event), kind, OneWindow(ws, event))
  {
    match event {
      case Message(v) => assert (ws.open + [v])[..|ws.open|] == ws.open;
      case Flush =>
        StreamRefinesWindow(kind, ws.open);
        StreamSummarises(kind, ws.open);
    }
  }

  /** In every run each flush emits exactly what its own window calls for, and the run ends at
      the first window that calls for a panic. */
  lemma {:induction false} EachFlushEmitsItsWindow(kind: Summary, events: seq<Event>)
    requires IsFresh(kind)
    ensures TellsOf(Run(kind, events), kind, WindowsOf(events))
  {
    if events != [] {
      EachFlushEmitsItsWindow(kind, events[..|events| - 1]);
      EventTells(Run(kind, events[..|events| - 1]), kind, WindowsOf(events[..|events| - 1]), events[|events| - 1]);
    }
  }

  // ---- Relations within one window ----

  lemma {:induction false} SumBounds(w: seq<real>, lo: real, hi: real)
    requires forall x :: x in w ==> lo <= x <= hi
    ensures lo * |w| as real <= Sum(w) <= hi * |w| as real
  {
    if w != [] {
      var init := w[..|w| - 1];
      assert forall x :: x in init ==> x in w;
      SumBounds(init, lo, hi);
      assert w[|w| - 1] in w;
      assert |w| as real == |init| as real + 1.0;
      assert lo * |w| as real == lo * |init| as real + lo;
      assert hi * |w| as real == hi * |init| as real + hi;
    }
  }

  lemma DivideBounds(a: real, x: real, b: real, n: real)
    requires n > 0.0 && a * n <= x <= b * n
    ensures a <= x / n <= b
  {
    var q := x / n;
    assert q * n == x;
    if q < a { ScalesStrictly(q, a, n); }
    if b < q { ScalesStrictly(b, q, n); }
  }

  lemma AverageBetween(w: seq<real>, lo: real, hi: real)
    requires w != [] && forall x :: x in w ==> lo <= x <= hi
    ensures lo <= Average(w) <= hi
  {
    SumBounds(w, lo, hi);
    DivideBounds(lo, Sum(w), hi, |w| as real);
  }

  lemma MeanWithinExtremes(w: seq<real>)
    requires w != []
    ensures Smallest(w) <= Average(w) <= Largest(w)
  {
    Extremes(w);
    AverageBetween(w, Smallest(w), Largest(w));
  }

  lemma PercentileWithinExtremes(w: seq<real>, p: real)
    requires w != [] && p >= 0.0
    ensures At(Sort(w, RealLe), p).Some? && Smallest(w) <= At(Sort(w, RealLe), p).value <= Largest(w)
  {
    SortedLength(w);
    WithinRange(Sort(w, RealLe), p);
  }

  lemma MeanAndPercentilesWithinExtremes(w: seq<real>, p: real)
    requires w != []
    ensures Smallest(w) <= Average(w) <= Largest(w)
    ensures p >= 0.0 ==> At(Sort(w, RealLe), p).Some? && Smallest(w) <= At(Sort(w, RealLe), p).value <= Largest(w)
    ensures At(Sort(w, RealLe), 0.0) == Some(Smallest(w))
    ensures At(Sort(w, RealLe), 100.0) == Some(Largest(w))
  {
    MeanWithinExtremes(w);
    SortedLength(w);
    Endpoints(Sort(w, RealLe), 100.0);
    if p >= 0.0 {
      PercentileWithinExtremes(w, p);
    }
  }

  lemma {:induction false} SumWithout(w: seq<real>, i: nat)
    requires i < |w|
    ensures Sum(w) == Sum(w[..i] + w[i + 1..]) + w[i]
  {
    var last := |w| - 1;
    if i < last {
      SumWithout(w[..last], i);
      assert w[..last][..i] == w[..i];
      assert (w[..i] + w[i + 1..])[..last - 1] == w[..last][..i] + w[..last][i + 1..];
    } else {
      assert w[..i] + w[i + 1..] == w[..last];
    }
  }

  lemma {:induction false} SumOfPermutation(w: seq<real>, x: seq<real>)
    requires multiset(w) == multiset(x)
    ensures Sum(w) == Sum(x)
  {
    if w == [] {
      assert |multiset(x)| == 0;
    } else {
      var i := IndexIn(w, x);
      WithoutEach(w, x, i);
      SumOfPermutation(w[1..], x[..i] + x[i + 1..]);
      SumWithout(w, 0);
      assert w[..0] + w[1..] == w[1..];
      SumWithout(x, i);
    }
  }

  /** Every kind but Latest depends on the multiset of its window alone. */
  lemma OrderOfSamplesIsIrrelevant(kind: Summary, w: seq<real>, x: seq<real>)
    requires multiset(w) == multiset(x) && !kind.Latest?
    ensures Expected(kind, w) == Expected(kind, x)
  {
    RealLeIsTotalOrder();
    SortOfPermutation(w, x, RealLe);
    SumOfPermutation(w, x);
    assert |multiset(w)| == |multiset(x)|;
  }

  // ---- The objects ----

  /** A float64 on the heap: what `&message.Value` points to. */
  class Cell {
    var value: real
    constructor (value: real)
      ensures this.value == value
    { this.value := value; }
  }

  class MeanMetric {
    var sum: Cell?
    var count: nat

    ghost function Repr(): set<object>
      reads this
    { if sum == null then {this} else {this, sum} }

    function State(): Summary
      reads this, sum
    { Mean(if sum == null then None else Some(sum.value), count) }

    constructor ()
      ensures fresh(Repr()) && State() == Mean(None, 0)
    { sum, count := null, 0; }

    method HandleMessage(value: real)
      modifies this, sum
      ensures State() == Handle(old(State()), value) && fresh(Repr() - old(Repr()))
    {
      if sum == null {
        sum := new Cell(value);
      } else {
        sum.value := sum.value + value;
      }
      count := count + 1;
    }

    method EmitMetrics() returns (values: seq<real>)
      ensures Emit(State()) == Some(values)
    {
      if sum == null || count == 0 {
        return [];
      }
      var meanValue := sum.value / count as real;
      return [meanValue];
    }

    method ResetState()
      modifies this
      ensures State() == Reset(old(State())) && Repr() <= old(Repr())
    { sum, count := null, 0; }

    method Clone() returns (clone: MeanMetric)
      ensures fresh(clone.Repr()) && clone.State() == Reset(State())
    { clone := new MeanMetric(); }
  }

  class MaxMetric {
    var value: Option<real>

    function State(): Summary
      reads this
    { Max(value) }

    constructor ()
      ensures State() == Max(None)
    { value := None; }

    method HandleMessage(v: real)
      modifies this
      ensures State() == Handle(old(State()), v)
    {
      if value == None || v > value.value {
        value := Some(v);
      }
    }

    method EmitMetrics() returns (values: seq<real>)
      ensures Emit(State()) == Some(values)
    { values := if value == None then [] else [value.value]; }

    method ResetState()
      modifies this
      ensures State() == Reset(old(State()))
    { value := None; }

    method Clone() returns (clone: MaxMetric)
      ensures fresh(clone) && clone.State() == Reset(State())
    { clone := new MaxMetric(); }
  }

  class MinMetric {
    var value: Option<real>

    function State(): Summary
      reads this
    { Min(value) }

    constructor ()
      ensures State() == Min(None)
    { value := None; }

    method HandleMessage(v: real)
      modifies this
      ensures State() == Handle(old(State()), v)
    {
      if value == None || v < value.value {
        value := Some(v);
      }
    }

    method EmitMetrics() returns (values: seq<real>)
      ensures Emit(State()) == Some(values)
    { values := if value == None then [] else [value.value]; }

    method ResetState()
      modifies this
      ensures State() == Reset(old(State()))
    { value := None; }

    method Clone() returns (clone: MinMetric)
      ensures fresh(clone) && clone.State() == Reset(State())
    { clone := new MinMetric(); }
  }

  class LatestMetric {
    var value: Option<real>

    function State(): Summary
      reads this
    { Latest(value) }

    constructor ()
      ensures State() == Latest(None)
    { value := None; }

    method HandleMessage(v: real)
      modifies this
      ensures State() == Handle(old(State()), v)
    { value := Some(v); }

    method EmitMetrics() returns (values: seq<real>)
      ensures Emit(State()) == Some(values)
    { values := if value == None then [] else [value.value]; }

    method ResetState()
      modifies this
      ensures State() == Reset(old(State()))
    { value := None; }

    method Clone() returns (clone: LatestMetric)
      ensures fresh(clone) && clone.State() == Reset(State())
    { clone := new LatestMetric(); }
  }

  lemma {:induction false} PanicOfPrefix(sorted: seq<real>, ps: seq<real>, i: nat)
    requires i <= |ps| && AllAt(sorted, ps[..i]).None?
    ensures AllAt(sorted, ps).None?
  {
    if i < |ps| {
      assert ps[..|ps| - 1][..i] == ps[..i];
      PanicOfPrefix(sorted, ps[..|ps| - 1], i);
    } else {
      assert ps[..i] == ps;
    }
  }

  class PercentileMetric {
    const percentiles: seq<real>
    var values: seq<real>

    function State(): Summary
      reads this
    { Percentiles(percentiles, values) }

    constructor (percentiles: seq<real>)
      ensures State() == Percentiles(percentiles, [])
    {
      this.percentiles := percentiles;
      values := [];
    }

    method HandleMessage(v: real)
      modifies this
      ensures State() == Handle(old(State()), v)
    { values := values + [v]; }

    /** Sorts a copy: the stored samples keep their order. None is a panic on the way. */
    method EmitMetrics() returns (emitted: Option<seq<real>>)
      ensures emitted == Emit(State())
    {
      if |values| == 0 {
        return Some([]);
      }
      var sortedValues := Sort(values, RealLe);
      var messages: seq<real> := [];
      var i := 0;
      while i < |percentiles|
        invariant 0 <= i <= |percentiles|
        invariant AllAt(sortedValues, percentiles[..i]) == Some(messages)
      {
        var value := At(sortedValues, percentiles[i]);
        assert percentiles[..i + 1][..i] == percentiles[..i];
        if value == None {
          PanicOfPrefix(sortedValues, percentiles, i + 1);
          return None;
        }
        messages := messages + [value.value];
        i := i + 1;
      }
      assert percentiles[..i] == percentiles;
      emitted := Some(messages);
    }

    method ResetState()
      modifies this
      ensures State() == Reset(old(State()))
    { values := []; }

    method Clone() returns (clone: PercentileMetric)
      ensures fresh(clone) && clone.State() == Reset(State())
    { clone := new PercentileMetric(percentiles); }
  }

  // ---- Cloning the derived metrics of a metric ----

  datatype Derived =
    | OfMean(mean: MeanMetric) | OfMax(max: MaxMetric) | OfMin(min: MinMetric)
    | OfLatest(latest: LatestMetric) | OfPercentiles(percentiles: PercentileMetric)

  function Root(d: Derived): object {
    match d
    case OfMean(m) => m
    case OfMax(m) => m
    case OfMin(m) => m
    case OfLatest(m) => m
    case OfPercentiles(m) => m
  }

  ghost function Footprint(d: Derived): set<object>
    reads Root(d)
  {
    match d
    case OfMean(m) => m.Repr()
    case _ => {Root(d)}
  }

  ghost function SummaryOf(d: Derived): Summary
    reads Root(d), Footprint(d)
  {
    match d
    case OfMean(m) => m.State()
    case OfMax(m) => m.State()
    case OfMin(m) => m.State()
    case OfLatest(m) => m.State()
    case OfPercentiles(m) => m.State()
  }

  /** A clone starts afresh and shares nothing with its original. */
  method CloneDerivedMetric(d: Derived) returns (clone: Derived)
    ensures fresh(Footprint(clone)) && SummaryOf(clone) == Reset(SummaryOf(d))
  {
    match d {
      case OfMean(m) => var c := m.Clone(); clone := OfMean(c);
      case OfMax(m) => var c := m.Clone(); clone := OfMax(c);
      case OfMin(m) => var c := m.Clone(); clone := OfMin(c);
      case OfLatest(m) => var c := m.Clone(); clone := OfLatest(c);
      case OfPercentiles(m) => var c := m.Clone(); clone := OfPercentiles(c);
    }
  }

  method CloneDerivedMetrics(ds: seq<Derived>) returns (clones: seq<Derived>)
    ensures |clones| == |ds|
    ensures forall i :: 0 <= i < |ds| ==> fresh(Footprint(clones[i])) && SummaryOf(clones[i]) == Reset(SummaryOf(ds[i]))
  {
    clones := [];
    while |clones| < |ds|
      invariant |clones| <= |ds|
      invariant forall i :: 0 <= i < |clones| ==>
                  fresh(Footprint(clones[i])) && SummaryOf(clones[i]) == Reset(SummaryOf(ds[i]))
    {
      var clone := CloneDerivedMetric(ds[|clones|]);
      clones := clones + [clone];
    }
  }
}
