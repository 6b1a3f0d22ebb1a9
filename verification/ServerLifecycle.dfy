/** Readiness, shutdown channels and game sessions in server/server_state.go: what any number
    of interleaved processReady, stop, OnStartGameSession and session-scoped calls make of them. */
module ServerLifecycle {
  import opened Prelude
  import opened ServerState

  // ---- Readiness ----

  predicate BecomesReady(s: State, step: Step) {
    Enabled(s, step) && step.ReadyAnswered? && step.valid && step.ok
  }

  ghost predicate ReadySince(steps: seq<Step>, n: nat) {
    Since(n, (k: nat) => k < |steps| && BecomesReady(Before(steps, k), steps[k]),
             (k: nat) => Taken(steps, k) && steps[k].BeginStop?)
  }

  lemma StepReady(s: State, step: Step)
    ensures Next(s, step).ready <==> BecomesReady(s, step) || (s.ready && !(Enabled(s, step) && step.BeginStop?))
  {
  }

  /** Ready exactly between line 229 of a processReady and the next compare-and-swap of a stop. */
  lemma {:induction false} ReadyExactlyWhen(steps: seq<Step>, n: nat)
    requires n <= |steps|
    ensures Before(steps, n).ready <==> ReadySince(steps, n)
  {
    if n > 0 {
      ReadyExactlyWhen(steps, n - 1);
      BeforeStep(steps, n - 1);
      StepReady(Before(steps, n - 1), steps[n - 1]);
      SinceStep(n - 1, (k: nat) => k < |steps| && BecomesReady(Before(steps, k), steps[k]),
                       (k: nat) => Taken(steps, k) && steps[k].BeginStop?);
    }
  }

  // ---- Which channel is closed, and how often ----

  predicate Makes(steps: seq<Step>, k: nat) {
    Taken(steps, k) && steps[k].Make?
  }

  predicate Closes(steps: seq<Step>, k: nat) {
    Taken(steps, k) && steps[k].CloseNow?
  }

  lemma StepCloses(s: State, step: Step)
    ensures var s' := Next(s, step);
            && s'.closes == (if !Enabled(s, step) then s.closes
                             else if step.Make? then s.closes + [0]
                             else if step.CloseNow? then s.closes[|s.closes| - 1 := s.closes[|s.closes| - 1] + 1]
                             else s.closes)
            && (s'.panicked <==> s.panicked || (Enabled(s, step) && step.CloseNow? && CurrentClosed(s)))
  {
  }

  /** A channel is closed once at most while nothing has panicked; a panic is a second close of
      the current one. */
  ghost predicate ClosesBounded(s: State) {
    && (forall i :: 0 <= i < |s.closes| - 1 ==> s.closes[i] <= 1)
    && (s.closes != [] ==> s.closes[|s.closes| - 1] <= if s.panicked then 2 else 1)
    && (s.panicked ==> s.closes != [] && s.closes[|s.closes| - 1] == 2)
  }

  lemma StepKeepsBounds(s: State, closes: seq<nat>, panicked: bool, made: bool)
    requires ClosesBounded(s) && !s.panicked
    requires if made then closes == s.closes + [0] && !panicked
             else s.closes != [] && closes == s.closes[|s.closes| - 1 := s.closes[|s.closes| - 1] + 1]
                  && panicked == CurrentClosed(s)
    ensures ClosesBounded(s.(closes := closes, panicked := panicked))
  {
  }

  lemma BoundsStep(s: State, step: Step)
    requires ClosesBounded(s)
    ensures ClosesBounded(Next(s, step))
  {
    StepCloses(s, step);
    var s' := Next(s, step);
    if Enabled(s, step) && (step.Make? || step.CloseNow?) {
      StepKeepsBounds(s, s'.closes, s'.panicked, step.Make?);
    }
  }

  lemma {:induction false} EveryRunBoundsCloses(steps: seq<Step>, n: nat)
    requires n <= |steps|
    ensures ClosesBounded(Before(steps, n))
  {
    if n > 0 {
      EveryRunBoundsCloses(steps, n - 1);
      BeforeStep(steps, n - 1);
      BoundsStep(Before(steps, n - 1), steps[n - 1]);
    }
  }

  lemma StepCurrentClosed(s: State, step: Step)
    ensures CurrentClosed(Next(s, step)) <==>
            (Enabled(s, step) && step.CloseNow?) || (CurrentClosed(s) && !(Enabled(s, step) && step.Make?))
  {
    StepCloses(s, step);
  }

  lemma {:induction false} CurrentClosedExactlyWhen(steps: seq<Step>, n: nat)
    requires n <= |steps|
    ensures CurrentClosed(Before(steps, n))
            <==> Since(n, (k: nat) => Closes(steps, k), (k: nat) => Makes(steps, k))
  {
    if n > 0 {
      CurrentClosedExactlyWhen(steps, n - 1);
      BeforeStep(steps, n - 1);
      StepCurrentClosed(Before(steps, n - 1), steps[n - 1]);
      SinceStep(n - 1, (k: nat) => Closes(steps, k), (k: nat) => Makes(steps, k));
    }
  }

  ghost predicate NoneBetween(made: nat -> bool, j: nat, k: nat) {
    forall m: nat :: j < m < k ==> !made(m)
  }

  /** Some close after `j`, and before the next channel. */
  ghost predicate ClosedBefore(made: nat -> bool, closed: nat -> bool, j: nat, n: nat) {
    exists k: nat :: j < k < n && closed(k) && NoneBetween(made, j, k)
  }

  ghost predicate NoneMadeBetween(steps: seq<Step>, j: nat, k: nat) {
    NoneBetween((m: nat) => Makes(steps, m), j, k)
  }

  /** The channel made by step `j` is current until the next one is made. */
  ghost predicate ClosedWhileCurrent(steps: seq<Step>, j: nat, n: nat) {
    ClosedBefore((m: nat) => Makes(steps, m), (m: nat) => Closes(steps, m), j, n)
  }

  /** What the closes tell of channel `c`: whether it is current, and how often it was closed. */
  ghost predicate ChannelIs(c: nat, closes: seq<nat>, panicked: bool, current: bool, closed: bool) {
    && c < |closes|
    && (c == |closes| - 1 <==> current)
    && (closes[c] == 0 <==> !closed)
    && (closes[c] == 2 <==> current && panicked)
    && closes[c] <= 2
  }

  lemma NextBetween(made: nat -> bool, closed: nat -> bool, j: nat, n: nat)
    requires j < n
    ensures NoneBetween(made, j, n + 1) <==> NoneBetween(made, j, n) && !made(n)
    ensures ClosedBefore(made, closed, j, n + 1) <==>
            ClosedBefore(made, closed, j, n) || (closed(n) && NoneBetween(made, j, n))
  {
    if ClosedBefore(made, closed, j, n + 1) && !ClosedBefore(made, closed, j, n) {
      var k: nat :| j < k < n + 1 && closed(k) && NoneBetween(made, j, k);
      assert k == n;
    }
  }

  /** How one step changes the closes. */
  ghost predicate ClosesGoOn(s: State, s': State, made: bool, closed: bool) {
    && ClosesBounded(s) && ClosesBounded(s')
    && s'.closes == (if made then s.closes + [0]
                     else if closed && s.closes != [] then s.closes[|s.closes| - 1 := s.closes[|s.closes| - 1] + 1]
                     else s.closes)
    && (closed ==> s.closes != []) && !(made && closed) && (s'.panicked ==> closed || s.panicked)
    && (s.panicked ==> !made && !closed && s'.panicked)
  }

  lemma RunCloses(steps: seq<Step>, n: nat)
    requires n < |steps|
    ensures ClosesGoOn(Before(steps, n), Before(steps, n + 1), Makes(steps, n), Closes(steps, n))
  {
    EveryRunBoundsCloses(steps, n);
    EveryRunBoundsCloses(steps, n + 1);
    BeforeStep(steps, n);
    StepCloses(Before(steps, n), steps[n]);
  }

  /** A run seen as its states, and as which steps make and which close a channel. */
  ghost predicate Trace(ss: seq<State>, made: nat -> bool, closed: nat -> bool) {
    forall k: nat :: k + 1 < |ss| ==> ClosesGoOn(ss[k], ss[k + 1], made(k), closed(k))
  }

  lemma ChannelMade(ss: seq<State>, made: nat -> bool, closed: nat -> bool, j: nat)
    requires Trace(ss, made, closed) && j + 1 < |ss| && made(j)
    ensures ChannelIs(|ss[j].closes|, ss[j + 1].closes, ss[j + 1].panicked,
                      NoneBetween(made, j, j + 1), ClosedBefore(made, closed, j, j + 1))
  {
  }

  lemma ChannelNext(s: State, s': State, c: nat, made: bool, closing: bool, current: bool, closed: bool)
    requires ClosesGoOn(s, s', made, closing) && ChannelIs(c, s.closes, s.panicked, current, closed)
    ensures ChannelIs(c, s'.closes, s'.panicked, current && !made, closed || (closing && current))
  {
  }

  lemma {:induction false} TraceCloses(ss: seq<State>, made: nat -> bool, closed: nat -> bool, j: nat, n: nat)
    requires Trace(ss, made, closed) && j < n < |ss| && made(j)
    ensures ChannelIs(|ss[j].closes|, ss[n].closes, ss[n].panicked,
                      NoneBetween(made, j, n), ClosedBefore(made, closed, j, n))
  {
    if n == j + 1 {
      ChannelMade(ss, made, closed, j);
    } else {
      TraceCloses(ss, made, closed, j, n - 1);
      NextBetween(made, closed, j, n - 1);
      ChannelNext(ss[n - 1], ss[n], |ss[j].closes|, made(n - 1), closed(n - 1),
                  NoneBetween(made, j, n - 1), ClosedBefore(made, closed, j, n - 1));
    }
  }

  /** A channel is never closed exactly if no stop reaches its close before the next channel is
      made, and closed twice exactly if that close panicked; otherwise once. Step `j` makes it. */
  lemma ClosedExactlyWhen(steps: seq<Step>, j: nat, n: nat)
    requires j < n <= |steps| && Makes(steps, j)
    ensures ChannelIs(|Before(steps, j).closes|, Before(steps, n).closes, Before(steps, n).panicked,
                      NoneMadeBetween(steps, j, n), ClosedWhileCurrent(steps, j, n))
  {
    var ss := seq(n + 1, k requires 0 <= k < n + 1 => Before(steps, k));
    var made, closed := (m: nat) => Makes(steps, m), (m: nat) => Closes(steps, m);
    forall k: nat | k + 1 < |ss| ensures ClosesGoOn(ss[k], ss[k + 1], made(k), closed(k)) {
      RunCloses(steps, k);
    }
    TraceCloses(ss, made, closed, j, n);
  }

  // ---- When closing panics ----

  lemma Entering(s: State, step: Step)
    requires Enabled(s, step)
    ensures var p, p' := At(s, step.t), At(Next(s, step), step.t);
            && (p'.TestedNil? ==> step.TestNil? && p.TestedOpen?)
            && (p'.TestedOpen? ==> step.TestOpen? && p.Stopping? && !CurrentClosed(s))
            && (p'.Stopping? ==> step.BeginStop? && s.ready)
  {
  }

  lemma NilWasTested(steps: seq<Step>, n: nat, t: nat) returns (c: nat)
    requires n <= |steps| && At(Before(steps, n), t).TestedNil?
    ensures c < n && steps[c] == TestNil(t) && Taken(steps, c) && At(Before(steps, c), t).TestedOpen?
    ensures forall k: nat :: c < k < n ==> !Takes(steps, k, t)
  {
    c := LastStep(steps, n, t);
    Entering(Before(steps, c), steps[c]);
  }

  lemma OpenWasTested(steps: seq<Step>, n: nat, t: nat) returns (b: nat)
    requires n <= |steps| && At(Before(steps, n), t).TestedOpen?
    ensures b < n && steps[b] == TestOpen(t) && Taken(steps, b) && At(Before(steps, b), t).Stopping?
    ensures !CurrentClosed(Before(steps, b))
    ensures forall k: nat :: b < k < n ==> !Takes(steps, k, t)
  {
    b := LastStep(steps, n, t);
    Entering(Before(steps, b), steps[b]);
  }

  lemma StopHadBegun(steps: seq<Step>, n: nat, t: nat) returns (a: nat)
    requires n <= |steps| && At(Before(steps, n), t).Stopping?
    ensures a < n && steps[a] == BeginStop(t) && Taken(steps, a) && Before(steps, a).ready
  {
    a := LastStep(steps, n, t);
    Entering(Before(steps, a), steps[a]);
  }

  lemma OthersClosed(steps: seq<Step>, b: nat, c: nat, n: nat, t: nat)
    requires b < c < n <= |steps| && steps[c] == TestNil(t)
    requires forall k: nat :: b < k < c ==> !Takes(steps, k, t)
    requires forall k: nat :: c < k < n ==> !Takes(steps, k, t)
    ensures forall k: nat :: b < k < n && Closes(steps, k) ==> steps[k].t != t
  {
    forall k: nat | b < k < n && Closes(steps, k) ensures steps[k].t != t {
      assert k == c || !Takes(steps, k, t);
    }
  }

  /** The steps by which a stop came to its close. */
  lemma StopTrace(steps: seq<Step>, n: nat) returns (a: nat, b: nat)
    requires Closes(steps, n)
    ensures a < b < n
    ensures steps[a] == BeginStop(steps[n].t) && Taken(steps, a) && Before(steps, a).ready
    ensures steps[b] == TestOpen(steps[n].t) && Taken(steps, b) && !CurrentClosed(Before(steps, b))
    ensures forall k: nat :: b < k < n && Closes(steps, k) ==> steps[k].t != steps[n].t
  {
    var t := steps[n].t;
    var c := NilWasTested(steps, n, t);
    b := OpenWasTested(steps, c, t);
    a := StopHadBegun(steps, b, t);
    OthersClosed(steps, b, c, n, t);
  }

  /** Closed at `n` and not at `b`: a close between, and no channel made since. */
  lemma ClosedMeanwhile(steps: seq<Step>, b: nat, n: nat)
    requires b < n <= |steps| && !CurrentClosed(Before(steps, b)) && !Closes(steps, b)
    ensures CurrentClosed(Before(steps, n)) <==>
            exists k: nat :: b < k < n && Closes(steps, k) && NoneMadeBetween(steps, k, n)
  {
    CurrentClosedExactlyWhen(steps, n);
    CurrentClosedExactlyWhen(steps, b);
    var closes, makes := (k: nat) => Closes(steps, k), (k: nat) => Makes(steps, k);
    if CurrentClosed(Before(steps, n)) {
      var k := SinceWitness(n, closes, makes);
      assert closes(k) && NoneBetween(makes, k, n);
      assert NoneMadeBetween(steps, k, n);
      assert k < b ==> Since(b, closes, makes);
    }
    if k: nat :| b < k < n && Closes(steps, k) && NoneMadeBetween(steps, k, n) {
      assert closes(k) && NoneBetween(makes, k, n);
      assert Since(n, closes, makes);
    }
  }

  /** A close panics exactly if another stop has closed since this one tested the channel,
      with no new channel made after that close. */
  lemma ClosePanicsExactlyWhen(steps: seq<Step>, n: nat) returns (a: nat, b: nat)
    requires Closes(steps, n)
    ensures a < b < n && steps[a] == BeginStop(steps[n].t) && Taken(steps, a)
    ensures steps[b] == TestOpen(steps[n].t) && Taken(steps, b)
    ensures Next(Before(steps, n), steps[n]).panicked <==>
            exists k: nat :: b < k < n && Closes(steps, k) && NoneMadeBetween(steps, k, n)
    ensures forall k: nat :: b < k < n && Closes(steps, k) ==> steps[k].t != steps[n].t
  {
    a, b := StopTrace(steps, n);
    StepCloses(Before(steps, n), steps[n]);
    ClosedMeanwhile(steps, b, n);
  }

  lemma ReadyStep(s: State, t: nat)
    requires At(s, t) == Idle && !s.panicked
    ensures Next(s, ReadyAnswered(t, true, true)) == Move(s.(ready := true), t, Making)
  {
  }

  lemma MakeStep(s: State, t: nat)
    requires At(s, t) == Making && !s.panicked
    ensures Next(s, Make(t)) == Move(s.(closes := s.closes + [0]), t, Done(None))
  {
  }

  lemma StopStep(s: State, t: nat)
    requires At(s, t) == Idle && !s.panicked && s.ready
    ensures Next(s, BeginStop(t)) == Move(s.(ready := false), t, Stopping)
  {
  }

  lemma TestOpenStep(s: State, t: nat)
    requires At(s, t) == Stopping && !s.panicked && !CurrentClosed(s)
    ensures Next(s, TestOpen(t)) == Move(s, t, TestedOpen)
  {
  }

  lemma TestNilStep(s: State, t: nat)
    requires At(s, t) == TestedOpen && !s.panicked
    ensures Next(s, TestNil(t)) == Move(s, t, if s.closes == [] then Done(None) else TestedNil)
  {
  }

  lemma CloseStep(s: State, t: nat)
    requires At(s, t) == TestedNil && !s.panicked && s.closes != []
    ensures var s' := Next(s, CloseNow(t));
            && s'.calls == s.calls[t := Done(None)] && s'.closes != [] && CurrentClosed(s')
            && s'.panicked == CurrentClosed(s)
  {
  }

  lemma TwoTestOpen(s: State, t: nat, u: nat)
    requires t != u && At(s, t) == At(s, u) == Stopping && !s.panicked && s.closes != [] && !CurrentClosed(s)
    ensures After(s, [TestOpen(t), TestOpen(u)]) == Move(Move(s, t, TestedOpen), u, TestedOpen)
  {
    AfterTwo(s, TestOpen(t), TestOpen(u));
    TestOpenStep(s, t);
    TestOpenStep(Move(s, t, TestedOpen), u);
  }

  lemma TwoTestNil(s: State, t: nat, u: nat)
    requires t != u && At(s, t) == At(s, u) == TestedOpen && !s.panicked && s.closes != []
    ensures After(s, [TestNil(t), TestNil(u)]) == Move(Move(s, t, TestedNil), u, TestedNil)
  {
    AfterTwo(s, TestNil(t), TestNil(u));
    TestNilStep(s, t);
    TestNilStep(Move(s, t, TestedNil), u);
  }

  lemma TwoClosesPanic(s: State, t: nat, u: nat)
    requires t != u && At(s, t) == At(s, u) == TestedNil && !s.panicked && s.closes != [] && !CurrentClosed(s)
    ensures After(s, [CloseNow(t), CloseNow(u)]).panicked
  {
    AfterTwo(s, CloseNow(t), CloseNow(u));
    CloseStep(s, t);
    CloseStep(Next(s, CloseNow(t)), u);
  }

  /** Two stops past their compare-and-swap, with the channel open, can go on to panic. */
  lemma TwoStopsCanPanic(s: State, t: nat, u: nat)
    requires t != u && At(s, t) == At(s, u) == Stopping && !s.panicked && s.closes != [] && !CurrentClosed(s)
    ensures After(s, [TestOpen(t), TestOpen(u)] + [TestNil(t), TestNil(u)] + [CloseNow(t), CloseNow(u)]).panicked
  {
    TwoTestOpen(s, t, u);
    var tested := Move(Move(s, t, TestedOpen), u, TestedOpen);
    TwoTestNil(tested, t, u);
    TwoClosesPanic(Move(Move(tested, t, TestedNil), u, TestedNil), t, u);
    AfterConcat(s, [TestOpen(t), TestOpen(u)], [TestNil(t), TestNil(u)]);
    AfterConcat(s, [TestOpen(t), TestOpen(u)] + [TestNil(t), TestNil(u)], [CloseNow(t), CloseNow(u)]);
  }

  /** A processReady that runs on its own. */
  lemma ReadyAlone(s: State, t: nat)
    requires At(s, t) == Idle && !s.panicked
    ensures After(s, [ReadyAnswered(t, true, true), Make(t)]) ==
            s.(ready := true, closes := s.closes + [0], calls := s.calls[t := Done(None)])
  {
    AfterTwo(s, ReadyAnswered(t, true, true), Make(t));
    ReadyStep(s, t);
    MakeStep(Move(s.(ready := true), t, Making), t);
    assert s.calls[t := Making][t := Done(None)] == s.calls[t := Done(None)];
  }

  /** Both stops find the process ready if a processReady passes line 229 between them. */
  lemma StopReadyStop(s: State, t: nat, r: nat, u: nat)
    requires t != u && t != r && r != u && At(s, t) == At(s, r) == At(s, u) == Idle && !s.panicked && s.ready
    ensures var s' := After(s, [BeginStop(t), ReadyAnswered(r, true, true)] + [BeginStop(u)]);
            At(s', t) == At(s', u) == Stopping && !s'.panicked && s'.closes == s.closes
  {
    AfterTwo(s, BeginStop(t), ReadyAnswered(r, true, true));
    AfterSnoc(s, [BeginStop(t), ReadyAnswered(r, true, true)], BeginStop(u));
    StopStep(s, t);
    var s1 := Move(s.(ready := false), t, Stopping);
    ReadyStep(s1, r);
    StopStep(Move(s1.(ready := true), r, Making), u);
  }

  /** Such a run exists: a second processReady between the two stops. */
  lemma DoubleCloseRun() returns (steps: seq<Step>)
    ensures After(INITIAL, steps).panicked
  {
    var first := [ReadyAnswered(0, true, true), Make(0)];
    ReadyAlone(INITIAL, 0);
    var s := After(INITIAL, first);
    var stops := [BeginStop(1), ReadyAnswered(2, true, true)] + [BeginStop(3)];
    assert s.closes == [0];
    StopReadyStop(s, 1, 2, 3);
    var more := [TestOpen(1), TestOpen(3)] + [TestNil(1), TestNil(3)] + [CloseNow(1), CloseNow(3)];
    TwoStopsCanPanic(After(s, stops), 1, 3);
    AfterConcat(INITIAL, first, stops);
    AfterConcat(INITIAL, first + stops, more);
    steps := first + stops + more;
  }

  // ---- Channels nobody will close ----

  predicate InStop(p: Place) {
    p.Stopping? || p.TestedOpen? || p.TestedNil?
  }

  ghost predicate NobodyStops(s: State) {
    !s.ready && forall t :: !InStop(At(s, t))
  }

  predicate NoReady(more: seq<Step>) {
    forall i :: 0 <= i < |more| ==> !(more[i].ReadyAnswered? && more[i].valid && more[i].ok)
  }

  lemma NobodyStep(s: State, step: Step)
    requires NobodyStops(s) && !(step.ReadyAnswered? && step.valid && step.ok)
    ensures NobodyStops(Next(s, step)) && s.closes <= Next(s, step).closes
  {
    StepCloses(s, step);
    StepReady(s, step);
    StaysOut(s, step);
    forall t ensures !InStop(At(Next(s, step), t)) {
      if t != step.t {
        OthersStay(s, step, t);
      }
    }
  }

  lemma StaysOut(s: State, step: Step)
    requires !s.ready && !InStop(At(s, step.t))
    ensures !InStop(At(Next(s, step), step.t))
  {
  }

  /** Once the process is not ready and no stop is under way, every channel made so far stays
      as it is, open ones too, until a processReady succeeds. */
  lemma {:induction false} ChannelsStay(s: State, more: seq<Step>)
    requires NobodyStops(s) && NoReady(more)
    ensures NobodyStops(After(s, more)) && s.closes <= After(s, more).closes
  {
    if more != [] {
      var last := |more| - 1;
      ChannelsStay(s, more[..last]);
      NobodyStep(After(s, more[..last]), more[last]);
    }
  }

  lemma StopInVain(s: State, t: nat)
    requires At(s, t) == Idle && !s.panicked && s.ready && s.closes == []
    ensures After(s, [BeginStop(t), TestOpen(t)] + [TestNil(t)]) ==
            s.(ready := false, calls := s.calls[t := Done(None)])
  {
    AfterTwo(s, BeginStop(t), TestOpen(t));
    AfterSnoc(s, [BeginStop(t), TestOpen(t)], TestNil(t));
    StopStep(s, t);
    var s1 := Move(s.(ready := false), t, Stopping);
    TestOpenStep(s1, t);
    TestNilStep(Move(s1, t, TestedOpen), t);
    assert s.calls[t := Stopping][t := TestedOpen][t := Done(None)] == s.calls[t := Done(None)];
  }

  lemma StopBeforeMake(s: State, r: nat, t: nat)
    requires r != t && At(s, r) == Making && At(s, t) == Idle && !s.panicked && s.ready && s.closes == []
    ensures After(s, [BeginStop(t), TestOpen(t)] + [TestNil(t)] + [Make(r)]) ==
            s.(ready := false, closes := [0], calls := s.calls[t := Done(None)][r := Done(None)])
  {
    StopInVain(s, t);
    var stopped := s.(ready := false, calls := s.calls[t := Done(None)]);
    AfterSnoc(s, [BeginStop(t), TestOpen(t)] + [TestNil(t)], Make(r));
    MakeStep(stopped, r);
    assert stopped.closes + [0] == [0];
  }

  /** A stop between lines 229 and 230 of the processReady it stops: the process is not ready,
      its channel is open, and by ChannelsStay nobody will close it. */
  lemma LostStopRun() returns (steps: seq<Step>)
    ensures NobodyStops(After(INITIAL, steps)) && After(INITIAL, steps).closes == [0]
  {
    var begun := [ReadyAnswered(0, true, true)];
    AfterOne(INITIAL, ReadyAnswered(0, true, true));
    ReadyStep(INITIAL, 0);
    var more := [BeginStop(1), TestOpen(1)] + [TestNil(1)] + [Make(0)];
    StopBeforeMake(After(INITIAL, begun), 0, 1);
    AfterConcat(INITIAL, begun, more);
    steps := begun + more;
  }

  // ---- Without overlaps ----

  /** Between line 229 and 230, or inside a stop that took the flag. */
  predicate Busy(p: Place) {
    p.Making? || InStop(p)
  }

  ghost predicate Quiet(s: State) {
    forall t :: !Busy(At(s, t))
  }

  /** No processReady is answered, and no stop takes the flag, while another is at work. */
  ghost predicate Disciplined(steps: seq<Step>, n: nat) {
    forall k: nat :: k < n && k < |steps| && BeginsWork(Before(steps, k), steps[k]) ==> Quiet(Before(steps, k))
  }

  predicate BeginsWork(s: State, step: Step) {
    BecomesReady(s, step) || TakesFlag(s, step)
  }

  predicate TakesFlag(s: State, step: Step) {
    Enabled(s, step) && step.BeginStop? && s.ready
  }

  ghost predicate LifeOk(s: State) {
    && !s.panicked
    && (forall t, u :: Busy(At(s, t)) && Busy(At(s, u)) ==> t == u)
    && (forall i :: 0 <= i < |s.closes| ==> s.closes[i] <= 1)
    && (forall t :: At(s, t).Making? ==> s.ready)
    && (forall t :: InStop(At(s, t)) ==> !s.ready && s.closes != [] && !CurrentClosed(s))
    && (Quiet(s) ==>
          && (s.ready ==> s.closes != [] && !CurrentClosed(s))
          && (!s.ready && s.closes != [] ==> CurrentClosed(s)))
  }

  /** What a step does to a busy call, and that nothing else makes one. */
  lemma BusySteps(s: State, step: Step)
    requires Enabled(s, step)
    ensures var p, p' := At(s, step.t), At(Next(s, step), step.t);
            && (Busy(p') && !Busy(p) <==> BecomesReady(s, step) || TakesFlag(s, step))
            && (p'.Making? <==> BecomesReady(s, step))
            && (InStop(p') ==> InStop(p) || TakesFlag(s, step))
            && (step.Make? <==> p.Making?)
            && (step.CloseNow? <==> p.TestedNil? && s.closes != [])
            && (InStop(p) && !InStop(p') ==>
                  step.CloseNow? || (step.TestOpen? && CurrentClosed(s)) || (step.TestNil? && s.closes == []))
  {
  }

  lemma StepKeepsLife(s: State, step: Step)
    requires LifeOk(s) && (BecomesReady(s, step) || TakesFlag(s, step) ==> Quiet(s))
    ensures LifeOk(Next(s, step))
  {
    if Enabled(s, step) {
      BusySteps(s, step);
      StepCloses(s, step);
      StepReady(s, step);
      var s' := Next(s, step);
      forall t | t != step.t ensures At(s', t) == At(s, t) {
        OthersStay(s, step, t);
      }
    }
  }

  /** Without overlaps nothing panics, and whenever nobody is at work a ready process has an
      open channel and one that is not ready has closed its last. */
  lemma {:induction false} DisciplinedRunsSettle(steps: seq<Step>, n: nat)
    requires n <= |steps| && Disciplined(steps, n)
    ensures LifeOk(Before(steps, n))
  {
    if n > 0 {
      DisciplinedRunsSettle(steps, n - 1);
      BeforeStep(steps, n - 1);
      StepKeepsLife(Before(steps, n - 1), steps[n - 1]);
    }
  }
}
