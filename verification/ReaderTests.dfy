/** The tests a reader of server/internal/transport/websocket.go makes before it reconnects, told
    over whole runs, and what PreventAutoReconnect does to them. */
module ReaderTests {
  import opened Prelude
  import opened ConnectProtocol

  ghost predicate Reaches(steps: seq<Step>, k: nat) {
    k <= |steps| && Exec(INITIAL, steps[..k]).Some?
  }

  /** The state of a run before its step `k`. */
  ghost function Before(steps: seq<Step>, k: nat): State
    requires Reaches(steps, k)
  {
    Exec(INITIAL, steps[..k]).value
  }

  /** Step `k` is `move` by the reader of connection `c`. */
  ghost predicate Moves(steps: seq<Step>, k: nat, c: nat, move: ReaderMove) {
    k < |steps| && steps[k] == ReaderMoves(c, move) && Reaches(steps, k) && c < |Before(steps, k).conns|
  }

  // ---- PreventAutoReconnect ----

  lemma StepKeepsPrevent(s: State, step: Step)
    requires Apply(s, step).Some?
    ensures Apply(s, step).value.preventAutoReconnect == (s.preventAutoReconnect || step.PreventAutoReconnect?)
  {
    if step.ReaderMoves? {
      ReaderKeepsPrevent(s, step.c, step.move);
    }
  }

  lemma ReaderKeepsPrevent(s: State, c: nat, move: ReaderMove)
    requires c < |s.conns| && ReaderStep(s, c, move).Some?
    ensures ReaderStep(s, c, move).value.preventAutoReconnect == s.preventAutoReconnect
  {
  }

  /** From any state: once set the flag stays set, and only PreventAutoReconnect sets it. */
  lemma {:induction false} PreventedExactlyWhen(s: State, steps: seq<Step>)
    requires Exec(s, steps).Some?
    ensures Exec(s, steps).value.preventAutoReconnect
            <==> s.preventAutoReconnect || exists k :: 0 <= k < |steps| && steps[k].PreventAutoReconnect?
  {
    if steps != [] {
      var init, last := steps[..|steps| - 1], |steps| - 1;
      PreventedExactlyWhen(s, init);
      StepKeepsPrevent(Exec(s, init).value, steps[last]);
      assert forall k :: 0 <= k < |init| ==> init[k] == steps[k];
    }
  }

  /** Has passed the test of line 72: its Reconnect is next, or under way. */
  predicate PastPrevent(s: State, c: nat) {
    c < |s.conns| && (s.conns[c].reader.Reconnecting? || s.conns[c].reader.Within?)
  }

  lemma ReaderPassesPrevent(s: State, d: nat, move: ReaderMove, c: nat)
    requires s.preventAutoReconnect && d < |s.conns| && ReaderStep(s, d, move).Some?
    ensures PastPrevent(ReaderStep(s, d, move).value, c) ==> PastPrevent(s, c)
  {
  }

  lemma OthersPassNothing(s: State, step: Step, c: nat)
    requires Apply(s, step).Some? && !step.ReaderMoves? && !step.Hold?
    ensures PastPrevent(Apply(s, step).value, c) ==> PastPrevent(s, c)
  {
  }

  lemma HoldPassesNothing(s: State, t: nat, action: Action, c: nat)
    requires t in s.callers && Act(s, t, action).Some?
    ensures PastPrevent(Act(s, t, action).value, c) ==> PastPrevent(s, c)
  {
  }

  lemma StepPassesPrevent(s: State, step: Step, c: nat)
    requires s.preventAutoReconnect && Apply(s, step).Some?
    ensures PastPrevent(Apply(s, step).value, c) ==> PastPrevent(s, c)
  {
    match step {
      case ReaderMoves(d, move) => ReaderPassesPrevent(s, d, move, c);
      case Hold(t, action) => HoldPassesNothing(s, t, action, c);
      case _ => OthersPassNothing(s, step, c);
    }
  }

  /** From any state with the flag set, whatever runs: no reader gets past the test that was not
      past it before. */
  lemma {:induction false} NoReaderPassesPrevent(s: State, steps: seq<Step>, c: nat)
    requires s.preventAutoReconnect && Exec(s, steps).Some?
    ensures Exec(s, steps).value.preventAutoReconnect
    ensures PastPrevent(Exec(s, steps).value, c) ==> PastPrevent(s, c)
  {
    if steps != [] {
      var init, last := steps[..|steps| - 1], steps[|steps| - 1];
      NoReaderPassesPrevent(s, init, c);
      StepPassesPrevent(Exec(s, init).value, last, c);
      StepKeepsPrevent(Exec(s, init).value, last);
    }
  }

  /** Adds caller `t`. */
  predicate Calls(step: Step, t: nat) {
    || (step.CallConnect? && step.t == t)
    || (step.CallReconnect? && step.t == t)
    || (step.ReaderMoves? && step.move == Reconnects(t))
  }

  lemma ReaderCalls(s: State, c: nat, move: ReaderMove, t: nat)
    requires c < |s.conns| && ReaderStep(s, c, move).Some?
    ensures t in ReaderStep(s, c, move).value.callers <==> t in s.callers || move == Reconnects(t)
    ensures move == Reconnects(t) ==> PastPrevent(s, c)
  {
  }

  lemma HoldCalls(s: State, u: nat, action: Action, t: nat)
    requires u in s.callers && Act(s, u, action).Some?
    ensures t in Act(s, u, action).value.callers <==> t in s.callers
  {
  }

  lemma NewCalls(s: State, step: Step, t: nat)
    requires Apply(s, step).Some? && (step.CallConnect? || step.CallReconnect?)
    ensures t in Apply(s, step).value.callers <==> t in s.callers || Calls(step, t)
  {
  }

  lemma OthersCall(s: State, step: Step, t: nat)
    requires Apply(s, step).Some?
    requires !step.ReaderMoves? && !step.Hold? && !step.CallConnect? && !step.CallReconnect?
    ensures t in Apply(s, step).value.callers <==> t in s.callers
  {
  }

  lemma StepCalls(s: State, step: Step, t: nat)
    requires Apply(s, step).Some?
    ensures t in Apply(s, step).value.callers <==> t in s.callers || Calls(step, t)
    ensures step.ReaderMoves? && Calls(step, t) ==> PastPrevent(s, step.c)
  {
    match step {
      case ReaderMoves(c, move) => ReaderCalls(s, c, move, t);
      case Hold(u, action) => HoldCalls(s, u, action, t);
      case CallConnect(_, _) => NewCalls(s, step, t);
      case CallReconnect(_) => NewCalls(s, step, t);
      case _ => OthersCall(s, step, t);
    }
  }

  /** With the flag set, every caller added later came by a call of Connect or Reconnect from
      outside, or by a reader that was past the test when the flag was set. */
  lemma {:induction false} WhoStillCalls(s: State, steps: seq<Step>, t: nat) returns (k: nat)
    requires s.preventAutoReconnect && Exec(s, steps).Some?
    requires t !in s.callers && t in Exec(s, steps).value.callers
    ensures k < |steps| && Calls(steps[k], t)
    ensures steps[k].ReaderMoves? ==> PastPrevent(s, steps[k].c)
  {
    var last := |steps| - 1;
    var init := steps[..last];
    StepCalls(Exec(s, init).value, steps[last], t);
    if t in Exec(s, init).value.callers {
      k := WhoStillCalls(s, init, t);
    } else {
      k := last;
      if steps[k].ReaderMoves? {
        NoReaderPassesPrevent(s, init, steps[k].c);
      }
    }
  }

  /** With the flag clear, a reader in handleNetworkInterrupt can go on, by its own moves alone,
      to a Reconnect that queues for the lock, or waits if one is already under way. */
  lemma InterruptReconnects(steps: seq<Step>, c: nat) returns (more: seq<Step>, t: nat)
    requires Exec(INITIAL, steps).Some?
    requires var s := Exec(INITIAL, steps).value;
             c < |s.conns| && s.conns[c].reader.Interrupting? && !s.preventAutoReconnect
    ensures forall step :: step in more ==> step.ReaderMoves? && step.c == c
    ensures Exec(INITIAL, steps + more).Some?
    ensures var s, s' := Exec(INITIAL, steps).value, Exec(INITIAL, steps + more).value;
            && t !in s.callers && t in s'.callers && s'.callers[t].viaReconnect && s'.reconnecting
            && s'.callers[t].at == if s.reconnecting then Waiting else Queued
  {
    var s := Exec(INITIAL, steps).value;
    t := UpperBound(s.callers.Keys);
    var id := s.conns[c].reader.id;
    var tested := SetReader(s, c, Reconnecting(id));
    OneStep(INITIAL, steps, s, ReaderMoves(c, TestsPrevent), tested);
    OneStep(INITIAL, steps + [ReaderMoves(c, TestsPrevent)], tested, ReaderMoves(c, Reconnects(t)),
            BeginReconnect(SetReader(tested, c, Within(id, t)), t));
    more := [ReaderMoves(c, TestsPrevent)] + [ReaderMoves(c, Reconnects(t))];
    assert steps + more == steps + [ReaderMoves(c, TestsPrevent)] + [ReaderMoves(c, Reconnects(t))];
  }

  // ---- Every test on the way ----

  /** How a reader comes to a place it was not at: by a move of its own. */
  predicate Arrives(s: State, step: Step, c: nat, r: Reader) {
    && step.ReaderMoves? && step.c == c && c < |s.conns|
    && match r
       case Tested(_) => step.move == Fails(true) && s.conns[c].reader.Reading? && !s.conns[c].cancelled
       case Interrupting(_) => step.move == TestsFlag && s.conns[c].reader.Tested? && !s.reconnecting
       case Reconnecting(_) => step.move == TestsPrevent && s.conns[c].reader.Interrupting? && !s.preventAutoReconnect
       case Within(_, t) => step.move == Reconnects(t) && s.conns[c].reader.Reconnecting?
       case _ => true
  }

  predicate Underway(r: Reader) {
    r.Tested? || r.Interrupting? || r.Reconnecting? || r.Within?
  }

  lemma ReaderArrives(s: State, d: nat, move: ReaderMove, c: nat)
    requires d < |s.conns| && ReaderStep(s, d, move).Some? && c < |s.conns|
    ensures var r := ReaderStep(s, d, move).value.conns[c].reader;
            Underway(r) ==> r == s.conns[c].reader || Arrives(s, ReaderMoves(d, move), c, r)
  {
  }

  lemma HoldKeepsReaders(s: State, u: nat, action: Action, c: nat)
    requires u in s.callers && Act(s, u, action).Some? && c < |Act(s, u, action).value.conns|
    ensures var r := Act(s, u, action).value.conns[c].reader;
            Underway(r) ==> c < |s.conns| && r == s.conns[c].reader
  {
  }

  lemma OthersKeepReaders(s: State, step: Step, c: nat)
    requires Apply(s, step).Some? && !step.ReaderMoves? && !step.Hold? && c < |Apply(s, step).value.conns|
    ensures c < |s.conns| && Apply(s, step).value.conns[c].reader == s.conns[c].reader
  {
  }

  lemma StepArrives(s: State, step: Step, c: nat)
    requires Apply(s, step).Some? && c < |Apply(s, step).value.conns|
    ensures var r := Apply(s, step).value.conns[c].reader;
            Underway(r) ==> c < |s.conns| && (r == s.conns[c].reader || Arrives(s, step, c, r))
  {
    match step {
      case ReaderMoves(d, move) =>
        if c < |s.conns| {
          ReaderArrives(s, d, move, c);
        }
      case Hold(u, action) => HoldKeepsReaders(s, u, action, c);
      case _ => OthersKeepReaders(s, step, c);
    }
  }

  /** The step by which a reader came to where it is. */
  lemma {:induction false} Arrival(steps: seq<Step>, n: nat, c: nat) returns (k: nat)
    requires Reaches(steps, n) && c < |Before(steps, n).conns| && Underway(Before(steps, n).conns[c].reader)
    ensures k < n && Reaches(steps, k) && Arrives(Before(steps, k), steps[k], c, Before(steps, n).conns[c].reader)
  {
    assert steps[..n][..n - 1] == steps[..n - 1];
    var s := Before(steps, n - 1);
    StepArrives(s, steps[n - 1], c);
    if Arrives(s, steps[n - 1], c, Before(steps, n).conns[c].reader) {
      k := n - 1;
    } else {
      k := Arrival(steps, n - 1, c);
    }
  }

  /** A reader whose Reconnect is under way failed to read abnormally while its connection was
      not cancelled, then found no reconnect under way, then auto-reconnect not prevented. */
  lemma ReconnectsWereChecked(steps: seq<Step>, n: nat, c: nat) returns (a: nat, b: nat, p: nat, r: nat)
    requires Reaches(steps, n) && c < |Before(steps, n).conns| && Before(steps, n).conns[c].reader.Within?
    ensures a < b < p < r < n && Reaches(steps, a) && Reaches(steps, b) && Reaches(steps, p)
    ensures Moves(steps, a, c, Fails(true)) && !Before(steps, a).conns[c].cancelled
    ensures Moves(steps, b, c, TestsFlag) && !Before(steps, b).reconnecting
    ensures Moves(steps, p, c, TestsPrevent) && !Before(steps, p).preventAutoReconnect
    ensures Moves(steps, r, c, Reconnects(Before(steps, n).conns[c].reader.t))
  {
    r := Arrival(steps, n, c);
    p := Arrival(steps, r, c);
    b := Arrival(steps, p, c);
    a := Arrival(steps, b, c);
  }

  // ---- Every failed reader ends ----

  /** A reader that leaves closes its own connection, once, and ends; a read that fails normally, or
      on a cancelled connection, leads straight there. */
  lemma FailedReaderEnds(s: State, c: nat, abnormal: bool)
    requires c < |s.conns| && s.conns[c].reader.Reading? && (s.conns[c].cancelled || !abnormal)
    ensures var end := Exec(s, [ReaderMoves(c, Fails(abnormal))] + [ReaderMoves(c, Closes)]);
            && end.Some?
            && end.value == s.(conns := s.conns[c := Conn(s.conns[c].cancelled, s.conns[c].closeCalls + 1,
                                                           Ended(s.conns[c].reader.id))])
  {
    var leaving := SetReader(s, c, Leaving(s.conns[c].reader.id));
    OneStep(s, [], s, ReaderMoves(c, Fails(abnormal)), leaving);
    assert [] + [ReaderMoves(c, Fails(abnormal))] == [ReaderMoves(c, Fails(abnormal))];
    LeavingCloses(s, c);
    OneStep(s, [ReaderMoves(c, Fails(abnormal))], leaving, ReaderMoves(c, Closes), CloseByReader(leaving, c));
  }

  lemma LeavingCloses(s: State, c: nat)
    requires c < |s.conns| && !s.conns[c].reader.NotStarted?
    ensures var leaving := SetReader(s, c, Leaving(s.conns[c].reader.id));
            && Apply(leaving, ReaderMoves(c, Closes)) == Some(CloseByReader(leaving, c))
            && CloseByReader(leaving, c) == s.(conns := s.conns[c := Conn(s.conns[c].cancelled,
                 s.conns[c].closeCalls + 1, Ended(s.conns[c].reader.id))])
  {
  }

  /** With a reconnect under way, or with auto-reconnect prevented, an interrupted reader leaves. */
  lemma RefusedReaderLeaves(s: State, c: nat)
    requires c < |s.conns|
    ensures s.conns[c].reader.Tested? && s.reconnecting ==>
              Apply(s, ReaderMoves(c, TestsFlag)) == Some(SetReader(s, c, Leaving(s.conns[c].reader.id)))
    ensures s.conns[c].reader.Interrupting? && s.preventAutoReconnect ==>
              Apply(s, ReaderMoves(c, TestsPrevent)) == Some(SetReader(s, c, Leaving(s.conns[c].reader.id)))
  {
  }
}
