/** Which readers of server/internal/transport/websocket.go start a reconnect: the one of a
    connection that has been replaced does so only by one of two schedules. */
module StaleReaders {
  import opened Prelude
  import opened ConnectProtocol
  import opened TransportObject

  /** Between line 88 and line 136 a Connect relies on `reconnecting`. */
  predicate InWindow(p: Place) {
    p in {Dialling, Dialled, UrlSet}
  }

  predicate WindowOpen(s: State) {
    s.lock.Some? && s.lock.value in s.callers && InWindow(s.callers[s.lock.value].at)
  }

  /** Found its connection's context not cancelled, and has not reached Reconnect's Swap. */
  predicate PastContext(r: Reader) {
    r.Tested? || r.Interrupting? || r.Reconnecting?
  }

  /** The reader of `c` passes its next test of `reconnecting`: line 196's, into
      handleNetworkInterrupt, or, past the test of line 72, the Swap that begins a reconnect. */
  predicate Interrupts(s: State, c: nat) {
    c < |s.conns| && PastContext(s.conns[c].reader) && !s.reconnecting
  }

  predicate Stale(s: State, c: nat) {
    Interrupts(s, c) && s.conn != Some(c)
  }

  lemma InterruptsMeans(s: State, c: nat, t: nat)
    requires Interrupts(s, c) && t !in s.callers
    ensures s.conns[c].reader.Tested? ==> ReaderStep(s, c, TestsFlag).value.conns[c].reader.Interrupting?
    ensures s.conns[c].reader.Reconnecting? ==> At(ReaderStep(s, c, Reconnects(t)).value, t, Queued)
  {
  }

  // ---- First schedule: a trailing store inside another Connect's window ----

  ghost predicate StoreInWindow(steps: seq<Step>) {
    exists k :: 0 <= k < |steps| && steps[k].TrailingStore?
             && Exec(INITIAL, steps[..k]).Some? && WindowOpen(Exec(INITIAL, steps[..k]).value)
  }

  ghost predicate Guarded(s: State) {
    WindowOpen(s) ==> s.reconnecting
  }

  lemma HoldKeepsGuard(s: State, t: nat, action: Action)
    requires Inv(s) && Guarded(s) && t in s.callers && Act(s, t, action).Some?
    ensures Guarded(Act(s, t, action).value)
  {
    HolderKeepsLock(s, t, action);
  }

  lemma ReaderKeepsGuard(s: State, c: nat, move: ReaderMove)
    requires Inv(s) && Guarded(s) && c < |s.conns| && ReaderStep(s, c, move).Some?
    ensures Guarded(ReaderStep(s, c, move).value)
  {
    ReaderKeepsRest(s, c, move);
    assert s.reconnecting ==> ReaderStep(s, c, move).value.reconnecting;
  }

  lemma StepKeepsGuard(s: State, step: Step)
    requires Inv(s) && Guarded(s) && Apply(s, step).Some?
    requires step.TrailingStore? ==> !WindowOpen(s)
    ensures Guarded(Apply(s, step).value)
  {
    match step {
      case Hold(t, action) => HoldKeepsGuard(s, t, action);
      case ReaderMoves(c, move) => ReaderKeepsGuard(s, c, move);
      case _ =>
    }
  }

  lemma EarlierStore(steps: seq<Step>)
    requires steps != []
    ensures StoreInWindow(steps[..|steps| - 1]) ==> StoreInWindow(steps)
  {
    var init := steps[..|steps| - 1];
    forall k | 0 <= k < |init| ensures init[..k] == steps[..k] && init[k] == steps[k] {
    }
  }

  lemma {:induction false} RunKeepsGuard(steps: seq<Step>)
    requires !StoreInWindow(steps) && Exec(INITIAL, steps).Some?
    ensures Guarded(Exec(INITIAL, steps).value)
  {
    if steps != [] {
      var init, last := steps[..|steps| - 1], steps[|steps| - 1];
      EarlierStore(steps);
      RunKeepsGuard(init);
      RunKeepsInv(init);
      StepKeepsGuard(Exec(INITIAL, init).value, last);
    }
  }

  // ---- Second schedule: the old connection is cancelled after its reader's context test ----

  /** `step` cancels the context of connection `c`. */
  predicate Cancels(s: State, step: Step, c: nat) {
    step.Hold? && step.action == CancelOld && At(s, step.t, UrlSet) && s.callers[step.t].oldCancel == Some(c)
  }

  ghost predicate CancelledLate(steps: seq<Step>, c: nat) {
    exists k :: 0 <= k < |steps|
             && Exec(INITIAL, steps[..k]).Some? && LateCancel(Exec(INITIAL, steps[..k]).value, steps[k], c)
  }

  /** A cancellation of `c` while its reader is past its context test. */
  predicate LateCancel(s: State, step: Step, c: nat) {
    c < |s.conns| && PastContext(s.conns[c].reader) && Cancels(s, step, c)
  }

  lemma HoldCancels(s: State, t: nat, action: Action, c: nat)
    requires t in s.callers && Act(s, t, action).Some? && c < |Act(s, t, action).value.conns|
    ensures var s' := Act(s, t, action).value;
            PastContext(s'.conns[c].reader) ==>
              && c < |s.conns| && s.conns[c].reader == s'.conns[c].reader
              && (s'.conns[c].cancelled <==> s.conns[c].cancelled || Cancels(s, Hold(t, action), c))
  {
  }

  lemma ReaderCancelsNothing(s: State, d: nat, move: ReaderMove, c: nat)
    requires d < |s.conns| && ReaderStep(s, d, move).Some? && c < |s.conns|
    ensures var s' := ReaderStep(s, d, move).value;
            && |s'.conns| == |s.conns| && s'.conns[c].cancelled == s.conns[c].cancelled
            && (PastContext(s'.conns[c].reader) ==> PastContext(s.conns[c].reader) || !s.conns[c].cancelled)
  {
  }

  lemma OthersCancelNothing(s: State, step: Step, c: nat)
    requires Apply(s, step).Some? && !step.Hold? && !step.ReaderMoves? && c < |s.conns|
    ensures var s' := Apply(s, step).value;
            && |s'.conns| == |s.conns|
            && s'.conns[c].reader == s.conns[c].reader && s'.conns[c].cancelled == s.conns[c].cancelled
  {
  }

  predicate CancelledPastContext(s: State, c: nat) {
    c < |s.conns| && PastContext(s.conns[c].reader) && s.conns[c].cancelled
  }

  lemma StepCancels(s: State, step: Step, c: nat)
    requires Apply(s, step).Some? && CancelledPastContext(Apply(s, step).value, c)
    ensures CancelledPastContext(s, c) || LateCancel(s, step, c)
  {
    match step {
      case Hold(t, action) => HoldCancels(s, t, action, c);
      case ReaderMoves(d, move) =>
        if c < |s.conns| {
          ReaderCancelsNothing(s, d, move, c);
        }
      case _ =>
        if c < |s.conns| {
          OthersCancelNothing(s, step, c);
        }
    }
  }

  lemma {:induction false} CancelWasLate(steps: seq<Step>, c: nat)
    requires Exec(INITIAL, steps).Some? && CancelledPastContext(Exec(INITIAL, steps).value, c)
    ensures CancelledLate(steps, c)
  {
    if steps != [] {
      var init, last := steps[..|steps| - 1], |steps| - 1;
      StepCancels(Exec(INITIAL, init).value, steps[last], c);
      if LateCancel(Exec(INITIAL, init).value, steps[last], c) {
        assert steps[..last] == init;
      } else {
        CancelWasLate(init, c);
        var k :| 0 <= k < |init|
              && Exec(INITIAL, init[..k]).Some? && LateCancel(Exec(INITIAL, init[..k]).value, init[k], c);
        assert init[..k] == steps[..k];
      }
    }
  }

  // ---- Only these two ----

  lemma StaleIsCancelled(s: State, c: nat)
    requires Inv(s) && Guarded(s) && Stale(s, c)
    ensures s.conns[c].cancelled
  {
  }

  /** A reader that goes on to handleNetworkInterrupt, or there to a reconnect of its own, reads
      the transport's current connection; or its connection was cancelled when it had already
      tested the context; or a trailing store fell into a Connect's window. */
  lemma OnlyCurrentReaderInterrupts(steps: seq<Step>, c: nat)
    requires Exec(INITIAL, steps).Some? && Interrupts(Exec(INITIAL, steps).value, c)
    ensures Exec(INITIAL, steps).value.conn == Some(c) || CancelledLate(steps, c) || StoreInWindow(steps)
  {
    var s := Exec(INITIAL, steps).value;
    if s.conn != Some(c) && !StoreInWindow(steps) {
      RunKeepsInv(steps);
      RunKeepsGuard(steps);
      StaleIsCancelled(s, c);
      CancelWasLate(steps, c);
    }
  }

  // ---- Each of them does it ----

  /** From any state a run can reach, cancelling a connection whose reader is past its context
      test leads on to that reader interrupting although it has been replaced. */
  lemma LateCancelLetsStaleReaderIn(steps: seq<Step>, t: nat, c: nat)
    requires Exec(INITIAL, steps).Some? && LateCancel(Exec(INITIAL, steps).value, Hold(t, CancelOld), c)
    ensures var all := steps + [Hold(t, CancelOld)] + [Hold(t, SetConnected)] + [Hold(t, ClearReconnecting)];
            Exec(INITIAL, all).Some? && Stale(Exec(INITIAL, all).value, c)
  {
    RunKeepsInv(steps);
    var s := Exec(INITIAL, steps).value;
    CancelledOn(s, t, c);
    var s1 := Act(s, t, CancelOld).value;
    var s2 := Act(s1, t, SetConnected).value;
    OneStep(INITIAL, steps, s, Hold(t, CancelOld), s1);
    OneStep(INITIAL, steps + [Hold(t, CancelOld)], s1, Hold(t, SetConnected), s2);
    OneStep(INITIAL, steps + [Hold(t, CancelOld)] + [Hold(t, SetConnected)], s2, Hold(t, ClearReconnecting),
            Act(s2, t, ClearReconnecting).value);
  }

  lemma CancelledOn(s: State, t: nat, c: nat)
    requires Inv(s) && LateCancel(s, Hold(t, CancelOld), c)
    ensures Act(s, t, CancelOld).Some? && Act(Act(s, t, CancelOld).value, t, SetConnected).Some?
    ensures var s2 := Act(Act(s, t, CancelOld).value, t, SetConnected).value;
            Act(s2, t, ClearReconnecting).Some? && Stale(Act(s2, t, ClearReconnecting).value, c)
  {
    assert s.lock == Some(t) && Replacing(s, s.callers[t], true);
  }

  /** The connection being replaced, while a window is open. */
  predicate BeingReplaced(s: State, t: nat, c: nat) {
    s.lock == Some(t) && t in s.callers && InWindow(s.callers[t].at) && s.callers[t].oldConn == Some(c)
  }

  /** A reader that has not come to its test of `reconnecting` yet. */
  predicate StillToTest(s: State, c: nat) {
    c < |s.conns| && (s.conns[c].reader.Reading? || PastContext(s.conns[c].reader))
  }

  lemma ReplacedFacts(s: State, t: nat, c: nat)
    requires Inv(s) && BeingReplaced(s, t, c)
    ensures c < |s.conns| && !s.conns[c].cancelled
    ensures if At(s, t, Dialling) then s.conn == Some(c) else s.conn != Some(c)
  {
    assert At(s, t, Dialling) ==> Quiet(s) && s.callers[t].oldConn == s.conn;
    assert !At(s, t, Dialling) ==> Replacing(s, s.callers[t], true);
  }

  /** To where the new connection is installed. */
  lemma ToDialled(s: State, t: nat, c: nat) returns (more: seq<Step>, s': State)
    requires Inv(s) && BeingReplaced(s, t, c) && StillToTest(s, c) && !s.reconnecting
    ensures Exec(s, more) == Some(s') && s'.conn != Some(c) && !s'.reconnecting
    ensures StillToTest(s', c) && !s'.conns[c].cancelled
  {
    ReplacedFacts(s, t, c);
    if At(s, t, Dialling) {
      s' := Install(s, t);
      OneStep(s, [], s, Hold(t, DialSucceeds), s');
      more := [] + [Hold(t, DialSucceeds)];
    } else {
      more, s' := [], s;
    }
  }

  lemma ContextTested(s: State, c: nat) returns (more: seq<Step>, s': State)
    requires StillToTest(s, c) && !s.conns[c].cancelled && s.conn != Some(c) && !s.reconnecting
    ensures Exec(s, more) == Some(s') && Stale(s', c)
  {
    if s.conns[c].reader.Reading? {
      s' := SetReader(s, c, Tested(s.conns[c].reader.id));
      OneStep(s, [], s, ReaderMoves(c, Fails(true)), s');
      more := [] + [ReaderMoves(c, Fails(true))];
    } else {
      more, s' := [], s;
    }
  }

  lemma StoreLeaves(s: State, t: nat, r: nat, c: nat)
    requires Inv(s) && BeingReplaced(s, t, c) && StillToTest(s, c) && Apply(s, TrailingStore(r)).Some?
    ensures var s1 := Apply(s, TrailingStore(r)).value;
            Inv(s1) && BeingReplaced(s1, t, c) && StillToTest(s1, c) && !s1.reconnecting
  {
    StepKeepsInv(s, TrailingStore(r));
    assert r != t;
  }

  lemma ReplacedReaderGoesOn(s: State, t: nat, c: nat) returns (more: seq<Step>, end: State)
    requires Inv(s) && BeingReplaced(s, t, c) && StillToTest(s, c) && !s.reconnecting
    ensures Exec(s, more) == Some(end) && Stale(end, c)
  {
    var dial, dialled := ToDialled(s, t, c);
    var fail;
    fail, end := ContextTested(dialled, c);
    ExecConcat(s, dial, fail);
    more := dial + fail;
  }

  /** From any state a run can reach, a trailing store inside a window leads on to the reader
      being replaced interrupting, if it still has that test before it. */
  lemma StoreInWindowLetsStaleReaderIn(steps: seq<Step>, t: nat, r: nat, c: nat) returns (more: seq<Step>)
    requires Exec(INITIAL, steps).Some?
    requires var s := Exec(INITIAL, steps).value;
             BeingReplaced(s, t, c) && StillToTest(s, c) && Apply(s, TrailingStore(r)).Some?
    ensures Exec(INITIAL, steps + [TrailingStore(r)] + more).Some?
    ensures Stale(Exec(INITIAL, steps + [TrailingStore(r)] + more).value, c)
  {
    RunKeepsInv(steps);
    var s := Exec(INITIAL, steps).value;
    var stored := Apply(s, TrailingStore(r)).value;
    StoreLeaves(s, t, r, c);
    OneStep(INITIAL, steps, s, TrailingStore(r), stored);
    var end;
    more, end := ReplacedReaderGoesOn(stored, t, c);
    ExecConcat(INITIAL, steps + [TrailingStore(r)], more);
  }

  // ---- Such runs exist ----

  lemma FirstConnect() returns (steps: seq<Step>, s: State)
    ensures Exec(INITIAL, steps) == Some(s) && s.lock == None && !s.reconnecting
    ensures s.conn == s.cancelFn == Some(0) && s.conns == [Conn(false, 0, Reading(1))]
  {
    steps, s := ConnectAlone(INITIAL, 0, "", true);
    assert s.(callers := map[]) == Connected(INITIAL, "");
    FirstResult();
  }

  lemma FirstResult()
    ensures Connected(INITIAL, "").conns == [Conn(false, 0, Reading(1))]
  {
  }

  /** From any state with the lock free: a direct Connect by a new caller. */
  lemma ConnectBeside(s: State, t: nat) returns (steps: seq<Step>, end: State)
    requires s.lock == None && t !in s.callers && s.conn == s.cancelFn == Newest(|s.conns|)
    ensures Exec(s, steps) == Some(end) && !end.reconnecting
    ensures end.conn == Some(|s.conns|) && |end.conns| == |s.conns| + 1
    ensures forall i :: 0 <= i < |s.conns| ==> end.conns[i].reader == s.conns[i].reader
  {
    QueueAndLock(s, t, "");
    var locked := s.(lock := Some(t), callers := s.callers[t := Caller(false, "", None, None, Locked)]);
    steps, end := HeldAlone(s, t, [CallConnect(t, "")] + [Lock(t)], locked, true);
    assert end.(callers := map[]) == Connected(locked, "").(lock := None, callers := map[]);
    SwappedReaders(s.conns, s.cancelFn, s.conn, s.connectionId + 1);
  }

  lemma SwappedReaders(conns: seq<Conn>, cancelFn: Option<nat>, conn: Option<nat>, id: nat)
    ensures |Swapped(conns, cancelFn, conn, id)| == |conns| + 1
    ensures forall i :: 0 <= i < |conns| ==> Swapped(conns, cancelFn, conn, id)[i].reader == conns[i].reader
  {
  }

  /** From any state a run can reach with the lock free: a whole Connect between a reader's two
      tests lets that reader interrupt. */
  lemma ConnectBetweenTests(steps: seq<Step>, c: nat) returns (more: seq<Step>)
    requires Exec(INITIAL, steps).Some?
    requires var s := Exec(INITIAL, steps).value; s.lock == None && c < |s.conns| && PastContext(s.conns[c].reader)
    ensures Exec(INITIAL, steps + more).Some? && Stale(Exec(INITIAL, steps + more).value, c)
  {
    RunKeepsInv(steps);
    var s := Exec(INITIAL, steps).value;
    var t := UpperBound(s.callers.Keys);
    var end;
    more, end := ConnectBeside(s, t);
    ExecConcat(INITIAL, steps, more);
  }

  /** The first connection's reader fails, and a second Connect runs between its tests. */
  lemma StaleReaderByConnectRun() returns (steps: seq<Step>)
    ensures Exec(INITIAL, steps).Some?
    ensures Stale(Exec(INITIAL, steps).value, 0)
  {
    var first, s := FirstConnect();
    var failed := SetReader(s, 0, Tested(1));
    OneStep(INITIAL, first, s, ReaderMoves(0, Fails(true)), failed);
    var more := ConnectBetweenTests(first + [ReaderMoves(0, Fails(true))], 0);
    steps := first + [ReaderMoves(0, Fails(true))] + more;
  }

  lemma ReconnectLocks(s: State, t: nat) returns (steps: seq<Step>, locked: State)
    requires s.lock == None && t !in s.callers && !s.reconnecting
    ensures Exec(s, steps) == Some(locked) && OwnSteps(t, steps)
    ensures At(locked, t, Locked) && locked.callers[t].viaReconnect
    ensures locked.conns == s.conns && locked.conn == s.conn && locked.cancelFn == s.cancelFn
  {
    var called := BeginReconnect(s, t);
    steps := [CallReconnect(t)];
    OneStep(s, [], s, CallReconnect(t), called);
    assert [] + [CallReconnect(t)] == steps;
    locked := Move(called.(lock := Some(t)), t, Locked);
    OneStep(s, steps, called, Lock(t), locked);
    steps := steps + [Lock(t)];
  }

  /** A Reconnect that fails to dial, up to where its trailing store is next. */
  lemma FailedReconnect(s: State, t: nat) returns (steps: seq<Step>, end: State)
    requires s.lock == None && t !in s.callers && !s.reconnecting && s.conn == s.cancelFn == Newest(|s.conns|)
    ensures Exec(s, steps) == Some(end) && end.lock == None && At(end, t, Trailing(true))
    ensures end.conns == s.conns && end.conn == s.conn && end.cancelFn == s.cancelFn
  {
    var locking, locked := ReconnectLocks(s, t);
    steps, end := HeldAlone(s, t, locking, locked, false);
    assert end.(callers := map[]) == locked.(reconnecting := true, lock := None, callers := map[]);
  }

  /** A Connect comes to its window while that store is left. */
  lemma ConnectToWindow(s: State, t: nat) returns (steps: seq<Step>, end: State)
    requires s.lock == None && t !in s.callers
    ensures Exec(s, steps) == Some(end) && end.conns == s.conns && end.lock == Some(t)
    ensures At(end, t, Dialling) && end.callers[t].oldConn == s.conn
    ensures forall u :: u in s.callers ==> u in end.callers && end.callers[u] == s.callers[u]
  {
    QueueAndLock(s, t, "");
    var locked := s.(lock := Some(t), callers := s.callers[t := Caller(false, "", None, None, Locked)]);
    end := ReadLocals(locked, t);
    OneStep(s, [CallConnect(t, "")] + [Lock(t)], locked, Hold(t, SetReconnecting), end);
    steps := [CallConnect(t, "")] + [Lock(t)] + [Hold(t, SetReconnecting)];
  }

  /** The same by the other schedule: a Connect dials while a failed Reconnect has its store left. */
  lemma StaleReaderByStoreRun() returns (steps: seq<Step>)
    ensures Exec(INITIAL, steps).Some?
    ensures Stale(Exec(INITIAL, steps).value, 0)
  {
    var first, s := FirstConnect();
    var r := UpperBound(s.callers.Keys);
    var reconnect, s1 := FailedReconnect(s, r);
    ExecConcat(INITIAL, first, reconnect);
    var t := UpperBound(s1.callers.Keys);
    var connect, s2 := ConnectToWindow(s1, t);
    ExecConcat(INITIAL, first + reconnect, connect);
    var begun := first + reconnect + connect;
    var more := StoreInWindowLetsStaleReaderIn(begun, t, r, 0);
    steps := begun + [TrailingStore(r)] + more;
  }
}
