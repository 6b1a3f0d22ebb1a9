/** The transport of server/internal/transport/websocket.go after a directly called Connect has
    failed: when nothing but another direct Connect can dial again. */
module StuckTransport {
  import opened Prelude
  import opened ConnectProtocol

  /** The lock is free, `reconnecting` is set and nobody is left who would clear it. */
  ghost predicate Stuck(s: State) {
    && s.reconnecting && s.lock == None
    && forall t :: t in s.callers ==> s.callers[t].at.Waiting? || s.callers[t].at.Returned?
  }

  /** `s'` is still stuck, has dialled nothing since `s`, and its new callers got nowhere. */
  ghost predicate StuckSince(s: State, s': State) {
    && Stuck(s') && s'.conn == s.conn && |s'.conns| == |s.conns|
    && (forall t :: t in s.callers ==> t in s'.callers)
    && (forall t :: t in s'.callers && t !in s.callers ==> s'.callers[t].at in {Waiting, Returned(false)})
  }

  /** One step from a stuck state. */
  ghost predicate StuckNext(s: State, s': State) {
    StuckSince(s, s') && forall t :: t in s.callers ==> s'.callers[t].at in {s.callers[t].at, Returned(false)}
  }

  lemma StuckReader(s: State, c: nat, move: ReaderMove)
    requires Stuck(s) && c < |s.conns| && ReaderStep(s, c, move).Some?
    ensures StuckNext(s, ReaderStep(s, c, move).value)
  {
  }

  lemma StuckStep(s: State, step: Step)
    requires Stuck(s) && Apply(s, step).Some? && !step.CallConnect?
    ensures StuckNext(s, Apply(s, step).value)
  {
    if step.ReaderMoves? {
      StuckReader(s, step.c, step.move);
    }
  }

  lemma StuckTransitive(s: State, s1: State, s2: State)
    requires StuckSince(s, s1) && StuckNext(s1, s2)
    ensures StuckSince(s, s2)
  {
    forall t | t in s2.callers && t !in s.callers ensures s2.callers[t].at in {Waiting, Returned(false)} {
      if t in s1.callers { assert s1.callers[t].at in {Waiting, Returned(false)}; }
    }
  }

  predicate NoConnect(steps: seq<Step>) {
    forall i :: 0 <= i < |steps| ==> !steps[i].CallConnect?
  }

  /** In a stuck state nothing is dialled until someone calls Connect: every Reconnect, by a
      reader, a writer or the timeout counter, waits for the free lock and reports success. */
  lemma {:induction false} StuckUntilConnect(s: State, steps: seq<Step>)
    requires Stuck(s) && Exec(s, steps).Some? && NoConnect(steps)
    ensures StuckSince(s, Exec(s, steps).value)
  {
    if steps != [] {
      var init, last := steps[..|steps| - 1], steps[|steps| - 1];
      StuckUntilConnect(s, init);
      StuckStep(Exec(s, init).value, last);
      StuckTransitive(s, Exec(s, init).value, Exec(s, steps).value);
    }
  }

  // ---- That all other states can dial ----

  /** A run without a direct Connect after which one more connection has been dialled. */
  ghost predicate Dials(s: State, more: seq<Step>) {
    NoConnect(more) && Exec(s, more).Some? && |Exec(s, more).value.conns| > |s.conns|
  }

  lemma LockedDials(s: State, t: nat)
    requires At(s, t, Locked)
    ensures Act(s, t, SetReconnecting).Some? && Act(Act(s, t, SetReconnecting).value, t, DialSucceeds).Some?
    ensures |Act(Act(s, t, SetReconnecting).value, t, DialSucceeds).value.conns| > |s.conns|
  {
  }

  lemma QueuedDials(s: State, t: nat)
    requires s.lock == None && At(s, t, Queued)
    ensures Dials(s, [Lock(t)] + [Hold(t, SetReconnecting)] + [Hold(t, DialSucceeds)])
  {
    var locked := Move(s.(lock := Some(t)), t, Locked);
    LockedDials(locked, t);
    OneStep(s, [], s, Lock(t), locked);
    assert [] + [Lock(t)] == [Lock(t)];
    HoldApplies(s, [Lock(t)], t, SetReconnecting);
    HoldApplies(s, [Lock(t)] + [Hold(t, SetReconnecting)], t, DialSucceeds);
  }

  lemma Prepend(s: State, step: Step, after: State, rest: seq<Step>)
    requires !step.CallConnect? && Apply(s, step) == Some(after) && |after.conns| == |s.conns| && Dials(after, rest)
    ensures Dials(s, [step] + rest)
  {
    ExecFirst(s, step, after, rest);
    forall i | 0 <= i < |[step] + rest| ensures !([step] + rest)[i].CallConnect? {
      assert i > 0 ==> ([step] + rest)[i] == rest[i - 1];
    }
  }

  lemma ExecFirst(s: State, step: Step, after: State, rest: seq<Step>)
    requires Apply(s, step) == Some(after)
    ensures Exec(s, [step] + rest) == Exec(after, rest)
  {
    OneStep(s, [], s, step, after);
    assert [] + [step] == [step];
    ExecConcat(s, [step], rest);
  }

  lemma ClearDials(s: State) returns (more: seq<Step>)
    requires s.lock == None && !s.reconnecting
    ensures Dials(s, more)
  {
    var t := UpperBound(s.callers.Keys);
    var called := BeginReconnect(s, t);
    more := [Lock(t)] + [Hold(t, SetReconnecting)] + [Hold(t, DialSucceeds)];
    QueuedDials(called, t);
    Prepend(s, CallReconnect(t), called, more);
    more := [CallReconnect(t)] + more;
  }

  lemma TrailingDials(s: State, t: nat) returns (more: seq<Step>)
    requires s.lock == None && t in s.callers && s.callers[t].at.Trailing?
    ensures Dials(s, more)
  {
    var stored := Move(s.(reconnecting := false), t, Returned(s.callers[t].at.failed));
    more := ClearDials(stored);
    Prepend(s, TrailingStore(t), stored, more);
    more := [TrailingStore(t)] + more;
  }

  lemma OtherwiseDials(s: State) returns (more: seq<Step>)
    requires LockOk(s) && s.lock == None && !Stuck(s)
    ensures Dials(s, more)
  {
    if !s.reconnecting {
      more := ClearDials(s);
    } else {
      var t :| t in s.callers && !s.callers[t].at.Waiting? && !s.callers[t].at.Returned?;
      assert !Critical(s.callers[t].at);
      if s.callers[t].at.Queued? {
        QueuedDials(s, t);
        more := [Lock(t)] + [Hold(t, SetReconnecting)] + [Hold(t, DialSucceeds)];
      } else {
        more := TrailingDials(s, t);
      }
    }
  }

  /** With the lock free, in any state a run can reach: without a direct Connect nothing can be
      dialled any more exactly if the flag is set and no caller is queued or has its trailing
      store left. */
  lemma StuckExactlyWhen(steps: seq<Step>)
    requires Exec(INITIAL, steps).Some? && Exec(INITIAL, steps).value.lock == None
    ensures var s := Exec(INITIAL, steps).value;
            (exists more: seq<Step> :: Dials(s, more)) <==> !Stuck(s)
  {
    RunKeepsInv(steps);
    var s := Exec(INITIAL, steps).value;
    if Stuck(s) {
      forall more: seq<Step> ensures !Dials(s, more) {
        if NoConnect(more) && Exec(s, more).Some? {
          StuckUntilConnect(s, more);
        }
      }
    } else {
      var more := OtherwiseDials(s);
    }
  }

  lemma LockedFails(s: State, t: nat)
    requires At(s, t, Locked) && !s.callers[t].viaReconnect
    ensures Act(s, t, SetReconnecting).Some? && Act(Act(s, t, SetReconnecting).value, t, DialFails).Some?
    ensures Act(Act(Act(s, t, SetReconnecting).value, t, DialFails).value, t, Unlock).Some?
    ensures var end := Act(Act(Act(s, t, SetReconnecting).value, t, DialFails).value, t, Unlock).value;
            && end.reconnecting && end.lock == None && At(end, t, Returned(true))
            && (forall u :: u in end.callers ==> u == t || (u in s.callers && end.callers[u] == s.callers[u]))
  {
  }

  /** A directly called Connect that fails while nobody else is active leaves the transport stuck. */
  lemma FailedDirectConnectSticks(s: State, t: nat, u: string)
    requires s.lock == None && t !in s.callers
    requires forall w :: w in s.callers ==> s.callers[w].at.Waiting? || s.callers[w].at.Returned?
    ensures var failing := [CallConnect(t, u)] + [Lock(t)] + [Hold(t, SetReconnecting)] + [Hold(t, DialFails)]
                           + [Hold(t, Unlock)];
            Exec(s, failing).Some? && Stuck(Exec(s, failing).value)
  {
    var begun := [CallConnect(t, u)] + [Lock(t)];
    QueueAndLock(s, t, u);
    LockedFails(Exec(s, begun).value, t);
    HoldApplies(s, begun, t, SetReconnecting);
    HoldApplies(s, begun + [Hold(t, SetReconnecting)], t, DialFails);
    HoldApplies(s, begun + [Hold(t, SetReconnecting)] + [Hold(t, DialFails)], t, Unlock);
  }
}
