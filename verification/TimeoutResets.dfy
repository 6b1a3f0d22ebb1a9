/** What resets the timeout counter of server/internal/websocket_client.go: an inbound frame, or a
    reconnect that succeeded. */
module TimeoutResets {
  import opened Prelude
  import opened ReconnectGuard

  ghost predicate Reaches(steps: seq<Step>, k: nat) {
    k <= |steps| && Exec(steps[..k]).Some?
  }

  lemma StepConnected(s: State, step: Step, g: nat)
    requires Apply(s, step).Some?
    ensures RunningAt(Apply(s, step).value, g, Connected) ==> RunningAt(s, g, Connected) || step == Reconnect(g, true)
  {
  }

  /** Goroutine `g` is about to reset the counter only if its own Reconnect succeeded. */
  lemma {:induction false} ConnectedBySuccess(steps: seq<Step>, n: nat, g: nat) returns (j: nat)
    requires Reaches(steps, n) && RunningAt(Exec(steps[..n]).value, g, Connected)
    ensures j < n && steps[j] == Reconnect(g, true)
    ensures forall k :: j < k < n ==> steps[k] != Reconnect(g, false)
  {
    assert steps[..n][..n - 1] == steps[..n - 1];
    var s := Exec(steps[..n - 1]).value;
    StepConnected(s, steps[n - 1], g);
    if steps[n - 1] == Reconnect(g, true) {
      j := n - 1;
    } else {
      j := ConnectedBySuccess(steps, n - 1, g);
    }
  }

  /** Every reset by a goroutine follows a successful Reconnect of its own. */
  lemma ResetsWereSuccessful(steps: seq<Step>, k: nat, g: nat) returns (j: nat)
    requires Exec(steps).Some? && k < |steps| && steps[k] == ResetByReconnect(g)
    ensures j < k && steps[j] == Reconnect(g, true)
  {
    PrefixRuns(steps, k);
    PrefixRuns(steps, k + 1);
    assert steps[..k + 1][..k] == steps[..k];
    j := ConnectedBySuccess(steps, k, g);
  }

  lemma {:induction false} PrefixRuns(steps: seq<Step>, k: nat)
    requires Exec(steps).Some? && k <= |steps|
    ensures Exec(steps[..k]).Some?
  {
    if k < |steps| {
      PrefixRuns(steps[..|steps| - 1], k);
      assert steps[..|steps| - 1][..k] == steps[..k];
    } else {
      assert steps[..k] == steps;
    }
  }

  /** A failed Reconnect leaves the counter alone and has nothing left but to clear the flag. */
  lemma FailureLeavesCounter(s: State, g: nat)
    requires Apply(s, Reconnect(g, false)).Some?
    ensures var s' := Apply(s, Reconnect(g, false)).value;
            && s'.counter == s.counter && s'.streak == s.streak
            && Apply(s', ResetByReconnect(g)) == None
            && Apply(s', Clear(g)).Some? && Apply(s', Clear(g)).value.counter == s.counter
            && !Apply(s', Clear(g)).value.inFlight
  {
  }

  /** An inbound frame resets it, whatever else is going on. */
  lemma FramesReset(steps: seq<Step>)
    requires Exec(steps).Some?
    ensures var end := Exec(steps + [ResetByFrame]);
            end.Some? && end.value.counter == 0
            && end.value.inFlight == Exec(steps).value.inFlight && end.value.running == Exec(steps).value.running
  {
    ExecSnoc(steps, ResetByFrame);
  }
}
