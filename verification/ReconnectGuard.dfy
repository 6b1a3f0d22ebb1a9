/** The timeout counter and single-flight reconnect of
    server/internal/websocket_client.go: `NotifyRequestTimeout`, the goroutine it
    launches, and the reset in `readHandler`. Each step is one atomic operation. */
module ReconnectGuard {
  import opened Prelude

  const RECONNECT_THRESHOLD := 2

  /** `atomic.AddInt32(&x, 1)` wraps around. */
  function Next32(n: int): int {
    if n == 0x7FFF_FFFF then -0x8000_0000 else n + 1
  }

  /** An int32 counter after `k` increments from 0. */
  function Counted32(k: nat): int {
    if k == 0 then 0 else Next32(Counted32(k - 1))
  }

  /** A caller of NotifyRequestTimeout. `n` is what its increment returned, `streak`
      how many timeouts had been counted since the last reset, this one included. */
  datatype Notifier = Counted(n: int, streak: nat) | Won(n: int, streak: nat) | Done

  /** The launched goroutine: Reconnect, on success Store(0), always Store(false). */
  datatype Reconnector = Connecting | Connected | Clearing

  datatype State = State(
    counter: int, inFlight: bool,
    notifiers: map<nat, Notifier>, running: map<nat, Reconnector>,
    streak: nat,         // timeouts since the last reset
    launches: seq<nat>)  // the streak behind each launch

  const INITIAL := State(0, false, map[], map[], 0, [])

  datatype Step =
    | Count(i: nat)            // AddInt32
    | Swap(i: nat)             // the threshold test and CompareAndSwap
    | Launch(i: nat, g: nat)   // the go statement
    | Reconnect(g: nat, ok: bool)
    | ResetByReconnect(g: nat)
    | Clear(g: nat)
    | ResetByFrame             // readHandler

  predicate RunningAt(s: State, g: nat, r: Reconnector) { g in s.running && s.running[g] == r }

  function Apply(s: State, step: Step): Option<State> {
    match step
    case Count(i) =>
      if i in s.notifiers then None
      else
        var n := Next32(s.counter);
        Some(s.(counter := n, streak := s.streak + 1, notifiers := s.notifiers[i := Counted(n, s.streak + 1)]))
    case Swap(i) =>
      if !(i in s.notifiers && s.notifiers[i].Counted?) then None
      else if s.notifiers[i].n < RECONNECT_THRESHOLD || s.inFlight then
        Some(s.(notifiers := s.notifiers[i := Done]))
      else
        Some(s.(inFlight := true, notifiers := s.notifiers[i := Won(s.notifiers[i].n, s.notifiers[i].streak)]))
    case Launch(i, g) =>
      if !(i in s.notifiers && s.notifiers[i].Won?) || g in s.running then None
      else
        Some(s.(notifiers := s.notifiers[i := Done], running := s.running[g := Connecting],
                launches := s.launches + [s.notifiers[i].streak]))
    case Reconnect(g, ok) =>
      if RunningAt(s, g, Connecting)
      then Some(s.(running := s.running[g := if ok then Connected else Clearing])) else None
    case ResetByReconnect(g) =>
      if RunningAt(s, g, Connected)
      then Some(s.(counter := 0, streak := 0, running := s.running[g := Clearing])) else None
    case Clear(g) =>
      if RunningAt(s, g, Clearing) then Some(s.(inFlight := false, running := s.running - {g})) else None
    case ResetByFrame => Some(s.(counter := 0, streak := 0))
  }

  function Exec(steps: seq<Step>): Option<State> {
    if steps == [] then Some(INITIAL)
    else match Exec(steps[..|steps| - 1])
      case None => None
      case Some(before) => Apply(before, steps[|steps| - 1])
  }

  predicate IsWon(s: State, i: nat) {
    i in s.notifiers && s.notifiers[i].Won?
  }

  /** The notifiers whose go statement is next. */
  function Winners(s: State): set<nat> {
    set i | i in s.notifiers && IsWon(s, i)
  }

  /** The flag is set exactly when there is a goroutine running or one whose go
      statement is next, and there is never more than one. */
  ghost predicate OneHolder(s: State) {
    && (s.inFlight <==> (exists g :: g in s.running) || (exists i :: IsWon(s, i)))
    && (forall g, h :: g in s.running && h in s.running ==> g == h)
    && (forall i, j :: IsWon(s, i) && IsWon(s, j) ==> i == j)
    && (forall g, i :: g in s.running ==> !IsWon(s, i))
  }

  ghost predicate CountsRight(s: State) {
    && s.counter == Counted32(s.streak)
    && (forall i :: i in s.notifiers && !s.notifiers[i].Done? ==> s.notifiers[i].n == Counted32(s.notifiers[i].streak))
    && (forall i :: i in s.notifiers && s.notifiers[i].Won? ==> s.notifiers[i].n >= RECONNECT_THRESHOLD)
    && (forall k :: 0 <= k < |s.launches| ==> Counted32(s.launches[k]) >= RECONNECT_THRESHOLD)
  }

  ghost predicate Inv(s: State) {
    CountsRight(s) && OneHolder(s)
  }

  lemma {:induction false} Counted32Facts(k: nat)
    ensures k < 0x8000_0000 ==> Counted32(k) == k
    ensures Counted32(k) <= k && -0x8000_0000 <= Counted32(k) < 0x8000_0000
  {
    if k > 0 {
      Counted32Facts(k - 1);
    }
  }

  lemma StepCountsRight(s: State, step: Step)
    requires CountsRight(s) && Apply(s, step).Some?
    ensures CountsRight(Apply(s, step).value)
  {
  }

  lemma StepKeepsOneHolder(s: State, step: Step)
    requires OneHolder(s) && Apply(s, step).Some?
    ensures OneHolder(Apply(s, step).value)
  {
    match step {
      case Count(i) => OthersKeepHolder(s, i, Counted(Next32(s.counter), s.streak + 1));
      case Swap(i) =>
        if s.notifiers[i].n < RECONNECT_THRESHOLD || s.inFlight {
          OthersKeepHolder(s, i, Done);
        } else {
          WinKeepsHolder(s, i);
        }
      case Launch(i, g) => LaunchKeepsHolder(s, i, g);
      case Reconnect(g, ok) => RunningKeepsHolder(s, g, if ok then Connected else Clearing);
      case ResetByReconnect(g) => RunningKeepsHolder(s, g, Clearing);
      case Clear(g) => ClearKeepsHolder(s, g);
      case ResetByFrame =>
        assert forall j :: IsWon(Apply(s, step).value, j) <==> IsWon(s, j);
    }
  }

  predicate Holds(s: State, notifiers: map<nat, Notifier>, running: map<nat, Reconnector>, inFlight: bool) {
    s.notifiers == notifiers && s.running == running && s.inFlight == inFlight
  }

  /** OneHolder looks at the notifiers, the goroutines and the flag only. */
  lemma OthersKeepHolder(s: State, i: nat, n: Notifier)
    requires OneHolder(s) && !IsWon(s, i) && !n.Won?
    ensures forall s': State :: Holds(s', s.notifiers[i := n], s.running, s.inFlight) ==> OneHolder(s')
  {
    forall s': State | Holds(s', s.notifiers[i := n], s.running, s.inFlight)
      ensures OneHolder(s')
    {
      assert forall j :: IsWon(s', j) <==> IsWon(s, j);
    }
  }

  lemma RunningKeepsHolder(s: State, g: nat, r: Reconnector)
    requires OneHolder(s) && g in s.running
    ensures forall s': State :: Holds(s', s.notifiers, s.running[g := r], s.inFlight) ==> OneHolder(s')
  {
    forall s': State | Holds(s', s.notifiers, s.running[g := r], s.inFlight)
      ensures OneHolder(s')
    {
      assert g in s'.running;
      assert forall j :: IsWon(s', j) <==> IsWon(s, j);
    }
  }

  lemma WinKeepsHolder(s: State, i: nat)
    requires OneHolder(s) && !s.inFlight && i in s.notifiers && s.notifiers[i].Counted?
    ensures OneHolder(s.(inFlight := true, notifiers := s.notifiers[i := Won(s.notifiers[i].n, s.notifiers[i].streak)]))
  {
    var s' := s.(inFlight := true, notifiers := s.notifiers[i := Won(s.notifiers[i].n, s.notifiers[i].streak)]);
    assert IsWon(s', i);
    assert forall j :: IsWon(s', j) ==> j == i || IsWon(s, j);
  }

  lemma LaunchKeepsHolder(s: State, i: nat, g: nat)
    requires OneHolder(s) && IsWon(s, i) && g !in s.running
    ensures forall s': State ::
              Holds(s', s.notifiers[i := Done], s.running[g := Connecting], s.inFlight) ==> OneHolder(s')
  {
    forall s': State | Holds(s', s.notifiers[i := Done], s.running[g := Connecting], s.inFlight)
      ensures OneHolder(s')
    {
      assert g in s'.running;
      assert forall j :: IsWon(s', j) ==> IsWon(s, j) && j != i;
    }
  }

  lemma ClearKeepsHolder(s: State, g: nat)
    requires OneHolder(s) && g in s.running
    ensures OneHolder(s.(inFlight := false, running := s.running - {g}))
  {
    var s' := s.(inFlight := false, running := s.running - {g});
    assert forall j :: IsWon(s', j) <==> IsWon(s, j);
  }

  lemma {:induction false} RunKeepsInv(steps: seq<Step>)
    ensures Exec(steps).Some? ==> Inv(Exec(steps).value)
  {
    if steps != [] {
      RunKeepsInv(steps[..|steps| - 1]);
      if Exec(steps).Some? {
        StepCountsRight(Exec(steps[..|steps| - 1]).value, steps[|steps| - 1]);
        StepKeepsOneHolder(Exec(steps[..|steps| - 1]).value, steps[|steps| - 1]);
      }
    }
  }

  /** In every run: the flag is set exactly while one goroutine runs or is about to be
      launched; the counter is the number of timeouts since its last reset, in int32. */
  lemma SingleFlight(steps: seq<Step>)
    requires Exec(steps).Some?
    ensures var s := Exec(steps).value;
            |s.running.Keys| + |Winners(s)| == if s.inFlight then 1 else 0
  {
    RunKeepsInv(steps);
    HolderCount(Exec(steps).value);
  }

  lemma HolderCount(s: State)
    requires OneHolder(s)
    ensures |s.running.Keys| + |Winners(s)| == if s.inFlight then 1 else 0
  {
    if g :| g in s.running {
      assert s.running.Keys == {g} && Winners(s) == {};
    } else if i: nat :| IsWon(s, i) {
      assert s.running.Keys == {} && Winners(s) == {i};
    } else {
      assert s.running.Keys == {} && Winners(s) == {};
    }
  }

  function TimeoutsSinceReset(steps: seq<Step>): nat {
    if steps == [] then 0
    else match steps[|steps| - 1]
      case Count(_) => TimeoutsSinceReset(steps[..|steps| - 1]) + 1
      case ResetByReconnect(_) => 0
      case ResetByFrame => 0
      case _ => TimeoutsSinceReset(steps[..|steps| - 1])
  }

  /** The streak kept in the state is the one the run shows. */
  lemma {:induction false} StreakCountsTimeouts(steps: seq<Step>)
    requires Exec(steps).Some?
    ensures Exec(steps).value.streak == TimeoutsSinceReset(steps)
    ensures Exec(steps).value.counter == Counted32(TimeoutsSinceReset(steps))
  {
    RunKeepsInv(steps);
    if steps != [] {
      StreakCountsTimeouts(steps[..|steps| - 1]);
    }
  }

  /** Every launch was caused by a timeout that was at least the second since a reset. */
  lemma LaunchesReachedThreshold(steps: seq<Step>, k: nat)
    requires Exec(steps).Some? && k < |Exec(steps).value.launches|
    ensures Exec(steps).value.launches[k] >= 2
  {
    RunKeepsInv(steps);
    Counted32Facts(Exec(steps).value.launches[k]);
  }

  /** A counted timeout goes for the flag exactly when the wrapped count reaches the
      threshold: always from the second on, until the int32 counter has wrapped. */
  lemma ThresholdExactly(steps: seq<Step>, i: nat)
    requires Exec(steps).Some? && Apply(Exec(steps).value, Swap(i)).Some?
    ensures var s := Exec(steps).value;
            var s' := Apply(s, Swap(i)).value;
            && (s'.notifiers[i].Won? <==> !s.inFlight && Counted32(s.notifiers[i].streak) >= 2)
            && (s.notifiers[i].streak < 0x8000_0000 ==>
                  (s'.notifiers[i].Won? <==> !s.inFlight && s.notifiers[i].streak >= 2))
  {
    RunKeepsInv(steps);
    Counted32Facts(Exec(steps).value.notifiers[i].streak);
  }

  /** The flag cannot be stuck: whoever holds it has moves of its own left that clear it. */
  lemma FlagCanBeCleared(steps: seq<Step>) returns (more: seq<Step>)
    requires Exec(steps).Some? && Exec(steps).value.inFlight
    ensures forall step :: step in more ==> step.Launch? || step.Reconnect? || step.ResetByReconnect? || step.Clear?
    ensures Exec(steps + more).Some? && !Exec(steps + more).value.inFlight
  {
    RunKeepsInv(steps);
    var s := Exec(steps).value;
    if i: nat :| IsWon(s, i) {
      assert s.running.Keys == {};
      ExecSnoc(steps, Launch(i, 0));
      var rest := GoroutineClears(steps + [Launch(i, 0)], 0);
      more := [Launch(i, 0)] + rest;
      assert steps + more == steps + [Launch(i, 0)] + rest;
    } else {
      var g :| g in s.running;
      more := GoroutineClears(steps, g);
    }
  }

  lemma GoroutineClears(steps: seq<Step>, g: nat) returns (more: seq<Step>)
    requires Exec(steps).Some? && g in Exec(steps).value.running
    ensures forall step :: step in more ==> step.Reconnect? || step.ResetByReconnect? || step.Clear?
    ensures Exec(steps + more).Some? && !Exec(steps + more).value.inFlight
    decreases Exec(steps).value.running[g] != Clearing
  {
    if Exec(steps).value.running[g] == Clearing {
      more := [Clear(g)];
      ExecSnoc(steps, Clear(g));
    } else {
      var first := if Exec(steps).value.running[g] == Connecting then Reconnect(g, false) else ResetByReconnect(g);
      ExecSnoc(steps, first);
      var rest := GoroutineClears(steps + [first], g);
      more := [first] + rest;
      assert steps + more == steps + [first] + rest;
    }
  }

  lemma ExecSnoc(steps: seq<Step>, step: Step)
    requires Exec(steps).Some?
    ensures Exec(steps + [step]) == Apply(Exec(steps).value, step)
  {
    assert (steps + [step])[..|steps|] == steps;
  }
}
