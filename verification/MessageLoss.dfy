/** How a message of metrics/processor.go can get lost, told over whole runs. */
module MessageLoss {
  import opened Prelude
  import opened MetricsPipeline

  /** `step`, taken in `s`, loses `m`: to a full queue, on run's way out, or with the old channels. */
  predicate Loses(s: State, step: Step, m: Message) {
    || (step == Drop && s.run == Holding(m) && s.queue.Full())
    || (step == Abandon && s.run == Holding(m) && ToldToStop(s))
    || (step == FinishStop && s.stopping && m in s.queue.items + s.ingress.items)
  }

  ghost predicate LosesAt(start: State, steps: seq<Step>, k: nat, m: Message) {
    k < |steps| && Exec(start, steps[..k]).Some? && Loses(Exec(start, steps[..k]).value, steps[k], m)
  }

  /** Some step has cancelled the context or begun a Stop. */
  predicate StopOrCancel(steps: seq<Step>) {
    exists j :: 0 <= j < |steps| && (steps[j].CancelContext? || steps[j].BeginStop?)
  }

  lemma FeedingLoses(s: State, step: Step)
    requires Apply(s, step).Some?
    requires step.Start? || step.CancelContext? || step.Enqueue? || step.SpawnWorkers? || step.Take? || step.Forward?
          || step.EndRun? || step.BeginStop?
    ensures Apply(s, step).value.lost == s.lost
  {
  }

  lemma WorkerLoses(s: State, step: Step)
    requires Apply(s, step).Some? && (step.Receive? || step.Tick? || step.EndWorker?)
    ensures Apply(s, step).value.lost == s.lost
  {
  }

  lemma StepLoses(s: State, step: Step)
    requires Apply(s, step).Some?
    ensures var lost := Apply(s, step).value.lost;
            && s.lost <= lost
            && forall i :: |s.lost| <= i < |lost| ==> Loses(s, step, lost[i])
  {
    match step {
      case Drop =>
      case Abandon =>
      case FinishStop =>
        assert s.lost + s.queue.items + s.ingress.items == s.lost + (s.queue.items + s.ingress.items);
      case Receive(_, _) => WorkerLoses(s, step);
      case Tick(_, _) => WorkerLoses(s, step);
      case EndWorker(_, _) => WorkerLoses(s, step);
      case _ => FeedingLoses(s, step);
    }
  }

  lemma {:induction false} LostSomewhere(start: State, steps: seq<Step>, i: nat) returns (k: nat)
    requires start.lost == [] && Exec(start, steps).Some? && i < |Exec(start, steps).value.lost|
    ensures LosesAt(start, steps, k, Exec(start, steps).value.lost[i])
  {
    var last := |steps| - 1;
    var before := Exec(start, steps[..last]).value;
    StepLoses(before, steps[last]);
    if i < |before.lost| {
      k := LostSomewhere(start, steps[..last], i);
      assert steps[..last][..k] == steps[..k];
    } else {
      k := last;
    }
  }

  lemma StepEnds(s: State, step: Step)
    requires Apply(s, step).Some? && !step.CancelContext? && !step.BeginStop?
    ensures var s' := Apply(s, step).value;
            (ToldToStop(s') ==> ToldToStop(s)) && (s'.stopping ==> s.stopping)
  {
  }

  lemma {:induction false} EndedBefore(start: State, steps: seq<Step>)
    requires !ToldToStop(start) && !start.stopping && Exec(start, steps).Some?
    ensures var s := Exec(start, steps).value; ToldToStop(s) || s.stopping ==> StopOrCancel(steps)
  {
    if steps != [] {
      var init, last := steps[..|steps| - 1], steps[|steps| - 1];
      EndedBefore(start, init);
      if !last.CancelContext? && !last.BeginStop? {
        StepEnds(Exec(start, init).value, last);
        EndedLater(steps);
      } else {
        assert steps[|steps| - 1] == last;
      }
    }
  }

  lemma EndedLater(steps: seq<Step>)
    requires steps != []
    ensures StopOrCancel(steps[..|steps| - 1]) ==> StopOrCancel(steps)
  {
    forall j | 0 <= j < |steps| - 1 ensures steps[..|steps| - 1][j] == steps[j] {
    }
  }

  /** In every run each lost message was lost by some step: dropped at a full queue, or, once the
      context was cancelled or a Stop had begun, abandoned by run or left in the old channels. */
  lemma LossMeans(m: nat, ic: nat, qc: nat, steps: seq<Step>, i: nat) returns (k: nat)
    requires Exec(Initial(m, ic, qc), steps).Some? && i < |Exec(Initial(m, ic, qc), steps).value.lost|
    ensures LosesAt(Initial(m, ic, qc), steps, k, Exec(Initial(m, ic, qc), steps).value.lost[i])
    ensures steps[k] == Drop || StopOrCancel(steps[..k])
  {
    k := LostSomewhere(Initial(m, ic, qc), steps, i);
    EndedBefore(Initial(m, ic, qc), steps[..k]);
  }

  /** Without either, every loss met a full queue. */
  lemma OnlyFullQueuesLose(m: nat, ic: nat, qc: nat, steps: seq<Step>, i: nat) returns (k: nat)
    requires Exec(Initial(m, ic, qc), steps).Some? && i < |Exec(Initial(m, ic, qc), steps).value.lost|
    requires !StopOrCancel(steps)
    ensures k < |steps| && steps[k] == Drop && Exec(Initial(m, ic, qc), steps[..k]).Some?
    ensures var s := Exec(Initial(m, ic, qc), steps[..k]).value;
            s.run == Holding(Exec(Initial(m, ic, qc), steps).value.lost[i]) && |s.queue.items| >= qc
  {
    k := LossMeans(m, ic, qc, steps, i);
    EndedPrefix(steps, k);
    CapacityStays(m, ic, qc, steps[..k]);
  }

  lemma EndedPrefix(steps: seq<Step>, k: nat)
    requires k <= |steps| && !StopOrCancel(steps)
    ensures !StopOrCancel(steps[..k])
  {
    forall j | 0 <= j < k ensures steps[..k][j] == steps[j] {
    }
  }

  lemma StepCapacity(s: State, step: Step)
    requires Apply(s, step).Some?
    ensures Apply(s, step).value.queue.capacity == s.queue.capacity
  {
  }

  lemma {:induction false} CapacityStays(m: nat, ic: nat, qc: nat, steps: seq<Step>)
    requires Exec(Initial(m, ic, qc), steps).Some?
    ensures Exec(Initial(m, ic, qc), steps).value.queue.capacity == qc
  {
    if steps != [] {
      CapacityStays(m, ic, qc, steps[..|steps| - 1]);
      StepCapacity(Exec(Initial(m, ic, qc), steps[..|steps| - 1]).value, steps[|steps| - 1]);
    }
  }
}
