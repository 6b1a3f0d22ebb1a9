/** That `Stop` in metrics/processor.go can always finish: its goroutines have moves of their
    own left that end its wait. */
module PipelineShutdown {
  import opened Prelude
  import opened MetricsPipeline

  lemma {:induction false} ExecConcat(s: State, a: seq<Step>, b: seq<Step>)
    requires Exec(s, a).Some?
    ensures Exec(s, a + b) == Exec(Exec(s, a).value, b)
  {
    if b == [] {
      assert a + b == a;
    } else {
      ExecConcat(s, a, b[..|b| - 1]);
      assert (a + b)[..|a + b| - 1] == a + b[..|b| - 1];
    }
  }

  lemma ExecOne(s: State, step: Step)
    ensures Exec(s, [step]) == Apply(s, step)
  {
    assert [step][..0] == [];
  }

  /** Steps by which run and the workers come to their end. */
  predicate Ending(step: Step) {
    step.SpawnWorkers? || step.Abandon? || step.EndRun? || step.EndWorker?
  }

  ghost predicate CanFinish(s: State, more: seq<Step>) {
    && (forall step :: step in more ==> Ending(step))
    && Exec(s, more).Some? && Apply(Exec(s, more).value, FinishStop).Some?
  }

  lemma Prepend(s: State, step: Step, rest: seq<Step>)
    requires Ending(step) && Apply(s, step).Some? && CanFinish(Apply(s, step).value, rest)
    ensures CanFinish(s, [step] + rest)
  {
    ExecOne(s, step);
    ExecConcat(s, [step], rest);
  }

  /** What run, and after it a worker, does next. */
  function Windup(s: State): Step {
    match s.run
    case Spawned => SpawnWorkers
    case Holding(_) => Abandon
    case Selecting => EndRun
    case _ => EndWorker(LastLive(s.workers), [])
  }

  function LastLive(workers: seq<Worker>): nat {
    if workers == [] then 0
    else if workers[|workers| - 1].Live? then |workers| - 1
    else LastLive(workers[..|workers| - 1])
  }

  lemma {:induction false} LastLiveIsLive(workers: seq<Worker>)
    requires LiveCount(workers) > 0
    ensures LastLive(workers) < |workers| && workers[LastLive(workers)].Live?
  {
    if !workers[|workers| - 1].Live? {
      LastLiveIsLive(workers[..|workers| - 1]);
    }
  }

  function RunLeft(run: RunAt): nat {
    match run
    case Spawned => 2
    case Selecting => 1
    case Holding(_) => 1
    case _ => 0
  }

  lemma RunWindsUp(s: State)
    requires Lifecycle(s) && s.stopping && RunLeft(s.run) > 0
    ensures Apply(s, Windup(s)).Some? && Ending(Windup(s))
    ensures var s' := Apply(s, Windup(s)).value;
            Lifecycle(s') && s'.stopping && RunLeft(s'.run) < RunLeft(s.run)
  {
    StepKeepsLifecycle(s, Windup(s));
  }

  lemma WorkerWindsUp(s: State)
    requires Lifecycle(s) && s.stopping && s.run == Ended && LiveCount(s.workers) > 0
    ensures Apply(s, Windup(s)).Some? && Ending(Windup(s))
    ensures var s' := Apply(s, Windup(s)).value;
            Lifecycle(s') && s'.stopping && s'.run == Ended && LiveCount(s'.workers) < LiveCount(s.workers)
  {
    LastLiveIsLive(s.workers);
    StepKeepsLifecycle(s, Windup(s));
    LiveCountUpdate(s.workers, LastLive(s.workers), Finished);
  }

  lemma WindsUp(s: State) returns (more: seq<Step>)
    requires Lifecycle(s) && s.stopping
    ensures CanFinish(s, more)
    decreases RunLeft(s.run), LiveCount(s.workers)
  {
    if RunLeft(s.run) > 0 {
      RunWindsUp(s);
      var rest := WindsUp(Apply(s, Windup(s)).value);
      Prepend(s, Windup(s), rest);
      more := [Windup(s)] + rest;
    } else if LiveCount(s.workers) > 0 {
      WorkerWindsUp(s);
      var rest := WindsUp(Apply(s, Windup(s)).value);
      Prepend(s, Windup(s), rest);
      more := [Windup(s)] + rest;
    } else {
      more := [];
    }
  }

  /** From every state of a run in which Stop waits, steps of run and the workers alone end its
      wait: no worker need receive anything, and nobody else need move. */
  lemma StopCanFinish(m: nat, ic: nat, qc: nat, steps: seq<Step>) returns (more: seq<Step>)
    requires AllowedRun(Initial(m, ic, qc), steps) && Exec(Initial(m, ic, qc), steps).Some?
    requires Exec(Initial(m, ic, qc), steps).value.stopping
    ensures forall step :: step in more ==> Ending(step)
    ensures var end := Exec(Initial(m, ic, qc), steps + more);
            end.Some? && Apply(end.value, FinishStop).Some?
  {
    InitialLifecycle(m, ic, qc);
    RunKeepsLifecycle(Initial(m, ic, qc), steps);
    more := WindsUp(Exec(Initial(m, ic, qc), steps).value);
    ExecConcat(Initial(m, ic, qc), steps, more);
  }
}
