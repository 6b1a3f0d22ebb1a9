/** That messages get through metrics/processor.go: what is in flight can always be sent, and what a
    flush hands to Send. */
module PipelineFlow {
  import opened Prelude
  import opened MetricsPipeline
  import opened PipelineShutdown

  // ---- Flushes ----

  /** A tick, or the end of a worker, sends the whole buffer with what is derived for it; an empty
      buffer sends nothing. */
  lemma FlushesExactly(s: State, w: nat, derived: seq<Message>)
    requires w < |s.workers| && s.workers[w].Live?
    ensures var buffer := s.workers[w].buffer;
            var sends := if buffer == [] then s.sends else s.sends + [Batch(w, buffer, derived)];
            && (Apply(s, Tick(w, derived)).Some? ==>
                  && Apply(s, Tick(w, derived)).value.sends == sends
                  && Apply(s, Tick(w, derived)).value.workers[w] == Live([]))
            && (Apply(s, EndWorker(w, derived)).Some? ==>
                  && Apply(s, EndWorker(w, derived)).value.sends == sends
                  && Apply(s, EndWorker(w, derived)).value.workers[w] == Finished)
  {
  }

  /** Receiving takes the head of the queue into the buffer, and only a buffer of 1024 is sent first. */
  lemma ReceivesExactly(s: State, w: nat, derived: seq<Message>)
    requires Apply(s, Receive(w, derived)).Some?
    ensures var s', buffer, m := Apply(s, Receive(w, derived)).value, s.workers[w].buffer, s.queue.items[0];
            && s'.queue.items == s.queue.items[1..]
            && (|buffer| < 1024 ==> s'.sends == s.sends && s'.workers[w] == Live(buffer + [m]))
            && (|buffer| >= 1024 ==>
                  s'.sends == s.sends + [Batch(w, buffer, derived)] && s'.workers[w] == Live([m]))
  {
  }

  /** Start begins afresh, not told to stop, whatever the last generation was told; once started it
      is refused. Run then brings up all workers, with empty buffers. */
  lemma StartsAfresh(s: State)
    requires s.fault == None
    ensures s.started ==> Apply(s, Start) == None
    ensures !s.started ==>
              && Apply(s, Start).Some?
              && var s' := Apply(s, Start).value;
                 && s'.started && !ToldToStop(s') && s'.run == Spawned && s'.waitGroup == s.waitGroup + 1
                 && s'.ingress == s.ingress && s'.queue == s.queue && s'.sends == s.sends && s'.lost == s.lost
                 && Apply(s', SpawnWorkers).Some?
                 && var s'' := Apply(s', SpawnWorkers).value;
                    && s''.run == Selecting && |s''.workers| == s.maxWorkers
                    && (forall w :: 0 <= w < |s''.workers| ==> s''.workers[w] == Live([]))
                    && s''.waitGroup == s.waitGroup + 1 + s.maxWorkers
  {
  }

  /** Run never blocks on a message in hand: with room it can forward, without it drops, and told
      to stop it can leave. */
  lemma RunNeverBlocks(s: State)
    requires s.fault == None && s.run.Holding?
    ensures Apply(s, Forward).Some? <==> |s.queue.items| < s.queue.capacity
    ensures Apply(s, Drop).Some? <==> |s.queue.items| >= s.queue.capacity && !ToldToStop(s)
    ensures Apply(s, Abandon).Some? <==> ToldToStop(s)
  {
  }

  /** An enqueue on the open channel waits exactly while that is full; then it goes to its end. */
  lemma EnqueuesExactly(s: State, m: Message)
    requires s.fault == None && s.ingress.closes == 0
    ensures Apply(s, Enqueue(m)).Some? <==> |s.ingress.items| < s.ingress.capacity
    ensures Apply(s, Enqueue(m)).Some? ==>
              && Apply(s, Enqueue(m)).value.ingress.items == s.ingress.items + [m]
              && Apply(s, Enqueue(m)).value.enqueued == s.enqueued + [m]
  {
  }

  // ---- Everything in flight can be sent ----

  /** While nothing has told it to stop, a started processor has run and all its workers at work. */
  ghost predicate Alive(s: State) {
    s.started && !ToldToStop(s) ==>
      && (s.run.Spawned? || s.run.Selecting? || s.run.Holding?)
      && forall w :: 0 <= w < |s.workers| ==> s.workers[w].Live?
  }

  lemma FeedingKeepsAlive(s: State, step: Step)
    requires Lifecycle(s) && Alive(s) && Allowed(s, step) && Apply(s, step).Some?
    requires !step.Receive? && !step.Tick? && !step.EndWorker?
    ensures Alive(Apply(s, step).value)
  {
  }

  lemma WorkerKeepsAlive(s: State, step: Step)
    requires Lifecycle(s) && Alive(s) && Apply(s, step).Some? && (step.Receive? || step.Tick? || step.EndWorker?)
    ensures Alive(Apply(s, step).value)
  {
  }

  lemma {:induction false} RunKeepsAlive(start: State, steps: seq<Step>)
    requires Lifecycle(start) && Alive(start) && AllowedRun(start, steps) && Exec(start, steps).Some?
    ensures Alive(Exec(start, steps).value)
  {
    if steps != [] {
      var init, last := steps[..|steps| - 1], steps[|steps| - 1];
      RunKeepsAlive(start, init);
      RunKeepsLifecycle(start, init);
      var s := Exec(start, init).value;
      if last.Receive? || last.Tick? || last.EndWorker? {
        WorkerKeepsAlive(s, last);
      } else {
        FeedingKeepsAlive(s, last);
      }
    }
  }

  predicate Flowing(step: Step) {
    step.SpawnWorkers? || step.Take? || step.Forward? || step.Receive? || step.Tick?
  }

  /** Running undisturbed, with a worker and room in the queue's capacity. */
  ghost predicate Ready(s: State) {
    && Lifecycle(s) && s.started && !ToldToStop(s) && !s.stopping && s.queue.capacity > 0 && s.maxWorkers > 0
    && Alive(s)
  }

  function BufferedTotal(workers: seq<Worker>): nat {
    if workers == [] then 0
    else BufferedTotal(workers[..|workers| - 1]) + |Buffered(workers[|workers| - 1])|
  }

  lemma {:induction false} TotalUpdate(workers: seq<Worker>, w: nat, worker: Worker)
    requires w < |workers|
    ensures BufferedTotal(workers[w := worker]) + |Buffered(workers[w])| == BufferedTotal(workers) + |Buffered(worker)|
  {
    var last := |workers| - 1;
    if w < last {
      TotalUpdate(workers[..last], w, worker);
      assert workers[w := worker][..last] == workers[..last][w := worker];
    } else {
      assert workers[w := worker][..last] == workers[..last];
    }
  }

  /** A worker with something in its buffer, if there is one. */
  function Fullest(workers: seq<Worker>): nat {
    if workers == [] then 0
    else if Buffered(workers[|workers| - 1]) != [] then |workers| - 1
    else Fullest(workers[..|workers| - 1])
  }

  lemma {:induction false} FullestIsFull(workers: seq<Worker>)
    ensures BufferedTotal(workers) > 0 ==> Fullest(workers) < |workers| && Buffered(workers[Fullest(workers)]) != []
    ensures BufferedTotal(workers) == 0 ==> forall w :: 0 <= w < |workers| ==> Buffered(workers[w]) == []
  {
    if workers != [] {
      FullestIsFull(workers[..|workers| - 1]);
    }
  }

  predicate AllSentOn(s: State) {
    s.ingress.items == [] && !s.run.Holding? && s.queue.items == [] && !s.run.Spawned? && BufferedTotal(s.workers) == 0
  }

  /** What moves the messages on. */
  function Onward(s: State): Step {
    if s.run.Spawned? then SpawnWorkers
    else if s.queue.items != [] then Receive(0, [])
    else if s.run.Holding? then Forward
    else if s.ingress.items != [] then Take
    else Tick(Fullest(s.workers), [])
  }

  /** Nothing but the way of the messages changes. */
  ghost predicate Flows(s: State, s': State) {
    Ready(s') && s'.lost == s.lost && s'.enqueued == s.enqueued && s.sends <= s'.sends
  }

  lemma SpawnFlows(s: State)
    requires Ready(s) && s.run.Spawned?
    ensures Apply(s, SpawnWorkers).Some? && Flows(s, Apply(s, SpawnWorkers).value)
    ensures !Apply(s, SpawnWorkers).value.run.Spawned?
  {
    StepKeepsLifecycle(s, SpawnWorkers);
    FeedingKeepsAlive(s, SpawnWorkers);
  }

  lemma RunFlows(s: State, step: Step)
    requires Ready(s) && s.queue.items == []
    requires (step == Forward && s.run.Holding?) || (step == Take && s.run.Selecting? && s.ingress.items != [])
    ensures Apply(s, step).Some? && Flows(s, Apply(s, step).value)
    ensures var s' := Apply(s, step).value;
            && !s'.run.Spawned?
            && (step == Take ==> |s'.ingress.items| < |s.ingress.items|)
            && (step == Forward ==> s'.ingress.items == s.ingress.items && !s'.run.Holding?)
  {
    StepKeepsLifecycle(s, step);
    FeedingKeepsAlive(s, step);
  }

  lemma ReceiveFlows(s: State)
    requires Ready(s) && !s.run.Spawned? && s.queue.items != []
    ensures Apply(s, Receive(0, [])).Some? && Flows(s, Apply(s, Receive(0, [])).value)
    ensures var s' := Apply(s, Receive(0, [])).value;
            s'.run == s.run && s'.ingress == s.ingress && |s'.queue.items| < |s.queue.items|
  {
    StepKeepsLifecycle(s, Receive(0, []));
    WorkerKeepsAlive(s, Receive(0, []));
  }

  lemma TickFlows(s: State)
    requires Ready(s) && !s.run.Spawned? && BufferedTotal(s.workers) > 0
    ensures var step := Tick(Fullest(s.workers), []);
            && Apply(s, step).Some? && Flows(s, Apply(s, step).value)
            && var s' := Apply(s, step).value;
               && s'.run == s.run && s'.ingress == s.ingress && s'.queue == s.queue
               && BufferedTotal(s'.workers) < BufferedTotal(s.workers)
  {
    FullestIsFull(s.workers);
    var w := Fullest(s.workers);
    StepKeepsLifecycle(s, Tick(w, []));
    WorkerKeepsAlive(s, Tick(w, []));
    TotalUpdate(s.workers, w, Live([]));
  }

  lemma ExecFirst(s: State, step: Step, rest: seq<Step>)
    requires Apply(s, step).Some?
    ensures Exec(s, [step] + rest) == Exec(Apply(s, step).value, rest)
  {
    ExecOne(s, step);
    ExecConcat(s, [step], rest);
  }

  lemma FlowsOn(s: State) returns (more: seq<Step>, end: State)
    requires Ready(s)
    ensures Exec(s, more) == Some(end) && Flows(s, end) && AllSentOn(end)
    ensures forall i :: 0 <= i < |more| ==> Flowing(more[i])
    decreases s.run.Spawned?, |s.ingress.items|, s.run.Holding?, |s.queue.items|, BufferedTotal(s.workers)
  {
    if AllSentOn(s) {
      more, end := [], s;
    } else {
      var step := Onward(s);
      if step.SpawnWorkers? {
        SpawnFlows(s);
      } else if step.Receive? {
        ReceiveFlows(s);
      } else if step.Tick? {
        TickFlows(s);
      } else {
        RunFlows(s, step);
      }
      var rest;
      rest, end := FlowsOn(Apply(s, step).value);
      ExecFirst(s, step, rest);
      more := [step] + rest;
    }
  }

  /** From every state of a run in which the processor is started and nothing has told it to stop,
      its own steps can hand every message in flight to Send, losing none: then each message
      enqueued so far has been sent or had been lost before. */
  lemma EverythingCanBeSent(m: nat, ic: nat, qc: nat, steps: seq<Step>) returns (more: seq<Step>, end: State)
    requires m > 0 && qc > 0
    requires AllowedRun(Initial(m, ic, qc), steps) && Exec(Initial(m, ic, qc), steps).Some?
    requires var s := Exec(Initial(m, ic, qc), steps).value; s.started && !ToldToStop(s)
    ensures forall i :: 0 <= i < |more| ==> Flowing(more[i])
    ensures var s := Exec(Initial(m, ic, qc), steps).value;
            && Exec(s, more) == Some(end)
            && end.lost == s.lost && end.enqueued == s.enqueued && s.sends <= end.sends
            && forall x :: Count(end.enqueued, x) == CountSent(end.sends, x) + Count(end.lost, x)
  {
    var start := Initial(m, ic, qc);
    InitialLifecycle(m, ic, qc);
    RunKeepsLifecycle(start, steps);
    RunKeepsAlive(start, steps);
    Capacities(m, ic, qc, steps);
    var s := Exec(start, steps).value;
    more, end := FlowsOn(s);
    forall x ensures Count(end.enqueued, x) == CountSent(end.sends, x) + Count(end.lost, x) {
      RunConserves(m, ic, qc, steps, x);
      FlowConserves(s, more, x);
      FullestIsFull(end.workers);
      CountBufferedNone(end.workers, x);
    }
  }

  lemma StepCapacities(s: State, step: Step)
    requires Apply(s, step).Some?
    ensures Apply(s, step).value.queue.capacity == s.queue.capacity && Apply(s, step).value.maxWorkers == s.maxWorkers
  {
  }

  lemma {:induction false} Capacities(m: nat, ic: nat, qc: nat, steps: seq<Step>)
    requires Exec(Initial(m, ic, qc), steps).Some?
    ensures var s := Exec(Initial(m, ic, qc), steps).value; s.queue.capacity == qc && s.maxWorkers == m
  {
    if steps != [] {
      Capacities(m, ic, qc, steps[..|steps| - 1]);
      StepCapacities(Exec(Initial(m, ic, qc), steps[..|steps| - 1]).value, steps[|steps| - 1]);
    }
  }

  lemma {:induction false} FlowConserves(s: State, more: seq<Step>, x: Message)
    requires Lifecycle(s) && Conserved(s, x) && Exec(s, more).Some?
    requires forall i :: 0 <= i < |more| ==> Flowing(more[i])
    ensures Lifecycle(Exec(s, more).value) && Conserved(Exec(s, more).value, x)
  {
    if more != [] {
      var init, last := more[..|more| - 1], more[|more| - 1];
      FlowConserves(s, init, x);
      StepKeepsLifecycle(Exec(s, init).value, last);
      StepConserves(Exec(s, init).value, last, x);
    }
  }
}
