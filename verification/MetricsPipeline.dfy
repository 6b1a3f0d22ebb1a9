/** The life of a metric message in metrics/processor.go: `enqueueMetric`, the `run`
    goroutine, the workers with their buffers, and `Start` and `Stop`, as small steps
    under any schedule. */
module MetricsPipeline {
  import opened Prelude

  datatype Message = Message(key: string, value: real)

  /** A buffered channel and how often it has been closed. */
  datatype Chan = Chan(items: seq<Message>, capacity: nat, closes: nat) {
    predicate Full() { |items| >= capacity }
    function Push(m: Message): Chan { this.(items := items + [m]) }
    function Close(): Chan { this.(closes := closes + 1) }
  }

  /** `run`: spawned by Start, selecting, or holding a message it has taken from ingress. */
  datatype RunAt = Absent | Spawned | Selecting | Holding(m: Message) | Ended

  datatype Worker = Live(buffer: seq<Message>) | Finished

  /** One call of Transport.Send by flushMessages: the buffered messages, then the derived ones. */
  datatype Batch = Batch(worker: nat, metrics: seq<Message>, derived: seq<Message>)

  const BUFFER_CAPACITY := 1024

  /** The Go panics this code could run into. */
  datatype Fault = EnqueueOnClosed | CloseOfClosed | SendOnClosed

  datatype State = State(
    maxWorkers: nat, started: bool, stopping: bool, ctxDone: bool,
    shutdownCloses: nat, ingress: Chan, queue: Chan,
    run: RunAt, workers: seq<Worker>, waitGroup: int,
    enqueued: seq<Message>, sends: seq<Batch>, lost: seq<Message>,
    fault: Option<Fault>)

  function Initial(maxWorkers: nat, ingressCapacity: nat, queueCapacity: nat): State {
    State(maxWorkers, false, false, false, 0, Chan([], ingressCapacity, 0), Chan([], queueCapacity, 0),
          Absent, [], 0, [], [], [], None)
  }

  datatype Step =
    | Start | CancelContext | Enqueue(m: Message)
    | SpawnWorkers | Take | Forward | Drop | Abandon | EndRun
    | Receive(w: nat, derived: seq<Message>) | Tick(w: nat, derived: seq<Message>)
    | EndWorker(w: nat, derived: seq<Message>)
    | BeginStop | FinishStop

  /** The context or the shutdown channel is ready in a select. */
  predicate ToldToStop(s: State) {
    s.ctxDone || s.shutdownCloses > 0
  }

  /** `close(p.messageQueue)` and the deferred `wg.Done`. */
  function LeaveRun(s: State): State {
    s.(queue := s.queue.Close(), run := Ended, waitGroup := s.waitGroup - 1,
       fault := if s.queue.closes > 0 then Some(CloseOfClosed) else s.fault)
  }

  /** `flushMessages`: nothing is sent, nor derived, for an empty buffer. */
  function Flush(s: State, w: nat, buffer: seq<Message>, derived: seq<Message>): State {
    if buffer == [] then s else s.(sends := s.sends + [Batch(w, buffer, derived)])
  }

  function SetWorker(s: State, w: nat, worker: Worker): State
    requires w < |s.workers|
  {
    s.(workers := s.workers[w := worker])
  }

  function StartRun(s: State): State {
    s.(started := true, ctxDone := false, shutdownCloses := 0, run := Spawned, waitGroup := s.waitGroup + 1)
  }

  function Spawn(s: State): State {
    s.(run := Selecting, workers := seq(s.maxWorkers, i => Live([])), waitGroup := s.waitGroup + s.maxWorkers)
  }

  function ForwardHeld(s: State): State
    requires s.run.Holding?
  {
    s.(queue := s.queue.Push(s.run.m), run := Selecting,
       fault := if s.queue.closes > 0 then Some(SendOnClosed) else s.fault)
  }

  /** The receive arm of processWorker: flush a full buffer first, then append. */
  function ReceiveBy(s: State, w: nat, derived: seq<Message>): State
    requires w < |s.workers| && s.workers[w].Live? && s.queue.items != []
  {
    var m, buffer := s.queue.items[0], s.workers[w].buffer;
    var taken := s.(queue := s.queue.(items := s.queue.items[1..]));
    if |buffer| >= BUFFER_CAPACITY then SetWorker(Flush(taken, w, buffer, derived), w, Live([m]))
    else SetWorker(taken, w, Live(buffer + [m]))
  }

  function EndWorkerOf(s: State, w: nat, derived: seq<Message>): State
    requires w < |s.workers| && s.workers[w].Live?
  {
    SetWorker(Flush(s, w, s.workers[w].buffer, derived), w, Finished).(waitGroup := s.waitGroup - 1)
  }

  /** The first half of Stop, before it waits. */
  function CloseForStop(s: State): State {
    s.(shutdownCloses := s.shutdownCloses + 1, ingress := s.ingress.Close(), stopping := true,
       fault := if s.shutdownCloses > 0 || s.ingress.closes > 0 then Some(CloseOfClosed) else s.fault)
  }

  /** The second half: fresh channels, and whatever was left in the old ones is gone. */
  function Remake(s: State): State {
    s.(lost := s.lost + s.queue.items + s.ingress.items,
       queue := Chan([], s.queue.capacity, 0), ingress := Chan([], s.ingress.capacity, 0),
       started := false, stopping := false, run := Absent, workers := [])
  }

  /** One step; None when it is not enabled. Nothing is enabled after a fault. */
  function Apply(s: State, step: Step): Option<State> {
    if s.fault.Some? then None
    else match step
      case Start => if s.started then None else Some(StartRun(s))
      case CancelContext => Some(s.(ctxDone := true))
      case Enqueue(m) =>
        if s.ingress.closes > 0 then Some(s.(fault := Some(EnqueueOnClosed)))
        else if s.ingress.Full() then None  // the sender blocks
        else Some(s.(ingress := s.ingress.Push(m), enqueued := s.enqueued + [m]))
      case SpawnWorkers => if s.run == Spawned then Some(Spawn(s)) else None
      case Take =>
        if s.run == Selecting && s.ingress.items != []
        then Some(s.(ingress := s.ingress.(items := s.ingress.items[1..]), run := Holding(s.ingress.items[0])))
        else None
      case Forward => if s.run.Holding? && !s.queue.Full() then Some(ForwardHeld(s)) else None
      case Drop =>
        // the default arm: no other arm is ready
        if s.run.Holding? && s.queue.Full() && !ToldToStop(s)
        then Some(s.(lost := s.lost + [s.run.m], run := Selecting)) else None
      case Abandon =>
        if s.run.Holding? && ToldToStop(s) then Some(LeaveRun(s.(lost := s.lost + [s.run.m]))) else None
      case EndRun =>
        if s.run == Selecting && (ToldToStop(s) || (s.ingress.closes > 0 && s.ingress.items == []))
        then Some(LeaveRun(s)) else None
      case Receive(w, derived) =>
        if w < |s.workers| && s.workers[w].Live? && s.queue.items != []
        then Some(ReceiveBy(s, w, derived)) else None
      case Tick(w, derived) =>
        if w < |s.workers| && s.workers[w].Live?
        then Some(SetWorker(Flush(s, w, s.workers[w].buffer, derived), w, Live([]))) else None
      case EndWorker(w, derived) =>
        if w < |s.workers| && s.workers[w].Live? && (ToldToStop(s) || (s.queue.closes > 0 && s.queue.items == []))
        then Some(EndWorkerOf(s, w, derived)) else None
      case BeginStop => if s.started then Some(CloseForStop(s)) else None
      case FinishStop => if s.stopping && s.waitGroup == 0 then Some(Remake(s)) else None
  }

  function Exec(s: State, steps: seq<Step>): Option<State> {
    if steps == [] then Some(s)
    else match Exec(s, steps[..|steps| - 1])
      case None => None
      case Some(before) => Apply(before, steps[|steps| - 1])
  }

  // ---- Lifecycle ----

  function LiveCount(workers: seq<Worker>): nat {
    if workers == [] then 0
    else LiveCount(workers[..|workers| - 1]) + if workers[|workers| - 1].Live? then 1 else 0
  }

  lemma {:induction false} LiveCountUpdate(workers: seq<Worker>, w: nat, worker: Worker)
    requires w < |workers|
    ensures LiveCount(workers[w := worker]) ==
            LiveCount(workers) - (if workers[w].Live? then 1 else 0) + (if worker.Live? then 1 else 0)
  {
    var last := |workers| - 1;
    if w < last {
      LiveCountUpdate(workers[..last], w, worker);
      assert workers[w := worker][..last] == workers[..last][w := worker];
    } else {
      assert workers[w := worker][..last] == workers[..last];
    }
  }

  lemma {:induction false} LiveCountAll(workers: seq<Worker>)
    ensures (forall w :: 0 <= w < |workers| ==> workers[w].Live?) ==> LiveCount(workers) == |workers|
    ensures LiveCount(workers) == 0 ==> forall w :: 0 <= w < |workers| ==> workers[w].Finished?
  {
    if workers != [] {
      LiveCountAll(workers[..|workers| - 1]);
    }
  }

  ghost predicate Lifecycle(s: State) {
    && s.fault == None
    && (s.started <==> s.run != Absent) && (s.stopping ==> s.started)
    && s.ingress.closes == (if s.stopping then 1 else 0)
    && (s.started ==> s.shutdownCloses == s.ingress.closes)
    && s.queue.closes == (if s.run == Ended then 1 else 0)
    && |s.workers| == (if s.run in {Absent, Spawned} then 0 else s.maxWorkers)
    && s.waitGroup == (if s.run in {Absent, Ended} then 0 else 1) + LiveCount(s.workers)
    && |s.ingress.items| <= s.ingress.capacity && |s.queue.items| <= s.queue.capacity
    && (forall w :: 0 <= w < |s.workers| && s.workers[w].Live? ==> |s.workers[w].buffer| <= BUFFER_CAPACITY)
    && (forall i :: 0 <= i < |s.sends| ==> 0 < |s.sends[i].metrics| <= BUFFER_CAPACITY)
  }

  /** What the caller keeps out: a second Stop while one waits, and an enqueue on the closed channel. */
  predicate Allowed(s: State, step: Step) {
    match step
    case BeginStop => !s.stopping
    case Enqueue(_) => !s.stopping
    case _ => true
  }

  lemma WorkerKeepsLifecycle(s: State, s': State, w: nat, worker: Worker)
    requires Lifecycle(s) && w < |s.workers| && s.workers[w].Live?
    requires worker.Live? ==> |worker.buffer| <= BUFFER_CAPACITY
    requires s' == s.(workers := s.workers[w := worker], queue := s'.queue, sends := s'.sends,
                      waitGroup := s'.waitGroup)
    requires s'.waitGroup == s.waitGroup - if worker.Live? then 0 else 1
    requires s'.queue == s.queue.(items := s'.queue.items) && |s'.queue.items| <= |s.queue.items|
    requires s'.sends == s.sends
          || (|s'.sends| == |s.sends| + 1 && s'.sends[..|s.sends|] == s.sends
              && 0 < |s'.sends[|s.sends|].metrics| <= BUFFER_CAPACITY)
    ensures Lifecycle(s')
  {
    LiveCountUpdate(s.workers, w, worker);
    forall i | 0 <= i < |s'.sends| ensures 0 < |s'.sends[i].metrics| <= BUFFER_CAPACITY {
      if i < |s.sends| { assert s'.sends[i] == s'.sends[..|s.sends|][i]; }
    }
  }

  lemma SpawnKeepsLifecycle(s: State)
    requires Lifecycle(s) && s.run == Spawned
    ensures Lifecycle(Spawn(s))
  {
    LiveCountAll(Spawn(s).workers);
  }

  lemma FinishedStop(s: State)
    requires Lifecycle(s) && s.waitGroup == 0 && s.started
    ensures s.run == Ended && |s.workers| == s.maxWorkers
    ensures forall w :: 0 <= w < |s.workers| ==> s.workers[w].Finished?
  {
    LiveCountAll(s.workers);
  }

  lemma FeedingKeepsLifecycle(s: State, step: Step)
    requires Lifecycle(s) && Allowed(s, step) && Apply(s, step).Some?
    requires step.CancelContext? || step.Enqueue? || step.Take? || step.Forward? || step.Drop?
    ensures Lifecycle(Apply(s, step).value)
  {
  }

  lemma ControlKeepsLifecycle(s: State, step: Step)
    requires Lifecycle(s) && Allowed(s, step) && Apply(s, step).Some?
    requires step.Start? || step.Abandon? || step.EndRun? || step.BeginStop? || step.FinishStop?
    ensures Lifecycle(Apply(s, step).value)
  {
  }

  lemma StepKeepsLifecycle(s: State, step: Step)
    requires Lifecycle(s) && Allowed(s, step) && Apply(s, step).Some?
    ensures Lifecycle(Apply(s, step).value)
  {
    match step {
      case SpawnWorkers => SpawnKeepsLifecycle(s);
      case Receive(w, derived) =>
        WorkerKeepsLifecycle(s, ReceiveBy(s, w, derived), w, ReceiveBy(s, w, derived).workers[w]);
      case Tick(w, derived) => WorkerKeepsLifecycle(s, Apply(s, step).value, w, Live([]));
      case EndWorker(w, derived) => WorkerKeepsLifecycle(s, EndWorkerOf(s, w, derived), w, Finished);
      case _ =>
        if step.CancelContext? || step.Enqueue? || step.Take? || step.Forward? || step.Drop? {
          FeedingKeepsLifecycle(s, step);
        } else {
          ControlKeepsLifecycle(s, step);
        }
    }
  }

  ghost predicate AllowedRun(start: State, steps: seq<Step>) {
    steps != [] ==>
      && AllowedRun(start, steps[..|steps| - 1])
      && var before := Exec(start, steps[..|steps| - 1]);
         before.Some? ==> Allowed(before.value, steps[|steps| - 1])
  }

  lemma {:induction false} RunKeepsLifecycle(start: State, steps: seq<Step>)
    requires Lifecycle(start) && AllowedRun(start, steps)
    ensures Exec(start, steps).Some? ==> Lifecycle(Exec(start, steps).value)
  {
    if steps != [] {
      RunKeepsLifecycle(start, steps[..|steps| - 1]);
      if Exec(start, steps).Some? {
        StepKeepsLifecycle(Exec(start, steps[..|steps| - 1]).value, steps[|steps| - 1]);
      }
    }
  }

  lemma InitialLifecycle(maxWorkers: nat, ingressCapacity: nat, queueCapacity: nat)
    ensures Lifecycle(Initial(maxWorkers, ingressCapacity, queueCapacity))
  {
  }

  /** A panic happens exactly on a step the caller was to keep out. */
  lemma PanicsExactlyWhen(s: State, step: Step)
    requires Lifecycle(s) && Apply(s, step).Some?
    ensures Apply(s, step).value.fault.Some? <==> !Allowed(s, step)
  {
    if Allowed(s, step) {
      StepKeepsLifecycle(s, step);
    }
  }

  /** Stop's wait ends only after run and all workers have ended; by then each channel of
      this generation has been closed exactly once, and Stop leaves open, empty channels of
      the same capacity. */
  lemma StopIsClean(m: nat, ic: nat, qc: nat, steps: seq<Step>)
    requires AllowedRun(Initial(m, ic, qc), steps) && Exec(Initial(m, ic, qc), steps).Some?
    ensures var s := Exec(Initial(m, ic, qc), steps).value;
            Apply(s, FinishStop).Some? ==>
              && s.run == Ended && |s.workers| == s.maxWorkers
              && (forall w :: 0 <= w < |s.workers| ==> s.workers[w] == Finished)
              && s.shutdownCloses == 1 && s.ingress.closes == 1 && s.queue.closes == 1
              && var s' := Apply(s, FinishStop).value;
                 && !s'.started && s'.waitGroup == 0
                 && s'.queue == Chan([], s.queue.capacity, 0) && s'.ingress == Chan([], s.ingress.capacity, 0)
  {
    InitialLifecycle(m, ic, qc);
    RunKeepsLifecycle(Initial(m, ic, qc), steps);
    var s := Exec(Initial(m, ic, qc), steps).value;
    if Apply(s, FinishStop).Some? {
      FinishedStop(s);
    }
  }

  // ---- Conservation ----

  function Held(run: RunAt): seq<Message> {
    if run.Holding? then [run.m] else []
  }

  function Buffered(worker: Worker): seq<Message> {
    if worker.Live? then worker.buffer else []
  }

  /** How often `x` occurs. */
  function Count(items: seq<Message>, x: Message): nat {
    if items == [] then 0 else Count(items[..|items| - 1], x) + if items[|items| - 1] == x then 1 else 0
  }

  function CountBuffered(workers: seq<Worker>, x: Message): nat {
    if workers == [] then 0
    else CountBuffered(workers[..|workers| - 1], x) + Count(Buffered(workers[|workers| - 1]), x)
  }

  function CountSent(sends: seq<Batch>, x: Message): nat {
    if sends == [] then 0
    else CountSent(sends[..|sends| - 1], x) + Count(sends[|sends| - 1].metrics, x)
  }

  /** Every copy of `x` that was enqueued is in exactly one of these places. */
  ghost predicate Conserved(s: State, x: Message) {
    Count(s.enqueued, x) ==
      Count(s.ingress.items, x) + Count(Held(s.run), x) + Count(s.queue.items, x)
      + CountBuffered(s.workers, x) + CountSent(s.sends, x) + Count(s.lost, x)
  }

  lemma {:induction false} CountConcat(a: seq<Message>, b: seq<Message>, x: Message)
    ensures Count(a + b, x) == Count(a, x) + Count(b, x)
  {
    if b == [] {
      assert a + b == a;
    } else {
      CountConcat(a, b[..|b| - 1], x);
      assert (a + b)[..|a + b| - 1] == a + b[..|b| - 1];
    }
  }

  lemma CountHead(items: seq<Message>, x: Message)
    requires items != []
    ensures Count(items, x) == Count([items[0]], x) + Count(items[1..], x)
  {
    assert items == [items[0]] + items[1..];
    CountConcat([items[0]], items[1..], x);
  }

  /** Count is the multiset's own count. */
  lemma {:induction false} CountIsMultiplicity(items: seq<Message>, x: Message)
    ensures Count(items, x) == multiset(items)[x]
  {
    if items != [] {
      CountIsMultiplicity(items[..|items| - 1], x);
      assert items == items[..|items| - 1] + [items[|items| - 1]];
    }
  }

  lemma {:induction false} CountBufferedUpdate(workers: seq<Worker>, w: nat, worker: Worker, x: Message)
    requires w < |workers|
    ensures CountBuffered(workers[w := worker], x) + Count(Buffered(workers[w]), x)
         == CountBuffered(workers, x) + Count(Buffered(worker), x)
  {
    var last := |workers| - 1;
    if w < last {
      CountBufferedUpdate(workers[..last], w, worker, x);
      assert workers[w := worker][..last] == workers[..last][w := worker];
    } else {
      assert workers[w := worker][..last] == workers[..last];
    }
  }

  lemma {:induction false} CountBufferedNone(workers: seq<Worker>, x: Message)
    requires forall w :: 0 <= w < |workers| ==> Buffered(workers[w]) == []
    ensures CountBuffered(workers, x) == 0
  {
    if workers != [] {
      CountBufferedNone(workers[..|workers| - 1], x);
    }
  }

  lemma FlushCounts(s: State, w: nat, buffer: seq<Message>, derived: seq<Message>, x: Message)
    ensures CountSent(Flush(s, w, buffer, derived).sends, x) == CountSent(s.sends, x) + Count(buffer, x)
  {
    var sends := Flush(s, w, buffer, derived).sends;
    if buffer != [] {
      assert sends[..|sends| - 1] == s.sends;
    }
  }

  lemma ReceiveConserves(s: State, w: nat, derived: seq<Message>, x: Message)
    requires Conserved(s, x) && w < |s.workers| && s.workers[w].Live? && s.queue.items != []
    ensures Conserved(ReceiveBy(s, w, derived), x)
  {
    var m, buffer := s.queue.items[0], s.workers[w].buffer;
    var taken := s.(queue := s.queue.(items := s.queue.items[1..]));
    CountHead(s.queue.items, x);
    if |buffer| >= BUFFER_CAPACITY {
      FlushCounts(taken, w, buffer, derived, x);
      CountBufferedUpdate(s.workers, w, Live([m]), x);
    } else {
      CountConcat(buffer, [m], x);
      CountBufferedUpdate(s.workers, w, Live(buffer + [m]), x);
    }
  }

  /** What is counted apart from buffers and batches is untouched. */
  lemma HandedOnConserves(s: State, s': State, x: Message)
    requires Conserved(s, x)
    requires s'.enqueued == s.enqueued && s'.ingress.items == s.ingress.items && s'.queue.items == s.queue.items
    requires s'.run == s.run && s'.lost == s.lost
    requires CountBuffered(s'.workers, x) + CountSent(s'.sends, x)
          == CountBuffered(s.workers, x) + CountSent(s.sends, x)
    ensures Conserved(s', x)
  {
  }

  lemma FlushConserves(s: State, w: nat, derived: seq<Message>, worker: Worker, waitGroup: int, x: Message)
    requires Conserved(s, x) && w < |s.workers| && s.workers[w].Live? && Buffered(worker) == []
    ensures Conserved(SetWorker(Flush(s, w, s.workers[w].buffer, derived), w, worker).(waitGroup := waitGroup), x)
  {
    FlushCounts(s, w, s.workers[w].buffer, derived, x);
    CountBufferedUpdate(s.workers, w, worker, x);
    HandedOnConserves(s, SetWorker(Flush(s, w, s.workers[w].buffer, derived), w, worker).(waitGroup := waitGroup), x);
  }

  lemma SpawnConserves(s: State, x: Message)
    requires Lifecycle(s) && Conserved(s, x) && s.run == Spawned
    ensures Conserved(Spawn(s), x)
  {
    assert s.workers == [];
    CountBufferedNone(Spawn(s).workers, x);
  }

  lemma RemakeConserves(s: State, x: Message)
    requires Lifecycle(s) && Conserved(s, x) && s.started && s.waitGroup == 0
    ensures Conserved(Remake(s), x)
  {
    FinishedStop(s);
    CountBufferedNone(s.workers, x);
    CountConcat(s.lost, s.queue.items, x);
    CountConcat(s.lost + s.queue.items, s.ingress.items, x);
  }

  lemma TakeConserves(s: State, x: Message)
    requires Conserved(s, x) && s.run == Selecting && s.ingress.items != []
    ensures Conserved(s.(ingress := s.ingress.(items := s.ingress.items[1..]), run := Holding(s.ingress.items[0])), x)
  {
    CountHead(s.ingress.items, x);
  }

  lemma EnqueueConserves(s: State, m: Message, x: Message)
    requires Conserved(s, x)
    ensures Conserved(s.(ingress := s.ingress.Push(m), enqueued := s.enqueued + [m]), x)
  {
    CountConcat(s.enqueued, [m], x);
    CountConcat(s.ingress.items, [m], x);
  }

  lemma ForwardConserves(s: State, x: Message)
    requires Conserved(s, x) && s.run.Holding?
    ensures Conserved(ForwardHeld(s), x)
  {
    CountConcat(s.queue.items, [s.run.m], x);
    assert Held(s.run) == [s.run.m] && Held(Selecting) == [];
  }

  /** Dropping or abandoning the held message. */
  lemma LosingConserves(s: State, s': State, x: Message)
    requires Conserved(s, x) && s.run.Holding? && !s'.run.Holding? && s'.lost == s.lost + [s.run.m]
    requires s'.enqueued == s.enqueued && s'.ingress.items == s.ingress.items && s'.queue.items == s.queue.items
    requires s'.workers == s.workers && s'.sends == s.sends
    ensures Conserved(s', x)
  {
    CountConcat(s.lost, [s.run.m], x);
    assert Held(s.run) == [s.run.m] && Held(s'.run) == [];
  }

  lemma HeldConserves(s: State, step: Step, x: Message)
    requires Conserved(s, x) && Apply(s, step).Some? && (step.Forward? || step.Drop? || step.Abandon?)
    ensures Conserved(Apply(s, step).value, x)
  {
    if step.Forward? {
      ForwardConserves(s, x);
    } else {
      LosingConserves(s, Apply(s, step).value, x);
    }
  }

  lemma WorkerConserves(s: State, step: Step, x: Message)
    requires Conserved(s, x) && Apply(s, step).Some? && (step.Receive? || step.Tick? || step.EndWorker?)
    ensures Conserved(Apply(s, step).value, x)
  {
    match step {
      case Receive(w, derived) => ReceiveConserves(s, w, derived, x);
      case Tick(w, derived) => FlushConserves(s, w, derived, Live([]), s.waitGroup, x);
      case EndWorker(w, derived) => FlushConserves(s, w, derived, Finished, s.waitGroup - 1, x);
    }
  }

  lemma StepConserves(s: State, step: Step, x: Message)
    requires Lifecycle(s) && Conserved(s, x) && Allowed(s, step) && Apply(s, step).Some?
    ensures Conserved(Apply(s, step).value, x)
  {
    match step {
      case Enqueue(m) => EnqueueConserves(s, m, x);
      case SpawnWorkers => SpawnConserves(s, x);
      case Take => TakeConserves(s, x);
      case Forward => HeldConserves(s, step, x);
      case Drop => HeldConserves(s, step, x);
      case Abandon => HeldConserves(s, step, x);
      case Receive(_, _) => WorkerConserves(s, step, x);
      case Tick(_, _) => WorkerConserves(s, step, x);
      case EndWorker(_, _) => WorkerConserves(s, step, x);
      case FinishStop => RemakeConserves(s, x);
      case _ =>
    }
  }

  // ---- Order ----

  /** `a` can be read off `b` by leaving elements out. */
  predicate Subsequence(a: seq<Message>, b: seq<Message>) {
    a == [] || (b != [] &&
      ((a[|a| - 1] == b[|b| - 1] && Subsequence(a[..|a| - 1], b[..|b| - 1])) || Subsequence(a, b[..|b| - 1])))
  }

  lemma SubsequenceSnoc(a: seq<Message>, b: seq<Message>, x: Message)
    requires Subsequence(a, b)
    ensures Subsequence(a + [x], b + [x])
  {
    assert (a + [x])[..|a|] == a && (b + [x])[..|b|] == b;
  }

  lemma {:induction false} SubsequenceInit(a: seq<Message>, b: seq<Message>)
    requires Subsequence(a, b) && a != []
    ensures Subsequence(a[..|a| - 1], b)
  {
    if a[|a| - 1] == b[|b| - 1] && Subsequence(a[..|a| - 1], b[..|b| - 1]) {
    } else {
      SubsequenceInit(a, b[..|b| - 1]);
    }
  }

  lemma {:induction false} SubsequenceWithout(p: seq<Message>, x: seq<Message>, q: seq<Message>, b: seq<Message>)
    requires Subsequence(p + x + q, b)
    ensures Subsequence(p + q, b)
    decreases |b|, |x|
  {
    var a := p + x + q;
    if x == [] {
      assert a == p + q;
    } else if q == [] {
      SubsequenceInit(a, b);
      assert a[..|a| - 1] == p + x[..|x| - 1] + q;
      SubsequenceWithout(p, x[..|x| - 1], q, b);
    } else if a[|a| - 1] == b[|b| - 1] && Subsequence(a[..|a| - 1], b[..|b| - 1]) {
      assert a[..|a| - 1] == p + x + q[..|q| - 1];
      SubsequenceWithout(p, x, q[..|q| - 1], b[..|b| - 1]);
      assert (p + q)[..|p + q| - 1] == p + q[..|q| - 1];
    } else {
      SubsequenceWithout(p, x, q, b[..|b| - 1]);
    }
  }

  lemma SubsequencePrefix(a: seq<Message>, b: seq<Message>, c: seq<Message>)
    requires Subsequence(a + b, c)
    ensures Subsequence(a, c)
  {
    assert a + b == a + b + [] && a + [] == a;
    SubsequenceWithout(a, b, [], c);
  }

  /** The metric messages worker `w` has handed to Send, over all its flushes. */
  function SentBy(sends: seq<Batch>, w: nat): seq<Message> {
    if sends == [] then []
    else
      var before, last := SentBy(sends[..|sends| - 1], w), sends[|sends| - 1];
      if last.worker == w then before + last.metrics else before
  }

  function BufferOf(s: State, w: nat): seq<Message> {
    if w < |s.workers| then Buffered(s.workers[w]) else []
  }

  /** What worker `w` has sent and may still send, in the order it would send it. */
  function Line(s: State, w: nat): seq<Message> {
    SentBy(s.sends, w) + BufferOf(s, w) + (s.queue.items + Held(s.run) + s.ingress.items)
  }

  ghost predicate InOrder(s: State, w: nat) {
    Subsequence(Line(s, w), s.enqueued)
  }

  lemma FlushKeepsLine(s: State, v: nat, buffer: seq<Message>, derived: seq<Message>, w: nat)
    ensures v == w ==> SentBy(Flush(s, v, buffer, derived).sends, w) == SentBy(s.sends, w) + buffer
    ensures v != w ==> SentBy(Flush(s, v, buffer, derived).sends, w) == SentBy(s.sends, w)
  {
    var sends := Flush(s, v, buffer, derived).sends;
    if buffer != [] {
      assert sends[..|sends| - 1] == s.sends;
    }
  }

  lemma HeadMoves(front: seq<Message>, c: seq<Message>, rest: seq<Message>)
    requires c != []
    ensures (front + [c[0]]) + (c[1..] + rest) == front + (c + rest)
  {
    assert c == [c[0]] + c[1..];
  }

  lemma SetWorkerBuffer(s: State, v: nat, worker: Worker, w: nat)
    requires v < |s.workers|
    ensures BufferOf(SetWorker(s, v, worker), w) == if v == w then Buffered(worker) else BufferOf(s, w)
  {
  }

  /** Receiving extends what the worker itself has sent and buffered by the head of the queue. */
  lemma OwnReceiveFront(s: State, w: nat, derived: seq<Message>)
    requires w < |s.workers| && s.workers[w].Live? && s.queue.items != []
    ensures var s' := ReceiveBy(s, w, derived);
            SentBy(s'.sends, w) + BufferOf(s', w) == SentBy(s.sends, w) + BufferOf(s, w) + [s.queue.items[0]]
  {
    var m, buffer := s.queue.items[0], s.workers[w].buffer;
    var taken := s.(queue := s.queue.(items := s.queue.items[1..]));
    if |buffer| >= BUFFER_CAPACITY {
      FlushKeepsLine(taken, w, buffer, derived, w);
      SetWorkerBuffer(Flush(taken, w, buffer, derived), w, Live([m]), w);
    } else {
      SetWorkerBuffer(taken, w, Live(buffer + [m]), w);
      Assoc(SentBy(s.sends, w), buffer, [m]);
    }
  }

  lemma Assoc(a: seq<Message>, b: seq<Message>, c: seq<Message>)
    ensures (a + b) + c == a + (b + c)
  {
  }

  lemma OtherReceiveFront(s: State, v: nat, derived: seq<Message>, w: nat)
    requires v < |s.workers| && s.workers[v].Live? && s.queue.items != [] && v != w
    ensures var s' := ReceiveBy(s, v, derived);
            SentBy(s'.sends, w) == SentBy(s.sends, w) && BufferOf(s', w) == BufferOf(s, w)
  {
    FlushKeepsLine(s.(queue := s.queue.(items := s.queue.items[1..])), v, s.workers[v].buffer, derived, w);
  }

  /** Receiving leaves the rest of the line alone: the head of the queue is all that moves. */
  lemma ReceiveLine(s: State, v: nat, derived: seq<Message>, w: nat)
    requires v < |s.workers| && s.workers[v].Live? && s.queue.items != []
    ensures var front, c := SentBy(s.sends, w) + BufferOf(s, w), s.queue.items;
            var rest := c[1..] + (Held(s.run) + s.ingress.items);
            && Line(s, w) == front + [c[0]] + rest
            && Line(ReceiveBy(s, v, derived), w) == if v == w then front + [c[0]] + rest else front + rest
  {
    var front := SentBy(s.sends, w) + BufferOf(s, w);
    LineTail(s, w);
    LineTail(ReceiveBy(s, v, derived), w);
    HeadMoves(front, s.queue.items, Held(s.run) + s.ingress.items);
    if v == w {
      OwnReceiveFront(s, w, derived);
    } else {
      OtherReceiveFront(s, v, derived, w);
    }
  }

  lemma ReceiveKeepsOrder(s: State, v: nat, derived: seq<Message>, w: nat)
    requires InOrder(s, w) && v < |s.workers| && s.workers[v].Live? && s.queue.items != []
    ensures InOrder(ReceiveBy(s, v, derived), w)
  {
    var front, c := SentBy(s.sends, w) + BufferOf(s, w), s.queue.items;
    ReceiveLine(s, v, derived, w);
    if v != w {
      SubsequenceWithout(front, [c[0]], c[1..] + (Held(s.run) + s.ingress.items), s.enqueued);
    }
  }

  lemma LineTail(s: State, w: nat)
    ensures Line(s, w) == SentBy(s.sends, w) + BufferOf(s, w) + (s.queue.items + (Held(s.run) + s.ingress.items))
  {
    assert s.queue.items + Held(s.run) + s.ingress.items == s.queue.items + (Held(s.run) + s.ingress.items);
  }

  lemma SameFrontKeepsOrder(s: State, s': State, w: nat)
    requires InOrder(s, w) && s'.enqueued == s.enqueued
    requires SentBy(s'.sends, w) + BufferOf(s', w) == SentBy(s.sends, w) + BufferOf(s, w)
    requires s'.queue.items == s.queue.items && Held(s'.run) == Held(s.run) && s'.ingress.items == s.ingress.items
    ensures InOrder(s', w)
  {
  }

  /** `s'` is `s` with the buffer of worker `v` flushed. */
  ghost predicate FlushedBy(s: State, s': State, v: nat, derived: seq<Message>, worker: Worker)
    requires v < |s.workers| && s.workers[v].Live?
  {
    && s'.sends == Flush(s, v, s.workers[v].buffer, derived).sends && s'.workers == s.workers[v := worker]
    && s'.enqueued == s.enqueued && s'.run == s.run
    && s'.queue.items == s.queue.items && s'.ingress.items == s.ingress.items
  }

  lemma FlushKeepsOrder(s: State, s': State, v: nat, derived: seq<Message>, worker: Worker, w: nat)
    requires InOrder(s, w) && v < |s.workers| && s.workers[v].Live? && Buffered(worker) == []
    requires FlushedBy(s, s', v, derived, worker)
    ensures InOrder(s', w)
  {
    FlushKeepsFront(s, s', v, derived, worker, w);
    SameFrontKeepsOrder(s, s', w);
  }

  lemma FlushedBuffer(s: State, s': State, v: nat, derived: seq<Message>, worker: Worker, w: nat)
    requires v < |s.workers| && s.workers[v].Live? && Buffered(worker) == []
    requires FlushedBy(s, s', v, derived, worker)
    ensures BufferOf(s', w) == if v == w then [] else BufferOf(s, w)
    ensures v == w ==> BufferOf(s, w) == s.workers[v].buffer
  {
  }

  lemma FlushKeepsFront(s: State, s': State, v: nat, derived: seq<Message>, worker: Worker, w: nat)
    requires v < |s.workers| && s.workers[v].Live? && Buffered(worker) == []
    requires FlushedBy(s, s', v, derived, worker)
    ensures SentBy(s'.sends, w) + BufferOf(s', w) == SentBy(s.sends, w) + BufferOf(s, w)
  {
    FlushKeepsLine(s, v, s.workers[v].buffer, derived, w);
    FlushedBuffer(s, s', v, derived, worker, w);
    AppendNothing(SentBy(s'.sends, w));
  }

  lemma TickFlushes(s: State, v: nat, derived: seq<Message>)
    requires v < |s.workers| && s.workers[v].Live?
    ensures FlushedBy(s, SetWorker(Flush(s, v, s.workers[v].buffer, derived), v, Live([])), v, derived, Live([]))
    ensures FlushedBy(s, EndWorkerOf(s, v, derived), v, derived, Finished)
  {
  }

  lemma AppendNothing(a: seq<Message>)
    ensures a + [] == a
  {
  }

  lemma EnqueueKeepsOrder(s: State, m: Message, w: nat)
    requires InOrder(s, w)
    ensures InOrder(s.(ingress := s.ingress.Push(m), enqueued := s.enqueued + [m]), w)
  {
    SubsequenceSnoc(Line(s, w), s.enqueued, m);
    LastAppends(SentBy(s.sends, w) + BufferOf(s, w), s.queue.items + Held(s.run), s.ingress.items, [m]);
  }

  lemma LastAppends(a: seq<Message>, b: seq<Message>, c: seq<Message>, d: seq<Message>)
    ensures a + (b + c) + d == a + (b + (c + d))
  {
  }

  lemma TakeKeepsOrder(s: State, w: nat)
    requires InOrder(s, w) && s.run == Selecting && s.ingress.items != []
    ensures InOrder(s.(ingress := s.ingress.(items := s.ingress.items[1..]), run := Holding(s.ingress.items[0])), w)
  {
    var q, g := s.queue.items, s.ingress.items;
    assert g == [g[0]] + g[1..];
    assert q + [g[0]] + g[1..] == q + [] + g;
  }

  lemma ForwardKeepsOrder(s: State, w: nat)
    requires InOrder(s, w) && s.run.Holding?
    ensures InOrder(ForwardHeld(s), w)
  {
    ForwardedLine(s.queue.items, s.run.m, s.ingress.items);
  }

  lemma ForwardedLine(q: seq<Message>, m: Message, g: seq<Message>)
    ensures (q + [m]) + [] + g == q + [m] + g
  {
  }

  /** Dropping or abandoning the held message. */
  lemma LosingKeepsOrder(s: State, s': State, w: nat)
    requires InOrder(s, w) && s.run.Holding? && !s'.run.Holding?
    requires s'.sends == s.sends && s'.workers == s.workers && s'.enqueued == s.enqueued
    requires s'.queue.items == s.queue.items && s'.ingress.items == s.ingress.items
    ensures InOrder(s', w)
  {
    WithoutHeld(SentBy(s.sends, w) + BufferOf(s, w), s.queue.items, s.run.m, s.ingress.items, s.enqueued);
  }

  lemma WithoutHeld(front: seq<Message>, q: seq<Message>, m: Message, g: seq<Message>, enqueued: seq<Message>)
    requires Subsequence(front + (q + [m] + g), enqueued)
    ensures Subsequence(front + (q + [] + g), enqueued)
  {
    HeldBetween(front, q, m, g);
    SubsequenceWithout(front + q, [m], g, enqueued);
  }

  lemma HeldBetween(front: seq<Message>, q: seq<Message>, m: Message, g: seq<Message>)
    ensures front + (q + [m] + g) == (front + q) + [m] + g
    ensures front + (q + [] + g) == (front + q) + g
  {
  }

  lemma RemakeKeepsOrder(s: State, w: nat)
    requires Lifecycle(s) && InOrder(s, w) && s.started && s.waitGroup == 0
    ensures InOrder(Remake(s), w)
  {
    FinishedStop(s);
    SubsequencePrefix(SentBy(s.sends, w) + BufferOf(s, w), s.queue.items + Held(s.run) + s.ingress.items, s.enqueued);
    assert SentBy(s.sends, w) + [] + ([] + [] + []) == SentBy(s.sends, w) + [];
  }

  lemma SameLineKeepsOrder(s: State, s': State, w: nat)
    requires InOrder(s, w) && s'.sends == s.sends && s'.enqueued == s.enqueued
    requires BufferOf(s', w) == BufferOf(s, w) && Held(s'.run) == Held(s.run)
    requires s'.queue.items == s.queue.items && s'.ingress.items == s.ingress.items
    ensures InOrder(s', w)
  {
  }

  lemma HeldKeepsOrder(s: State, step: Step, w: nat)
    requires InOrder(s, w) && Apply(s, step).Some? && (step.Forward? || step.Drop? || step.Abandon?)
    ensures InOrder(Apply(s, step).value, w)
  {
    if step.Forward? {
      ForwardKeepsOrder(s, w);
    } else {
      LosingKeepsOrder(s, Apply(s, step).value, w);
    }
  }

  lemma WorkerKeepsOrder(s: State, step: Step, w: nat)
    requires InOrder(s, w) && Apply(s, step).Some? && (step.Receive? || step.Tick? || step.EndWorker?)
    ensures InOrder(Apply(s, step).value, w)
  {
    match step {
      case Receive(v, derived) => ReceiveKeepsOrder(s, v, derived, w);
      case Tick(v, derived) =>
        TickFlushes(s, v, derived);
        FlushKeepsOrder(s, Apply(s, step).value, v, derived, Live([]), w);
      case EndWorker(v, derived) =>
        TickFlushes(s, v, derived);
        FlushKeepsOrder(s, Apply(s, step).value, v, derived, Finished, w);
    }
  }

  lemma ControlKeepsOrder(s: State, step: Step, w: nat)
    requires Lifecycle(s) && InOrder(s, w) && Apply(s, step).Some?
    requires step.Start? || step.CancelContext? || step.SpawnWorkers? || step.EndRun? || step.BeginStop?
    ensures InOrder(Apply(s, step).value, w)
  {
    SameLineKeepsOrder(s, Apply(s, step).value, w);
  }

  lemma StepKeepsOrder(s: State, step: Step, w: nat)
    requires Lifecycle(s) && InOrder(s, w) && Allowed(s, step) && Apply(s, step).Some?
    ensures InOrder(Apply(s, step).value, w)
  {
    match step {
      case Enqueue(m) => EnqueueKeepsOrder(s, m, w);
      case Take => TakeKeepsOrder(s, w);
      case Forward => HeldKeepsOrder(s, step, w);
      case Drop => HeldKeepsOrder(s, step, w);
      case Abandon => HeldKeepsOrder(s, step, w);
      case Receive(_, _) => WorkerKeepsOrder(s, step, w);
      case Tick(_, _) => WorkerKeepsOrder(s, step, w);
      case EndWorker(_, _) => WorkerKeepsOrder(s, step, w);
      case FinishStop => RemakeKeepsOrder(s, w);
      case _ => ControlKeepsOrder(s, step, w);
    }
  }

  // ---- What every run guarantees ----

  lemma {:induction false} RunConserves(m: nat, ic: nat, qc: nat, steps: seq<Step>, x: Message)
    requires AllowedRun(Initial(m, ic, qc), steps) && Exec(Initial(m, ic, qc), steps).Some?
    ensures Conserved(Exec(Initial(m, ic, qc), steps).value, x)
  {
    if steps != [] {
      var before := steps[..|steps| - 1];
      RunConserves(m, ic, qc, before, x);
      InitialLifecycle(m, ic, qc);
      RunKeepsLifecycle(Initial(m, ic, qc), before);
      StepConserves(Exec(Initial(m, ic, qc), before).value, steps[|steps| - 1], x);
    }
  }

  lemma {:induction false} RunKeepsOrder(m: nat, ic: nat, qc: nat, steps: seq<Step>, w: nat)
    requires AllowedRun(Initial(m, ic, qc), steps) && Exec(Initial(m, ic, qc), steps).Some?
    ensures InOrder(Exec(Initial(m, ic, qc), steps).value, w)
  {
    if steps == [] {
      assert Line(Initial(m, ic, qc), w) == [];
    } else {
      var before := steps[..|steps| - 1];
      RunKeepsOrder(m, ic, qc, before, w);
      InitialLifecycle(m, ic, qc);
      RunKeepsLifecycle(Initial(m, ic, qc), before);
      StepKeepsOrder(Exec(Initial(m, ic, qc), before).value, steps[|steps| - 1], w);
    }
  }

  /** Nothing is duplicated and nothing vanishes: every copy of a message that was enqueued
      is in ingress, in run's hand, queued, buffered, handed to Send, or lost. So no message
      is handed to Send more often than it was enqueued. */
  lemma MessagesAreConserved(m: nat, ic: nat, qc: nat, steps: seq<Step>, x: Message)
    requires AllowedRun(Initial(m, ic, qc), steps) && Exec(Initial(m, ic, qc), steps).Some?
    ensures var s := Exec(Initial(m, ic, qc), steps).value;
            && multiset(s.enqueued)[x] ==
                 multiset(s.ingress.items)[x] + multiset(Held(s.run))[x] + multiset(s.queue.items)[x]
                 + CountBuffered(s.workers, x) + CountSent(s.sends, x) + multiset(s.lost)[x]
            && CountSent(s.sends, x) <= multiset(s.enqueued)[x]
  {
    RunConserves(m, ic, qc, steps, x);
    var s := Exec(Initial(m, ic, qc), steps).value;
    CountIsMultiplicity(s.enqueued, x);
    CountIsMultiplicity(s.ingress.items, x);
    CountIsMultiplicity(Held(s.run), x);
    CountIsMultiplicity(s.queue.items, x);
    CountIsMultiplicity(s.lost, x);
  }

  /** Buffers and batches never outgrow the buffers' initial capacity, nor the channels theirs. */
  lemma BuffersStayBounded(m: nat, ic: nat, qc: nat, steps: seq<Step>)
    requires AllowedRun(Initial(m, ic, qc), steps) && Exec(Initial(m, ic, qc), steps).Some?
    ensures var s := Exec(Initial(m, ic, qc), steps).value;
            && (forall i :: 0 <= i < |s.sends| ==> 0 < |s.sends[i].metrics| <= BUFFER_CAPACITY)
            && (forall w :: 0 <= w < |s.workers| && s.workers[w].Live? ==> |s.workers[w].buffer| <= BUFFER_CAPACITY)
            && |s.ingress.items| <= s.ingress.capacity && |s.queue.items| <= s.queue.capacity
  {
    InitialLifecycle(m, ic, qc);
    RunKeepsLifecycle(Initial(m, ic, qc), steps);
  }

  lemma SentInOrder(s: State, w: nat)
    requires InOrder(s, w)
    ensures Subsequence(SentBy(s.sends, w), s.enqueued)
  {
    SubsequencePrefix(SentBy(s.sends, w) + BufferOf(s, w), s.queue.items + Held(s.run) + s.ingress.items, s.enqueued);
    SubsequencePrefix(SentBy(s.sends, w), BufferOf(s, w), s.enqueued);
  }

  /** What any one worker hands to Send keeps the order of enqueueing, for any number of
      workers, schedule, drops and restarts. */
  lemma EachWorkerSendsInOrder(m: nat, ic: nat, qc: nat, steps: seq<Step>, w: nat)
    requires AllowedRun(Initial(m, ic, qc), steps) && Exec(Initial(m, ic, qc), steps).Some?
    ensures var s := Exec(Initial(m, ic, qc), steps).value;
            Subsequence(SentBy(s.sends, w), s.enqueued)
  {
    RunKeepsOrder(m, ic, qc, steps, w);
    SentInOrder(Exec(Initial(m, ic, qc), steps).value, w);
  }

  /** All metric messages handed to Send, by whichever worker, in order of the calls. */
  function AllSent(sends: seq<Batch>): seq<Message> {
    if sends == [] then [] else AllSent(sends[..|sends| - 1]) + sends[|sends| - 1].metrics
  }

  ghost predicate WorkersNumbered(s: State) {
    |s.workers| <= s.maxWorkers && forall i :: 0 <= i < |s.sends| ==> s.sends[i].worker < s.maxWorkers
  }

  lemma {:induction false} RunNumbersWorkers(m: nat, ic: nat, qc: nat, steps: seq<Step>)
    ensures Exec(Initial(m, ic, qc), steps).Some? ==>
              var s := Exec(Initial(m, ic, qc), steps).value; s.maxWorkers == m && WorkersNumbered(s)
  {
    if steps != [] {
      RunNumbersWorkers(m, ic, qc, steps[..|steps| - 1]);
      if Exec(Initial(m, ic, qc), steps).Some? {
        StepNumbersWorkers(Exec(Initial(m, ic, qc), steps[..|steps| - 1]).value, steps[|steps| - 1]);
      }
    }
  }

  lemma StepNumbersWorkers(s: State, step: Step)
    requires WorkersNumbered(s) && Apply(s, step).Some?
    ensures WorkersNumbered(Apply(s, step).value) && Apply(s, step).value.maxWorkers == s.maxWorkers
  {
  }

  lemma {:induction false} OneWorkerSendsAll(sends: seq<Batch>)
    requires forall i :: 0 <= i < |sends| ==> sends[i].worker == 0
    ensures AllSent(sends) == SentBy(sends, 0)
  {
    if sends != [] {
      OneWorkerSendsAll(sends[..|sends| - 1]);
    }
  }

  /** With one worker the whole stream of metric messages keeps the order of enqueueing. */
  lemma OneWorkerKeepsOrder(ic: nat, qc: nat, steps: seq<Step>)
    requires AllowedRun(Initial(1, ic, qc), steps) && Exec(Initial(1, ic, qc), steps).Some?
    ensures var s := Exec(Initial(1, ic, qc), steps).value; Subsequence(AllSent(s.sends), s.enqueued)
  {
    RunNumbersWorkers(1, ic, qc, steps);
    EachWorkerSendsInOrder(1, ic, qc, steps, 0);
    OneWorkerSendsAll(Exec(Initial(1, ic, qc), steps).value.sends);
  }
}
