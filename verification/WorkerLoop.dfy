/** `processWorker` and `flushMessages` of metrics/processor.go as the code runs them: one
    loop over one buffer of fixed capacity that is reused in place. It is proved to do the
    worker's steps of MetricsPipeline, and those to forward all it receives. */
module WorkerLoop {
  import opened Prelude
  import opened MetricsPipeline

  /** What one select yields; `derived` is what a flush would send besides. Leave stands for
      the context, the shutdown channel and a closed, empty queue. */
  datatype Select =
    | Got(m: Message, derived: seq<Message>) | Ticked(derived: seq<Message>) | Leave(derived: seq<Message>)

  datatype Local = Local(buffer: seq<Message>, sent: seq<Batch>)

  function Flushed(w: nat, l: Local, derived: seq<Message>): seq<Batch> {
    if l.buffer == [] then l.sent else l.sent + [Batch(w, l.buffer, derived)]
  }

  function OneSelect(w: nat, l: Local, x: Select): Local {
    match x
    case Got(m, derived) =>
      if |l.buffer| >= BUFFER_CAPACITY then Local([m], Flushed(w, l, derived)) else Local(l.buffer + [m], l.sent)
    case Ticked(derived) => Local([], Flushed(w, l, derived))
    case Leave(derived) => Local([], Flushed(w, l, derived))
  }

  function Selected(w: nat, xs: seq<Select>): Local {
    if xs == [] then Local([], []) else OneSelect(w, Selected(w, xs[..|xs| - 1]), xs[|xs| - 1])
  }

  function Received(xs: seq<Select>): seq<Message> {
    if xs == [] then []
    else Received(xs[..|xs| - 1]) + if xs[|xs| - 1].Got? then [xs[|xs| - 1].m] else []
  }

  // ---- The same steps ----

  function StepOf(w: nat, x: Select): Step {
    match x
    case Got(_, derived) => MetricsPipeline.Receive(w, derived)
    case Ticked(derived) => MetricsPipeline.Tick(w, derived)
    case Leave(derived) => MetricsPipeline.EndWorker(w, derived)
  }

  /** A select of the loop does to the buffer and to the batches what the step does. */
  lemma SelectIsStep(s: State, w: nat, x: Select)
    requires w < |s.workers| && s.workers[w].Live? && Apply(s, StepOf(w, x)).Some?
    requires x.Got? ==> s.queue.items != [] && x.m == s.queue.items[0]
    ensures var s', l := Apply(s, StepOf(w, x)).value, OneSelect(w, Local(s.workers[w].buffer, s.sends), x);
            && s'.sends == l.sent
            && s'.workers == s.workers[w := if x.Leave? then Finished else Live(l.buffer)]
  {
  }

  // ---- What the loop does in all ----

  predicate InBounds(l: Local) {
    && |l.buffer| <= BUFFER_CAPACITY
    && forall i :: 0 <= i < |l.sent| ==> 0 < |l.sent[i].metrics| <= BUFFER_CAPACITY
  }

  lemma FlushForwards(w: nat, l: Local, derived: seq<Message>)
    ensures AllSent(Flushed(w, l, derived)) == AllSent(l.sent) + l.buffer
  {
    if l.buffer == [] {
      assert AllSent(l.sent) + [] == AllSent(l.sent);
    } else {
      assert Flushed(w, l, derived)[..|l.sent|] == l.sent;
    }
  }

  lemma SelectForwards(w: nat, l: Local, x: Select)
    ensures var l' := OneSelect(w, l, x);
            AllSent(l'.sent) + l'.buffer == AllSent(l.sent) + l.buffer + if x.Got? then [x.m] else []
  {
    FlushForwards(w, l, x.derived);
    if x.Got? && |l.buffer| < BUFFER_CAPACITY {
      assert AllSent(l.sent) + (l.buffer + [x.m]) == AllSent(l.sent) + l.buffer + [x.m];
    }
  }

  lemma SelectInBounds(w: nat, l: Local, x: Select)
    requires InBounds(l)
    ensures InBounds(OneSelect(w, l, x))
    ensures x.Leave? ==> OneSelect(w, l, x).buffer == []
  {
  }

  lemma {:induction false} LoopInBounds(w: nat, xs: seq<Select>)
    ensures InBounds(Selected(w, xs))
    ensures xs != [] && xs[|xs| - 1].Leave? ==> Selected(w, xs).buffer == []
  {
    if xs != [] {
      LoopInBounds(w, xs[..|xs| - 1]);
      SelectInBounds(w, Selected(w, xs[..|xs| - 1]), xs[|xs| - 1]);
    }
  }

  /** The batches and then the buffer are everything received, once each and in order. */
  lemma {:induction false} LoopForwardsAll(w: nat, xs: seq<Select>)
    ensures AllSent(Selected(w, xs).sent) + Selected(w, xs).buffer == Received(xs)
  {
    if xs != [] {
      LoopForwardsAll(w, xs[..|xs| - 1]);
      SelectForwards(w, Selected(w, xs[..|xs| - 1]), xs[|xs| - 1]);
    }
  }

  /** Batches hold 1 to 1024 messages; a worker that leaves keeps none back.
      `xs` are the outcomes of the selects so far; the loop takes them up to the first Leave. */
  method ProcessWorker(w: nat, xs: seq<Select>) returns (sent: seq<Batch>, left: seq<Message>, taken: nat)
    ensures taken <= |xs|
    ensures forall i :: 0 <= i < taken - 1 ==> !xs[i].Leave?
    ensures taken < |xs| ==> taken > 0 && xs[taken - 1].Leave?
    ensures Local(left, sent) == Selected(w, xs[..taken])
    ensures AllSent(sent) + left == Received(xs[..taken])
    ensures InBounds(Local(left, sent))
    ensures taken > 0 && xs[taken - 1].Leave? ==> left == []
  {
    var messages := new Message[BUFFER_CAPACITY];
    var n := 0;
    sent, taken := [], 0;
    while taken < |xs|
      invariant 0 <= n <= BUFFER_CAPACITY && taken <= |xs|
      invariant forall i :: 0 <= i < taken ==> !xs[i].Leave?
      invariant Local(messages[..n], sent) == Selected(w, xs[..taken])
    {
      var x := xs[taken];
      PrefixSelected(w, xs, taken);
      taken := taken + 1;
      match x {
        case Got(m, derived) =>
          if n >= BUFFER_CAPACITY {
            sent := FlushMessages(w, sent, messages[..n], derived);
            n := 0;
          }
          messages[n] := m;
          n := n + 1;
        case Ticked(derived) =>
          sent := FlushMessages(w, sent, messages[..n], derived);
          n := 0;
        case Leave(derived) =>
          sent := FlushMessages(w, sent, messages[..n], derived);
          LoopForwardsAll(w, xs[..taken]);
          LoopInBounds(w, xs[..taken]);
          return sent, [], taken;
      }
    }
    left := messages[..n];
    LoopForwardsAll(w, xs[..taken]);
    LoopInBounds(w, xs[..taken]);
  }

  lemma PrefixSelected(w: nat, xs: seq<Select>, i: nat)
    requires i < |xs|
    ensures Selected(w, xs[..i + 1]) == OneSelect(w, Selected(w, xs[..i]), xs[i])
  {
    assert xs[..i + 1][..i] == xs[..i];
  }

  method FlushMessages(w: nat, sent: seq<Batch>, messages: seq<Message>, derived: seq<Message>)
    returns (out: seq<Batch>)
    ensures out == Flushed(w, Local(messages, sent), derived)
  {
    if |messages| == 0 {
      return sent;
    }
    out := sent + [Batch(w, messages, derived)];
  }
}
