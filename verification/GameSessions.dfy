/** Game sessions in server/server_state.go: which session-scoped requests go out, with which
    id, when sessions arrive and the process stops between any two steps of a call. */
module GameSessions {
  import opened Prelude
  import opened ServerState
  import opened ServerLifecycle

  predicate Accepts(steps: seq<Step>, k: nat) {
    Taken(steps, k) && steps[k].SetId?
  }

  predicate AcceptsId(steps: seq<Step>, k: nat, id: string) {
    Accepts(steps, k) && At(Before(steps, k), steps[k].t).id == id
  }

  ghost predicate LastAccepted(steps: seq<Step>, n: nat, id: string) {
    Since(n, (k: nat) => AcceptsId(steps, k, id), (k: nat) => Accepts(steps, k))
  }

  ghost predicate NeverAccepted(steps: seq<Step>, n: nat) {
    forall k: nat :: k < n ==> !Accepts(steps, k)
  }

  lemma NextNeverAccepted(steps: seq<Step>, n: nat)
    ensures NeverAccepted(steps, n + 1) <==> NeverAccepted(steps, n) && !Accepts(steps, n)
  {
  }

  lemma NextLastAccepted(steps: seq<Step>, n: nat, id: string)
    ensures LastAccepted(steps, n + 1, id) <==>
            AcceptsId(steps, n, id) || (LastAccepted(steps, n, id) && !Accepts(steps, n))
  {
    SinceStep(n, (k: nat) => AcceptsId(steps, k, id), (k: nat) => Accepts(steps, k));
  }

  lemma StepSession(s: State, step: Step)
    ensures Next(s, step).sessionId == if Enabled(s, step) && step.SetId? then At(s, step.t).id else s.sessionId
  {
  }

  lemma NextSession(steps: seq<Step>, n: nat)
    requires n < |steps|
    ensures Before(steps, n + 1).sessionId ==
            if Accepts(steps, n) then At(Before(steps, n), steps[n].t).id else Before(steps, n).sessionId
  {
    BeforeStep(steps, n);
    StepSession(Before(steps, n), steps[n]);
  }

  /** What SessionIdExactlyWhen says of one point of a run. */
  ghost predicate TellsId(steps: seq<Step>, n: nat, current: string, id: string) {
    current == id <==> LastAccepted(steps, n, id) || (id == "" && NeverAccepted(steps, n))
  }

  lemma NextTellsId(steps: seq<Step>, n: nat, current: string, next: string, id: string)
    requires TellsId(steps, n, current, id)
    requires Accepts(steps, n) ==> AcceptsId(steps, n, next)
    requires !Accepts(steps, n) ==> next == current
    ensures TellsId(steps, n + 1, next, id)
  {
    NextLastAccepted(steps, n, id);
    NextNeverAccepted(steps, n);
  }

  /** The id is the last one accepted. A stop does not clear it. */
  lemma {:induction false} SessionIdExactlyWhen(steps: seq<Step>, n: nat, id: string)
    requires n <= |steps|
    ensures Before(steps, n).sessionId == id <==>
            LastAccepted(steps, n, id) || (id == "" && NeverAccepted(steps, n))
  {
    if n > 0 {
      SessionIdExactlyWhen(steps, n - 1, id);
      NextSession(steps, n - 1);
      NextTellsId(steps, n - 1, Before(steps, n - 1).sessionId, Before(steps, n).sessionId, id);
    }
  }

  /** By which steps a call came to its place. */
  lemma Coming(s: State, step: Step)
    requires Enabled(s, step)
    ensures var p, p' := At(s, step.t), At(Next(s, step), step.t);
            && (p'.Accepting? ==> step == BeginStart(step.t, Some(p'.id)) && s.ready)
            && (p'.Gated? ==> step == BeginSession(step.t, p'.kind) && s.ready)
            && (p'.IdSeen? ==> step.SeeId? && p == Gated(p'.kind) && s.sessionId != "")
            && (p'.IdRead? ==>
                  && step.ReadId? && p == IdSeen(p'.kind) && s.sessionId == p'.id
                  && ArgumentError(p'.kind, step.given, step.valid) == None)
  {
  }

  /** Every accepted session arrived while the process was ready. */
  lemma AcceptedWhileReady(steps: seq<Step>, n: nat, id: string) returns (a: nat)
    requires AcceptsId(steps, n, id)
    ensures a < n && steps[a] == BeginStart(steps[n].t, Some(id)) && Taken(steps, a) && ReadySince(steps, a)
  {
    a := LastStep(steps, n, steps[n].t);
    Coming(Before(steps, a), steps[a]);
    ReadyExactlyWhen(steps, a);
  }

  lemma BeganReady(steps: seq<Step>, n: nat, t: nat) returns (a: nat)
    requires n <= |steps| && At(Before(steps, n), t).Gated?
    ensures a < n && steps[a] == BeginSession(t, At(Before(steps, n), t).kind) && ReadySince(steps, a)
  {
    a := LastStep(steps, n, t);
    Coming(Before(steps, a), steps[a]);
    ReadyExactlyWhen(steps, a);
  }

  lemma IdWasSeen(steps: seq<Step>, n: nat, t: nat) returns (b: nat)
    requires n <= |steps| && At(Before(steps, n), t).IdSeen?
    ensures b < n && steps[b] == SeeId(t) && !NeverAccepted(steps, b)
    ensures At(Before(steps, b), t) == Gated(At(Before(steps, n), t).kind)
  {
    b := LastStep(steps, n, t);
    Coming(Before(steps, b), steps[b]);
    SessionIdExactlyWhen(steps, b, "");
  }

  lemma IdWasRead(steps: seq<Step>, n: nat, t: nat) returns (c: nat)
    requires n <= |steps| && At(Before(steps, n), t).IdRead?
    ensures c < n && steps[c].ReadId? && steps[c].t == t
    ensures var sent := At(Before(steps, n), t);
            && At(Before(steps, c), t) == IdSeen(sent.kind)
            && ArgumentError(sent.kind, steps[c].given, steps[c].valid) == None
            && (LastAccepted(steps, c, sent.id) || NeverAccepted(steps, c))
  {
    c := LastStep(steps, n, t);
    Coming(Before(steps, c), steps[c]);
    SessionIdExactlyWhen(steps, c, Before(steps, c).sessionId);
  }

  /** A request that goes out with `id`: the process was ready when its call began, a session
      had been accepted when it looked, its arguments were good, and `id` was the last one
      accepted when it was put into the request. */
  lemma SessionRequestsWereChecked(steps: seq<Step>, n: nat) returns (a: nat, b: nat, c: nat)
    requires n < |steps| && steps[n].SendForSession? && Taken(steps, n)
    ensures a < b < c < n && steps[a].t == steps[b].t == steps[c].t == steps[n].t
    ensures var sent := At(Before(steps, n), steps[n].t);
            && steps[a] == BeginSession(steps[n].t, sent.kind) && ReadySince(steps, a)
            && steps[b].SeeId? && !NeverAccepted(steps, b)
            && steps[c].ReadId? && (sent.kind == UpdatePolicy ==> steps[c].given)
            && (sent.kind == ActivateSession || steps[c].valid)
            && LastAccepted(steps, c, sent.id)
  {
    var t := steps[n].t;
    c := IdWasRead(steps, n, t);
    b := IdWasSeen(steps, c, t);
    a := BeganReady(steps, b, t);
    assert !NeverAccepted(steps, c);
  }

  // ---- After a stop ----

  predicate PastGate(p: Place) {
    p.Gated? || p.IdSeen? || p.IdRead?
  }

  /** `more`, run from `s`, ends with call `t` sending its session request. */
  ghost predicate EndsSending(s: State, more: seq<Step>, t: nat) {
    && more != [] && more[|more| - 1] == SendForSession(t)
    && Enabled(After(s, more[..|more| - 1]), SendForSession(t))
  }

  lemma StoppedStep(s: State, step: Step, t: nat)
    requires !s.ready && !PastGate(At(s, t)) && !(step.ReadyAnswered? && step.valid && step.ok)
    ensures !Next(s, step).ready && !PastGate(At(Next(s, step), t))
  {
    StepReady(s, step);
    if step.t != t {
      OthersStay(s, step, t);
    }
  }

  lemma {:induction false} StoppedRun(s: State, more: seq<Step>, t: nat)
    requires !s.ready && !PastGate(At(s, t)) && NoReady(more)
    ensures !After(s, more).ready && !PastGate(At(After(s, more), t))
  {
    if more != [] {
      var last := |more| - 1;
      StoppedRun(s, more[..last], t);
      StoppedStep(After(s, more[..last]), more[last], t);
    }
  }

  lemma Prepend(s: State, step: Step, rest: seq<Step>, t: nat)
    requires EndsSending(Next(s, step), rest, t)
    ensures EndsSending(s, [step] + rest, t)
  {
    AfterSnoc(s, [], step);
    assert [] + [step] == [step];
    AfterConcat(s, [step], rest[..|rest| - 1]);
    assert ([step] + rest)[..|rest|] == [step] + rest[..|rest| - 1];
  }

  lemma GateStep(s: State, t: nat)
    requires !s.panicked && s.sessionId != ""
    ensures At(s, t).Gated? ==> At(Next(s, SeeId(t)), t).IdSeen? && !Next(s, SeeId(t)).panicked
    ensures At(s, t).IdSeen? ==>
              At(Next(s, ReadId(t, true, true)), t).IdRead? && !Next(s, ReadId(t, true, true)).panicked
  {
  }

  lemma GoesOut(s: State, t: nat) returns (more: seq<Step>)
    requires !s.panicked && s.sessionId != "" && PastGate(At(s, t))
    ensures NoReady(more) && EndsSending(s, more, t)
    decreases if At(s, t).Gated? then 2 else if At(s, t).IdSeen? then 1 else 0
  {
    GateStep(s, t);
    match At(s, t) {
      case Gated(_) =>
        StepSession(s, SeeId(t));
        var rest := GoesOut(Next(s, SeeId(t)), t);
        Prepend(s, SeeId(t), rest, t);
        more := [SeeId(t)] + rest;
      case IdSeen(_) =>
        StepSession(s, ReadId(t, true, true));
        var rest := GoesOut(Next(s, ReadId(t, true, true)), t);
        Prepend(s, ReadId(t, true, true), rest, t);
        more := [ReadId(t, true, true)] + rest;
      case IdRead(_, _) =>
        more := [SendForSession(t)];
        assert more[..0] == [];
    }
  }

  /** Once the process has stopped, and until a processReady succeeds, the calls that can still
      send a session request are exactly those already past the test of isReadyProcess. */
  lemma MaySendExactlyWhen(s: State, t: nat)
    requires !s.ready && !s.panicked && s.sessionId != ""
    ensures (exists more: seq<Step> :: NoReady(more) && EndsSending(s, more, t)) <==> PastGate(At(s, t))
  {
    if PastGate(At(s, t)) {
      var more := GoesOut(s, t);
    } else {
      forall more: seq<Step> | NoReady(more) ensures !EndsSending(s, more, t) {
        if more != [] {
          StoppedRun(s, more[..|more| - 1], t);
        }
      }
    }
  }
}
