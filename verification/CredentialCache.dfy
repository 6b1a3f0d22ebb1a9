/** Role credentials in server/server_state.go: what any number of interleaved calls of
    getFleetRoleCredentials may send and return. */
module CredentialCache {
  import opened Prelude
  import opened ServerState

  // ---- What steps do to the cache and the managed flag ----

  predicate Configures(s: State, step: Step) {
    Enabled(s, step) && step.FinishInit? && step.valid
  }

  predicate EmptyReply(s: State, step: Step) {
    Enabled(s, step) && step.TakeReply? && step.reply.Answered? && step.reply.credentials.accessKeyId == ""
  }

  /** A reply that grants credentials for `arn`, the role its call asked for. */
  predicate Granting(s: State, step: Step, arn: string) {
    && Enabled(s, step) && step.TakeReply? && At(s, step.t).r.roleArn == arn
    && step.reply.Answered? && step.reply.credentials.accessKeyId != ""
  }

  predicate FindsStale(s: State, step: Step, arn: string) {
    Enabled(s, step) && step.Lookup? && At(s, step.t).r.roleArn == arn && !Hit(s, arn, step.now)
  }

  /** What makes a stored entry go: a newer one, Init, or a lookup that found it too old. */
  predicate Displacing(s: State, step: Step, arn: string) {
    Granting(s, step, arn) || (Enabled(s, step) && step.BeginInit?) || FindsStale(s, step, arn)
  }

  predicate Cached(s: State, arn: string, c: Credentials) {
    arn in s.cache && s.cache[arn] == c
  }

  lemma StepManaged(s: State, step: Step)
    ensures Next(s, step).managed <==> Configures(s, step) || (s.managed && !EmptyReply(s, step))
  {
  }

  lemma StepCache(s: State, step: Step, arn: string, c: Credentials)
    ensures Cached(Next(s, step), arn, c) <==>
            || (Granting(s, step, arn) && step.reply.credentials == c)
            || (Cached(s, arn, c) && !Displacing(s, step, arn))
  {
  }

  // ---- After a reply without an access key ----

  ghost predicate ManagedSince(steps: seq<Step>, n: nat) {
    Since(n, (k: nat) => k < |steps| && Configures(Before(steps, k), steps[k]),
             (k: nat) => k < |steps| && EmptyReply(Before(steps, k), steps[k]))
  }

  lemma {:induction false} ManagedExactlyWhen(steps: seq<Step>, n: nat)
    requires n <= |steps|
    ensures Before(steps, n).managed <==> ManagedSince(steps, n)
  {
    if n > 0 {
      ManagedExactlyWhen(steps, n - 1);
      BeforeStep(steps, n - 1);
      StepManaged(Before(steps, n - 1), steps[n - 1]);
      SinceStep(n - 1, (k: nat) => k < |steps| && Configures(Before(steps, k), steps[k]),
                       (k: nat) => k < |steps| && EmptyReply(Before(steps, k), steps[k]));
    }
  }

  /** Past the test of onManagedEC2, the request not yet sent. */
  predicate PastTest(p: Place) {
    p.Looking? || p.Missed? || p.Named? || p.Checked?
  }

  /** `more`, run from `s`, ends with call `t` sending its request. */
  ghost predicate EndsSending(s: State, more: seq<Step>, t: nat) {
    && more != [] && more[|more| - 1] == Send(t)
    && Enabled(After(s, more[..|more| - 1]), Send(t))
  }

  predicate NoInit(more: seq<Step>) {
    forall i :: 0 <= i < |more| ==> !(more[i].FinishInit? && more[i].valid)
  }

  lemma BlockedStep(s: State, step: Step, t: nat)
    requires !s.managed && !PastTest(At(s, t)) && !(step.FinishInit? && step.valid)
    ensures !Next(s, step).managed && !PastTest(At(Next(s, step), t))
  {
    StepManaged(s, step);
    if step.t != t {
      OthersStay(s, step, t);
    }
  }

  lemma {:induction false} BlockedRun(s: State, more: seq<Step>, t: nat)
    requires !s.managed && !PastTest(At(s, t)) && NoInit(more)
    ensures !After(s, more).managed && !PastTest(At(After(s, more), t))
  {
    if more != [] {
      var last := |more| - 1;
      BlockedRun(s, more[..last], t);
      BlockedStep(After(s, more[..last]), more[last], t);
    }
  }

  /** The step that takes a call past the test on to its request. */
  function Onward(s: State, t: nat): Step
    requires PastTest(At(s, t))
  {
    match At(s, t)
    case Looking(r) => Lookup(t, if r.roleArn in s.cache then s.cache[r.roleArn].expiration else 0)
    case Missed(_) => Name(t, true)
    case Named(_) => CheckReady(t)
    case Checked(_) => Send(t)
  }

  function ToGo(p: Place): nat {
    match p
    case Looking(_) => 4 case Missed(_) => 3 case Named(_) => 2 case Checked(_) => 1
    case _ => 0
  }

  lemma OnwardStep(s: State, t: nat)
    requires !s.panicked && s.ready && PastTest(At(s, t))
    ensures var s' := Next(s, Onward(s, t));
            && Enabled(s, Onward(s, t)) && !s'.panicked && s'.ready
            && (At(s, t).Checked? || (PastTest(At(s', t)) && ToGo(At(s', t)) < ToGo(At(s, t))))
  {
  }

  lemma SendsOnward(s: State, t: nat) returns (more: seq<Step>)
    requires !s.panicked && s.ready && PastTest(At(s, t))
    ensures NoInit(more) && EndsSending(s, more, t)
    decreases ToGo(At(s, t))
  {
    var step := Onward(s, t);
    OnwardStep(s, t);
    more := [step];
    if At(s, t).Checked? {
      assert more[..0] == [];
    } else {
      var rest := SendsOnward(Next(s, step), t);
      Prepend(s, step, rest, t);
      more := [step] + rest;
    }
  }

  lemma Prepend(s: State, step: Step, rest: seq<Step>, t: nat)
    requires EndsSending(Next(s, step), rest, t)
    ensures EndsSending(s, [step] + rest, t)
  {
    AfterSnoc(s, [], step);
    assert [] + [step] == [step];
    AfterConcat(s, [step], rest[..|rest| - 1]);
    assert ([step] + rest)[..|rest|] == [step] + rest[..|rest| - 1];
  }

  lemma BecomeReady(s: State, u: nat, t: nat)
    requires !s.panicked && At(s, u) == Idle && PastTest(At(s, t))
    ensures var s' := Next(s, ReadyAnswered(u, true, true));
            !s'.panicked && s'.ready && At(s', t) == At(s, t)
  {
  }

  /** While the process is not managed, and until init succeeds again, the calls that can
      still send a request are exactly those already past the test of line 405. */
  lemma MaySendExactlyWhen(s: State, t: nat)
    requires !s.managed && !s.panicked
    ensures (exists more: seq<Step> :: NoInit(more) && EndsSending(s, more, t)) <==> PastTest(At(s, t))
  {
    if PastTest(At(s, t)) {
      var u := NewCall(s);
      var answered := ReadyAnswered(u, true, true);
      BecomeReady(s, u, t);
      var rest := SendsOnward(Next(s, answered), t);
      Prepend(s, answered, rest, t);
      assert NoInit([answered] + rest);
    } else {
      forall more: seq<Step> | NoInit(more) ensures !EndsSending(s, more, t) {
        if more != [] {
          BlockedRun(s, more[..|more| - 1], t);
        }
      }
    }
  }

  /** After one reply without an access key, and until init succeeds, whatever else happens:
      a request that goes out belongs to a call that was past the test when the reply came. */
  lemma NoRequestAfterEmptyReply(steps: seq<Step>, i: nat, n: nat)
    requires i < n < |steps| && EmptyReply(Before(steps, i), steps[i])
    requires NoInit(steps[i..n])
    requires steps[n].Send? && Taken(steps, n)
    ensures steps[n].t != steps[i].t && PastTest(At(Before(steps, i), steps[n].t))
  {
    var s, t := Before(steps, i), steps[n].t;
    BeforeStep(steps, i);
    StepManaged(s, steps[i]);
    assert steps[..n] == steps[..i + 1] + steps[i + 1..n];
    AfterConcat(INITIAL, steps[..i + 1], steps[i + 1..n]);
    if !PastTest(At(Next(s, steps[i]), t)) {
      BlockedRun(Next(s, steps[i]), steps[i + 1..n], t);
      assert false;
    }
    RepliedStays(s, steps[i], t);
  }

  lemma RepliedStays(s: State, step: Step, t: nat)
    requires EmptyReply(s, step) && PastTest(At(Next(s, step), t))
    ensures step.t != t && PastTest(At(s, t))
  {
    if step.t != t {
      OthersStay(s, step, t);
    }
  }

  // ---- What is handed out ----

  ghost predicate LastGranted(steps: seq<Step>, n: nat, arn: string, c: Credentials) {
    Since(n, (k: nat) => GrantsThese(steps, k, arn, c), (k: nat) => Displaces(steps, k, arn))
  }

  predicate GrantsThese(steps: seq<Step>, k: nat, arn: string, c: Credentials) {
    k < |steps| && Granting(Before(steps, k), steps[k], arn) && steps[k].reply.credentials == c
  }

  predicate Displaces(steps: seq<Step>, k: nat, arn: string) {
    k < |steps| && Displacing(Before(steps, k), steps[k], arn)
  }

  /** The cache holds exactly the last credentials granted for a role, unless displaced. */
  lemma {:induction false} CachedExactlyWhen(steps: seq<Step>, n: nat, arn: string, c: Credentials)
    requires n <= |steps|
    ensures Cached(Before(steps, n), arn, c) <==> LastGranted(steps, n, arn, c)
  {
    if n > 0 {
      CachedExactlyWhen(steps, n - 1, arn, c);
      BeforeStep(steps, n - 1);
      StepCache(Before(steps, n - 1), steps[n - 1], arn, c);
      SinceStep(n - 1, (k: nat) => GrantsThese(steps, k, arn, c), (k: nat) => Displaces(steps, k, arn));
    }
  }

  /** Step `n` makes its call return `c` without error, as credentials for `arn`. */
  predicate HandsOut(s: State, step: Step, arn: string, c: Credentials) {
    && Enabled(s, step) && At(Next(s, step), step.t) == Got(None, c)
    && (At(s, step.t).Looking? || At(s, step.t).Waiting?) && At(s, step.t).r.roleArn == arn
  }

  predicate LooksUp(s: State, step: Step, arn: string) {
    Enabled(s, step) && step.Lookup? && At(s, step.t).r.roleArn == arn
  }

  lemma StepHandsOut(s: State, step: Step, arn: string, c: Credentials)
    ensures HandsOut(s, step, arn, c) <==>
            || (Granting(s, step, arn) && step.reply.credentials == c)
            || (LooksUp(s, step, arn) && Cached(s, arn, c) && StillFresh(c, step.now))
  {
  }

  /** No other step returns credentials without error. */
  lemma OnlyTheseReturn(s: State, step: Step, c: Credentials)
    requires Enabled(s, step) && At(Next(s, step), step.t) == Got(None, c)
    ensures exists arn :: HandsOut(s, step, arn, c)
  {
    assert HandsOut(s, step, At(s, step.t).r.roleArn, c);
  }

  /** Credentials returned without error are this call's own reply or the last granted for the
      same role, and then fresh when they were looked up. */
  lemma CredentialsAreGenuine(steps: seq<Step>, n: nat, arn: string, c: Credentials)
    requires n < |steps|
    ensures HandsOut(Before(steps, n), steps[n], arn, c) <==>
            || GrantsThese(steps, n, arn, c)
            || (&& LooksUp(Before(steps, n), steps[n], arn)
                && LastGranted(steps, n, arn, c) && StillFresh(c, steps[n].now))
  {
    StepHandsOut(Before(steps, n), steps[n], arn, c);
    CachedExactlyWhen(steps, n, arn, c);
  }

  lemma Entering(s: State, step: Step)
    requires Enabled(s, step)
    ensures var p, p' := At(s, step.t), At(Next(s, step), step.t);
            && (p'.Looking? ==> step == BeginGet(step.t, Some(p'.r)) && s.managed)
            && (p'.Missed? ==> step.Lookup? && p == Looking(p'.r) && !Hit(s, p'.r.roleArn, step.now))
            && (p'.Named? ==> step.Name? && step.valid && p.Missed? && p'.r == WithName(s, p.r))
            && (p'.Checked? ==> step.CheckReady? && p == Named(p'.r) && s.ready)
            && (p'.Waiting? ==> step.Send? && p == Checked(p'.r))
  {
  }

  /** A cached answer too goes to a call that found the process managed when it began, though
      perhaps no longer. */
  lemma LookupsFoundManaged(steps: seq<Step>, n: nat) returns (b: nat)
    requires n < |steps| && steps[n].Lookup? && Taken(steps, n)
    ensures b < n && ManagedSince(steps, b)
    ensures steps[b] == BeginGet(steps[n].t, Some(At(Before(steps, n), steps[n].t).r))
  {
    b := LastStep(steps, n, steps[n].t);
    Entering(Before(steps, b), steps[b]);
    ManagedExactlyWhen(steps, b);
  }

  /** Every request sent was checked on its way: its call found the process managed, then no
      fresh entry for the role, then the arguments good, then the process ready, and it is the
      caller's own request with the session name filled in. */
  lemma RequestsWereChecked(steps: seq<Step>, n: nat) returns (b: nat, l: nat, v: nat, c: nat)
    requires n < |steps| && steps[n].Send? && Taken(steps, n)
    ensures b < l < v < c < n && steps[b].BeginGet? && steps[b].request.Some?
    ensures var t, r := steps[n].t, steps[b].request.value;
            && steps[b].t == steps[l].t == steps[v].t == steps[c].t == t
            && ManagedSince(steps, b)
            && steps[l].Lookup? && !Hit(Before(steps, l), r.roleArn, steps[l].now)
            && steps[v].Name? && steps[v].valid
            && steps[c].CheckReady? && Before(steps, c).ready
            && At(Before(steps, n), t) == Checked(WithName(Before(steps, v), r))
  {
    var t := steps[n].t;
    c := LastStep(steps, n, t);
    Entering(Before(steps, c), steps[c]);
    v := LastStep(steps, c, t);
    Entering(Before(steps, v), steps[v]);
    l := LastStep(steps, v, t);
    Entering(Before(steps, l), steps[l]);
    b := LookupsFoundManaged(steps, l);
  }

  /** A default name is a prefix of fleet and host, cut only beyond 64 bytes; names that are
      given are kept. */
  lemma SessionNameSent(s: State, r: Request)
    ensures WithName(s, r).roleArn == r.roleArn
    ensures r.sessionName != "" ==> WithName(s, r) == r
    ensures r.sessionName == "" ==>
              && |WithName(s, r).sessionName| <= 64
              && WithName(s, r).sessionName <= s.fleetId + "-" + s.hostId
              && (WithName(s, r).sessionName == s.fleetId + "-" + s.hostId
                  <==> |s.fleetId| + 1 + |s.hostId| <= 64)
  {
  }
}
