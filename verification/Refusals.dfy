/** Which error each call of server/server_state.go returns when it refuses, and the fields that
    init leaves behind. */
module Refusals {
  import opened Prelude
  import opened ServerState

  /** A call for credentials fails with these errors at these tests, and at no others. */
  lemma CredentialsRefusedExactlyWhen(s: State, step: Step, e: Error)
    requires Enabled(s, step) && (At(Next(s, step), step.t).Got?)
    ensures At(Next(s, step), step.t).error == Some(e) <==>
            || (e == BadRequest && step.BeginGet? && (step.request == None || !s.managed))
            || (e == Invalid && step.Name? && !step.valid)
            || (e == ProcessNotReady && step.CheckReady? && !s.ready)
            || (e == ServiceFailed && step.TakeReply? && step.reply.Failed?)
            || (e == BadRequest && step.TakeReply? && step.reply.Answered? && step.reply.credentials.accessKeyId == "")
  {
  }

  /** What comes with an error: what the service left in the result, or nothing. */
  lemma RefusalCarries(s: State, step: Step)
    requires Enabled(s, step) && At(Next(s, step), step.t).Got? && At(Next(s, step), step.t).error.Some?
    ensures At(Next(s, step), step.t).credentials ==
            if step.TakeReply? && step.reply.Failed? then step.reply.partial
            else if step.TakeReply? then step.reply.credentials
            else Credentials("", 0, "")
  {
  }

  /** The other calls: a process or a session that is not there, and bad arguments. */
  lemma CallsRefusedExactlyWhen(s: State, step: Step, e: Error)
    requires Enabled(s, step) && At(Next(s, step), step.t).Done?
    ensures At(Next(s, step), step.t).failed == Some(e) <==>
            || (e == ProcessNotReady && step.BeginSession? && !s.ready)
            || (e == SessionNotSet && step.SeeId? && s.sessionId == "")
            || (&& e == BadRequest && step.ReadId? && At(s, step.t).kind == UpdatePolicy && !step.given)
            || (&& e == Invalid && step.ReadId? && !step.valid && At(s, step.t).kind != ActivateSession
                && !(At(s, step.t).kind == UpdatePolicy && !step.given))
            || (e == Invalid && step.ReadyAnswered? && !step.valid)
            || (e == ProcessNotReady && step.ReadyAnswered? && step.valid && !step.ok)
            || (e == Invalid && step.FinishInit? && !step.valid)
  {
  }

  // ---- Fleet and host ----

  predicate Configures(steps: seq<Step>, k: nat) {
    Taken(steps, k) && steps[k].FinishInit? && steps[k].valid
  }

  predicate ConfiguresTo(steps: seq<Step>, k: nat, fleetId: string, hostId: string) {
    Configures(steps, k) && steps[k].fleetId == fleetId && steps[k].hostId == hostId
  }

  lemma StepNames(s: State, step: Step)
    ensures var s' := Next(s, step);
            if Enabled(s, step) && step.FinishInit? && step.valid
            then s'.fleetId == step.fleetId && s'.hostId == step.hostId
            else s'.fleetId == s.fleetId && s'.hostId == s.hostId
  {
  }

  ghost predicate LastNames(steps: seq<Step>, n: nat, fleetId: string, hostId: string) {
    Since(n, (k: nat) => ConfiguresTo(steps, k, fleetId, hostId), (k: nat) => Configures(steps, k))
  }

  ghost predicate NeverConfigured(steps: seq<Step>, n: nat) {
    forall k: nat :: k < n ==> !Configures(steps, k)
  }

  lemma NextNames(steps: seq<Step>, n: nat)
    requires n < |steps|
    ensures if Configures(steps, n)
            then Before(steps, n + 1).fleetId == steps[n].fleetId && Before(steps, n + 1).hostId == steps[n].hostId
            else && Before(steps, n + 1).fleetId == Before(steps, n).fleetId
                 && Before(steps, n + 1).hostId == Before(steps, n).hostId
  {
    BeforeStep(steps, n);
    StepNames(Before(steps, n), steps[n]);
  }

  lemma NextLastNames(steps: seq<Step>, n: nat, f: string, h: string)
    ensures LastNames(steps, n + 1, f, h) <==>
            ConfiguresTo(steps, n, f, h) || (LastNames(steps, n, f, h) && !Configures(steps, n))
    ensures NeverConfigured(steps, n + 1) <==> NeverConfigured(steps, n) && !Configures(steps, n)
  {
    SinceStep(n, (k: nat) => ConfiguresTo(steps, k, f, h), (k: nat) => Configures(steps, k));
  }

  ghost predicate TellsNames(steps: seq<Step>, n: nat, same: bool, f: string, h: string) {
    same <==> LastNames(steps, n, f, h) || (f == "" && h == "" && NeverConfigured(steps, n))
  }

  lemma NextTellsNames(steps: seq<Step>, n: nat, same: bool, same': bool, f: string, h: string)
    requires TellsNames(steps, n, same, f, h)
    requires same' == if Configures(steps, n) then ConfiguresTo(steps, n, f, h) else same
    ensures TellsNames(steps, n + 1, same', f, h)
  {
    NextLastNames(steps, n, f, h);
  }

  /** Fleet and host are those of the last init that succeeded. */
  lemma {:induction false} NamesExactlyWhen(steps: seq<Step>, n: nat, f: string, h: string)
    requires n <= |steps|
    ensures Before(steps, n).fleetId == f && Before(steps, n).hostId == h <==>
            LastNames(steps, n, f, h) || (f == "" && h == "" && NeverConfigured(steps, n))
  {
    if n > 0 {
      NamesExactlyWhen(steps, n - 1, f, h);
      NextNames(steps, n - 1);
      NextTellsNames(steps, n - 1, Before(steps, n - 1).fleetId == f && Before(steps, n - 1).hostId == h,
                     Before(steps, n).fleetId == f && Before(steps, n).hostId == h, f, h);
    }
  }
}
