/** server/server_state.go: readiness, the shutdown channel, the current game session and the
    cache of role credentials, as small steps of any number of calls. Only the cache has a lock;
    every other field is read and written on its own, so each such access is a step. */
module ServerState {
  import opened Prelude

  const TTL_NS: int := 15 * 60 * 1_000_000_000
  const MAX_SESSION_NAME: nat := 64
  const TWO63: int := 0x8000_0000_0000_0000
  const TWO64: int := 0x1_0000_0000_0000_0000

  datatype Credentials = Credentials(accessKeyId: string, expiration: int, rest: string)
  const NO_CREDENTIALS := Credentials("", 0, "")

  datatype Error = BadRequest | Invalid | ProcessNotReady | SessionNotSet | ServiceFailed

  /** What HandleRequest returned and left in the result. */
  datatype Reply = Failed(partial: Credentials) | Answered(credentials: Credentials)

  /** Strings are byte strings here: the default session name is cut by bytes. */
  datatype Request = Request(roleArn: string, sessionName: string)

  datatype SessionKind = ActivateSession | UpdatePolicy | AcceptPlayer | RemovePlayer

  /** How far a call has come. */
  datatype Place =
    | Idle
    // getFleetRoleCredentials
    | Looking(r: Request)    // past line 405
    | Missed(r: Request)     // past line 410
    | Named(r: Request)      // past line 424
    | Checked(r: Request)    // past line 425
    | Waiting(r: Request)    // the request is out
    | Got(error: Option<Error>, credentials: Credentials)
    // the session-scoped requests
    | Gated(kind: SessionKind)              // past the test of isReadyProcess
    | IdSeen(kind: SessionKind)             // past the test of gameSessionID
    | IdRead(kind: SessionKind, id: string) // gameSessionID read again, into the request
    // OnStartGameSession
    | Accepting(id: string)  // past line 531
    // processReady
    | Making                 // past line 229
    // stopServerProcess
    | Stopping               // past line 457
    | TestedOpen             // past the first test of line 458
    | TestedNil              // past the second
    // init
    | Initialising           // past line 85
    | Done(failed: Option<Error>)

  datatype State = State(
    ready: bool,
    managed: bool,
    fleetId: string,
    hostId: string,
    sessionId: string,
    cache: map<string, Credentials>,
    closes: seq<nat>,          // per shutdown channel ever made, how often it was closed; the last is current
    calls: map<nat, Place>,
    panicked: bool)            // a closed channel was closed

  const INITIAL := State(false, false, "", "", "", map[], [], map[], false)

  /** `valid` and `given` stand for the validation of an operation's arguments, `t` names the call. */
  datatype Step =
    | BeginGet(t: nat, request: Option<Request>) | Lookup(t: nat, now: int) | Name(t: nat, valid: bool)
    | CheckReady(t: nat) | Send(t: nat) | TakeReply(t: nat, reply: Reply)
    | BeginSession(t: nat, kind: SessionKind) | SeeId(t: nat) | ReadId(t: nat, given: bool, valid: bool)
    | SendForSession(t: nat)
    | BeginStart(t: nat, session: Option<string>) | SetId(t: nat)
    | ReadyAnswered(t: nat, valid: bool, ok: bool) | Make(t: nat)
    | BeginStop(t: nat) | TestOpen(t: nat) | TestNil(t: nat) | CloseNow(t: nat)
    | BeginInit(t: nat) | FinishInit(t: nat, valid: bool, fleetId: string, hostId: string)

  // ---- Expiry ----

  /** Conversion to int64. */
  function Wrap64(x: int): int {
    (x + TWO63) % TWO64 - TWO63
  }

  /** The code's comparison: milliseconds left, turned into int64 nanoseconds. */
  predicate StillFresh(c: Credentials, now: int) {
    Wrap64(Wrap64(c.expiration - now) * 1_000_000) > TTL_NS
  }

  predicate Fits64(x: int) {
    -TWO63 <= x < TWO63
  }

  lemma Wrap64Near(x: int)
    requires -TWO64 - TWO63 <= x < TWO64 + TWO63
    ensures Wrap64(x) == if x < -TWO63 then x + TWO64 else if x >= TWO63 then x - TWO64 else x
  {
  }

  /** Fresh means more than 15 minutes left, as long as the milliseconds left, in nanoseconds,
      fit int64; within one wrap (584 years) on either side, only then. */
  lemma FreshExactlyWhen(c: Credentials, now: int)
    ensures var left := c.expiration - now;
            && (Fits64(left * 1_000_000) ==> (StillFresh(c, now) <==> left > 900_000))
            && (TTL_NS - TWO64 < left * 1_000_000 <= TTL_NS + TWO64 ==>
                  ((StillFresh(c, now) <==> left > 900_000) <==> Fits64(left * 1_000_000)))
  {
    var left := c.expiration - now;
    if TTL_NS - TWO64 < left * 1_000_000 <= TTL_NS + TWO64 {
      Wrap64Near(left);
      Wrap64Near(left * 1_000_000);
    }
  }

  // ---- The steps ----

  function At(s: State, t: nat): Place {
    if t in s.calls then s.calls[t] else Idle
  }

  function Move(s: State, t: nat, p: Place): State {
    s.(calls := s.calls[t := p])
  }

  function DefaultSessionName(s: State): string {
    var name := s.fleetId + "-" + s.hostId;
    if |name| > MAX_SESSION_NAME then name[..MAX_SESSION_NAME] else name
  }

  function WithName(s: State, r: Request): Request {
    if r.sessionName == "" then r.(sessionName := DefaultSessionName(s)) else r
  }

  predicate Hit(s: State, arn: string, now: int) {
    arn in s.cache && StillFresh(s.cache[arn], now)
  }

  predicate CurrentClosed(s: State) {
    s.closes != [] && s.closes[|s.closes| - 1] > 0
  }

  /** A step goes on from the place its call has reached. Nothing goes on after a panic. */
  predicate Enabled(s: State, step: Step) {
    && !s.panicked
    && var p := At(s, step.t);
       match step
       case Lookup(_, _) => p.Looking?
       case Name(_, _) => p.Missed?
       case CheckReady(_) => p.Named?
       case Send(_) => p.Checked?
       case TakeReply(_, _) => p.Waiting?
       case SeeId(_) => p.Gated?
       case ReadId(_, _, _) => p.IdSeen?
       case SendForSession(_) => p.IdRead?
       case SetId(_) => p.Accepting?
       case Make(_) => p.Making?
       case TestOpen(_) => p.Stopping?
       case TestNil(_) => p.TestedOpen?
       case CloseNow(_) => p.TestedNil? && s.closes != []
       case FinishInit(_, _, _, _) => p.Initialising?
       case _ => p.Idle?
  }

  function Get(s: State, step: Step): State
    requires Enabled(s, step)
    requires step.BeginGet? || step.Lookup? || step.Name? || step.CheckReady? || step.Send? || step.TakeReply?
  {
    var t, p := step.t, At(s, step.t);
    match step
    case BeginGet(_, request) =>
      Move(s, t, if request.Some? && s.managed then Looking(request.value) else Got(Some(BadRequest), NO_CREDENTIALS))
    case Lookup(_, now) =>
      if Hit(s, p.r.roleArn, now) then Move(s, t, Got(None, s.cache[p.r.roleArn]))
      else Move(s.(cache := s.cache - {p.r.roleArn}), t, Missed(p.r))
    case Name(_, valid) =>
      Move(s, t, if valid then Named(WithName(s, p.r)) else Got(Some(Invalid), NO_CREDENTIALS))
    case CheckReady(_) => Move(s, t, if s.ready then Checked(p.r) else Got(Some(ProcessNotReady), NO_CREDENTIALS))
    case Send(_) => Move(s, t, Waiting(p.r))
    case TakeReply(_, reply) => Answer(s, t, p.r.roleArn, reply)
  }

  function Answer(s: State, t: nat, arn: string, reply: Reply): State {
    match reply
    case Failed(partial) => Move(s, t, Got(Some(ServiceFailed), partial))
    case Answered(c) =>
      if c.accessKeyId == "" then Move(s.(managed := false), t, Got(Some(BadRequest), c))
      else Move(s.(cache := s.cache[arn := c]), t, Got(None, c))
  }

  /** The arguments of a session request, the process state apart. */
  function ArgumentError(kind: SessionKind, given: bool, valid: bool): Option<Error> {
    if kind == UpdatePolicy && !given then Some(BadRequest)
    else if kind != ActivateSession && !valid then Some(Invalid)
    else None
  }

  function Session(s: State, step: Step): State
    requires Enabled(s, step)
    requires step.BeginSession? || step.SeeId? || step.ReadId? || step.SendForSession?
          || step.BeginStart? || step.SetId?
  {
    var t, p := step.t, At(s, step.t);
    match step
    case BeginSession(_, kind) => Move(s, t, if s.ready then Gated(kind) else Done(Some(ProcessNotReady)))
    case SeeId(_) => Move(s, t, if s.sessionId != "" then IdSeen(p.kind) else Done(Some(SessionNotSet)))
    case ReadId(_, given, valid) =>
      var error := ArgumentError(p.kind, given, valid);
      Move(s, t, if error == None then IdRead(p.kind, s.sessionId) else Done(error))
    case SendForSession(_) => Move(s, t, Done(None))
    case BeginStart(_, session) => Move(s, t, if session.Some? && s.ready then Accepting(session.value) else Done(None))
    case SetId(_) => Move(s.(sessionId := p.id), t, Done(None))
  }

  /** The shutdown field is read anew by each test of line 458 and by the close. */
  function Life(s: State, step: Step): State
    requires Enabled(s, step)
    requires step.ReadyAnswered? || step.Make? || step.BeginStop? || step.TestOpen? || step.TestNil? || step.CloseNow?
          || step.BeginInit? || step.FinishInit?
  {
    var t := step.t;
    match step
    case ReadyAnswered(_, valid, ok) =>
      if valid && ok then Move(s.(ready := true), t, Making)
      else Move(s, t, Done(Some(if valid then ProcessNotReady else Invalid)))
    case Make(_) => Move(s.(closes := s.closes + [0]), t, Done(None))
    case BeginStop(_) => if s.ready then Move(s.(ready := false), t, Stopping) else Move(s, t, Done(None))
    case TestOpen(_) => Move(s, t, if CurrentClosed(s) then Done(None) else TestedOpen)
    case TestNil(_) => Move(s, t, if s.closes == [] then Done(None) else TestedNil)
    case CloseNow(_) =>
      var last := |s.closes| - 1;
      Move(s.(closes := s.closes[last := s.closes[last] + 1], panicked := CurrentClosed(s)), t, Done(None))
    case BeginInit(_) => Move(s.(cache := map[]), t, Initialising)
    case FinishInit(_, valid, fleetId, hostId) =>
      if valid then Move(s.(managed := true, fleetId := fleetId, hostId := hostId), t, Done(None))
      else Move(s, t, Done(Some(Invalid)))
  }

  /** A step that is not enabled does nothing. */
  function Next(s: State, step: Step): State {
    if !Enabled(s, step) then s
    else match step
      case BeginGet(_, _) => Get(s, step)
      case Lookup(_, _) => Get(s, step)
      case Name(_, _) => Get(s, step)
      case CheckReady(_) => Get(s, step)
      case Send(_) => Get(s, step)
      case TakeReply(_, _) => Get(s, step)
      case BeginSession(_, _) => Session(s, step)
      case SeeId(_) => Session(s, step)
      case ReadId(_, _, _) => Session(s, step)
      case SendForSession(_) => Session(s, step)
      case BeginStart(_, _) => Session(s, step)
      case SetId(_) => Session(s, step)
      case _ => Life(s, step)
  }

  // ---- Runs ----

  function After(s: State, steps: seq<Step>): State {
    if steps == [] then s else Next(After(s, steps[..|steps| - 1]), steps[|steps| - 1])
  }

  /** The state of a run before its step `k`. */
  function Before(steps: seq<Step>, k: nat): State
    requires k <= |steps|
  {
    After(INITIAL, steps[..k])
  }

  /** Step `k` of the run is really taken, by call `t`. */
  predicate Takes(steps: seq<Step>, k: nat, t: nat) {
    k < |steps| && steps[k].t == t && Enabled(Before(steps, k), steps[k])
  }

  predicate Taken(steps: seq<Step>, k: nat) {
    k < |steps| && Enabled(Before(steps, k), steps[k])
  }

  lemma BeforeStep(steps: seq<Step>, k: nat)
    requires k < |steps|
    ensures Before(steps, k + 1) == Next(Before(steps, k), steps[k])
  {
    assert steps[..k + 1][..k] == steps[..k];
  }

  lemma AfterSnoc(s: State, steps: seq<Step>, step: Step)
    ensures After(s, steps + [step]) == Next(After(s, steps), step)
  {
    assert (steps + [step])[..|steps|] == steps;
  }

  lemma AfterOne(s: State, a: Step)
    ensures After(s, [a]) == Next(s, a)
  {
    AfterSnoc(s, [], a);
    assert [] + [a] == [a];
  }

  lemma AfterTwo(s: State, a: Step, b: Step)
    ensures After(s, [a, b]) == Next(Next(s, a), b)
  {
    AfterOne(s, a);
    AfterSnoc(s, [a], b);
    assert [a] + [b] == [a, b];
  }

  lemma {:induction false} AfterConcat(s: State, a: seq<Step>, b: seq<Step>)
    ensures After(s, a + b) == After(After(s, a), b)
  {
    if b == [] {
      assert a + b == a;
    } else {
      AfterConcat(s, a, b[..|b| - 1]);
      assert (a + b)[..|a + b| - 1] == a + b[..|b| - 1];
    }
  }

  /** Of the first `n` steps one is `on`, and none after it is `off`. */
  ghost predicate Since(n: nat, on: nat -> bool, off: nat -> bool) {
    exists j: nat :: j < n && on(j) && forall k: nat :: j < k < n ==> !off(k)
  }

  lemma SinceStep(n: nat, on: nat -> bool, off: nat -> bool)
    ensures Since(n + 1, on, off) <==> on(n) || (Since(n, on, off) && !off(n))
  {
    if Since(n + 1, on, off) && !on(n) {
      var j: nat :| j < n + 1 && on(j) && forall k: nat :: j < k < n + 1 ==> !off(k);
      assert j < n;
    }
    if Since(n, on, off) && !off(n) {
      var j: nat :| j < n && on(j) && forall k: nat :: j < k < n ==> !off(k);
      assert forall k: nat :: j < k < n + 1 ==> !off(k);
    }
  }

  lemma SinceWitness(n: nat, on: nat -> bool, off: nat -> bool) returns (j: nat)
    requires Since(n, on, off)
    ensures j < n && on(j) && forall k: nat :: j < k < n ==> !off(k)
  {
    j :| j < n && on(j) && forall k: nat :: j < k < n ==> !off(k);
  }

  // ---- Where a call is ----

  /** Step `k` brings call `t` to place `p`. */
  predicate Enters(steps: seq<Step>, k: nat, t: nat, p: Place) {
    Takes(steps, k, t) && At(Before(steps, k + 1), t) == p
  }

  predicate OnlyMoves(s: State, s': State, t: nat) {
    s'.calls == s.calls[t := At(s', t)]
  }

  lemma GetMoves(s: State, step: Step)
    requires Enabled(s, step)
    requires step.BeginGet? || step.Lookup? || step.Name? || step.CheckReady? || step.Send? || step.TakeReply?
    ensures OnlyMoves(s, Get(s, step), step.t)
  {
  }

  lemma SessionMoves(s: State, step: Step)
    requires Enabled(s, step)
    requires step.BeginSession? || step.SeeId? || step.ReadId? || step.SendForSession?
          || step.BeginStart? || step.SetId?
    ensures OnlyMoves(s, Session(s, step), step.t)
  {
  }

  lemma LifeMoves(s: State, step: Step)
    requires Enabled(s, step)
    requires step.ReadyAnswered? || step.Make? || step.BeginStop? || step.TestOpen? || step.TestNil? || step.CloseNow?
          || step.BeginInit? || step.FinishInit?
    ensures OnlyMoves(s, Life(s, step), step.t)
  {
  }

  lemma StepMoves(s: State, step: Step)
    requires Enabled(s, step)
    ensures OnlyMoves(s, Next(s, step), step.t)
  {
    match step {
      case BeginGet(_, _) => GetMoves(s, step);
      case Lookup(_, _) => GetMoves(s, step);
      case Name(_, _) => GetMoves(s, step);
      case CheckReady(_) => GetMoves(s, step);
      case Send(_) => GetMoves(s, step);
      case TakeReply(_, _) => GetMoves(s, step);
      case BeginSession(_, _) => SessionMoves(s, step);
      case SeeId(_) => SessionMoves(s, step);
      case ReadId(_, _, _) => SessionMoves(s, step);
      case SendForSession(_) => SessionMoves(s, step);
      case BeginStart(_, _) => SessionMoves(s, step);
      case SetId(_) => SessionMoves(s, step);
      case _ => LifeMoves(s, step);
    }
  }

  lemma OthersStay(s: State, step: Step, t: nat)
    requires step.t != t || !Enabled(s, step)
    ensures At(Next(s, step), t) == At(s, t)
  {
    if Enabled(s, step) {
      StepMoves(s, step);
    }
  }

  /** A call is where the last step it took brought it. */
  lemma {:induction false} PlaceExactlyWhen(steps: seq<Step>, n: nat, t: nat, p: Place)
    requires n <= |steps| && p != Idle
    ensures At(Before(steps, n), t) == p
            <==> Since(n, (k: nat) => Enters(steps, k, t, p), (k: nat) => Takes(steps, k, t))
  {
    if n > 0 {
      PlaceExactlyWhen(steps, n - 1, t, p);
      BeforeStep(steps, n - 1);
      if !Takes(steps, n - 1, t) {
        OthersStay(Before(steps, n - 1), steps[n - 1], t);
      }
      SinceStep(n - 1, (k: nat) => Enters(steps, k, t, p), (k: nat) => Takes(steps, k, t));
    }
  }

  lemma LastStep(steps: seq<Step>, n: nat, t: nat) returns (j: nat)
    requires n <= |steps| && At(Before(steps, n), t) != Idle
    ensures j < n && Takes(steps, j, t) && At(Before(steps, n), t) == At(Next(Before(steps, j), steps[j]), t)
    ensures forall k: nat :: j < k < n ==> !Takes(steps, k, t)
  {
    var p := At(Before(steps, n), t);
    PlaceExactlyWhen(steps, n, t, p);
    var moves := (k: nat) => Takes(steps, k, t);
    j := SinceWitness(n, (k: nat) => Enters(steps, k, t, p), moves);
    forall k: nat | j < k < n ensures !Takes(steps, k, t) {
      assert !moves(k);
    }
    BeforeStep(steps, j);
  }

  /** A call that has not begun. */
  lemma NewCall(s: State) returns (t: nat)
    ensures At(s, t) == Idle
  {
    t := UpperBound(s.calls.Keys);
  }
}
