/** The object of server/server_state.go as one caller at a time sees it: its methods in the
    code's own order, proved to do what the steps of ServerState compose to. */
module ServerObject {
  import opened Prelude
  import opened ServerState

  // ---- What a whole call does ----

  function Close(closes: seq<nat>): seq<nat> {
    if closes == [] || closes[|closes| - 1] > 0 then closes else closes[..|closes| - 1] + [1]
  }

  function Stopped(s: State): State {
    if s.ready then s.(ready := false, closes := Close(s.closes)) else s
  }

  datatype Result = Result(state: State, error: Option<Error>, credentials: Credentials, sent: seq<Request>)

  function Fails(s: State, error: Error): Result {
    Result(s, Some(error), NO_CREDENTIALS, [])
  }

  function Asked(s: State, r: Request, reply: Reply): Result {
    match reply
    case Failed(partial) => Result(s, Some(ServiceFailed), partial, [r])
    case Answered(c) =>
      if c.accessKeyId == "" then Result(s.(managed := false), Some(BadRequest), c, [r])
      else Result(s.(cache := s.cache[r.roleArn := c]), None, c, [r])
  }

  function Credentialed(s: State, r: Request, valid: bool, now: int, reply: Reply): Result {
    if !s.managed then Fails(s, BadRequest)
    else if Hit(s, r.roleArn, now) then Result(s, None, s.cache[r.roleArn], [])
    else
      var missed := s.(cache := s.cache - {r.roleArn});
      if !valid then Fails(missed, Invalid)
      else if !s.ready then Fails(missed, ProcessNotReady)
      else Asked(missed, WithName(s, r), reply)
  }

  datatype SessionResult = Refused(error: Error) | SentWith(id: string)

  function ForSession(s: State, kind: SessionKind, given: bool, valid: bool): SessionResult {
    if !s.ready then Refused(ProcessNotReady)
    else if s.sessionId == "" then Refused(SessionNotSet)
    else match ArgumentError(kind, given, valid)
      case Some(error) => Refused(error)
      case None => SentWith(s.sessionId)
  }

  // ---- The same, by small steps ----

  lemma Overwrite(s: State, t: nat, p: Place, q: Place)
    ensures Move(Move(s, t, p), t, q) == Move(s, t, q)
  {
    assert s.calls[t := p][t := q] == s.calls[t := q];
  }

  /** Once a call has returned its further steps do nothing. */
  lemma ReturnedStays(s: State, step: Step)
    requires At(s, step.t).Got? || At(s, step.t).Done?
    ensures Next(s, step) == s
  {
  }

  /** Where a call is after its result. */
  function Returned(result: Result, t: nat): State {
    Move(result.state, t, Got(result.error, result.credentials))
  }

  lemma SentAlone(s: State, t: nat, r: Request, reply: Reply)
    requires !s.panicked
    ensures Next(Next(Move(s, t, Checked(r)), Send(t)), TakeReply(t, reply)) == Returned(Asked(s, r, reply), t)
  {
    var s1 := Move(s, t, Checked(r));
    assert Next(s1, Send(t)) == Move(s1, t, Waiting(r));
    Overwrite(s, t, Checked(r), Waiting(r));
    var result := Asked(s, r, reply);
    assert Next(Move(s, t, Waiting(r)), TakeReply(t, reply)) == Answer(Move(s, t, Waiting(r)), t, r.roleArn, reply);
    Overwrite(result.state, t, Waiting(r), Got(result.error, result.credentials));
  }

  /** The last three steps. */
  function NamedOn(s: State, t: nat, reply: Reply): State {
    Next(Next(Next(s, CheckReady(t)), Send(t)), TakeReply(t, reply))
  }

  lemma NamedAlone(s: State, t: nat, r: Request, reply: Reply)
    requires !s.panicked
    ensures NamedOn(Move(s, t, Named(r)), t, reply) ==
            Returned(if s.ready then Asked(s, r, reply) else Fails(s, ProcessNotReady), t)
  {
    var p := if s.ready then Checked(r) else Got(Some(ProcessNotReady), NO_CREDENTIALS);
    Overwrite(s, t, Named(r), p);
    assert Next(Move(s, t, Named(r)), CheckReady(t)) == Move(s, t, p);
    if s.ready {
      SentAlone(s, t, r, reply);
    } else {
      ReturnedStays(Move(s, t, p), Send(t));
      ReturnedStays(Move(s, t, p), TakeReply(t, reply));
    }
  }

  lemma GotStays(s: State, t: nat, reply: Reply)
    requires At(s, t).Got?
    ensures NamedOn(s, t, reply) == s
  {
    ReturnedStays(s, CheckReady(t));
    ReturnedStays(s, Send(t));
    ReturnedStays(s, TakeReply(t, reply));
  }

  lemma MissedAlone(s: State, t: nat, r: Request, valid: bool, reply: Reply)
    requires !s.panicked
    ensures NamedOn(Next(Move(s, t, Missed(r)), Name(t, valid)), t, reply) ==
            Returned(if !valid then Fails(s, Invalid)
                     else if !s.ready then Fails(s, ProcessNotReady)
                     else Asked(s, WithName(s, r), reply), t)
  {
    var p := if valid then Named(WithName(s, r)) else Got(Some(Invalid), NO_CREDENTIALS);
    Overwrite(s, t, Missed(r), p);
    assert Next(Move(s, t, Missed(r)), Name(t, valid)) == Move(s, t, p);
    if valid {
      NamedAlone(s, t, WithName(s, r), reply);
    } else {
      GotStays(Move(s, t, p), t, reply);
    }
  }

  lemma LookingAlone(s: State, t: nat, r: Request, valid: bool, now: int, reply: Reply)
    requires !s.panicked && s.managed
    ensures NamedOn(Next(Next(Move(s, t, Looking(r)), Lookup(t, now)), Name(t, valid)), t, reply) ==
            Returned(Credentialed(s, r, valid, now, reply), t)
  {
    var s1 := Next(Move(s, t, Looking(r)), Lookup(t, now));
    if Hit(s, r.roleArn, now) {
      Overwrite(s, t, Looking(r), Got(None, s.cache[r.roleArn]));
      ReturnedStays(s1, Name(t, valid));
      GotStays(s1, t, reply);
    } else {
      var missed := s.(cache := s.cache - {r.roleArn});
      Overwrite(missed, t, Looking(r), Missed(r));
      assert s1 == Move(missed, t, Missed(r));
      MissedAlone(missed, t, r, valid, reply);
    }
  }

  function GetSteps(t: nat, r: Request, valid: bool, now: int, reply: Reply): seq<Step> {
    [BeginGet(t, Some(r)), Lookup(t, now), Name(t, valid)] + [CheckReady(t), Send(t), TakeReply(t, reply)]
  }

  lemma AfterThree(s: State, a: Step, b: Step, c: Step)
    ensures After(s, [a, b, c]) == Next(Next(Next(s, a), b), c)
  {
    AfterTwo(s, a, b);
    AfterSnoc(s, [a, b], c);
    assert [a, b] + [c] == [a, b, c];
  }

  /** A getFleetRoleCredentials that nothing interrupts. */
  lemma GetAlone(s: State, t: nat, r: Request, valid: bool, now: int, reply: Reply)
    requires !s.panicked && At(s, t) == Idle
    ensures After(s, GetSteps(t, r, valid, now, reply)) == Returned(Credentialed(s, r, valid, now, reply), t)
  {
    AfterConcat(s, [BeginGet(t, Some(r)), Lookup(t, now), Name(t, valid)],
                [CheckReady(t), Send(t), TakeReply(t, reply)]);
    AfterThree(s, BeginGet(t, Some(r)), Lookup(t, now), Name(t, valid));
    var begun := Next(s, BeginGet(t, Some(r)));
    var named := Next(Next(begun, Lookup(t, now)), Name(t, valid));
    AfterThree(named, CheckReady(t), Send(t), TakeReply(t, reply));
    if s.managed {
      LookingAlone(s, t, r, valid, now, reply);
    } else {
      ReturnedStays(begun, Lookup(t, now));
      ReturnedStays(begun, Name(t, valid));
      GotStays(begun, t, reply);
    }
  }

  /** A stop that nothing interrupts closes the current channel if it is open, and only then. */
  lemma StopAlone(s: State, t: nat)
    requires !s.panicked && At(s, t) == Idle
    ensures After(s, [BeginStop(t)] + [TestOpen(t), TestNil(t), CloseNow(t)]) == Move(Stopped(s), t, Done(None))
  {
    AfterConcat(s, [BeginStop(t)], [TestOpen(t), TestNil(t), CloseNow(t)]);
    AfterOne(s, BeginStop(t));
    AfterThree(Next(s, BeginStop(t)), TestOpen(t), TestNil(t), CloseNow(t));
    StopResult(s, t);
  }

  lemma StopResult(s: State, t: nat)
    requires !s.panicked && At(s, t) == Idle
    ensures Next(Next(Next(Next(s, BeginStop(t)), TestOpen(t)), TestNil(t)), CloseNow(t)) ==
            Move(Stopped(s), t, Done(None))
  {
    var begun := Next(s, BeginStop(t));
    if s.ready {
      var s1 := s.(ready := false);
      assert begun == Move(s1, t, Stopping);
      StopTested(s1, t);
    } else {
      ReturnedStays(begun, TestOpen(t));
      ReturnedStays(begun, TestNil(t));
      ReturnedStays(begun, CloseNow(t));
    }
  }

  lemma StopTested(s: State, t: nat)
    requires !s.panicked && !s.ready
    ensures Next(Next(Next(Move(s, t, Stopping), TestOpen(t)), TestNil(t)), CloseNow(t)) ==
            Move(s.(closes := Close(s.closes)), t, Done(None))
  {
    var p := if CurrentClosed(s) then Done(None) else TestedOpen;
    Overwrite(s, t, Stopping, p);
    assert Next(Move(s, t, Stopping), TestOpen(t)) == Move(s, t, p);
    if CurrentClosed(s) {
      ReturnedStays(Move(s, t, p), TestNil(t));
      ReturnedStays(Move(s, t, p), CloseNow(t));
    } else {
      StopClosing(s, t);
    }
  }

  lemma StopClosing(s: State, t: nat)
    requires !s.panicked && !s.ready && !CurrentClosed(s)
    ensures Next(Next(Move(s, t, TestedOpen), TestNil(t)), CloseNow(t)) ==
            Move(s.(closes := Close(s.closes)), t, Done(None))
  {
    var p := if s.closes == [] then Done(None) else TestedNil;
    Overwrite(s, t, TestedOpen, p);
    assert Next(Move(s, t, TestedOpen), TestNil(t)) == Move(s, t, p);
    if s.closes == [] {
      ReturnedStays(Move(s, t, p), CloseNow(t));
    } else {
      Overwrite(s.(closes := Close(s.closes)), t, TestedNil, Done(None));
      assert s.closes[|s.closes| - 1 := 1] == Close(s.closes);
    }
  }

  /** Where a session request is once it has gone out, or not. */
  function SessionEnd(result: SessionResult, kind: SessionKind): Place {
    match result
    case Refused(error) => Done(Some(error))
    case SentWith(id) => IdRead(kind, id)
  }

  /** A session request that nothing interrupts, up to its sending. */
  lemma SessionAlone(s: State, t: nat, kind: SessionKind, given: bool, valid: bool)
    requires !s.panicked && At(s, t) == Idle
    ensures After(s, [BeginSession(t, kind), SeeId(t), ReadId(t, given, valid)]) ==
            Move(s, t, SessionEnd(ForSession(s, kind, given, valid), kind))
  {
    AfterThree(s, BeginSession(t, kind), SeeId(t), ReadId(t, given, valid));
    var begun := Next(s, BeginSession(t, kind));
    if !s.ready {
      ReturnedStays(begun, SeeId(t));
      ReturnedStays(begun, ReadId(t, given, valid));
    } else {
      assert begun == Move(s, t, Gated(kind));
      GatedAlone(s, t, kind, given, valid);
    }
  }

  lemma GatedAlone(s: State, t: nat, kind: SessionKind, given: bool, valid: bool)
    requires !s.panicked && s.ready
    ensures Next(Next(Move(s, t, Gated(kind)), SeeId(t)), ReadId(t, given, valid)) ==
            Move(s, t, SessionEnd(ForSession(s, kind, given, valid), kind))
  {
    var p := if s.sessionId == "" then Done(Some(SessionNotSet)) else IdSeen(kind);
    Overwrite(s, t, Gated(kind), p);
    assert Next(Move(s, t, Gated(kind)), SeeId(t)) == Move(s, t, p);
    if s.sessionId == "" {
      ReturnedStays(Move(s, t, p), ReadId(t, given, valid));
    } else {
      Overwrite(s, t, p, SessionEnd(ForSession(s, kind, given, valid), kind));
    }
  }

  // ---- The object ----

  /** A Go channel that is only ever closed. */
  class Channel {
    var closes: nat

    constructor ()
      ensures closes == 0
    { closes := 0; }

    /** Closing twice panics. */
    method Close()
      requires closes == 0
      modifies this
      ensures closes == 1
    {
      closes := 1;
    }
  }

  /** The caller's request, whose session name is filled in place. */
  class RoleRequest {
    const roleArn: string
    var roleSessionName: string

    constructor (roleArn: string, roleSessionName: string)
      ensures this.roleArn == roleArn && this.roleSessionName == roleSessionName
    { this.roleArn, this.roleSessionName := roleArn, roleSessionName; }
  }

  /** The service's answers, the clock and the validators' verdicts are arguments. */
  class GameLiftServerState {
    var isReadyProcess: bool
    var onManagedEC2: bool
    var fleetID: string
    var hostID: string
    var gameSessionID: string
    var fleetRoleResultCache: map<string, Credentials>
    var shutdown: Channel?
    var requested: seq<Request>               // credential requests sent
    var sessionIds: seq<(SessionKind, string)>   // session requests sent
    ghost var made: seq<Channel>

    ghost predicate Valid()
      reads this
    {
      && (forall i, j :: 0 <= i < j < |made| ==> made[i] != made[j])
      && shutdown == (if made == [] then null else made[|made| - 1])
    }

    ghost function Value(): State
      reads this, made
    {
      State(isReadyProcess, onManagedEC2, fleetID, hostID, gameSessionID, fleetRoleResultCache,
            Closings(made), map[], false)
    }

    static ghost function Closings(made: seq<Channel>): seq<nat>
      reads made
    {
      seq(|made|, i requires 0 <= i < |made| reads made => made[i].closes)
    }

    constructor ()
      ensures Valid() && Value() == INITIAL && requested == [] && sessionIds == [] && made == []
    {
      isReadyProcess, onManagedEC2, fleetID, hostID, gameSessionID := false, false, "", "", "";
      fleetRoleResultCache, shutdown, requested, sessionIds, made := map[], null, [], [], [];
    }

    /** The cache is cleared before validation. */
    method Init(valid: bool, fleetId: string, hostId: string)
      requires Valid()
      modifies this`fleetRoleResultCache, this`fleetID, this`hostID, this`onManagedEC2
      ensures Valid()
      ensures Value() == old(Value()).(cache := map[],
                                       managed := valid || old(onManagedEC2),
                                       fleetId := if valid then fleetId else old(fleetID),
                                       hostId := if valid then hostId else old(hostID))
    {
      fleetRoleResultCache := map[];
      if valid {
        fleetID, hostID, onManagedEC2 := fleetId, hostId, true;
      }
    }

    method ProcessReady(valid: bool, ok: bool) returns (error: Option<Error>)
      requires Valid()
      modifies this`isReadyProcess, this`shutdown, this`made
      ensures Valid()
      ensures error == if !valid then Some(Invalid) else if !ok then Some(ProcessNotReady) else None
      ensures Value() == if error == None then old(Value()).(ready := true, closes := old(Value()).closes + [0])
                         else old(Value())
      ensures made == old(made) || (exists c :: fresh(c) && made == old(made) + [c])
    {
      if !valid {
        return Some(Invalid);
      }
      if !ok {
        return Some(ProcessNotReady);
      }
      isReadyProcess := true;
      shutdown := new Channel();
      made := made + [shutdown];
      error := None;
    }

    /** Never closes a channel twice. */
    method StopServerProcess()
      requires Valid()
      modifies this`isReadyProcess, shutdown
      ensures Valid()
      ensures Value() == Stopped(old(Value()))
    {
      if isReadyProcess {
        isReadyProcess := false;
        if shutdown != null && shutdown.closes == 0 {
          shutdown.Close();
        }
      }
    }

    method ProcessEnding(ok: bool) returns (error: Option<Error>)
      requires Valid()
      modifies this`isReadyProcess, shutdown
      ensures Valid()
      ensures error == if ok then None else Some(ServiceFailed)
      ensures Value() == if ok then Stopped(old(Value())) else old(Value())
    {
      if !ok {
        return Some(ServiceFailed);
      }
      StopServerProcess();
      error := None;
    }

    method OnStartGameSession(session: Option<string>)
      requires Valid()
      modifies this`gameSessionID
      ensures Valid()
      ensures Value() == if session.Some? && isReadyProcess then old(Value()).(sessionId := session.value)
                         else old(Value())
    {
      if session == None || !isReadyProcess {
        return;
      }
      gameSessionID := session.value;
    }

    /** activateGameSession, updatePlayerSessionCreationPolicy, acceptPlayerSession and
        removePlayerSession; the service's answer, passed on as it is, changes nothing here. */
    method RequestForSession(kind: SessionKind, given: bool, valid: bool) returns (error: Option<Error>)
      requires Valid()
      modifies this`sessionIds
      ensures Valid() && Value() == old(Value())
      ensures match ForSession(Value(), kind, given, valid)
              case Refused(e) => error == Some(e) && sessionIds == old(sessionIds)
              case SentWith(id) => error == None && sessionIds == old(sessionIds) + [(kind, id)]
    {
      if !isReadyProcess {
        return Some(ProcessNotReady);
      }
      if gameSessionID == "" {
        return Some(SessionNotSet);
      }
      if kind == UpdatePolicy && !given {
        return Some(BadRequest);
      }
      if kind != ActivateSession && !valid {
        return Some(Invalid);
      }
      sessionIds := sessionIds + [(kind, gameSessionID)];
      error := None;
    }

    method GetRoleCredentialsFromCache(roleArn: string, now: int) returns (found: Option<Credentials>)
      modifies this`fleetRoleResultCache
      ensures found.Some? <==> Hit(old(Value()), roleArn, now)
      ensures found.Some? ==> found.value == old(fleetRoleResultCache)[roleArn]
      ensures fleetRoleResultCache ==
              if found.Some? then old(fleetRoleResultCache) else old(fleetRoleResultCache) - {roleArn}
    {
      if roleArn in fleetRoleResultCache {
        var previous := fleetRoleResultCache[roleArn];
        if StillFresh(previous, now) {
          return Some(previous);
        }
        fleetRoleResultCache := fleetRoleResultCache - {roleArn};
      }
      found := None;
    }

    /** The name is filled in before validation, and stays when that fails. */
    method NameSession(req: RoleRequest)
      modifies req
      ensures req.roleSessionName == WithName(Value(), Request(req.roleArn, old(req.roleSessionName))).sessionName
    {
      if req.roleSessionName == "" {
        req.roleSessionName := fleetID + "-" + hostID;
        if |req.roleSessionName| > MAX_SESSION_NAME {
          req.roleSessionName := req.roleSessionName[..MAX_SESSION_NAME];
        }
      }
    }

    method AskService(r: Request, reply: Reply) returns (result: Credentials, error: Option<Error>)
      requires Valid()
      modifies this`onManagedEC2, this`fleetRoleResultCache, this`requested
      ensures Valid()
      ensures var asked := Asked(old(Value()), r, reply);
              && Value() == asked.state && error == asked.error && result == asked.credentials
              && requested == old(requested) + [r]
    {
      requested := requested + [r];
      if reply.Failed? {
        return reply.partial, Some(ServiceFailed);
      }
      if reply.credentials.accessKeyId == "" {
        onManagedEC2 := false;
        return reply.credentials, Some(BadRequest);
      }
      fleetRoleResultCache := fleetRoleResultCache[r.roleArn := reply.credentials];
      return reply.credentials, None;
    }

    method GetFleetRoleCredentials(req: RoleRequest?, valid: bool, now: int, reply: Reply)
      returns (result: Credentials, error: Option<Error>)
      requires Valid()
      modifies this`onManagedEC2, this`fleetRoleResultCache, this`requested, req
      ensures Valid()
      ensures req == null ==> Value() == old(Value()) && requested == old(requested) && error == Some(BadRequest)
      ensures req != null ==>
                var r := Request(req.roleArn, old(req.roleSessionName));
                var whole := Credentialed(old(Value()), r, valid, now, reply);
                && Value() == whole.state && error == whole.error && result == whole.credentials
                && requested == old(requested) + whole.sent
                && req.roleSessionName ==
                     (if old(onManagedEC2) && !Hit(old(Value()), r.roleArn, now)
                      then WithName(old(Value()), r) else r).sessionName
    {
      if req == null || !onManagedEC2 {
        return NO_CREDENTIALS, Some(BadRequest);
      }
      var found := GetRoleCredentialsFromCache(req.roleArn, now);
      if found.Some? {
        return found.value, None;
      }
      NameSession(req);
      if !valid {
        return NO_CREDENTIALS, Some(Invalid);
      }
      if !isReadyProcess {
        return NO_CREDENTIALS, Some(ProcessNotReady);
      }
      result, error := AskService(Request(req.roleArn, req.roleSessionName), reply);
    }
  }
}
