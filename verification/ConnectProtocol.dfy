/** How server/internal/transport/websocket.go swaps connections: `Connect` under
    `writeMtx`, `Reconnect`, the readers' error branch and `Close`, as small steps
    of any number of callers and readers. */
module ConnectProtocol {
  import opened Prelude

  /** A reader goroutine, by how far it has come since its ReadMessage failed. */
  datatype Reader =
    | NotStarted
    | Reading(id: nat)
    | Tested(id: nat)           // past the context test (188): line 196 is next
    | Interrupting(id: nat)     // found `reconnecting` clear, is in handleNetworkInterrupt
    | Reconnecting(id: nat)     // found auto-reconnect allowed: Reconnect's Swap is next
    | Within(id: nat, t: nat)   // waits for its Reconnect, which is caller `t`
    | Leaving(id: nat)          // the deferred Close (176) is next
    | Ended(id: nat)

  /** A dialled connection, its lifetime context, and its reader goroutine. */
  datatype Conn = Conn(cancelled: bool, closeCalls: nat, reader: Reader)

  /** How far a caller has come, by line of websocket.go. */
  datatype Place =
    | Queued      // waiting for writeMtx
    | Locked      // holds writeMtx, line 88 is next
    | Dialling    // line 88 done, locals read
    | Dialled     // lines 123-124 done
    | UrlSet      // line 131 done
    | Marked      // line 136 done: the old connection is cancelled
    | Flagged     // line 137 done
    | Cleared     // line 138 done
    | Started     // lines 140-141 done
    | Closed      // line 144 done, the unlock is next
    | Failed      // every dial failed, the unlock is next
    | Trailing(failed: bool)   // Reconnect only: line 158 is next
    | Waiting                  // Reconnect only: saw another one under way, waits for writeMtx
    | Returned(failed: bool)

  /** `oldConn` and `oldCancel` are the locals read at lines 89-91. */
  datatype Caller = Caller(
    viaReconnect: bool, url: string, oldConn: Option<nat>, oldCancel: Option<nat>, at: Place)

  datatype State = State(
    conns: seq<Conn>,           // every connection ever dialled, in order
    conn: Option<nat>, cancelFn: Option<nat>, url: string, connectionId: nat,
    isConnected: bool, reconnecting: bool, preventAutoReconnect: bool,
    lock: Option<nat>, callers: map<nat, Caller>,
    closers: nat)               // Close calls between their swap and their conn.Close

  const INITIAL := State([], None, None, "", 0, false, false, false, None, map[], 0)

  /** What the holder of writeMtx does next. */
  datatype Action =
    | SetReconnecting | DialFails | DialSucceeds | SetUrl | CancelOld
    | SetConnected | ClearReconnecting | StartReader | CloseOld | Unlock

  /** What the reader of a connection does next; each is one access to shared state. */
  datatype ReaderMove =
    | Fails(abnormal: bool) | TestsFlag | TestsPrevent | Reconnects(t: nat) | Returns | Closes

  datatype Step =
    | CallConnect(t: nat, u: string) | CallReconnect(t: nat)
    | Lock(t: nat) | Hold(t: nat, action: Action)
    | TrailingStore(t: nat) | StopWaiting(t: nat)
    | ReaderMoves(c: nat, move: ReaderMove)
    | CloseSwaps | CloseCloses | PreventAutoReconnect

  predicate At(s: State, t: nat, p: Place) {
    t in s.callers && s.callers[t].at == p
  }

  function Move(s: State, t: nat, p: Place): State
    requires t in s.callers
  {
    s.(callers := s.callers[t := s.callers[t].(at := p)])
  }

  function CancelConn(conns: seq<Conn>, c: Option<nat>): seq<Conn> {
    if c.Some? && c.value < |conns| then conns[c.value := conns[c.value].(cancelled := true)] else conns
  }

  function CloseConn(conns: seq<Conn>, c: Option<nat>): seq<Conn> {
    if c.Some? && c.value < |conns|
    then conns[c.value := conns[c.value].(closeCalls := conns[c.value].closeCalls + 1)]
    else conns
  }

  /** `tr.reconnecting.Swap(true)` at the head of Reconnect. */
  function BeginReconnect(s: State, t: nat): State {
    s.(reconnecting := true,
       callers := s.callers[t := Caller(true, s.url, None, None, if s.reconnecting then Waiting else Queued)])
  }

  function SetReader(s: State, c: nat, reader: Reader): State
    requires c < |s.conns|
  {
    s.(conns := s.conns[c := s.conns[c].(reader := reader)])
  }

  function CloseByReader(s: State, c: nat): State
    requires c < |s.conns| && s.conns[c].reader.Leaving?
  {
    s.(conns := s.conns[c := Conn(s.conns[c].cancelled, s.conns[c].closeCalls + 1, Ended(s.conns[c].reader.id))])
  }

  /** One move of the reader of connection `c`; None when it is not its next one. */
  function ReaderStep(s: State, c: nat, move: ReaderMove): Option<State>
    requires c < |s.conns|
  {
    match (move, s.conns[c].reader)
    case (Fails(abnormal), Reading(id)) =>
      Some(SetReader(s, c, if s.conns[c].cancelled || !abnormal then Leaving(id) else Tested(id)))
    case (TestsFlag, Tested(id)) => Some(SetReader(s, c, if s.reconnecting then Leaving(id) else Interrupting(id)))
    case (TestsPrevent, Interrupting(id)) =>
      Some(SetReader(s, c, if s.preventAutoReconnect then Leaving(id) else Reconnecting(id)))
    case (Reconnects(t), Reconnecting(id)) =>
      if t in s.callers then None else Some(BeginReconnect(SetReader(s, c, Within(id, t)), t))
    case (Returns, Within(id, t)) =>
      if t in s.callers && s.callers[t].at.Returned? then Some(SetReader(s, c, Leaving(id))) else None
    case (Closes, Leaving(_)) => Some(CloseByReader(s, c))
    case _ => None
  }

  /** Line 88 and the locals. */
  function ReadLocals(s: State, t: nat): State
    requires t in s.callers
  {
    s.(reconnecting := true,
       callers := s.callers[t := s.callers[t].(oldConn := s.conn, oldCancel := s.cancelFn, at := Dialling)])
  }

  /** Lines 123-124: the new connection and its cancel function take the place of the old. */
  function Install(s: State, t: nat): State
    requires t in s.callers
  {
    Move(s.(conns := s.conns + [Conn(false, 0, NotStarted)], conn := Some(|s.conns|), cancelFn := Some(|s.conns|)),
         t, Dialled)
  }

  /** Lines 140-141. */
  function StartReading(s: State, t: nat): State
    requires t in s.callers
  {
    var id := s.connectionId + 1;
    Move(s.(connectionId := id,
            conns := if s.conn.Some? && s.conn.value < |s.conns|
                     then s.conns[s.conn.value := s.conns[s.conn.value].(reader := Reading(id))]
                     else s.conns), t, Started)
  }

  function Release(s: State, t: nat): State
    requires t in s.callers
  {
    var failed := s.callers[t].at == Failed;
    Move(s.(lock := None), t, if s.callers[t].viaReconnect then Trailing(failed) else Returned(failed))
  }

  /** The holder's action; None when it is not the next one. */
  function Act(s: State, t: nat, action: Action): Option<State>
    requires t in s.callers
  {
    var c := s.callers[t];
    match (action, c.at)
    case (SetReconnecting, Locked) => Some(ReadLocals(s, t))
    case (DialFails, Dialling) => Some(Move(s, t, Failed))
    case (DialSucceeds, Dialling) => Some(Install(s, t))
    case (SetUrl, Dialled) => Some(Move(s.(url := if c.viaReconnect then s.url else c.url), t, UrlSet))
    case (CancelOld, UrlSet) => Some(Move(s.(conns := CancelConn(s.conns, c.oldCancel)), t, Marked))
    case (SetConnected, Marked) => Some(Move(s.(isConnected := true), t, Flagged))
    case (ClearReconnecting, Flagged) => Some(Move(s.(reconnecting := false), t, Cleared))
    case (StartReader, Cleared) => Some(StartReading(s, t))
    case (CloseOld, Started) => Some(Move(s.(conns := CloseConn(s.conns, c.oldConn)), t, Closed))
    case (Unlock, Closed) => Some(Release(s, t))
    case (Unlock, Failed) => Some(Release(s, t))
    case _ => None
  }

  /** One step; None when it is not enabled. */
  function Apply(s: State, step: Step): Option<State> {
    match step
    case CallConnect(t, u) =>
      if t in s.callers then None else Some(s.(callers := s.callers[t := Caller(false, u, None, None, Queued)]))
    case CallReconnect(t) =>
      if t in s.callers then None else Some(BeginReconnect(s, t))
    case Lock(t) =>
      if At(s, t, Queued) && s.lock == None then Some(Move(s.(lock := Some(t)), t, Locked)) else None
    case Hold(t, action) =>
      if t in s.callers then Act(s, t, action) else None
    case TrailingStore(t) =>
      if t in s.callers && s.callers[t].at.Trailing?
      then Some(Move(s.(reconnecting := false), t, Returned(s.callers[t].at.failed))) else None
    case StopWaiting(t) =>
      if At(s, t, Waiting) && s.lock == None then Some(Move(s, t, Returned(false))) else None
    case ReaderMoves(c, move) =>
      if c < |s.conns| then ReaderStep(s, c, move) else None
    case CloseSwaps =>
      if s.isConnected then Some(s.(isConnected := false, closers := s.closers + 1)) else None
    case CloseCloses =>
      if s.closers > 0 then Some(s.(closers := s.closers - 1, conns := CloseConn(s.conns, s.conn))) else None
    case PreventAutoReconnect => Some(s.(preventAutoReconnect := true))
  }

  function Exec(s: State, steps: seq<Step>): Option<State> {
    if steps == [] then Some(s)
    else match Exec(s, steps[..|steps| - 1])
      case None => None
      case Some(before) => Apply(before, steps[|steps| - 1])
  }

  lemma ExecSnoc(s: State, steps: seq<Step>, step: Step)
    requires Exec(s, steps).Some?
    ensures Exec(s, steps + [step]) == Apply(Exec(s, steps).value, step)
  {
    assert (steps + [step])[..|steps|] == steps;
  }

  lemma OneStep(s: State, steps: seq<Step>, before: State, step: Step, after: State)
    requires Exec(s, steps) == Some(before) && Apply(before, step) == Some(after)
    ensures Exec(s, steps + [step]) == Some(after)
  {
    ExecSnoc(s, steps, step);
  }

  lemma {:induction false} ExecConcat(s: State, a: seq<Step>, b: seq<Step>)
    requires Exec(s, a).Some?
    ensures Exec(s, a + b) == Exec(Exec(s, a).value, b)
  {
    if b == [] {
      assert a + b == a;
    } else {
      ExecConcat(s, a, b[..|b| - 1]);
      assert (a + b)[..|a + b| - 1] == a + b[..|b| - 1];
    }
  }

  lemma HoldApplies(s: State, steps: seq<Step>, t: nat, action: Action)
    requires Exec(s, steps).Some? && t in Exec(s, steps).value.callers
    ensures Exec(s, steps + [Hold(t, action)]) == Act(Exec(s, steps).value, t, action)
  {
    ExecSnoc(s, steps, Hold(t, action));
  }

  // ---- The invariant of every run ----

  predicate Critical(p: Place) {
    !(p.Queued? || p.Trailing? || p.Waiting? || p.Returned?)
  }

  /** The newest connection of `n`, as an index. */
  function Newest(n: int): Option<nat> {
    if n <= 0 then None else Some(n - 1)
  }

  /** Of the first `n` connections the last is live as told and the others are
      cancelled; the first `closed` have been closed; each reader has run under its own number. */
  ghost predicate Settled(conns: seq<Conn>, n: nat, closed: int, newestLive: bool) {
    && n <= |conns|
    && (forall i :: 0 <= i < n ==> conns[i].cancelled == !(i == n - 1 && newestLive))
    && (forall i :: 0 <= i < n && i < closed ==> conns[i].closeCalls >= 1)
    && (forall i :: 0 <= i < n ==> !conns[i].reader.NotStarted? && conns[i].reader.id == i + 1)
  }

  /** No replacement is under way: what holds whenever the lock is free. */
  ghost predicate Quiet(s: State) {
    s.connectionId == |s.conns| && Settled(s.conns, |s.conns|, |s.conns| - 1, true)
  }

  /** The new connection is installed and its reader not started; `oldLive` tells
      whether the old one is still to be cancelled. */
  ghost predicate Replacing(s: State, c: Caller, oldLive: bool) {
    && |s.conns| == s.connectionId + 1
    && c.oldConn == c.oldCancel == Newest(s.connectionId)
    && Settled(s.conns, s.connectionId, s.connectionId - 1, oldLive)
    && s.conns[s.connectionId] == Conn(false, s.conns[s.connectionId].closeCalls, NotStarted)
  }

  ghost predicate PlaceOk(s: State, c: Caller) {
    match c.at
    case Locked => Quiet(s)
    case Dialling => Quiet(s) && c.oldConn == s.conn && c.oldCancel == s.cancelFn
    case Failed => Quiet(s)
    case Dialled => Replacing(s, c, true)
    case UrlSet => Replacing(s, c, true)
    case Marked => Replacing(s, c, false)
    case Flagged => Replacing(s, c, false)
    case Cleared => Replacing(s, c, false)
    case Started =>
      && |s.conns| == s.connectionId >= 1 && c.oldConn == Newest(|s.conns| - 1)
      && Settled(s.conns, |s.conns|, |s.conns| - 2, true)
    case Closed => Quiet(s)
    case _ => true
  }

  ghost predicate LockOk(s: State) {
    && (forall t :: t in s.callers && Critical(s.callers[t].at) ==> s.lock == Some(t))
    && (s.lock.Some? ==> s.lock.value in s.callers && Critical(s.callers[s.lock.value].at))
  }

  ghost predicate ConnsOk(s: State) {
    && s.conn == s.cancelFn == Newest(|s.conns|)
    && (s.lock == None ==> Quiet(s))
    && (s.lock.Some? && s.lock.value in s.callers ==> PlaceOk(s, s.callers[s.lock.value]))
  }

  ghost predicate Inv(s: State) {
    LockOk(s) && ConnsOk(s)
  }

  /** Some connections closed or readers gone on, nothing cancelled and nothing started. */
  ghost predicate OnlyCloses(a: seq<Conn>, b: seq<Conn>) {
    && |a| == |b|
    && forall i :: 0 <= i < |a| ==>
         && a[i].cancelled == b[i].cancelled && a[i].closeCalls <= b[i].closeCalls
         && (a[i].reader == b[i].reader
             || (!a[i].reader.NotStarted? && !b[i].reader.NotStarted? && b[i].reader.id == a[i].reader.id))
  }

  lemma ClosingKeepsSettled(a: seq<Conn>, b: seq<Conn>, n: nat, closed: int, newestLive: bool)
    requires Settled(a, n, closed, newestLive) && OnlyCloses(a, b)
    ensures Settled(b, n, closed, newestLive)
  {
  }

  lemma ClosingKeepsQuiet(s: State, s': State)
    requires Quiet(s) && OnlyCloses(s.conns, s'.conns) && s'.connectionId == s.connectionId
    ensures Quiet(s')
  {
    ClosingKeepsSettled(s.conns, s'.conns, |s.conns|, |s.conns| - 1, true);
  }

  lemma ClosingKeepsReplacing(s: State, s': State, c: Caller, oldLive: bool)
    requires Replacing(s, c, oldLive) && OnlyCloses(s.conns, s'.conns) && s'.connectionId == s.connectionId
    ensures Replacing(s', c, oldLive)
  {
    ClosingKeepsSettled(s.conns, s'.conns, s.connectionId, s.connectionId - 1, oldLive);
  }

  lemma ClosingKeepsPlace(s: State, s': State, c: Caller)
    requires PlaceOk(s, c) && OnlyCloses(s.conns, s'.conns)
    requires s'.connectionId == s.connectionId && s'.conn == s.conn && s'.cancelFn == s.cancelFn
    ensures PlaceOk(s', c)
  {
    match c.at {
      case Dialled => ClosingKeepsReplacing(s, s', c, true);
      case UrlSet => ClosingKeepsReplacing(s, s', c, true);
      case Marked => ClosingKeepsReplacing(s, s', c, false);
      case Flagged => ClosingKeepsReplacing(s, s', c, false);
      case Cleared => ClosingKeepsReplacing(s, s', c, false);
      case Started => ClosingKeepsSettled(s.conns, s'.conns, |s.conns|, |s.conns| - 2, true);
      case Locked => ClosingKeepsQuiet(s, s');
      case Dialling => ClosingKeepsQuiet(s, s');
      case Failed => ClosingKeepsQuiet(s, s');
      case Closed => ClosingKeepsQuiet(s, s');
      case _ =>
    }
  }

  /** Steps that do not hold the lock: new callers, readers, Close, the trailing store. */
  lemma OutsideKeepsInv(s: State, s': State)
    requires Inv(s) && OnlyCloses(s.conns, s'.conns)
    requires s'.connectionId == s.connectionId && s'.conn == s.conn && s'.cancelFn == s.cancelFn && s'.lock == s.lock
    requires forall t :: t in s.callers && Critical(s.callers[t].at) ==>
               t in s'.callers && s'.callers[t] == s.callers[t]
    requires forall t :: t in s'.callers && Critical(s'.callers[t].at) ==>
               t in s.callers && s'.callers[t] == s.callers[t]
    ensures Inv(s')
  {
    if s.lock.Some? {
      ClosingKeepsPlace(s, s', s.callers[s.lock.value]);
    } else {
      ClosingKeepsQuiet(s, s');
    }
  }

  lemma HolderKeepsLock(s: State, t: nat, action: Action)
    requires LockOk(s) && t in s.callers && Act(s, t, action).Some?
    ensures LockOk(Act(s, t, action).value)
    ensures s.lock == Some(t) && Critical(s.callers[t].at)
  {
  }

  lemma CancelSettles(s: State, c: Caller)
    requires Replacing(s, c, true)
    ensures Replacing(s.(conns := CancelConn(s.conns, c.oldCancel)), c, false)
  {
  }

  lemma StartingSettles(s: State, t: nat)
    requires t in s.callers && Replacing(s, s.callers[t], false) && s.conn == Newest(|s.conns|)
    ensures PlaceOk(StartReading(s, t), StartReading(s, t).callers[t])
  {
  }

  lemma CloseSettles(s: State, t: nat)
    requires At(s, t, Started) && PlaceOk(s, s.callers[t])
    ensures Quiet(s.(conns := CloseConn(s.conns, s.callers[t].oldConn)))
  {
  }

  lemma InstallSettles(s: State, t: nat)
    requires s.lock == Some(t) && t in s.callers && ConnsOk(s) && At(s, t, Dialling)
    ensures ConnsOk(Install(s, t))
  {
  }

  lemma ReplacingActionSettles(s: State, t: nat, action: Action)
    requires s.lock == Some(t) && t in s.callers && ConnsOk(s) && Act(s, t, action).Some?
    requires action in {CancelOld, StartReader, CloseOld}
    ensures ConnsOk(Act(s, t, action).value)
  {
    match action {
      case CancelOld => CancelSettles(s, s.callers[t]);
      case StartReader => StartingSettles(s, t);
      case CloseOld => CloseSettles(s, t);
    }
  }

  /** The actions that touch no connection. */
  lemma PlainActionSettles(s: State, t: nat, action: Action)
    requires s.lock == Some(t) && t in s.callers && ConnsOk(s) && Act(s, t, action).Some?
    requires action in {SetReconnecting, DialFails, SetUrl, SetConnected, ClearReconnecting, Unlock}
    ensures ConnsOk(Act(s, t, action).value)
  {
    assert Act(s, t, action).value.conns == s.conns;
  }

  lemma HolderKeepsConns(s: State, t: nat, action: Action)
    requires s.lock == Some(t) && t in s.callers && ConnsOk(s) && Act(s, t, action).Some?
    ensures ConnsOk(Act(s, t, action).value)
  {
    match action {
      case CancelOld => ReplacingActionSettles(s, t, action);
      case StartReader => ReplacingActionSettles(s, t, action);
      case CloseOld => ReplacingActionSettles(s, t, action);
      case DialSucceeds => InstallSettles(s, t);
      case _ => PlainActionSettles(s, t, action);
    }
  }

  lemma ReaderKeepsConns(s: State, c: nat, move: ReaderMove)
    requires c < |s.conns| && ReaderStep(s, c, move).Some?
    ensures OnlyCloses(s.conns, ReaderStep(s, c, move).value.conns)
  {
  }

  lemma ReaderKeepsRest(s: State, c: nat, move: ReaderMove)
    requires c < |s.conns| && ReaderStep(s, c, move).Some?
    ensures var s' := ReaderStep(s, c, move).value;
            && s'.connectionId == s.connectionId && s'.conn == s.conn && s'.cancelFn == s.cancelFn
            && s'.lock == s.lock && s'.url == s.url && s'.isConnected == s.isConnected
            && (forall t :: t in s.callers ==> t in s'.callers && s'.callers[t] == s.callers[t])
            && (forall t :: t in s'.callers && Critical(s'.callers[t].at) ==> t in s.callers)
  {
  }

  lemma ReaderKeepsInv(s: State, c: nat, move: ReaderMove)
    requires Inv(s) && c < |s.conns| && ReaderStep(s, c, move).Some?
    ensures Inv(ReaderStep(s, c, move).value)
  {
    ReaderKeepsConns(s, c, move);
    ReaderKeepsRest(s, c, move);
    OutsideKeepsInv(s, ReaderStep(s, c, move).value);
  }

  lemma NewCallerKeepsInv(s: State, t: nat, c: Caller, reconnecting: bool)
    requires Inv(s) && t !in s.callers && !Critical(c.at)
    ensures Inv(s.(reconnecting := reconnecting, callers := s.callers[t := c]))
  {
    OutsideKeepsInv(s, s.(reconnecting := reconnecting, callers := s.callers[t := c]));
  }

  lemma LeavingKeepsInv(s: State, t: nat, p: Place, reconnecting: bool)
    requires Inv(s) && t in s.callers && !Critical(s.callers[t].at) && !Critical(p)
    ensures Inv(Move(s.(reconnecting := reconnecting), t, p))
  {
    OutsideKeepsInv(s, Move(s.(reconnecting := reconnecting), t, p));
  }

  lemma FlagsKeepInv(s: State, isConnected: bool, closers: nat, prevent: bool)
    requires Inv(s)
    ensures Inv(s.(isConnected := isConnected, closers := closers, preventAutoReconnect := prevent))
  {
    CloseOnlyCloses(s);
    OutsideKeepsInv(s, s.(isConnected := isConnected, closers := closers, preventAutoReconnect := prevent));
  }

  lemma CloseKeepsInv(s: State)
    requires Inv(s) && s.closers > 0
    ensures Inv(s.(closers := s.closers - 1, conns := CloseConn(s.conns, s.conn)))
  {
    CloseOnlyCloses(s);
    OutsideKeepsInv(s, s.(closers := s.closers - 1, conns := CloseConn(s.conns, s.conn)));
  }

  lemma CloseOnlyCloses(s: State)
    ensures OnlyCloses(s.conns, CloseConn(s.conns, s.conn)) && OnlyCloses(s.conns, s.conns)
  {
  }

  lemma LockKeepsInv(s: State, t: nat)
    requires Inv(s) && At(s, t, Queued) && s.lock == None
    ensures Inv(Move(s.(lock := Some(t)), t, Locked))
  {
  }

  lemma HoldKeepsInv(s: State, t: nat, action: Action)
    requires Inv(s) && t in s.callers && Act(s, t, action).Some?
    ensures Inv(Act(s, t, action).value)
  {
    HolderKeepsLock(s, t, action);
    HolderKeepsConns(s, t, action);
  }

  lemma CallKeepsInv(s: State, step: Step)
    requires Inv(s) && Apply(s, step).Some?
    requires step.CallConnect? || step.CallReconnect? || step.TrailingStore? || step.StopWaiting?
    ensures Inv(Apply(s, step).value)
  {
    match step {
      case CallConnect(t, u) => NewCallerKeepsInv(s, t, Caller(false, u, None, None, Queued), s.reconnecting);
      case CallReconnect(t) =>
        NewCallerKeepsInv(s, t, Caller(true, s.url, None, None, if s.reconnecting then Waiting else Queued), true);
      case TrailingStore(t) => LeavingKeepsInv(s, t, Returned(s.callers[t].at.failed), false);
      case StopWaiting(t) => LeavingKeepsInv(s, t, Returned(false), s.reconnecting);
    }
  }

  lemma CloserKeepsInv(s: State, step: Step)
    requires Inv(s) && Apply(s, step).Some? && (step.CloseSwaps? || step.CloseCloses? || step.PreventAutoReconnect?)
    ensures Inv(Apply(s, step).value)
  {
    if step.CloseCloses? {
      CloseKeepsInv(s);
    } else if step.CloseSwaps? {
      FlagsKeepInv(s, false, s.closers + 1, s.preventAutoReconnect);
    } else {
      FlagsKeepInv(s, s.isConnected, s.closers, true);
    }
  }

  lemma StepKeepsInv(s: State, step: Step)
    requires Inv(s) && Apply(s, step).Some?
    ensures Inv(Apply(s, step).value)
  {
    match step {
      case Lock(t) => LockKeepsInv(s, t);
      case Hold(t, action) => HoldKeepsInv(s, t, action);
      case ReaderMoves(c, move) => ReaderKeepsInv(s, c, move);
      case CloseSwaps => CloserKeepsInv(s, step);
      case CloseCloses => CloserKeepsInv(s, step);
      case PreventAutoReconnect => CloserKeepsInv(s, step);
      case _ => CallKeepsInv(s, step);
    }
  }

  lemma {:induction false} RunKeepsInv(steps: seq<Step>)
    ensures Exec(INITIAL, steps).Some? ==> Inv(Exec(INITIAL, steps).value)
  {
    if steps != [] {
      RunKeepsInv(steps[..|steps| - 1]);
      if Exec(INITIAL, steps).Some? {
        StepKeepsInv(Exec(INITIAL, steps[..|steps| - 1]).value, steps[|steps| - 1]);
      }
    }
  }

  // ---- What every run guarantees ----

  /** Whenever the lock is free: every connection but the newest has been cancelled and
      had Close called on it, the newest is the transport's own and is not cancelled, and
      each connection's reader has the number of the connection, the newest connectionId. */
  lemma ConnectionsSettledWhenUnlocked(steps: seq<Step>)
    requires Exec(INITIAL, steps).Some? && Exec(INITIAL, steps).value.lock == None
    ensures var s := Exec(INITIAL, steps).value;
            && s.conn == Newest(|s.conns|) && s.connectionId == |s.conns|
            && (forall i :: 0 <= i < |s.conns| ==> (s.conns[i].cancelled <==> Some(i) != s.conn))
            && (forall i :: 0 <= i < |s.conns| && Some(i) != s.conn ==> s.conns[i].closeCalls >= 1)
            && (forall i :: 0 <= i < |s.conns| ==> !s.conns[i].reader.NotStarted? && s.conns[i].reader.id == i + 1)
  {
    RunKeepsInv(steps);
    QuietFacts(Exec(INITIAL, steps).value);
  }

  lemma QuietFacts(s: State)
    requires ConnsOk(s) && s.lock == None
    ensures s.conn == Newest(|s.conns|) && s.connectionId == |s.conns|
    ensures forall i :: 0 <= i < |s.conns| ==> (s.conns[i].cancelled <==> Some(i) != s.conn)
    ensures forall i :: 0 <= i < |s.conns| && Some(i) != s.conn ==> s.conns[i].closeCalls >= 1
    ensures forall i :: 0 <= i < |s.conns| ==> !s.conns[i].reader.NotStarted? && s.conns[i].reader.id == i + 1
  {
  }

  /** The fields a Connect may replace. */
  datatype Fields = Fields(conn: Option<nat>, cancelFn: Option<nat>, url: string, connectionId: nat)

  function FieldsOf(s: State): Fields {
    Fields(s.conn, s.cancelFn, s.url, s.connectionId)
  }

  predicate NotDialled(s: State, t: nat) {
    t in s.callers && s.callers[t].at in {Locked, Dialling, Failed}
  }

  /** What the others' steps keep of a caller that has not dialled. */
  ghost predicate LeavesFields(s: State, s': State, step: Step, t: nat) {
    && NotDialled(s', t) && FieldsOf(s') == FieldsOf(s)
    && (s'.isConnected == s.isConnected || (step.CloseSwaps? && !s'.isConnected))
  }

  lemma OwnLeavesFields(s: State, t: nat, action: Action)
    requires NotDialled(s, t) && Act(s, t, action).Some? && action != DialSucceeds && action != Unlock
    ensures LeavesFields(s, Act(s, t, action).value, Hold(t, action), t)
  {
  }

  lemma CallsLeaveFields(s: State, step: Step, t: nat)
    requires NotDialled(s, t) && Apply(s, step).Some? && !step.Hold? && !step.ReaderMoves? && !step.Lock?
    ensures LeavesFields(s, Apply(s, step).value, step, t)
  {
  }

  lemma OthersLeaveFields(s: State, step: Step, t: nat)
    requires Inv(s) && NotDialled(s, t) && Apply(s, step).Some?
    requires step != Hold(t, DialSucceeds) && step != Hold(t, Unlock)
    ensures LeavesFields(s, Apply(s, step).value, step, t)
  {
    assert s.lock == Some(t);
    match step {
      case Hold(u, action) =>
        HolderKeepsLock(s, u, action);
        OwnLeavesFields(s, t, action);
      case ReaderMoves(c, move) => ReaderKeepsRest(s, c, move);
      case _ => CallsLeaveFields(s, step, t);
    }
  }

  /** A Connect whose dials all fail leaves the connection, its cancel function, the URL
      and the id as they were when it took the lock, whatever runs beside it; isConnected
      can only have been cleared, and only by Close. */
  lemma {:induction false} FailedConnectChangesNothing(s: State, t: nat, during: seq<Step>)
    requires Inv(s) && At(s, t, Locked)
    requires Hold(t, DialSucceeds) !in during && Hold(t, Unlock) !in during
    requires Exec(s, during).Some?
    ensures var s' := Exec(s, during).value;
            && Inv(s') && NotDialled(s', t) && FieldsOf(s') == FieldsOf(s)
            && (s'.isConnected ==> s.isConnected)
            && (CloseSwaps !in during ==> s'.isConnected == s.isConnected)
            && (At(s', t, Failed) ==>
                  Act(s', t, Unlock).Some? && FieldsOf(Act(s', t, Unlock).value) == FieldsOf(s)
                  && Act(s', t, Unlock).value.isConnected == s'.isConnected)
  {
    if during != [] {
      var init, last := during[..|during| - 1], during[|during| - 1];
      assert last in during && forall step :: step in init ==> step in during;
      FailedConnectChangesNothing(s, t, init);
      OthersLeaveFields(Exec(s, init).value, last, t);
      StepKeepsInv(Exec(s, init).value, last);
    }
    UnlockAfterFailure(Exec(s, during).value, t);
  }

  lemma UnlockAfterFailure(s: State, t: nat)
    requires t in s.callers
    ensures At(s, t, Failed) ==>
              && Act(s, t, Unlock).Some? && FieldsOf(Act(s, t, Unlock).value) == FieldsOf(s)
              && Act(s, t, Unlock).value.isConnected == s.isConnected
  {
  }

  // ---- Steps of one caller ----

  /** What the holder does next after a successful dial, and where that takes it. */
  function AfterDial(p: Place): Option<(Action, Place)> {
    match p
    case Dialled => Some((SetUrl, UrlSet))
    case UrlSet => Some((CancelOld, Marked))
    case Marked => Some((SetConnected, Flagged))
    case Flagged => Some((ClearReconnecting, Cleared))
    case Cleared => Some((StartReader, Started))
    case Started => Some((CloseOld, Closed))
    case Closed => Some((Unlock, Returned(false)))
    case _ => None
  }

  lemma QueueAndLock(s: State, t: nat, u: string)
    requires s.lock == None && t !in s.callers
    ensures var s' := s.(lock := Some(t), callers := s.callers[t := Caller(false, u, None, None, Locked)]);
            Exec(s, [CallConnect(t, u)] + [Lock(t)]) == Some(s')
  {
    var queued := s.(callers := s.callers[t := Caller(false, u, None, None, Queued)]);
    OneStep(s, [], s, CallConnect(t, u), queued);
    assert [] + [CallConnect(t, u)] == [CallConnect(t, u)];
    var locked := s.(lock := Some(t), callers := s.callers[t := Caller(false, u, None, None, Locked)]);
    assert queued.callers[t := Caller(false, u, None, None, Locked)] == locked.callers;
    OneStep(s, [CallConnect(t, u)], queued, Lock(t), locked);
  }
}
