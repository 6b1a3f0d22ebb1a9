/** The transport object of server/internal/transport/websocket.go as one caller at a time
    sees it: its methods in the code's own order, proved to do what the small steps of
    ConnectProtocol compose to. */
module TransportObject {
  import opened Prelude
  import opened ConnectProtocol

  // ---- What a whole call does ----

  function WithReader(conns: seq<Conn>, n: nat, id: nat): seq<Conn>
    requires n < |conns|
  {
    conns[n := Conn(conns[n].cancelled, conns[n].closeCalls, Reading(id))]
  }

  /** The new connection is installed, then the old one cancelled and closed. */
  function Swapped(conns: seq<Conn>, cancelFn: Option<nat>, conn: Option<nat>, id: nat): seq<Conn> {
    CloseConn(WithReader(CancelConn(conns + [Conn(false, 0, NotStarted)], cancelFn), |conns|, id), conn)
  }

  function Connected(s: State, u: string): State {
    var n, id := |s.conns|, s.connectionId + 1;
    s.(conns := Swapped(s.conns, s.cancelFn, s.conn, id),
       conn := Some(n), cancelFn := Some(n), url := u, connectionId := id, isConnected := true, reconnecting := false)
  }

  function ConnectResult(s: State, u: string, dials: bool): State {
    if dials then Connected(s, u) else s.(reconnecting := true)
  }

  function ReconnectResult(s: State, dials: bool): State {
    if s.reconnecting then s else if dials then Connected(s, s.url) else s
  }

  function CloseResult(s: State): State {
    if s.isConnected then s.(isConnected := false, conns := CloseConn(s.conns, s.conn)) else s
  }

  // ---- The same, by small steps ----

  /** The places after a successful dial, in order. */
  function Rank(p: Place): int {
    match p
    case Dialled => 0
    case UrlSet => 1
    case Marked => 2
    case Flagged => 3
    case Cleared => 4
    case Started => 5
    case Closed => 6
    case _ => -1
  }

  /** Where caller `t`, which found the state `s` when it locked, has brought it at `p`. */
  function Midway(s: State, t: nat, p: Place): State
    requires t in s.callers && Rank(p) >= 0
  {
    var c, n, id, k := s.callers[t], |s.conns|, s.connectionId + 1, Rank(p);
    var installed := s.conns + [Conn(false, 0, NotStarted)];
    var cancelled := CancelConn(installed, s.cancelFn);
    var reading := WithReader(cancelled, n, id);
    s.(conns := if k < 2 then installed else if k < 5 then cancelled else if k < 6 then reading
                else CloseConn(reading, s.conn),
       conn := Some(n), cancelFn := Some(n),
       url := if k < 1 || c.viaReconnect then s.url else c.url,
       connectionId := if k < 5 then s.connectionId else id,
       isConnected := s.isConnected || k >= 3,
       reconnecting := k < 4,
       callers := s.callers[t := Caller(c.viaReconnect, c.url, s.conn, s.cancelFn, p)])
  }

  lemma CallersOverwrite(callers: map<nat, Caller>, t: nat, a: Caller, b: Caller)
    ensures callers[t := a][t := b] == callers[t := b]
  {
  }

  lemma MidwayStep(s: State, t: nat, p: Place)
    requires t in s.callers && 0 <= Rank(p) < 6
    ensures var next := AfterDial(p).value;
            Rank(next.1) == Rank(p) + 1 && Act(Midway(s, t, p), t, next.0) == Some(Midway(s, t, next.1))
  {
    var c := s.callers[t];
    CallersOverwrite(s.callers, t, Caller(c.viaReconnect, c.url, s.conn, s.cancelFn, p),
                     Caller(c.viaReconnect, c.url, s.conn, s.cancelFn, AfterDial(p).value.1));
  }

  lemma DialStep(s: State, t: nat)
    requires At(s, t, Locked)
    ensures Act(s, t, SetReconnecting) == Some(ReadLocals(s, t))
    ensures Act(ReadLocals(s, t), t, DialSucceeds) == Some(Midway(s, t, Dialled))
    ensures Act(ReadLocals(s, t), t, DialFails) == Some(Move(ReadLocals(s, t), t, Failed))
  {
    var c := s.callers[t];
    CallersOverwrite(s.callers, t, Caller(c.viaReconnect, c.url, s.conn, s.cancelFn, Dialling),
                     Caller(c.viaReconnect, c.url, s.conn, s.cancelFn, Dialled));
  }

  predicate OwnStep(t: nat, step: Step) {
    match step
    case CallConnect(u, _) => u == t
    case CallReconnect(u) => u == t
    case Lock(u) => u == t
    case Hold(u, _) => u == t
    case TrailingStore(u) => u == t
    case StopWaiting(u) => u == t
    case _ => false
  }

  /** All of them are steps of the caller itself. */
  ghost predicate OwnSteps(t: nat, steps: seq<Step>) {
    forall step :: step in steps ==> OwnStep(t, step)
  }

  lemma RunOn(s: State, locked: State, t: nat, p: Place, steps: seq<Step>) returns (all: seq<Step>)
    requires t in locked.callers && Rank(p) >= 0
    requires Exec(s, steps) == Some(Midway(locked, t, p)) && OwnSteps(t, steps)
    ensures Exec(s, all) == Some(Midway(locked, t, Closed)) && OwnSteps(t, all)
    decreases 6 - Rank(p)
  {
    if p == Closed {
      all := steps;
    } else {
      var next := AfterDial(p).value;
      MidwayStep(locked, t, p);
      HoldApplies(s, steps, t, next.0);
      all := RunOn(s, locked, t, next.1, steps + [Hold(t, next.0)]);
    }
  }

  lemma MidwayClosed(s: State, t: nat)
    requires t in s.callers && s.conn == s.cancelFn == Newest(|s.conns|)
    ensures var c, end := s.callers[t], Midway(s, t, Closed);
            Act(end, t, Unlock) == Some(Release(end, t))
            && Release(end, t).(callers := map[]) ==
               Connected(s, if c.viaReconnect then s.url else c.url).(lock := None, callers := map[])
            && At(Release(end, t), t, if c.viaReconnect then Trailing(false) else Returned(false))
  {
  }

  lemma HeldDials(s: State, t: nat, steps: seq<Step>, locked: State) returns (all: seq<Step>)
    requires Exec(s, steps) == Some(locked) && OwnSteps(t, steps) && At(locked, t, Locked)
    ensures OwnSteps(t, all) && Exec(s, all) == Some(Midway(locked, t, Closed))
  {
    DialStep(locked, t);
    HoldApplies(s, steps, t, SetReconnecting);
    var begun := steps + [Hold(t, SetReconnecting)];
    HoldApplies(s, begun, t, DialSucceeds);
    all := RunOn(s, locked, t, Dialled, begun + [Hold(t, DialSucceeds)]);
  }

  lemma HeldFails(s: State, t: nat, steps: seq<Step>, locked: State) returns (all: seq<Step>)
    requires Exec(s, steps) == Some(locked) && OwnSteps(t, steps) && At(locked, t, Locked)
    ensures OwnSteps(t, all) && Exec(s, all) == Some(Move(ReadLocals(locked, t), t, Failed))
  {
    DialStep(locked, t);
    HoldApplies(s, steps, t, SetReconnecting);
    var begun := steps + [Hold(t, SetReconnecting)];
    HoldApplies(s, begun, t, DialFails);
    all := begun + [Hold(t, DialFails)];
  }

  lemma OneMore(s: State, t: nat, steps: seq<Step>, before: State, step: Step, after: State)
    requires Exec(s, steps) == Some(before) && OwnSteps(t, steps) && OwnStep(t, step)
    requires Apply(before, step) == Some(after)
    ensures Exec(s, steps + [step]) == Some(after) && OwnSteps(t, steps + [step])
  {
    ExecSnoc(s, steps, step);
  }

  /** Held to the end, by a caller that has just locked. */
  lemma HeldAlone(s: State, t: nat, steps: seq<Step>, locked: State, dials: bool)
      returns (all: seq<Step>, end: State)
    requires Exec(s, steps) == Some(locked) && OwnSteps(t, steps) && At(locked, t, Locked)
    requires locked.conn == locked.cancelFn == Newest(|locked.conns|)
    ensures OwnSteps(t, all) && Exec(s, all) == Some(end)
    ensures var c := locked.callers[t];
            && end.(callers := map[]) ==
               ConnectResult(locked, if c.viaReconnect then locked.url else c.url, dials)
               .(lock := None, callers := map[])
            && At(end, t, if c.viaReconnect then Trailing(!dials) else Returned(!dials))
  {
    var before: State;
    if dials {
      all := HeldDials(s, t, steps, locked);
      before := Midway(locked, t, Closed);
      MidwayClosed(locked, t);
    } else {
      all := HeldFails(s, t, steps, locked);
      before := Move(ReadLocals(locked, t), t, Failed);
      FailedClosed(locked, t);
    }
    end := Release(before, t);
    OneMore(s, t, all, before, Hold(t, Unlock), end);
    all := all + [Hold(t, Unlock)];
  }

  lemma FailedClosed(s: State, t: nat)
    requires t in s.callers
    ensures var c, end := s.callers[t], Move(ReadLocals(s, t), t, Failed);
            && Act(end, t, Unlock) == Some(Release(end, t))
            && Release(end, t).(callers := map[]) == s.(reconnecting := true, lock := None, callers := map[])
            && At(Release(end, t), t, if c.viaReconnect then Trailing(true) else Returned(true))
  {
  }

  /** Nobody is inside any method. */
  ghost predicate Idle(s: State) {
    && s.lock == None && s.callers == map[] && s.closers == 0
    && s.conn == s.cancelFn == Newest(|s.conns|)
  }

  /** A Connect run without interruption by the small steps ends in ConnectResult. */
  lemma ConnectAlone(s: State, t: nat, u: string, dials: bool) returns (steps: seq<Step>, end: State)
    requires Idle(s)
    ensures OwnSteps(t, steps) && Exec(s, steps) == Some(end) && At(end, t, Returned(!dials))
    ensures end.(callers := map[]) == ConnectResult(s, u, dials)
  {
    QueueAndLock(s, t, u);
    var locked := s.(lock := Some(t), callers := s.callers[t := Caller(false, u, None, None, Locked)]);
    steps, end := HeldAlone(s, t, [CallConnect(t, u)] + [Lock(t)], locked, dials);
    ResultElsewhere(s, locked, u, dials);
  }

  /** A Reconnect likewise: with the flag already set it dials nothing and reports success. */
  lemma ReconnectAlone(s: State, t: nat, dials: bool) returns (steps: seq<Step>, end: State)
    requires Idle(s)
    ensures OwnSteps(t, steps) && Exec(s, steps) == Some(end) && At(end, t, Returned(!s.reconnecting && !dials))
    ensures end.(callers := map[]) == ReconnectResult(s, dials)
  {
    var called := BeginReconnect(s, t);
    OneMore(s, t, [], s, CallReconnect(t), called);
    steps := [] + [CallReconnect(t)];
    if s.reconnecting {
      end := Move(called, t, Returned(false));
      OneMore(s, t, steps, called, StopWaiting(t), end);
      steps := steps + [StopWaiting(t)];
    } else {
      var locked := Move(called.(lock := Some(t)), t, Locked);
      OneMore(s, t, steps, called, Lock(t), locked);
      var held, released := HeldAlone(s, t, steps + [Lock(t)], locked, dials);
      end := Move(released.(reconnecting := false), t, Returned(!dials));
      OneMore(s, t, held, released, TrailingStore(t), end);
      steps := held + [TrailingStore(t)];
      TrailingResult(s, locked, released, dials);
    }
  }

  lemma TrailingResult(s: State, locked: State, released: State, dials: bool)
    requires s.conn == s.cancelFn == Newest(|s.conns|) && s.lock == None && s.callers == map[] && !s.reconnecting
    requires locked == s.(lock := locked.lock, callers := locked.callers, reconnecting := true)
    requires released.(callers := map[]) == ConnectResult(locked, locked.url, dials).(lock := None, callers := map[])
    ensures released.(reconnecting := false, callers := map[]) == ReconnectResult(s, dials)
  {
  }

  lemma ResultElsewhere(s: State, locked: State, u: string, dials: bool)
    requires s.conn == s.cancelFn == Newest(|s.conns|) && s.lock == None && s.callers == map[]
    requires locked == s.(lock := locked.lock, callers := locked.callers)
    ensures ConnectResult(locked, u, dials).(lock := None, callers := map[]) == ConnectResult(s, u, dials)
  {
  }

  // ---- The object ----

  class Connection {
    var cancelled: bool
    var closeCalls: nat
    var reader: Reader

    constructor ()
      ensures Value() == Conn(false, 0, NotStarted)
    {
      cancelled, closeCalls, reader := false, 0, NotStarted;
    }

    function Value(): Conn
      reads this
    {
      Conn(cancelled, closeCalls, reader)
    }
  }

  /** The transport, its dials' outcome an argument; a context is known by its connection. */
  class WebsocketTransport {
    var conn: Connection?
    var cancelFn: Connection?
    var connectURL: string
    var connectionId: nat
    var isConnected: bool
    var reconnecting: bool
    var preventAutoReconnect: bool
    ghost var dialled: seq<Connection>

    ghost predicate Valid()
      reads this
    {
      && Distinct(dialled)
      && conn == cancelFn == Last(dialled)
      && (isConnected ==> conn != null)
    }

    ghost function Value(): State
      reads this, dialled
    {
      State(Values(dialled), Newest(|dialled|), Newest(|dialled|), connectURL, connectionId,
            isConnected, reconnecting, preventAutoReconnect, None, map[], 0)
    }

    constructor ()
      ensures Valid() && Value() == INITIAL
    {
      conn, cancelFn, connectURL, connectionId := null, null, "", 0;
      isConnected, reconnecting, preventAutoReconnect, dialled := false, false, false, [];
    }

    method Install()
      requires Distinct(dialled)
      modifies this`conn, this`cancelFn, this`dialled
      ensures fresh(conn) && dialled == old(dialled) + [conn] && Distinct(dialled) && cancelFn == conn
      ensures Values(dialled) == old(Values(dialled)) + [Conn(false, 0, NotStarted)]
    {
      conn := new Connection();
      cancelFn := conn;
      dialled := dialled + [conn];
    }

    method MarkConnectionAsRedundant(cancel: Connection?, ghost i: Option<nat>)
      requires Distinct(dialled) && Indexes(dialled, cancel, i)
      modifies cancel
      ensures Values(dialled) == CancelConn(old(Values(dialled)), i)
    {
      if cancel != null {
        cancel.cancelled := true;
      }
    }

    method CloseConnectionSafely(c: Connection?, ghost i: Option<nat>)
      requires Distinct(dialled) && Indexes(dialled, c, i)
      modifies c
      ensures Values(dialled) == CloseConn(old(Values(dialled)), i)
    {
      if c != null {
        c.closeCalls := c.closeCalls + 1;
      }
    }

    method StartReader(c: Connection, ghost i: nat)
      requires Distinct(dialled) && i < |dialled| && dialled[i] == c
      modifies c
      ensures Values(dialled) == WithReader(old(Values(dialled)), i, connectionId)
    {
      c.reader := Reading(connectionId);
    }

    /** What follows a successful dial. */
    method Swap(u: string)
      requires Valid()
      modifies this`conn, this`cancelFn, this`dialled, this`connectURL, this`connectionId,
               this`isConnected, this`reconnecting, conn
      ensures Distinct(dialled) && conn == cancelFn == Last(dialled) && conn != null
      ensures |dialled| == |old(dialled)| + 1
      ensures Values(dialled) ==
              Swapped(old(Values(dialled)), Newest(|old(dialled)|), Newest(|old(dialled)|), connectionId)
      ensures connectURL == u && connectionId == old(connectionId) + 1 && isConnected && !reconnecting
    {
      var oldConn, oldCancel := conn, cancelFn;
      ghost var i := Newest(|dialled|);
      ghost var before := Values(dialled);
      Install();
      connectURL := u;
      MarkConnectionAsRedundant(oldCancel, i);
      ghost var cancelled := Values(dialled);
      isConnected, reconnecting, connectionId := true, false, connectionId + 1;
      assert Values(dialled) == cancelled == CancelConn(before + [Conn(false, 0, NotStarted)], i);
      StartReader(conn, |dialled| - 1);
      assert Values(dialled) == WithReader(cancelled, |before|, connectionId);
      CloseConnectionSafely(oldConn, i);
    }

    method Connect(u: string, dials: bool) returns (failed: bool)
      requires Valid()
      modifies this, conn
      ensures Valid() && failed == !dials
      ensures Value() == ConnectResult(old(Value()), u, dials)
    {
      reconnecting := true;
      if dials {
        Swap(u);
      }
      failed := !dials;
    }

    /** With the lock free there is nothing to wait for: a set flag means success at once. */
    method Reconnect(dials: bool) returns (failed: bool)
      requires Valid()
      modifies this, conn
      ensures Valid() && failed == (!old(reconnecting) && !dials)
      ensures Value() == ReconnectResult(old(Value()), dials)
    {
      if reconnecting {
        return false;
      }
      reconnecting := true;
      failed := Connect(connectURL, dials);
      reconnecting := false;
    }

    method Close()
      requires Valid()
      modifies this`isConnected, conn
      ensures Valid()
      ensures Value() == CloseResult(old(Value()))
    {
      if isConnected {
        isConnected := false;
        conn.closeCalls := conn.closeCalls + 1;
      }
    }
  }

  ghost predicate Distinct(connections: seq<Connection>) {
    forall i, j :: 0 <= i < j < |connections| ==> connections[i] != connections[j]
  }

  ghost function Last(connections: seq<Connection>): Connection? {
    if connections == [] then null else connections[|connections| - 1]
  }

  ghost predicate Indexes(connections: seq<Connection>, c: Connection?, i: Option<nat>) {
    && (c == null <==> i == None)
    && (i.Some? ==> i.value < |connections| && connections[i.value] == c)
  }

  ghost function Values(connections: seq<Connection>): seq<Conn>
    reads connections
  {
    seq(|connections|, i requires 0 <= i < |connections| reads connections => connections[i].Value())
  }
}
