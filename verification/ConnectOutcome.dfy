/** What a whole call leaves of the transport of server/internal/transport/websocket.go, field by
    field, when nothing interrupts it. */
module ConnectOutcome {
  import opened Prelude
  import opened ConnectProtocol
  import opened TransportObject

  /** Every connection so far has its reader's number, and the last is the current one. */
  ghost predicate AtRest(s: State) {
    Idle(s) && s.connectionId == |s.conns|
  }

  /** `end` has one connection more, live, current and read under its number, and the one before it
      cancelled and closed once more. */
  ghost predicate Replaced(s: State, end: State, u: string) {
    var n := |s.conns|;
    && |end.conns| == n + 1 && end.conn == end.cancelFn == Some(n)
    && end.conns[n] == Conn(false, 0, Reading(n + 1)) && end.connectionId == n + 1
    && (n > 0 ==> end.conns[n - 1] == Conn(true, s.conns[n - 1].closeCalls + 1, s.conns[n - 1].reader))
    && (forall i :: 0 <= i < n - 1 ==> end.conns[i] == s.conns[i])
    && end.url == u && end.isConnected && !end.reconnecting && end.lock == None
    && end.preventAutoReconnect == s.preventAutoReconnect && end.closers == s.closers
  }

  /** `end` differs from `s` in the flag alone, callers apart. */
  ghost predicate OnlyFlag(s: State, end: State, reconnecting: bool) {
    && end.conns == s.conns && end.conn == s.conn && end.cancelFn == s.cancelFn
    && end.url == s.url && end.connectionId == s.connectionId && end.isConnected == s.isConnected
    && end.preventAutoReconnect == s.preventAutoReconnect && end.lock == None && end.closers == s.closers
    && end.reconnecting == reconnecting
  }

  lemma ConnectedMeans(s: State, u: string)
    requires AtRest(s)
    ensures Replaced(s, Connected(s, u), u)
  {
  }

  lemma CallersApart(a: State, b: State, s: State, u: string)
    requires a.(callers := map[]) == b
    ensures Replaced(s, b, u) ==> Replaced(s, a, u)
    ensures forall flag :: OnlyFlag(s, b, flag) ==> OnlyFlag(s, a, flag)
  {
  }

  /** A Connect replaces the connection, or leaves everything but the flag, which stays set. */
  lemma ConnectLeaves(s: State, t: nat, u: string, dials: bool) returns (steps: seq<Step>, end: State)
    requires AtRest(s)
    ensures OwnSteps(t, steps) && Exec(s, steps) == Some(end) && At(end, t, Returned(!dials))
    ensures dials ==> Replaced(s, end, u)
    ensures !dials ==> OnlyFlag(s, end, true)
  {
    steps, end := ConnectAlone(s, t, u, dials);
    CallersApart(end, end.(callers := map[]), s, u);
    if dials {
      ConnectedMeans(s, u);
    }
  }

  /** A Reconnect does so with the URL of the last Connect, or leaves everything; with the flag set
      already it leaves everything and reports success. */
  lemma ReconnectLeaves(s: State, t: nat, dials: bool) returns (steps: seq<Step>, end: State)
    requires AtRest(s)
    ensures OwnSteps(t, steps) && Exec(s, steps) == Some(end)
    ensures At(end, t, Returned(!s.reconnecting && !dials))
    ensures !s.reconnecting && dials ==> Replaced(s, end, s.url)
    ensures s.reconnecting || !dials ==> OnlyFlag(s, end, s.reconnecting)
  {
    steps, end := ReconnectAlone(s, t, dials);
    CallersApart(end, end.(callers := map[]), s, s.url);
    if !s.reconnecting && dials {
      ConnectedMeans(s, s.url);
    }
  }

  /** A Close of a connected transport closes the current connection once and nothing else; the
      next one does nothing. */
  lemma CloseLeaves(s: State)
    requires AtRest(s) && s.isConnected && s.conns != []
    ensures var end := Exec(s, [CloseSwaps] + [CloseCloses]);
            && end.Some? && !end.value.isConnected && Apply(end.value, CloseSwaps) == None
            && var n := |s.conns| - 1;
               end.value == s.(isConnected := false,
                               conns := s.conns[n := Conn(s.conns[n].cancelled, s.conns[n].closeCalls + 1,
                                                          s.conns[n].reader)])
  {
    var swapped := s.(isConnected := false, closers := 1);
    OneStep(s, [], s, CloseSwaps, swapped);
    assert [] + [CloseSwaps] == [CloseSwaps];
    OneStep(s, [CloseSwaps], swapped, CloseCloses, swapped.(closers := 0, conns := CloseConn(s.conns, s.conn)));
  }
}
