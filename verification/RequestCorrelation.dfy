/** Request/response correlation: the table of response channels kept by
    server/internal/websocket_client.go and the callers of `HandleRequest` in
    server/internal/gamelift_manager.go.

    Every access to the table holds `respMtx`, so a run is a sequence of such
    accesses and of the callers' own moves between them. */
module RequestCorrelation {
  import opened Prelude

  // ---- Channels and the table ----

  /** A parsed inbound message; `bodyFits` says whether its data unmarshals into the caller's response. */
  datatype Frame = Frame(requestId: string, action: string, status: int, bodyFits: bool)

  /** `failed` is a non-nil Error. The data is the frame itself, never nil. */
  datatype Outcome = Outcome(frame: Frame, failed: bool)

  /** Why a channel was closed: by a reply, by caller `who` giving up, or by Close. */
  datatype Cause =
    | ByReply(frame: Frame) | ByCancel(who: nat) | ByWriteFailure(who: nat) | ByClose

  /** A response channel of capacity 1, with the history of its closes. */
  datatype Channel = Channel(buffer: seq<Outcome>, closed: bool, causes: seq<Cause>)

  const OPEN := Channel([], false, [])

  /** What Go does on a misused channel: two panics, and a send that blocks with the lock held. */
  datatype Fault = SendOnClosed | SendBlocks | CloseOfClosed

  datatype Table = Table(responses: map<string, nat>, channels: map<nat, Channel>, fault: Option<Fault>) {
    function At(c: nat): Channel {
      if c in channels then channels[c] else OPEN
    }

    function Send(c: nat, o: Outcome): Table {
      if At(c).closed then this.(fault := Some(SendOnClosed))
      else if |At(c).buffer| >= 1 then this.(fault := Some(SendBlocks))
      else this.(channels := channels[c := At(c).(buffer := [o])])
    }

    function CloseChannel(c: nat, cause: Cause): Table {
      if At(c).closed then this.(fault := Some(CloseOfClosed))
      else this.(channels := channels[c := At(c).(closed := true, causes := At(c).causes + [cause])])
    }

    function Forget(id: string): Table {
      this.(responses := responses - {id})
    }

    /** `sendResponse`: deliver if there is data, close, delete. */
    function SendResponse(id: string, outcome: Option<Outcome>, cause: Cause): Table {
      if id !in responses then this
      else
        var c := responses[id];
        var sent := if outcome.Some? then Send(c, outcome.value) else this;
        sent.CloseChannel(c, cause).Forget(id)
    }

    /** `storeResponse`, which refuses an id already in the table. */
    function StoreResponse(id: string, c: nat): Table {
      if id in responses then this else this.(responses := responses[id := c])
    }

    /** `Close`: close every registered channel and empty the table. */
    function CloseAll(): Table {
      if !EntriesOpen() then this.(fault := Some(CloseOfClosed))
      else
        Table(map[],
              map c | c in channels ::
                if c in responses.Values
                then channels[c].(closed := true, causes := channels[c].causes + [ByClose])
                else channels[c],
              fault)
    }

    /** Every entry has an open channel of its own. */
    predicate EntriesOpen() {
      && (forall id :: id in responses ==> responses[id] in channels && !channels[responses[id]].closed)
      && (forall i, j :: i in responses && j in responses && responses[i] == responses[j] ==> i == j)
    }
  }

  // ---- The client object ----

  class WebsocketClient {
    var table: Table

    constructor ()
      ensures table == Table(map[], map[], None)
    { table := Table(map[], map[], None); }

    method StoreResponse(id: string, c: nat) returns (ok: bool)
      modifies this
      ensures ok == (id !in old(table.responses))
      ensures table == old(table).StoreResponse(id, c)
    {
      if id in table.responses {
        return false;
      }
      table := table.(responses := table.responses[id := c]);
      ok := true;
    }

    method SendResponse(id: string, outcome: Option<Outcome>, cause: Cause)
      modifies this
      ensures table == old(table).SendResponse(id, outcome, cause)
    {
      if id !in table.responses {
        return;
      }
      var resp := table.responses[id];
      if outcome.Some? {
        table := table.Send(resp, outcome.value);
      }
      table := table.CloseChannel(resp, cause);
      table := table.Forget(id);
    }

    /** The first part of `Close`, for any iteration order of the table. */
    method Drain()
      requires table.EntriesOpen()
      modifies this
      ensures table == old(table).CloseAll()
    {
      ghost var start := table;
      ghost var closed: set<nat> := {};
      while table.responses != map[]
        invariant Draining(start, closed, table)
        decreases |table.responses|
      {
        var id :| id in table.responses;
        var resp := table.responses[id];
        DrainOne(start, closed, table, id);
        table := table.CloseChannel(resp, ByClose);
        table := table.Forget(id);
        closed := closed + {resp};
      }
      Drained(start, closed, table);
    }

    /** `readHandler` after a successful parse: an error reply completes its request,
        an action with a handler goes to the handler, anything else completes its request. */
    method ReadHandler(frame: Frame, handlers: set<string>)
      modifies this
      ensures table == Arrival(old(table), frame, handlers)
    {
      if frame.status != 200 && frame.requestId != "" {
        SendResponse(frame.requestId, Some(Outcome(frame, true)), ByReply(frame));
        return;
      }
      if frame.action in handlers {
        return;
      }
      SendResponse(frame.requestId, Some(Outcome(frame, false)), ByReply(frame));
    }
  }

  /** The channels in `closed` have been closed and forgotten since `start`, nothing else. */
  ghost predicate Draining(start: Table, closed: set<nat>, t: Table) {
    && t.EntriesOpen() && t.fault == start.fault
    && start.responses.Values == closed + t.responses.Values && closed !! t.responses.Values
    && t.channels.Keys == start.channels.Keys
    && forall c :: c in start.channels ==>
         t.channels[c] == if c in closed then ClosedBy(start.channels[c]) else start.channels[c]
  }

  function ClosedBy(ch: Channel): Channel {
    ch.(closed := true, causes := ch.causes + [ByClose])
  }

  lemma EntriesStayOpen(t: Table, id: string)
    requires t.EntriesOpen() && id in t.responses
    ensures var c, t' := t.responses[id], t.CloseChannel(t.responses[id], ByClose).Forget(id);
            && t'.EntriesOpen() && t'.fault == t.fault
            && t'.channels == t.channels[c := ClosedBy(t.channels[c])]
            && t'.responses == t.responses - {id}
  {
  }

  lemma DrainOne(start: Table, closed: set<nat>, t: Table, id: string)
    requires Draining(start, closed, t) && id in t.responses
    ensures var c, t' := t.responses[id], t.CloseChannel(t.responses[id], ByClose).Forget(id);
            Draining(start, closed + {c}, t') && |t'.responses| < |t.responses|
  {
    EntriesStayOpen(t, id);
    ValuesWithout(t.responses, id);
    var c := t.responses[id];
    assert c in t.responses.Values && c in start.channels;
    assert t.responses.Keys - {id} == (t.responses - {id}).Keys;
  }

  lemma Drained(start: Table, closed: set<nat>, t: Table)
    requires Draining(start, closed, t) && t.responses == map[] && start.EntriesOpen()
    ensures t == start.CloseAll()
  {
    assert closed == start.responses.Values;
    assert t.channels == start.CloseAll().channels;
  }

  lemma ValuesWithout(m: map<string, nat>, id: string)
    requires id in m && forall i, j :: i in m && j in m && m[i] == m[j] ==> i == j
    ensures (m - {id}).Values == m.Values - {m[id]}
  {
    forall c | c in m.Values - {m[id]} ensures c in (m - {id}).Values {
      var i :| i in m && m[i] == c;
      assert i in m - {id};
    }
  }

  function Arrival(t: Table, frame: Frame, handlers: set<string>): Table {
    if frame.status != 200 && frame.requestId != "" then
      t.SendResponse(frame.requestId, Some(Outcome(frame, true)), ByReply(frame))
    else if frame.action in handlers then t
    else t.SendResponse(frame.requestId, Some(Outcome(frame, false)), ByReply(frame))
  }

  // ---- Callers of HandleRequest ----

  datatype Result = Succeeded | SendFailed | TimedOut | ReplyFailed | ParseFailed

  /** Where a caller stands. `Returned` keeps what it took from its channel. */
  datatype Place =
    | Writing       // stored, the transport write is in progress
    | WriteFailed   // the write failed, sendResponse(id, nil, err) is next
    | Waiting       // in the select
    | Expired       // took the timeout arm, CancelRequest is next
    | Cancelled     // NotifyRequestTimeout and the error return are left
    | Returned(result: Result, got: Option<Outcome>)

  /** Caller `t` owns channel `t`. `wantsBody` is a non-nil `response`. */
  datatype Caller = Caller(id: string, wantsBody: bool, registered: bool, at: Place) {
    /** It has yet to run its own sendResponse(id, nil, ...), if it comes to that. */
    predicate MayStillCleanUp() {
      at in {Writing, WriteFailed, Waiting, Expired}
    }
  }

  datatype State = State(table: Table, callers: map<nat, Caller>, handlers: set<string>) {
    function Move(t: nat, at: Place): State
      requires t in callers
    {
      this.(callers := callers[t := callers[t].(at := at)])
    }
  }

  datatype Step =
    | Begin(t: nat, id: string, wantsBody: bool)
    | WriteSucceeds(t: nat) | WriteFails(t: nat) | CleanUp(t: nat)
    | Expire(t: nat) | Cancel(t: nat) | Notify(t: nat)
    | Receive(t: nat)
    | Arrive(frame: Frame) | CloseClient | AddHandler(action: string)

  const INITIAL := State(Table(map[], map[], None), map[], {})

  function BeginRequest(s: State, t: nat, id: string, wantsBody: bool): State {
    var channels := s.table.channels[t := OPEN];
    if id == "" || id in s.table.responses then
      s.(table := s.table.(channels := channels),
         callers := s.callers[t := Caller(id, wantsBody, false, Returned(SendFailed, None))])
    else
      s.(table := s.table.(channels := channels).StoreResponse(id, t),
         callers := s.callers[t := Caller(id, wantsBody, true, Writing)])
  }

  /** The receive arm: a buffered outcome, or the zero outcome of a closed channel. */
  function Resolve(wantsBody: bool, got: Option<Outcome>): Result {
    match got
    case Some(o) =>
      if o.failed then ReplyFailed
      else if !wantsBody || o.frame.bodyFits then Succeeded
      else ParseFailed
    case None => if wantsBody then ParseFailed else Succeeded
  }

  function ReceiveOutcome(s: State, t: nat): State
    requires t in s.callers
  {
    var ch := s.table.At(t);
    if ch.buffer == [] then s.Move(t, Returned(Resolve(s.callers[t].wantsBody, None), None))
    else
      s.(table := s.table.(channels := s.table.channels[t := ch.(buffer := ch.buffer[1..])]))
       .Move(t, Returned(Resolve(s.callers[t].wantsBody, Some(ch.buffer[0])), Some(ch.buffer[0])))
  }

  predicate AtPlace(s: State, t: nat, at: Place) {
    t in s.callers && s.callers[t].at == at
  }

  /** One step; None when it is not enabled. Nothing is enabled after a fault. */
  function Apply(s: State, step: Step): Option<State> {
    if s.table.fault.Some? then None
    else match step
      case Begin(t, id, wantsBody) =>
        if t in s.callers then None else Some(BeginRequest(s, t, id, wantsBody))
      case WriteSucceeds(t) =>
        if AtPlace(s, t, Writing) then Some(s.Move(t, Waiting)) else None
      case WriteFails(t) =>
        if AtPlace(s, t, Writing) then Some(s.Move(t, WriteFailed)) else None
      case CleanUp(t) =>
        if AtPlace(s, t, WriteFailed)
        then Some(s.(table := s.table.SendResponse(s.callers[t].id, None, ByWriteFailure(t)))
                   .Move(t, Returned(SendFailed, None)))
        else None
      case Expire(t) =>
        if AtPlace(s, t, Waiting) then Some(s.Move(t, Expired)) else None
      case Cancel(t) =>
        if AtPlace(s, t, Expired)
        then Some(s.(table := s.table.SendResponse(s.callers[t].id, None, ByCancel(t))).Move(t, Cancelled))
        else None
      case Notify(t) =>
        if AtPlace(s, t, Cancelled) then Some(s.Move(t, Returned(TimedOut, None))) else None
      case Receive(t) =>
        if AtPlace(s, t, Waiting) && (s.table.At(t).closed || s.table.At(t).buffer != [])
        then Some(ReceiveOutcome(s, t)) else None
      case Arrive(frame) => Some(s.(table := Arrival(s.table, frame, s.handlers)))
      case CloseClient => Some(s.(table := s.table.CloseAll()))
      case AddHandler(action) => Some(s.(handlers := s.handlers + {action}))
  }

  function Exec(s: State, steps: seq<Step>): Option<State> {
    if steps == [] then Some(s)
    else match Exec(s, steps[..|steps| - 1])
      case None => None
      case Some(before) => Apply(before, steps[|steps| - 1])
  }

  // ---- The invariant of every run ----

  ghost predicate EntryOk(s: State, id: string)
    requires id in s.table.responses
  {
    var t := s.table.responses[id];
    && id != "" && t in s.callers && t in s.table.channels
    && s.callers[t].id == id && s.callers[t].registered
    && s.table.channels[t] == OPEN
    && s.callers[t].MayStillCleanUp()
  }

  /** What a reply leaves in the channel, or with the caller once received. */
  function Expected(cause: Cause): seq<Outcome> {
    match cause
    case ByReply(f) => [Outcome(f, f.status != 200)]
    case _ => []
  }

  function Received(at: Place): seq<Outcome> {
    match at
    case Returned(_, Some(o)) => [o]
    case _ => []
  }

  predicate GaveUp(at: Place) {
    at in {Cancelled, Returned(TimedOut, None), Returned(SendFailed, None)}
  }

  ghost predicate CauseOk(s: State, t: nat, cause: Cause)
    requires t in s.callers
  {
    match cause
    case ByReply(f) => f.requestId == s.callers[t].id
    case ByClose => true
    case _ =>
      && cause.who in s.callers && s.callers[cause.who].id == s.callers[t].id
      && (cause.who == t ==> GaveUp(s.callers[t].at))
  }

  ghost predicate CallerOk(s: State, t: nat)
    requires t in s.callers
  {
    var c := s.callers[t];
    && t in s.table.channels
    && var ch := s.table.channels[t];
    && (!c.registered ==> ch == OPEN && c.at == Returned(SendFailed, None))
    && (c.registered && !ch.closed ==> c.id in s.table.responses && s.table.responses[c.id] == t)
    && (c.registered && ch.closed ==>
          && |ch.causes| == 1 && CauseOk(s, t, ch.causes[0])
          && Received(c.at) + ch.buffer == Expected(ch.causes[0]))
    && (c.at.Returned? && c.at.result != SendFailed && c.at.result != TimedOut ==>
          c.at.result == Resolve(c.wantsBody, c.at.got)
          && (c.at.got == None ==> ch.buffer == []))
    && (c.at.Returned? && c.at.result in {SendFailed, TimedOut} ==> c.at.got == None)
    && (c.at == Cancelled ==> ch.closed)
  }

  ghost predicate Inv(s: State) {
    && s.table.fault == None
    && (forall id :: id in s.table.responses ==> EntryOk(s, id))
    && (forall t :: t in s.callers ==> CallerOk(s, t))
  }

  /** Under the invariant sendResponse completes exactly the channel registered for the id. */
  lemma SendResponseCompletes(s: State, id: string, outcome: Option<Outcome>, cause: Cause)
    requires Inv(s) && id in s.table.responses
    ensures var t := s.table.responses[id];
            s.table.SendResponse(id, outcome, cause) ==
            Table(s.table.responses - {id},
                  s.table.channels[t := Channel(if outcome.Some? then [outcome.value] else [], true, [cause])],
                  None)
  {
    assert EntryOk(s, id);
    OpenCompletes(s.table, id, outcome, cause);
  }

  lemma OpenCompletes(table: Table, id: string, outcome: Option<Outcome>, cause: Cause)
    requires id in table.responses && table.fault == None
    requires table.responses[id] in table.channels && table.channels[table.responses[id]] == OPEN
    ensures var t := table.responses[id];
            table.SendResponse(id, outcome, cause) ==
            Table(table.responses - {id},
                  table.channels[t := Channel(if outcome.Some? then [outcome.value] else [], true, [cause])],
                  None)
  {
    var t := table.responses[id];
    var buffer := if outcome.Some? then [outcome.value] else [];
    var sent := if outcome.Some? then table.Send(t, outcome.value) else table;
    assert sent.channels[t := Channel(buffer, true, [cause])] == table.channels[t := Channel(buffer, true, [cause])];
    assert sent.At(t) == Channel(buffer, false, []) && sent.At(t).causes + [cause] == [cause];
  }

  /** A registered caller whose channel is open finds it in the table, untouched. */
  lemma OwnEntry(s: State, t: nat)
    requires Inv(s) && t in s.callers
    ensures s.callers[t].registered && !s.table.At(t).closed ==>
              && s.callers[t].id in s.table.responses && s.table.responses[s.callers[t].id] == t
              && s.table.At(t) == OPEN && s.callers[t].MayStillCleanUp()
  {
    assert CallerOk(s, t);
    assert s.callers[t].id in s.table.responses ==> EntryOk(s, s.callers[t].id);
  }

  /** A step that leaves caller `u` and its channel alone keeps its part of the invariant. */
  lemma Untouched(s: State, s': State, u: nat)
    requires u in s.callers && CallerOk(s, u)
    requires u in s'.callers && s'.callers[u] == s.callers[u]
    requires u in s'.table.channels && s'.table.channels[u] == s.table.channels[u]
    requires forall w :: w in s.callers ==> w in s'.callers && s'.callers[w].id == s.callers[w].id
    requires s.callers[u].id in s.table.responses && s.table.responses[s.callers[u].id] == u ==>
               s.callers[u].id in s'.table.responses && s'.table.responses[s.callers[u].id] == u
    ensures CallerOk(s', u)
  {
  }

  /** The same for table entries. */
  lemma EntriesUntouched(s: State, s': State)
    requires Inv(s)
    requires forall i :: i in s'.table.responses ==>
               i in s.table.responses && s'.table.responses[i] == s.table.responses[i]
    requires forall i :: i in s'.table.responses ==>
               var u := s'.table.responses[i];
               && u in s'.table.channels && s'.table.channels[u] == s.table.At(u)
               && u in s'.callers && u in s.callers && s'.callers[u].id == s.callers[u].id
               && s'.callers[u].registered == s.callers[u].registered && s'.callers[u].MayStillCleanUp()
    ensures forall i :: i in s'.table.responses ==> EntryOk(s', i)
  {
    forall i | i in s'.table.responses ensures EntryOk(s', i) {
      assert EntryOk(s, i);
    }
  }

  /** A step of caller `t` that changes its own place, its own channel and no open entry of others. */
  lemma OwnStepKeeps(s: State, s': State, t: nat)
    requires Inv(s) && t in s.callers && s'.table.fault == None
    requires s'.callers.Keys == s.callers.Keys && s'.table.channels.Keys == s.table.channels.Keys
    requires s'.callers[t].id == s.callers[t].id
    requires forall u :: u in s.callers && u != t ==> s'.callers[u] == s.callers[u]
    requires forall u :: u in s.table.channels && u != t ==> s'.table.channels[u] == s.table.channels[u]
    requires s'.table.responses == s.table.responses
    requires forall i :: i in s'.table.responses ==> EntryOk(s', i)
    requires CallerOk(s', t)
    ensures Inv(s')
  {
    forall u | u in s'.callers ensures CallerOk(s', u) {
      assert CallerOk(s, u);
      if u != t { Untouched(s, s', u); }
    }
  }

  lemma OwnMoveOk(s: State, t: nat, at: Place)
    requires t in s.callers && CallerOk(s, t) && !s.callers[t].at.Returned? && s.callers[t].at != Cancelled
    requires at in {WriteFailed, Waiting, Expired}
    ensures CallerOk(s.Move(t, at), t)
  {
  }

  lemma OwnReceiveOk(s: State, t: nat)
    requires AtPlace(s, t, Waiting) && CallerOk(s, t) && s.table.At(t).closed
    ensures CallerOk(ReceiveOutcome(s, t), t)
  {
    var ch := s.table.channels[t];
    assert Received(Waiting) + ch.buffer == ch.buffer;
    if ch.buffer != [] {
      assert ch.buffer == Expected(ch.causes[0]);
      assert ch.buffer == [ch.buffer[0]] && ch.buffer[1..] == [];
    }
  }

  lemma BeginKeeps(s: State, t: nat, id: string, wantsBody: bool)
    requires Inv(s) && t !in s.callers
    ensures Inv(BeginRequest(s, t, id, wantsBody))
  {
    var s' := BeginRequest(s, t, id, wantsBody);
    forall i | i in s'.table.responses ensures EntryOk(s', i) {
      if i in s.table.responses { assert EntryOk(s, i); }
    }
    forall u | u in s'.callers ensures CallerOk(s', u) {
      if u != t { Untouched(s, s', u); }
    }
  }

  /** Moves that leave the table alone. */
  lemma MoveKeeps(s: State, t: nat, at: Place)
    requires Inv(s) && t in s.callers && !s.callers[t].at.Returned? && s.callers[t].at != Cancelled
    requires at in {WriteFailed, Waiting, Expired}
    ensures Inv(s.Move(t, at))
  {
    var s' := s.Move(t, at);
    assert CallerOk(s, t);
    forall i | i in s'.table.responses ensures EntryOk(s', i) {
      assert EntryOk(s, i);
    }
    OwnMoveOk(s, t, at);
    OwnStepKeeps(s, s', t);
  }

  lemma NotifyKeeps(s: State, t: nat)
    requires Inv(s) && AtPlace(s, t, Cancelled)
    ensures Inv(s.Move(t, Returned(TimedOut, None)))
  {
    var s' := s.Move(t, Returned(TimedOut, None));
    assert CallerOk(s, t);
    forall i | i in s.table.responses ensures EntryOk(s, i) {}
    EntriesUntouched(s, s');
    forall u | u in s'.callers ensures CallerOk(s', u) {
      if u != t { Untouched(s, s', u); }
    }
  }

  /** sendResponse for `id`, whatever is delivered, as long as the cause is sound. */
  lemma CompletionKeeps(s: State, id: string, outcome: Option<Outcome>, cause: Cause)
    requires Inv(s) && id in s.table.responses
    requires match cause
             case ByReply(f) => f.requestId == id && outcome == Some(Outcome(f, f.status != 200))
             case ByClose => false
             case _ => outcome == None && cause.who in s.callers && s.callers[cause.who].id == id
                       && cause.who != s.table.responses[id]
    ensures Inv(s.(table := s.table.SendResponse(id, outcome, cause)))
  {
    var s' := s.(table := s.table.SendResponse(id, outcome, cause));
    SendResponseCompletes(s, id, outcome, cause);
    assert EntryOk(s, id);
    var t := s.table.responses[id];
    forall i | i in s'.table.responses ensures EntryOk(s', i) {
      assert EntryOk(s, i);
    }
    forall u | u in s'.callers ensures CallerOk(s', u) {
      assert CallerOk(s, u);
      if u != t { Untouched(s, s', u); }
    }
  }

  lemma GiveUpKeeps(s: State, t: nat, cause: Cause, at: Place)
    requires Inv(s) && t in s.callers
    requires (s.callers[t].at == WriteFailed && cause == ByWriteFailure(t) && at == Returned(SendFailed, None))
          || (s.callers[t].at == Expired && cause == ByCancel(t) && at == Cancelled)
    ensures Inv(s.(table := s.table.SendResponse(s.callers[t].id, None, cause)).Move(t, at))
  {
    var id := s.callers[t].id;
    OwnEntry(s, t);
    if id in s.table.responses && s.table.responses[id] == t {
      OwnGiveUpKeeps(s, t, cause, at);
    } else {
      if id in s.table.responses {
        CompletionKeeps(s, id, None, cause);
      }
      GoneKeeps(s.(table := s.table.SendResponse(id, None, cause)), t, at);
    }
  }

  /** Giving up when somebody else has closed the channel already. */
  lemma GoneKeeps(s: State, t: nat, at: Place)
    requires Inv(s) && t in s.callers && s.table.At(t).closed && GaveUp(at)
    requires s.callers[t].at in {WriteFailed, Expired}
    ensures Inv(s.Move(t, at))
  {
    var s' := s.Move(t, at);
    assert CallerOk(s, t);
    forall i | i in s.table.responses ensures EntryOk(s, i) {}
    EntriesUntouched(s, s');
    forall u | u in s'.callers ensures CallerOk(s', u) {
      if u != t { Untouched(s, s', u); }
    }
  }

  lemma OwnGiveUpKeeps(s: State, t: nat, cause: Cause, at: Place)
    requires Inv(s) && t in s.callers && GaveUp(at)
    requires s.callers[t].id in s.table.responses && s.table.responses[s.callers[t].id] == t
    requires cause == ByWriteFailure(t) || cause == ByCancel(t)
    ensures Inv(s.(table := s.table.SendResponse(s.callers[t].id, None, cause)).Move(t, at))
  {
    var id := s.callers[t].id;
    var s' := s.(table := s.table.SendResponse(id, None, cause)).Move(t, at);
    SendResponseCompletes(s, id, None, cause);
    OwnerOf(s, id);
    EntriesUntouched(s, s');
    GivenUpOk(s', t, cause);
    forall u | u in s'.callers ensures CallerOk(s', u) {
      if u != t { Untouched(s, s', u); }
    }
  }

  /** No two entries share a channel. */
  lemma OwnerOf(s: State, id: string)
    requires Inv(s) && id in s.table.responses
    ensures EntryOk(s, id)
    ensures forall i :: i in s.table.responses && i != id ==>
              EntryOk(s, i) && s.table.responses[i] != s.table.responses[id]
  {
  }

  lemma GivenUpOk(s: State, t: nat, cause: Cause)
    requires t in s.callers && s.callers[t].registered && GaveUp(s.callers[t].at)
    requires t in s.table.channels && s.table.channels[t] == Channel([], true, [cause])
    requires cause == ByWriteFailure(t) || cause == ByCancel(t)
    ensures CallerOk(s, t)
  {
  }

  lemma ReceiveKeeps(s: State, t: nat)
    requires Inv(s) && AtPlace(s, t, Waiting) && (s.table.At(t).closed || s.table.At(t).buffer != [])
    ensures Inv(ReceiveOutcome(s, t))
  {
    var s' := ReceiveOutcome(s, t);
    assert CallerOk(s, t);
    OwnEntry(s, t);
    forall i | i in s'.table.responses ensures EntryOk(s', i) {
      assert EntryOk(s, i);
    }
    OwnReceiveOk(s, t);
    OwnStepKeeps(s, s', t);
  }

  lemma ReplyKeeps(s: State, frame: Frame)
    requires Inv(s)
    ensures Inv(s.(table := s.table.SendResponse(frame.requestId, Some(Outcome(frame, frame.status != 200)),
                                                 ByReply(frame))))
  {
    var id := frame.requestId;
    if id in s.table.responses {
      CompletionKeeps(s, id, Some(Outcome(frame, frame.status != 200)), ByReply(frame));
    }
  }

  lemma ArrivalKeeps(s: State, frame: Frame)
    requires Inv(s)
    ensures Inv(s.(table := Arrival(s.table, frame, s.handlers)))
  {
    ReplyKeeps(s, frame);
    assert "" in s.table.responses ==> EntryOk(s, "");
  }

  lemma EntriesAreOpen(s: State)
    requires Inv(s)
    ensures s.table.EntriesOpen()
  {
    forall id | id in s.table.responses ensures EntryOk(s, id) {}
  }

  lemma CloseKeeps(s: State)
    requires Inv(s)
    ensures Inv(s.(table := s.table.CloseAll()))
  {
    EntriesAreOpen(s);
    var s' := s.(table := s.table.CloseAll());
    forall u | u in s'.callers ensures CallerOk(s', u) {
      assert CallerOk(s, u);
      if u in s.table.responses.Values {
        var id :| id in s.table.responses && s.table.responses[id] == u;
        assert EntryOk(s, id);
      } else if s.callers[u].registered && !s.table.channels[u].closed {
        assert s.table.responses[s.callers[u].id] == u;
      }
    }
  }

  lemma StepKeepsInv(s: State, step: Step)
    requires Inv(s) && Apply(s, step).Some?
    ensures Inv(Apply(s, step).value)
  {
    match step {
      case Begin(t, id, wantsBody) => BeginKeeps(s, t, id, wantsBody);
      case WriteSucceeds(t) => MoveKeeps(s, t, Waiting);
      case WriteFails(t) => MoveKeeps(s, t, WriteFailed);
      case CleanUp(t) => GiveUpKeeps(s, t, ByWriteFailure(t), Returned(SendFailed, None));
      case Expire(t) => MoveKeeps(s, t, Expired);
      case Cancel(t) => GiveUpKeeps(s, t, ByCancel(t), Cancelled);
      case Notify(t) => NotifyKeeps(s, t);
      case Receive(t) => ReceiveKeeps(s, t);
      case Arrive(frame) => ArrivalKeeps(s, frame);
      case CloseClient => CloseKeeps(s);
      case AddHandler(action) =>
        var s' := s.(handlers := s.handlers + {action});
        forall i | i in s'.table.responses ensures EntryOk(s', i) { assert EntryOk(s, i); }
        forall u | u in s'.callers ensures CallerOk(s', u) { assert CallerOk(s, u); }
    }
  }

  lemma {:induction false} RunKeepsInv(steps: seq<Step>)
    ensures Exec(INITIAL, steps).Some? ==> Inv(Exec(INITIAL, steps).value)
  {
    if steps != [] {
      RunKeepsInv(steps[..|steps| - 1]);
      if Exec(INITIAL, steps).Some? {
        StepKeepsInv(Exec(INITIAL, steps[..|steps| - 1]).value, steps[|steps| - 1]);
      }
    }
  }

  // ---- What every run guarantees ----

  /** No interleaving sends on a closed channel, closes one twice, or blocks with
      the lock held; each channel is closed at most once and gets at most one
      outcome, from a frame carrying its own request id. */
  lemma EveryRunIsSafe(steps: seq<Step>, t: nat)
    requires Exec(INITIAL, steps).Some?
    ensures var s := Exec(INITIAL, steps).value;
            && s.table.fault == None
            && (t in s.callers ==>
                  var ch := s.table.At(t);
                  var outcomes := Received(s.callers[t].at) + ch.buffer;
                  && |ch.causes| <= 1 && (ch.closed <==> |ch.causes| == 1)
                  && |outcomes| <= 1
                  && (forall o :: o in outcomes ==>
                        && o.frame.requestId == s.callers[t].id
                        && (o.failed <==> o.frame.status != 200)
                        && ch.causes == [ByReply(o.frame)]))
  {
    RunKeepsInv(steps);
    var s := Exec(INITIAL, steps).value;
    if t in s.callers {
      assert CallerOk(s, t);
      OwnEntry(s, t);
    }
  }

  /** The table holds exactly the open registered channels, each under its own caller's id. */
  lemma TableIsExact(steps: seq<Step>, t: nat, id: string)
    requires Exec(INITIAL, steps).Some?
    ensures var s := Exec(INITIAL, steps).value;
            id in s.table.responses && s.table.responses[id] == t <==>
            t in s.callers && s.callers[t].registered && s.callers[t].id == id && !s.table.At(t).closed
  {
    RunKeepsInv(steps);
    var s := Exec(INITIAL, steps).value;
    if id in s.table.responses {
      assert EntryOk(s, id);
    }
    if t in s.callers {
      assert CallerOk(s, t);
    }
  }

  /** A caller that has returned, by timeout or otherwise, has left no entry behind,
      and right after its cancel nobody has one under its id. */
  lemma NothingLeftBehind(steps: seq<Step>, t: nat, id: string)
    requires Exec(INITIAL, steps).Some?
    ensures var s := Exec(INITIAL, steps).value;
            && (&& t in s.callers && id in s.table.responses
                && (s.callers[t].at.Returned? || s.callers[t].at == Cancelled) ==>
                  s.table.responses[id] != t)
            && (Apply(s, Cancel(t)).Some? ==> s.callers[t].id !in Apply(s, Cancel(t)).value.table.responses)
  {
    RunKeepsInv(steps);
    var s := Exec(INITIAL, steps).value;
    if id in s.table.responses {
      assert EntryOk(s, id);
    }
    if Apply(s, Cancel(t)).Some? && s.callers[t].id in s.table.responses {
      SendResponseCompletes(s, s.callers[t].id, None, ByCancel(t));
    }
  }

  /** What HandleRequest's return value means, in every run. A nil return without a
      reply needs a nil response and a channel closed by Close, or by another
      caller that carried the same id. */
  lemma ReturnValueMeans(steps: seq<Step>, t: nat)
    requires Exec(INITIAL, steps).Some?
    requires t in Exec(INITIAL, steps).value.callers && Exec(INITIAL, steps).value.callers[t].at.Returned?
    ensures var s := Exec(INITIAL, steps).value;
            var c, ch := s.callers[t], s.table.At(t);
            && (c.at.result == Succeeded && c.at.got.Some? ==>
                  c.at.got.value.frame.requestId == c.id && c.at.got.value.frame.status == 200)
            && (c.at.result == Succeeded && c.at.got.None? ==>
                  && !c.wantsBody && |ch.causes| == 1
                  && (ch.causes[0] == ByClose || ClosedByOther(s, t, ch.causes[0])))
            && (c.at.got.Some? && c.at.got.value.frame.status != 200 <==> c.at.result == ReplyFailed)
  {
    RunKeepsInv(steps);
    ReturnedFacts(Exec(INITIAL, steps).value, t);
  }

  lemma ReturnedFacts(s: State, t: nat)
    requires Inv(s) && t in s.callers && s.callers[t].at.Returned?
    ensures var c, ch := s.callers[t], s.table.At(t);
            && (c.at.got.Some? ==>
                  && c.at.got.value.frame.requestId == c.id
                  && (c.at.got.value.failed <==> c.at.got.value.frame.status != 200)
                  && c.at.result == Resolve(c.wantsBody, c.at.got))
            && (c.at.got.None? ==> c.at.result in {SendFailed, TimedOut, Resolve(c.wantsBody, None)})
            && (c.at.result == Succeeded && c.at.got.None? ==>
                  && |ch.causes| == 1
                  && (ch.causes[0] == ByClose || ClosedByOther(s, t, ch.causes[0])))
  {
    assert CallerOk(s, t);
    OwnEntry(s, t);
    var c, ch := s.callers[t], s.table.At(t);
    if c.at.got.Some? {
      assert (Received(c.at) + ch.buffer)[0] == c.at.got.value;
    }
  }

  ghost predicate ClosedByOther(s: State, t: nat, cause: Cause)
    requires t in s.callers
  {
    (cause.ByCancel? || cause.ByWriteFailure?)
    && cause.who != t && cause.who in s.callers && s.callers[cause.who].id == s.callers[t].id
  }

  // ---- Request ids in flight ----

  /** Nobody who may still run sendResponse for this id is around. */
  predicate IdIsFree(s: State, id: string) {
    forall u :: u in s.callers && s.callers[u].id == id ==> !s.callers[u].MayStillCleanUp()
  }

  /** Every request of the run begins with a free id. */
  ghost predicate IdsKeptApart(steps: seq<Step>) {
    steps != [] ==>
      && IdsKeptApart(steps[..|steps| - 1])
      && var last := steps[|steps| - 1];
         var before := Exec(INITIAL, steps[..|steps| - 1]);
         last.Begin? && before.Some? ==> IdIsFree(before.value, last.id)
  }

  ghost predicate Apart(s: State) {
    && (forall t, u :: t in s.callers && u in s.callers && t != u
          && s.callers[t].MayStillCleanUp() && s.callers[u].MayStillCleanUp()
          ==> s.callers[t].id != s.callers[u].id)
    && (forall t :: t in s.callers && s.table.At(t).closed ==>
          forall i :: 0 <= i < |s.table.At(t).causes| ==> !ClosedByOther(s, t, s.table.At(t).causes[i]))
  }

  lemma StepKeepsApart(s: State, step: Step)
    requires Inv(s) && Apart(s) && Apply(s, step).Some?
    requires step.Begin? ==> IdIsFree(s, step.id)
    ensures Apart(Apply(s, step).value)
  {
    match step {
      case Begin(t, id, wantsBody) => BeginKeepsApart(s, t, id, wantsBody);
      case WriteSucceeds(t) => MoveKeepsApart(s, t, Waiting);
      case WriteFails(t) => MoveKeepsApart(s, t, WriteFailed);
      case CleanUp(t) =>
        GiveUpKeepsApart(s, t, ByWriteFailure(t));
        MoveKeepsApart(s.(table := s.table.SendResponse(s.callers[t].id, None, ByWriteFailure(t))),
                       t, Returned(SendFailed, None));
      case Expire(t) => MoveKeepsApart(s, t, Expired);
      case Cancel(t) =>
        GiveUpKeepsApart(s, t, ByCancel(t));
        MoveKeepsApart(s.(table := s.table.SendResponse(s.callers[t].id, None, ByCancel(t))), t, Cancelled);
      case Notify(t) => MoveKeepsApart(s, t, Returned(TimedOut, None));
      case Receive(t) => ReceiveKeepsApart(s, t);
      case Arrive(frame) => ReplyKeepsApart(s, frame);
      case CloseClient => CloseKeepsApart(s);
      case AddHandler(action) => SameCausesKeepApart(s, s.(handlers := s.handlers + {action}));
    }
  }

  lemma SameCausesKeepApart(s: State, s': State)
    requires Apart(s) && s'.callers.Keys == s.callers.Keys
    requires forall t :: t in s.callers ==>
               && s'.callers[t].id == s.callers[t].id
               && (s'.callers[t].MayStillCleanUp() ==> s.callers[t].MayStillCleanUp())
               && s'.table.At(t).closed == s.table.At(t).closed && s'.table.At(t).causes == s.table.At(t).causes
    ensures Apart(s')
  {
    forall t, cause | t in s.callers ensures ClosedByOther(s', t, cause) ==> ClosedByOther(s, t, cause) {
    }
  }

  lemma MoveKeepsApart(s: State, t: nat, at: Place)
    requires Apart(s) && t in s.callers
    requires s.callers[t].MayStillCleanUp() || !s.callers[t].(at := at).MayStillCleanUp()
    ensures Apart(s.Move(t, at))
  {
    SameCausesKeepApart(s, s.Move(t, at));
  }

  lemma ReceiveKeepsApart(s: State, t: nat)
    requires Apart(s) && t in s.callers
    ensures Apart(ReceiveOutcome(s, t))
  {
    SameCausesKeepApart(s, ReceiveOutcome(s, t));
  }

  lemma BeginKeepsApart(s: State, t: nat, id: string, wantsBody: bool)
    requires Inv(s) && Apart(s) && t !in s.callers && IdIsFree(s, id)
    ensures Apart(BeginRequest(s, t, id, wantsBody))
  {
    var s' := BeginRequest(s, t, id, wantsBody);
    forall u, i | u in s'.callers && s'.table.At(u).closed && 0 <= i < |s'.table.At(u).causes|
      ensures !ClosedByOther(s', u, s'.table.At(u).causes[i])
    {
      assert CallerOk(s, u);
      assert i == 0 && CauseOk(s, u, s.table.At(u).causes[0]);
      assert !ClosedByOther(s, u, s.table.At(u).causes[0]);
    }
  }

  lemma CloseKeepsApart(s: State)
    requires Inv(s) && Apart(s)
    ensures Apart(s.(table := s.table.CloseAll()))
  {
    EntriesAreOpen(s);
    var s' := s.(table := s.table.CloseAll());
    forall u, i | u in s'.callers && s'.table.At(u).closed && 0 <= i < |s'.table.At(u).causes|
      ensures !ClosedByOther(s', u, s'.table.At(u).causes[i])
    {
      assert CallerOk(s, u);
      if u in s.table.responses.Values {
        var id :| id in s.table.responses && s.table.responses[id] == u;
        assert EntryOk(s, id);
      } else {
        assert !ClosedByOther(s, u, s.table.At(u).causes[i]);
      }
    }
  }

  lemma GiveUpKeepsApart(s: State, t: nat, cause: Cause)
    requires Inv(s) && Apart(s) && t in s.callers && s.callers[t].MayStillCleanUp()
    requires cause == ByWriteFailure(t) || cause == ByCancel(t)
    ensures Apart(s.(table := s.table.SendResponse(s.callers[t].id, None, cause)))
  {
    var id := s.callers[t].id;
    var s' := s.(table := s.table.SendResponse(id, None, cause));
    if id in s.table.responses {
      SendResponseCompletes(s, id, None, cause);
      assert EntryOk(s, id);
      assert s.table.responses[id] == t;
      forall u, i | u in s'.callers && s'.table.At(u).closed && 0 <= i < |s'.table.At(u).causes|
        ensures !ClosedByOther(s', u, s'.table.At(u).causes[i])
      {
        if u != t { assert !ClosedByOther(s, u, s.table.At(u).causes[i]); }
      }
    }
  }

  lemma ReplyKeepsApart(s: State, frame: Frame)
    requires Inv(s) && Apart(s)
    ensures Apart(s.(table := Arrival(s.table, frame, s.handlers)))
  {
    var id := frame.requestId;
    var s' := s.(table := Arrival(s.table, frame, s.handlers));
    if id in s.table.responses {
      SendResponseCompletes(s, id, Some(Outcome(frame, true)), ByReply(frame));
      SendResponseCompletes(s, id, Some(Outcome(frame, false)), ByReply(frame));
      forall u, i | u in s'.callers && s'.table.At(u).closed && 0 <= i < |s'.table.At(u).causes|
        ensures !ClosedByOther(s', u, s'.table.At(u).causes[i])
      {
        if s'.table.At(u) == s.table.At(u) { assert !ClosedByOther(s, u, s.table.At(u).causes[i]); }
      }
    }
  }

  lemma {:induction false} RunKeepsApart(steps: seq<Step>)
    requires IdsKeptApart(steps)
    ensures Exec(INITIAL, steps).Some? ==> Apart(Exec(INITIAL, steps).value)
  {
    if steps != [] {
      var before := steps[..|steps| - 1];
      RunKeepsApart(before);
      RunKeepsInv(before);
      if Exec(INITIAL, steps).Some? {
        StepKeepsApart(Exec(INITIAL, before).value, steps[|steps| - 1]);
      }
    }
  }

  /** With ids kept apart, a nil return means a 200 reply with this id, or Close
      drained the table while the request was pending. */
  lemma SuccessIsGenuine(steps: seq<Step>, t: nat)
    requires Exec(INITIAL, steps).Some? && IdsKeptApart(steps)
    requires t in Exec(INITIAL, steps).value.callers
    requires Exec(INITIAL, steps).value.callers[t].at.Returned?
    requires Exec(INITIAL, steps).value.callers[t].at.result == Succeeded
    ensures var s := Exec(INITIAL, steps).value;
            var c := s.callers[t];
            || (c.at.got.Some? && c.at.got.value.frame.requestId == c.id && c.at.got.value.frame.status == 200)
            || (c.at.got.None? && !c.wantsBody && s.table.At(t).causes == [ByClose])
  {
    ReturnValueMeans(steps, t);
    RunKeepsApart(steps);
    RunKeepsInv(steps);
    assert CallerOk(Exec(INITIAL, steps).value, t);
  }

  /** How caller `u` goes on to run its sendResponse without any reply arriving. */
  function GiveUpSteps(s: State, u: nat): seq<Step>
    requires u in s.callers
  {
    match s.callers[u].at
    case Writing => [WriteFails(u)] + [CleanUp(u)]
    case WriteFailed => [CleanUp(u)]
    case Waiting => [Expire(u)] + [Cancel(u)]
    case Expired => [Cancel(u)]
    case _ => []
  }

  lemma {:induction false} ExecConcat(s: State, a: seq<Step>, b: seq<Step>)
    requires Exec(s, a).Some?
    ensures Exec(s, a + b) == Exec(Exec(s, a).value, b)
  {
    if b == [] {
      assert a + b == a;
    } else {
      ExecConcat(s, a, b[..|b| - 1]);
      assert (a + b)[..|a + b| - 1] == a + b[..|b| - 1];
    }
  }

  function GiveUpCause(s: State, u: nat): Cause
    requires u in s.callers
  {
    if s.callers[u].at in {Writing, WriteFailed} then ByWriteFailure(u) else ByCancel(u)
  }

  function GiveUpEnd(s: State, u: nat): Place
    requires u in s.callers
  {
    if s.callers[u].at in {Writing, WriteFailed} then Returned(SendFailed, None) else Cancelled
  }

  function GivenUp(s: State, u: nat, cause: Cause, at: Place): State
    requires u in s.callers
  {
    s.(table := s.table.SendResponse(s.callers[u].id, None, cause)).Move(u, at)
  }

  lemma CleanUpApplies(s: State, u: nat)
    requires s.table.fault == None && AtPlace(s, u, WriteFailed)
    ensures Exec(s, [CleanUp(u)]) == Some(GivenUp(s, u, ByWriteFailure(u), Returned(SendFailed, None)))
  {
    ExecOne(s, CleanUp(u));
  }

  lemma CancelApplies(s: State, u: nat)
    requires s.table.fault == None && AtPlace(s, u, Expired)
    ensures Exec(s, [Cancel(u)]) == Some(GivenUp(s, u, ByCancel(u), Cancelled))
  {
    ExecOne(s, Cancel(u));
  }

  lemma MoveApplies(s: State, u: nat)
    requires s.table.fault == None && u in s.callers
    ensures s.callers[u].at == Writing ==> Exec(s, [WriteFails(u)]) == Some(s.Move(u, WriteFailed))
    ensures s.callers[u].at == Writing ==> Exec(s, [WriteSucceeds(u)]) == Some(s.Move(u, Waiting))
    ensures s.callers[u].at == Waiting ==> Exec(s, [Expire(u)]) == Some(s.Move(u, Expired))
  {
    ExecOne(s, WriteFails(u));
    ExecOne(s, WriteSucceeds(u));
    ExecOne(s, Expire(u));
  }

  lemma MovesCompose(s: State, u: nat, first: Place, cause: Cause, at: Place)
    requires u in s.callers
    ensures GivenUp(s.Move(u, first), u, cause, at) == GivenUp(s, u, cause, at)
  {
    assert GivenUp(s.Move(u, first), u, cause, at).callers == GivenUp(s, u, cause, at).callers;
  }

  lemma GiveUpRuns(s: State, u: nat)
    requires s.table.fault == None && u in s.callers && s.callers[u].MayStillCleanUp()
    ensures Exec(s, GiveUpSteps(s, u)) == Some(GivenUp(s, u, GiveUpCause(s, u), GiveUpEnd(s, u)))
  {
    MoveApplies(s, u);
    match s.callers[u].at {
      case Writing =>
        CleanUpApplies(s.Move(u, WriteFailed), u);
        ExecConcat(s, [WriteFails(u)], [CleanUp(u)]);
        MovesCompose(s, u, WriteFailed, ByWriteFailure(u), Returned(SendFailed, None));
      case WriteFailed => CleanUpApplies(s, u);
      case Waiting =>
        CancelApplies(s.Move(u, Expired), u);
        ExecConcat(s, [Expire(u)], [Cancel(u)]);
        MovesCompose(s, u, Expired, ByCancel(u), Cancelled);
      case Expired => CancelApplies(s, u);
    }
  }

  lemma ExecOne(s: State, a: Step)
    ensures Exec(s, [a]) == Apply(s, a)
  {
    assert [a][..0] == [];
    assert Exec(s, []) == Some(s);
  }

  function FinishSteps(t: nat): seq<Step> {
    [WriteSucceeds(t)] + [Receive(t)]
  }

  lemma NoReplyNorClose(s: State, u: nat, t: nat)
    requires u in s.callers
    ensures forall step :: step in GiveUpSteps(s, u) + FinishSteps(t) ==> !step.Arrive? && !step.CloseClient?
  {
  }

  /** A registered caller whose channel someone else closed goes on to report success. */
  lemma ClosedChannelReportsSuccess(s: State, t: nat)
    requires s.table.fault == None && AtPlace(s, t, Writing) && !s.callers[t].wantsBody
    requires s.table.At(t).closed && s.table.At(t).buffer == []
    ensures Exec(s, FinishSteps(t)) == Some(s.Move(t, Waiting).Move(t, Returned(Succeeded, None)))
  {
    MoveApplies(s, t);
    ExecOne(s.Move(t, Waiting), Receive(t));
    ExecConcat(s, [WriteSucceeds(t)], [Receive(t)]);
  }

  /** From a state in which `u` holds the id `t` has just registered. */
  lemma SharedIdContinues(s: State, u: nat, t: nat)
    requires Inv(s) && u in s.callers && t in s.callers && u != t
    requires s.callers[u].MayStillCleanUp() && s.callers[u].id == s.callers[t].id
    requires s.callers[t].registered && s.callers[t].at == Writing && !s.callers[t].wantsBody && !s.table.At(t).closed
    ensures var more := GiveUpSteps(s, u) + FinishSteps(t);
            Exec(s, more).Some? && AtPlace(Exec(s, more).value, t, Returned(Succeeded, None))
  {
    OwnEntry(s, t);
    GiveUpRuns(s, u);
    SendResponseCompletes(s, s.callers[t].id, None, GiveUpCause(s, u));
    var after := Exec(s, GiveUpSteps(s, u)).value;
    ClosedChannelReportsSuccess(after, t);
    ExecConcat(s, GiveUpSteps(s, u), FinishSteps(t));
  }

  /** Beginning with an id that is not free in `s`. */
  lemma SharedIdFrom(s: State, t: nat, id: string) returns (more: seq<Step>)
    requires Inv(s) && t !in s.callers && id != "" && id !in s.table.responses && !IdIsFree(s, id)
    ensures forall step :: step in more ==> !step.Arrive? && !step.CloseClient?
    ensures Exec(BeginRequest(s, t, id, false), more).Some?
    ensures AtPlace(Exec(BeginRequest(s, t, id, false), more).value, t, Returned(Succeeded, None))
  {
    var u :| u in s.callers && s.callers[u].id == id && s.callers[u].MayStillCleanUp();
    var begun := BeginRequest(s, t, id, false);
    BeginKeeps(s, t, id, false);
    SharedIdContinues(begun, u, t);
    NoReplyNorClose(begun, u, t);
    more := GiveUpSteps(begun, u) + FinishSteps(t);
  }

  /** The other direction: beginning with an id that is not free, in any state a run
      can reach, has a continuation in which the new request reports success although
      no frame arrived and Close was not called. */
  lemma SharedIdCanFakeSuccess(steps: seq<Step>, t: nat, id: string) returns (more: seq<Step>)
    requires Exec(INITIAL, steps).Some?
    requires var s := Exec(INITIAL, steps).value;
             t !in s.callers && id != "" && id !in s.table.responses && !IdIsFree(s, id)
    ensures forall step :: step in more ==> !step.Arrive? && !step.CloseClient?
    ensures var all := steps + [Begin(t, id, false)] + more;
            Exec(INITIAL, all).Some? && AtPlace(Exec(INITIAL, all).value, t, Returned(Succeeded, None))
  {
    RunKeepsInv(steps);
    more := SharedIdFrom(Exec(INITIAL, steps).value, t, id);
    ExecSnoc(INITIAL, steps, Begin(t, id, false));
    BeginApplies(Exec(INITIAL, steps).value, t, id);
    ExecConcat(INITIAL, steps + [Begin(t, id, false)], more);
  }

  lemma BeginApplies(s: State, t: nat, id: string)
    requires Inv(s) && t !in s.callers
    ensures Apply(s, Begin(t, id, false)) == Some(BeginRequest(s, t, id, false))
  {
  }

  lemma ExecSnoc(s: State, steps: seq<Step>, step: Step)
    requires Exec(s, steps).Some?
    ensures Exec(s, steps + [step]) == Apply(Exec(s, steps).value, step)
  {
    assert (steps + [step])[..|steps|] == steps;
  }
}
