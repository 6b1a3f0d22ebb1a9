/** What an inbound message does to the request it answers, in any state a run of
    server/internal/websocket_client.go can reach, and what HandleRequest makes of it
    (server/internal/gamelift_manager.go). */
module ReplyDelivery {
  import opened Prelude
  import opened RequestCorrelation

  lemma GoOn(steps: seq<Step>, step: Step, before: State, after: State)
    requires Exec(INITIAL, steps) == Some(before) && Apply(before, step) == Some(after)
    ensures Exec(INITIAL, steps + [step]) == Some(after)
  {
    ExecSnoc(INITIAL, steps, step);
  }

  /** The channel of a request whose reply was `f`. */
  function Answered(f: Frame, failed: bool): Channel {
    Channel([Outcome(f, failed)], true, [ByReply(f)])
  }

  /** `id` is out of the table and its channel, `t`'s, holds the outcome; the rest is untouched. */
  ghost predicate Completed(s: State, s': State, id: string, t: nat, outcome: Channel) {
    && s'.table.responses == s.table.responses - {id}
    && s'.table.channels == s.table.channels[t := outcome]
    && s'.table.fault == None && s'.callers == s.callers && s'.handlers == s.handlers
  }

  lemma Receives(s: State, f: Frame)
    requires Inv(s) && f.requestId in s.table.responses && (f.status != 200 || f.action !in s.handlers)
    ensures Apply(s, Arrive(f)).Some?
    ensures Completed(s, Apply(s, Arrive(f)).value, f.requestId, s.table.responses[f.requestId],
                      Answered(f, f.status != 200))
  {
    assert EntryOk(s, f.requestId);
    SendResponseCompletes(s, f.requestId, Some(Outcome(f, f.status != 200)), ByReply(f));
  }

  /** A reply with an error status completes its request with an error, whatever the handlers. */
  lemma ErrorReplyCompletes(steps: seq<Step>, f: Frame)
    requires Exec(INITIAL, steps).Some? && f.requestId in Exec(INITIAL, steps).value.table.responses
    requires f.status != 200
    ensures var s, end := Exec(INITIAL, steps).value, Exec(INITIAL, steps + [Arrive(f)]);
            && end.Some?
            && Completed(s, end.value, f.requestId, s.table.responses[f.requestId],
                         Channel([Outcome(f, true)], true, [ByReply(f)]))
  {
    RunKeepsInv(steps);
    Receives(Exec(INITIAL, steps).value, f);
    ExecSnoc(INITIAL, steps, Arrive(f));
  }

  /** A reply with status 200 completes its request, if its action has no handler. */
  lemma GoodReplyCompletes(steps: seq<Step>, f: Frame)
    requires Exec(INITIAL, steps).Some? && f.requestId in Exec(INITIAL, steps).value.table.responses
    requires f.status == 200 && f.action !in Exec(INITIAL, steps).value.handlers
    ensures var s, end := Exec(INITIAL, steps).value, Exec(INITIAL, steps + [Arrive(f)]);
            && end.Some?
            && Completed(s, end.value, f.requestId, s.table.responses[f.requestId],
                         Channel([Outcome(f, false)], true, [ByReply(f)]))
  {
    RunKeepsInv(steps);
    Receives(Exec(INITIAL, steps).value, f);
    ExecSnoc(INITIAL, steps, Arrive(f));
  }

  /** A message whose action has a handler goes to the handler, unless it is an error reply; one
      that answers no request changes nothing. */
  lemma OtherMessagesChangeNothing(steps: seq<Step>, f: Frame)
    requires Exec(INITIAL, steps).Some?
    requires var s := Exec(INITIAL, steps).value;
             || f.requestId !in s.table.responses
             || (f.status == 200 && f.action in s.handlers)
    ensures Exec(INITIAL, steps + [Arrive(f)]) == Exec(INITIAL, steps)
  {
    RunKeepsInv(steps);
    ExecSnoc(INITIAL, steps, Arrive(f));
    var s := Exec(INITIAL, steps).value;
    assert f.requestId == "" ==> f.requestId !in s.table.responses by {
      if f.requestId in s.table.responses {
        assert EntryOk(s, f.requestId);
      }
    }
  }

  lemma TakesAnswer(s: State, t: nat, f: Frame)
    requires AtPlace(s, t, Waiting) && t in s.table.channels && s.table.fault == None
    requires s.table.channels[t] == Answered(f, f.status != 200)
    ensures Apply(s, Receive(t)).Some?
    ensures Apply(s, Receive(t)).value.callers[t].at ==
            Returned(if f.status != 200 then ReplyFailed
                     else if !s.callers[t].wantsBody || f.bodyFits then Succeeded
                     else ParseFailed, Some(Outcome(f, f.status != 200)))
  {
  }

  /** End to end: the reply to a waiting request, once received, is what HandleRequest returns. */
  lemma ReplyIsReturned(steps: seq<Step>, t: nat, f: Frame)
    requires Exec(INITIAL, steps).Some?
    requires var s := Exec(INITIAL, steps).value;
             && AtPlace(s, t, Waiting) && f.requestId in s.table.responses && s.table.responses[f.requestId] == t
             && (f.status != 200 || f.action !in s.handlers)
    ensures var s, end := Exec(INITIAL, steps).value, Exec(INITIAL, steps + [Arrive(f)] + [Receive(t)]);
            && end.Some?
            && AtPlace(end.value, t,
                       Returned(if f.status != 200 then ReplyFailed
                                else if !s.callers[t].wantsBody || f.bodyFits then Succeeded
                                else ParseFailed, Some(Outcome(f, f.status != 200))))
  {
    RunKeepsInv(steps);
    var s := Exec(INITIAL, steps).value;
    Receives(s, f);
    var s1 := Apply(s, Arrive(f)).value;
    TakesAnswer(s1, t, f);
    GoOn(steps, Arrive(f), s, s1);
    GoOn(steps + [Arrive(f)], Receive(t), s1, Apply(s1, Receive(t)).value);
  }

  /** A request that begins with a free id is registered; one that does not, fails at once. */
  lemma RequestsRegister(steps: seq<Step>, t: nat, id: string, wantsBody: bool)
    requires Exec(INITIAL, steps).Some? && t !in Exec(INITIAL, steps).value.callers
    ensures var s, end := Exec(INITIAL, steps).value, Exec(INITIAL, steps + [Begin(t, id, wantsBody)]);
            && end.Some?
            && (id != "" && id !in s.table.responses ==>
                  && end.value.table.responses == s.table.responses[id := t]
                  && AtPlace(end.value, t, Writing))
            && (id == "" || id in s.table.responses ==>
                  && end.value.table.responses == s.table.responses
                  && AtPlace(end.value, t, Returned(SendFailed, None)))
            && end.value.callers[t].wantsBody == wantsBody && end.value.callers[t].id == id
  {
    RunKeepsInv(steps);
    ExecSnoc(INITIAL, steps, Begin(t, id, wantsBody));
  }

  /** What HandleRequest returned, from what it took off its channel. */
  lemma ReturnsExactly(steps: seq<Step>, t: nat)
    requires Exec(INITIAL, steps).Some?
    requires t in Exec(INITIAL, steps).value.callers && Exec(INITIAL, steps).value.callers[t].at.Returned?
    ensures var c := Exec(INITIAL, steps).value.callers[t];
            match c.at.got
            case Some(o) =>
              && (c.at.result == ReplyFailed <==> o.frame.status != 200)
              && (c.at.result == ParseFailed <==> o.frame.status == 200 && c.wantsBody && !o.frame.bodyFits)
              && (c.at.result == Succeeded <==> o.frame.status == 200 && (!c.wantsBody || o.frame.bodyFits))
            case None =>
              c.at.result in {SendFailed, TimedOut, if c.wantsBody then ParseFailed else Succeeded}
  {
    RunKeepsInv(steps);
    ReturnedFacts(Exec(INITIAL, steps).value, t);
  }

  /** A waiting request can always time out, and then has given up its entry. */
  lemma WaitingCanTimeOut(steps: seq<Step>, t: nat)
    requires Exec(INITIAL, steps).Some? && AtPlace(Exec(INITIAL, steps).value, t, Waiting)
    ensures var end := Exec(INITIAL, steps + [Expire(t)] + [Cancel(t)] + [Notify(t)]);
            && end.Some? && AtPlace(end.value, t, Returned(TimedOut, None))
            && Exec(INITIAL, steps).value.callers[t].id !in end.value.table.responses
  {
    RunKeepsInv(steps);
    var s := Exec(INITIAL, steps).value;
    var expired, cancelled := TimesOut(s, t);
    GoOn(steps, Expire(t), s, expired);
    GoOn(steps + [Expire(t)], Cancel(t), expired, cancelled);
    GoOn(steps + [Expire(t)] + [Cancel(t)], Notify(t), cancelled, cancelled.Move(t, Returned(TimedOut, None)));
  }

  lemma TimesOut(s: State, t: nat) returns (expired: State, cancelled: State)
    requires Inv(s) && AtPlace(s, t, Waiting)
    ensures Apply(s, Expire(t)) == Some(expired) && Apply(expired, Cancel(t)) == Some(cancelled)
    ensures AtPlace(cancelled, t, Cancelled)
    ensures Apply(cancelled, Notify(t)) == Some(cancelled.Move(t, Returned(TimedOut, None)))
    ensures s.callers[t].id !in cancelled.table.responses
  {
    expired := s.Move(t, Expired);
    StepKeepsInv(s, Expire(t));
    CancelGivesUp(expired, t);
    cancelled := Apply(expired, Cancel(t)).value;
  }

  lemma CancelGivesUp(s: State, t: nat)
    requires Inv(s) && AtPlace(s, t, Expired)
    ensures Apply(s, Cancel(t)).Some?
    ensures var s' := Apply(s, Cancel(t)).value;
            && s'.table.fault == None && AtPlace(s', t, Cancelled)
            && s.callers[t].id !in s'.table.responses && s'.callers[t].id == s.callers[t].id
  {
    if s.callers[t].id in s.table.responses {
      SendResponseCompletes(s, s.callers[t].id, None, ByCancel(t));
    }
  }

  lemma ClosedAll(table: Table, id: string)
    requires table.EntriesOpen() && id in table.responses && table.channels[table.responses[id]] == OPEN
    ensures table.CloseAll().channels[table.responses[id]] == Channel([], true, [ByClose])
  {
    assert table.responses[id] in table.responses.Values;
  }

  /** What Close makes of the table. */
  ghost predicate Drained(t: Table, end: Table) {
    && end.responses == map[] && end.fault == t.fault
    && (forall id :: id in t.responses ==> t.responses[id] in end.channels)
    && (forall id :: id in t.responses ==> end.channels[t.responses[id]] == Channel([], true, [ByClose]))
    && (forall c :: c in t.channels && c !in t.responses.Values ==>
          c in end.channels && end.channels[c] == t.channels[c])
  }

  lemma CloseAllDrains(s: State)
    requires Inv(s)
    ensures Drained(s.table, s.table.CloseAll()) && s.table.EntriesOpen()
  {
    EntriesAreOpen(s);
    forall id | id in s.table.responses
      ensures s.table.CloseAll().channels[s.table.responses[id]] == Channel([], true, [ByClose])
    {
      assert EntryOk(s, id);
      ClosedAll(s.table, id);
    }
  }

  /** Close empties the table, and closes the channel of every request in it with nothing sent. */
  lemma CloseDrains(steps: seq<Step>)
    requires Exec(INITIAL, steps).Some?
    ensures var s, end := Exec(INITIAL, steps).value, Exec(INITIAL, steps + [CloseClient]);
            end.Some? && Drained(s.table, end.value.table) && end.value.callers == s.callers
  {
    RunKeepsInv(steps);
    CloseAllDrains(Exec(INITIAL, steps).value);
    ExecSnoc(INITIAL, steps, CloseClient);
  }

  /** A handler, once added, is there for the messages after it. */
  lemma HandlersAreAdded(steps: seq<Step>, action: string)
    requires Exec(INITIAL, steps).Some?
    ensures var s, end := Exec(INITIAL, steps).value, Exec(INITIAL, steps + [AddHandler(action)]);
            end.Some? && end.value == State(s.table, s.callers, s.handlers + {action})
  {
    RunKeepsInv(steps);
    ExecSnoc(INITIAL, steps, AddHandler(action));
  }
}
