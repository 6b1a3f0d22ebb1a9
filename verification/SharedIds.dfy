/** A run of server/internal/websocket_client.go in which one request object is sent twice: its
    id is generated once, when it is created (model/request/stop_match_backfill.go:32-36). */
module SharedIds {
  import opened Prelude
  import opened RequestCorrelation

  /** The first call times out just as its reply arrives, and has not cancelled yet. */
  function LateReply(id: string): seq<Step> {
    [Begin(0, id, false)] + [WriteSucceeds(0)] + [Expire(0)] + [Arrive(Frame(id, "", 200, true))]
  }

  lemma Reaches(steps: seq<Step>, step: Step, before: State, after: State)
    requires Exec(INITIAL, steps) == Some(before) && Apply(before, step) == Some(after)
    ensures Exec(INITIAL, steps + [step]) == Some(after)
  {
    ExecSnoc(INITIAL, steps, step);
  }

  /** Registered and waiting, then out of time. */
  function Timeout(id: string): State {
    State(Table(map[id := 0], map[0 := OPEN], None), map[0 := Caller(id, false, true, Expired)], {})
  }

  lemma TimeoutReached(id: string)
    requires id != ""
    ensures Exec(INITIAL, [Begin(0, id, false)] + [WriteSucceeds(0)] + [Expire(0)]) == Some(Timeout(id))
  {
    var writing := Timeout(id).Move(0, Writing);
    assert BeginRequest(INITIAL, 0, id, false) == writing;
    Reaches([], Begin(0, id, false), INITIAL, writing);
    assert [] + [Begin(0, id, false)] == [Begin(0, id, false)];
    Reaches([Begin(0, id, false)], WriteSucceeds(0), writing, writing.Move(0, Waiting));
    assert writing.Move(0, Waiting).Move(0, Expired) == Timeout(id);
    Reaches([Begin(0, id, false)] + [WriteSucceeds(0)], Expire(0), writing.Move(0, Waiting), Timeout(id));
  }

  lemma LateReplyReached(id: string)
    requires id != ""
    ensures Exec(INITIAL, LateReply(id)).Some?
    ensures var s := Exec(INITIAL, LateReply(id)).value;
            s.callers == Timeout(id).callers && id !in s.table.responses
  {
    TimeoutReached(id);
    var frame := Frame(id, "", 200, true);
    ReplyTaken(id, frame);
    Reaches([Begin(0, id, false)] + [WriteSucceeds(0)] + [Expire(0)], Arrive(frame), Timeout(id),
            Timeout(id).(table := Arrival(Timeout(id).table, frame, {})));
  }

  lemma ReplyTaken(id: string, frame: Frame)
    requires frame.requestId == id && frame.status == 200
    ensures id !in Arrival(Timeout(id).table, frame, {}).responses
  {
  }

  /** Sent again at that moment, the request reports success with no reply to it and no Close. */
  lemma SharedIdRun(id: string) returns (after: seq<Step>)
    requires id != ""
    ensures forall step :: step in after ==> !step.Arrive? && !step.CloseClient?
    ensures var all := LateReply(id) + [Begin(1, id, false)] + after;
            Exec(INITIAL, all).Some? && AtPlace(Exec(INITIAL, all).value, 1, Returned(Succeeded, None))
  {
    LateReplyReached(id);
    assert Exec(INITIAL, LateReply(id)).value.callers[0].MayStillCleanUp();
    after := SharedIdCanFakeSuccess(LateReply(id), 1, id);
  }
}
