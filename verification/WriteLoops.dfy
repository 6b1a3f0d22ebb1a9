/** The two write loops: `Write` in server/internal/transport/websocket.go, whose
    counter goes back after a successful reconnect, and the linear backoff around it
    in server/internal/transport/retry.go. One writer at a time. */
module WriteLoops {
  import opened Prelude

  const MAX_READ_WRITE_RETRY := 5
  const RECONNECT_ON_FAILURE_NUMBER := 2

  /** What conn.WriteMessage returns: nil, an expected close error, or any other error. */
  datatype WriteResult = Ok | ExpectedClose | Abnormal

  /** The error variable of the loop: what the last write or reconnect left in it. */
  datatype Cause = WriteFailed | ReconnectFailed

  /** NilDereference is the panic of `err.Error()` on a nil error. */
  datatype WriteError =
    | NotInitialized | CloseError | SendMessageFailure(cause: Cause) | RetriesExhausted | NilDereference

  /** The outside world, numbered by call: what the n-th WriteMessage returns, whether the
      m-th handleNetworkInterrupt returns nil, and isConnected when the i-th Write begins. */
  datatype Network = Network(write: nat -> WriteResult, interrupt: nat -> bool, connected: nat -> bool)

  // ---- One Write ----

  /** The loop of `Write`, by iteration. `writes` and `interrupts` count the calls made so far. */
  datatype Loop =
    | Running(retries: nat, writes: nat, interrupts: nat, err: Option<Cause>)
    | Finished(error: Option<WriteError>, writes: nat, interrupts: nat)

  function Iterate(net: Network, l: Loop): Loop {
    match l
    case Finished(_, _, _) => l
    case Running(r, n, m, err) =>
      if r >= MAX_READ_WRITE_RETRY then
        Finished(Some(if err.Some? then SendMessageFailure(err.value) else NilDereference), n, m)
      else match net.write(n)
        case Ok => Finished(None, n + 1, m)
        case ExpectedClose => Finished(Some(CloseError), n + 1, m)
        case Abnormal =>
          if r != RECONNECT_ON_FAILURE_NUMBER then Running(r + 1, n + 1, m, Some(WriteFailed))
          else if net.interrupt(m) then Running(r, n + 1, m + 1, None)  // err is nil again
          else Running(r + 1, n + 1, m + 1, Some(ReconnectFailed))
  }

  function After(net: Network, n: nat, m: nat, iterations: nat): Loop {
    if iterations == 0 then Running(0, n, m, None) else Iterate(net, After(net, n, m, iterations - 1))
  }

  /** The first `e` interrupts from number `m` all returned nil. */
  predicate AllSucceed(net: Network, m: nat, e: nat) {
    forall i {:trigger net.interrupt(i)} :: m <= i < m + e ==> net.interrupt(i)
  }

  predicate AllAbnormal(net: Network, n: nat, d: nat) {
    forall i {:trigger net.write(i)} :: n <= i < n + d ==> net.write(i) == Abnormal
  }

  /** Where a running loop can be: before the first failed reconnect, or after it. */
  ghost predicate RunningShape(net: Network, n: nat, m: nat, l: Loop)
    requires l.Running?
  {
    && n <= l.writes && m <= l.interrupts
    && AllAbnormal(net, n, l.writes - n)
    && var d, e := l.writes - n, l.interrupts - m;
       || (AllSucceed(net, m, e) && l.retries == d - e && l.retries <= 2 && (e > 0 ==> l.retries == 2))
       || (&& e >= 1 && AllSucceed(net, m, e - 1) && !net.interrupt(m + e - 1)
           && l.retries == d - (e - 1) && 3 <= l.retries <= 5
           && l.err == Some(if l.retries == 3 then ReconnectFailed else WriteFailed))
  }

  lemma {:induction false} RunningLoopShape(net: Network, n: nat, m: nat, iterations: nat)
    ensures var l := After(net, n, m, iterations);
            l.Running? ==> RunningShape(net, n, m, l) && l.writes == n + iterations
  {
    if iterations > 0 {
      RunningLoopShape(net, n, m, iterations - 1);
    }
  }

  /** How a Write that makes any call can end. Every WriteMessage but the last failed
      abnormally; at most 5 + k were made, k being the reconnects that returned nil. */
  ghost predicate FinishedShape(net: Network, n: nat, m: nat, l: Loop)
    requires l.Finished?
  {
    && n < l.writes && m <= l.interrupts
    && var last, made, called := net.write(l.writes - 1), l.writes - n, l.interrupts - m;
    && AllAbnormal(net, n, made - 1)
    && (l.error == None <==> last == Ok)
    && (l.error == Some(CloseError) <==> last == ExpectedClose)
    && (l.error == Some(SendMessageFailure(WriteFailed)) <==> last == Abnormal)
    && l.error in {None, Some(CloseError), Some(SendMessageFailure(WriteFailed))}
    && (called == 0 || AllSucceed(net, m, called - 1))
    && (AllSucceed(net, m, called) ==> made <= 3 + called)
    && (!AllSucceed(net, m, called) ==> made <= 5 + (called - 1))
    && (last == Abnormal ==> !AllSucceed(net, m, called) && made == 5 + (called - 1))
  }

  lemma {:induction false} FinishedLoopShape(net: Network, n: nat, m: nat, iterations: nat)
    ensures var l := After(net, n, m, iterations);
            l.Finished? ==> FinishedShape(net, n, m, l)
  {
    if iterations > 0 {
      FinishedLoopShape(net, n, m, iterations - 1);
      RunningLoopShape(net, n, m, iterations - 1);
    }
  }

  /** A write that does not fail abnormally, or a reconnect that fails, within `limit` calls. */
  predicate StopsWithin(net: Network, n: nat, m: nat, limit: nat) {
    net.write(n + limit) != Abnormal || !net.interrupt(m + limit)
  }

  lemma StopsInTime(net: Network, n: nat, m: nat, limit: nat, iterations: nat)
    requires StopsWithin(net, n, m, limit)
    ensures After(net, n, m, iterations).Running? ==> iterations <= limit + 5
  {
    RunningLoopShape(net, n, m, iterations);
  }

  ghost predicate Stops(net: Network, n: nat, m: nat) {
    exists limit: nat :: StopsWithin(net, n, m, limit)
  }

  lemma {:induction false} NeverStops(net: Network, n: nat, m: nat, iterations: nat)
    requires !Stops(net, n, m)
    ensures After(net, n, m, iterations).Running?
  {
    if iterations > 0 {
      NeverStops(net, n, m, iterations - 1);
      RunningLoopShape(net, n, m, iterations - 1);
      var l := After(net, n, m, iterations - 1);
      assert !StopsWithin(net, n, m, l.writes - n);
      assert !StopsWithin(net, n, m, l.interrupts - m);
      assert l.interrupts > m ==> !StopsWithin(net, n, m, l.interrupts - m - 1);
    }
  }

  ghost predicate Returns(net: Network, n: nat, m: nat) {
    exists iterations: nat :: After(net, n, m, iterations).Finished?
  }

  /** Write returns exactly when some write does not fail abnormally or some reconnect
      fails. With auto-reconnect prevented every interrupt returns nil at once, so a
      connection that keeps failing keeps Write looping. */
  lemma WriteReturnsExactlyWhen(net: Network, n: nat, m: nat)
    ensures Returns(net, n, m) <==> Stops(net, n, m)
  {
    if Stops(net, n, m) {
      var limit: nat :| StopsWithin(net, n, m, limit);
      StopsInTime(net, n, m, limit, limit + 6);
      assert After(net, n, m, limit + 6).Finished?;
    } else {
      forall iterations: nat ensures After(net, n, m, iterations).Running? {
        NeverStops(net, n, m, iterations);
      }
    }
  }

  class WebsocketTransport {
    const net: Network
    var writeRetries: int
    var calls: nat       // Write calls so far
    var writes: nat      // WriteMessage calls so far
    var interrupts: nat  // handleNetworkInterrupt calls so far

    constructor (net: Network)
      ensures this.net == net && calls == writes == interrupts == 0
    {
      this.net := net;
      writeRetries, calls, writes, interrupts := 0, 0, 0, 0;
    }

    method WriteMessage() returns (result: WriteResult)
      modifies this`writes
      ensures result == net.write(old(writes)) && writes == old(writes) + 1
    {
      result := net.write(writes);
      writes := writes + 1;
    }

    method HandleNetworkInterrupt() returns (ok: bool)
      modifies this`interrupts
      ensures ok == net.interrupt(old(interrupts)) && interrupts == old(interrupts) + 1
    {
      ok := net.interrupt(interrupts);
      interrupts := interrupts + 1;
    }

    /** `limit` bounds how long the network keeps both failing writes and accepting reconnects. */
    method Write(ghost limit: nat) returns (error: Option<WriteError>)
      requires net.connected(calls) ==> StopsWithin(net, writes, interrupts, limit)
      modifies this
      ensures calls == old(calls) + 1
      ensures !net.connected(old(calls)) ==>
                error == Some(NotInitialized) && writes == old(writes) && interrupts == old(interrupts)
      ensures net.connected(old(calls)) ==>
                && FinishedShape(net, old(writes), old(interrupts), Finished(error, writes, interrupts))
                && EndsAs(net, old(writes), old(interrupts), Finished(error, writes, interrupts))
    {
      calls := calls + 1;
      if !net.connected(calls - 1) {
        return Some(NotInitialized);
      }
      ghost var n, m := writes, interrupts;
      ghost var iterations: nat := 0;
      writeRetries := 0;
      var err: Option<Cause> := None;
      while writeRetries < MAX_READ_WRITE_RETRY
        invariant calls == old(calls) + 1
        invariant writeRetries >= 0
        invariant After(net, n, m, iterations) == Running(writeRetries, writes, interrupts, err)
        invariant writeRetries > RECONNECT_ON_FAILURE_NUMBER ==> err.Some?
        decreases limit + 6 - iterations
      {
        StopsInTime(net, n, m, limit, iterations);
        var result := WriteMessage();
        if result == Abnormal {
          err := Some(WriteFailed);
          if writeRetries == RECONNECT_ON_FAILURE_NUMBER {
            var ok := HandleNetworkInterrupt();
            err := if ok then None else Some(ReconnectFailed);
            if ok {
              writeRetries := writeRetries - 1;
            }
          }
        } else {
          error := if result == Ok then None else Some(CloseError);
          assert After(net, n, m, iterations + 1) == Finished(error, writes, interrupts);
          FinishedLoopShape(net, n, m, iterations + 1);
          return;
        }
        writeRetries := writeRetries + 1;
        iterations := iterations + 1;
      }
      error := Some(SendMessageFailure(err.value));  // err.Error()
      assert After(net, n, m, iterations + 1) == Finished(error, writes, interrupts);
      FinishedLoopShape(net, n, m, iterations + 1);
    }
  }

  // ---- The backoff around it ----

  ghost predicate EndsAs(net: Network, n: nat, m: nat, l: Loop) {
    l.Finished? && exists iterations: nat :: After(net, n, m, iterations) == l
  }

  lemma {:induction false} FinishedStays(net: Network, n: nat, m: nat, i: nat, j: nat)
    requires i <= j && After(net, n, m, i).Finished?
    ensures After(net, n, m, j) == After(net, n, m, i)
  {
    if i < j {
      FinishedStays(net, n, m, i, j - 1);
    }
  }

  lemma OneEnd(net: Network, n: nat, m: nat, a: Loop, b: Loop)
    requires EndsAs(net, n, m, a) && EndsAs(net, n, m, b)
    ensures a == b
  {
    var i: nat :| After(net, n, m, i) == a;
    var j: nat :| After(net, n, m, j) == b;
    FinishedStays(net, n, m, if i < j then i else j, if i < j then j else i);
  }

  /** Each of up to `attempts` Writes from this point that is reached returns: the next one is
      only reached if this one ends with an error. */
  ghost predicate Settles(net: Network, call: nat, n: nat, m: nat, attempts: nat)
    decreases attempts
  {
    attempts > 0 ==>
      if !net.connected(call) then Settles(net, call + 1, n, m, attempts - 1)
      else
        exists l ::
          && EndsAs(net, n, m, l)
          && (l.error != None ==> Settles(net, call + 1, l.writes, l.interrupts, attempts - 1))
  }

  /** What one attempt leaves to the next. */
  lemma SettlesOn(net: Network, call: nat, n: nat, m: nat, attempts: nat, l: Loop)
    requires attempts > 0 && net.connected(call) && Settles(net, call, n, m, attempts) && EndsAs(net, n, m, l)
    ensures l.error != None ==> Settles(net, call + 1, l.writes, l.interrupts, attempts - 1)
  {
    var l' :| && EndsAs(net, n, m, l')
              && (l'.error != None ==> Settles(net, call + 1, l'.writes, l'.interrupts, attempts - 1));
    OneEnd(net, n, m, l, l');
  }

  lemma SettlingStops(net: Network, call: nat, n: nat, m: nat, attempts: nat)
    requires attempts > 0 && net.connected(call) && Settles(net, call, n, m, attempts)
    ensures Stops(net, n, m)
  {
    var l :| EndsAs(net, n, m, l);
    assert Returns(net, n, m);
    WriteReturnsExactlyWhen(net, n, m);
  }

  /** A negative sleep returns at once. */
  function Sleep(duration: int): nat {
    if duration < 0 then 0 else duration
  }

  /** The sleeps after the first `attempts` failures, growing by `unit` each. */
  function TotalSleep(attempts: nat, unit: int): nat {
    if attempts == 0 then 0 else TotalSleep(attempts - 1, unit) + Sleep(attempts * unit)
  }

  function Triangle(n: nat): nat {
    if n == 0 then 0 else Triangle(n - 1) + n
  }

  lemma {:induction false} TriangleClosedForm(n: nat)
    ensures 2 * Triangle(n) == n * (n + 1)
  {
    if n > 0 {
      TriangleClosedForm(n - 1);
    }
  }

  lemma {:induction false} TotalSleepIsTriangular(attempts: nat, unit: int)
    ensures TotalSleep(attempts, unit) == Sleep(unit) * Triangle(attempts)
  {
    if attempts > 0 {
      TotalSleepIsTriangular(attempts - 1, unit);
      SleepScales(attempts, unit);
      assert Sleep(unit) * (Triangle(attempts - 1) + attempts) ==
             Sleep(unit) * Triangle(attempts - 1) + Sleep(unit) * attempts;
    }
  }

  lemma SleepScales(k: nat, unit: int)
    requires k > 0
    ensures Sleep(k * unit) == Sleep(unit) * k
  {
    if unit < 0 {
      assert k * unit < 0;
    }
  }

  /** If every attempt fails, the backoff sleeps interval * factor * attempt * (attempt + 1) / 2 in all. */
  lemma BackoffTotal(attempts: nat, unit: nat)
    ensures 2 * TotalSleep(attempts, unit) == unit * (attempts * (attempts + 1))
  {
    TotalSleepIsTriangular(attempts, unit);
    TriangleClosedForm(attempts);
    assert 2 * (unit * Triangle(attempts)) == unit * (2 * Triangle(attempts));
  }

  lemma Regroup(a: int, b: int, c: int)
    ensures a * b * c == a * (b * c)
  {
  }

  class RetryTransport {
    const inner: WebsocketTransport
    const attempt: int
    const factor: int
    const interval: int
    var slept: nat

    constructor (inner: WebsocketTransport, attempt: int, factor: int, interval: int)
      ensures this.inner == inner && this.attempt == attempt && this.factor == factor && this.interval == interval
      ensures slept == 0
    {
      this.inner, this.attempt, this.factor, this.interval := inner, attempt, factor, interval;
      slept := 0;
    }

    /** `attempts` are left, this one included. */
    method TryWrite(ghost attempts: nat) returns (err: Option<WriteError>)
      requires attempts > 0 && Settles(inner.net, inner.calls, inner.writes, inner.interrupts, attempts)
      modifies inner
      ensures inner.calls == old(inner.calls) + 1 && old(inner.writes) <= inner.writes
      ensures forall i :: old(inner.writes) <= i < inner.writes - 1 ==> inner.net.write(i) != Ok
      ensures err == None <==> inner.writes > old(inner.writes) && inner.net.write(inner.writes - 1) == Ok
      ensures err != None ==> Settles(inner.net, inner.calls, inner.writes, inner.interrupts, attempts - 1)
    {
      ghost var call, n, m := inner.calls, inner.writes, inner.interrupts;
      ghost var limit: nat := 0;
      if inner.net.connected(call) {
        SettlingStops(inner.net, call, n, m, attempts);
        limit :| StopsWithin(inner.net, n, m, limit);
      }
      err := inner.Write(limit);
      if inner.net.connected(call) {
        SettlesOn(inner.net, call, n, m, attempts, Finished(err, inner.writes, inner.interrupts));
      }
    }

    /** Nil exactly when a WriteMessage succeeded, and then it was the last one made. */
    method Write() returns (error: Option<WriteError>)
      requires Settles(inner.net, inner.calls, inner.writes, inner.interrupts, Sleep(attempt))
      modifies this, inner
      ensures error == None || error == Some(RetriesExhausted)
      ensures old(inner.writes) <= inner.writes
      ensures forall i :: old(inner.writes) <= i < inner.writes - 1 ==> inner.net.write(i) != Ok
      ensures error == None <==> inner.writes > old(inner.writes) && inner.net.write(inner.writes - 1) == Ok
      ensures inner.calls <= old(inner.calls) + Sleep(attempt)
      ensures error == None ==>
                && inner.calls > old(inner.calls)
                && slept == old(slept) + TotalSleep(inner.calls - old(inner.calls) - 1, factor * interval)
      ensures error != None ==>
                && inner.calls == old(inner.calls) + Sleep(attempt)
                && slept == old(slept) + TotalSleep(Sleep(attempt), factor * interval)
    {
      var i := 0;
      while i < attempt
        invariant 0 <= i <= Sleep(attempt)
        invariant inner.calls == old(inner.calls) + i
        invariant old(inner.writes) <= inner.writes
        invariant forall j :: old(inner.writes) <= j < inner.writes ==> inner.net.write(j) != Ok
        invariant slept == old(slept) + TotalSleep(i, factor * interval)
        invariant Settles(inner.net, inner.calls, inner.writes, inner.interrupts, Sleep(attempt) - i)
      {
        var err := TryWrite(Sleep(attempt) - i);
        if err == None {
          return None;
        }
        Regroup(i + 1, factor, interval);
        slept := slept + Sleep((i + 1) * factor * interval);
        i := i + 1;
      }
      error := Some(RetriesExhausted);
    }
  }
}
