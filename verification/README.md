# Verified model of the GameLift server SDK for Go

This project models the stateful core of the Amazon GameLift Servers SDK for Go and proves what that
core keeps in every run. `dafny verify dfyconfig.toml` checks everything.

- `ConnectProtocol.dfy` has `Connect`, `Reconnect`, `Close` and the readers of the WebSocket
  transport as small steps of any number of callers. `TransportObject.dfy` has the same object with
  one caller at a time, as methods, proved to do what the small steps compose to, and
  `ConnectOutcome.dfy` what that is, field by field. `ReaderTests.dfy` has the tests a reader makes,
  `StaleReaders.dfy` which readers start a reconnect, `StuckTransport.dfy` when nothing can dial any
  more. `WriteLoops.dfy` has `Write`, whose retry counter can go back, and the backoff around it.
- `RequestCorrelation.dfy` has the table of response channels that replies, timeouts, failed writes
  and `Close` race for, `ReplyDelivery.dfy` what becomes of each message, `SharedIds.dfy` a run in
  which one request object is sent twice. `ReconnectGuard.dfy` has the timeout counter and the
  single-flight flag beside it, `TimeoutResets.dfy` what resets the counter.
- `MetricsPipeline.dfy` has messages on their way through ingress, queue and worker buffers, with
  `Start` and `Stop`, as small steps, `PipelineFlow.dfy` that they can get through,
  `PipelineShutdown.dfy` that `Stop` can finish, and `MessageLoss.dfy` how messages get lost.
  `WorkerLoop.dfy` has the worker's loop over its reused buffer. `MetricDelivery.dfy` has counters,
  tag merging and `Send`.
- `DerivedMetrics.dfy`, `WindowValues.dfy`, `Percentile.dfy` and `Interpolation.dfy` have the
  streaming statistics.
- `TagKeys.dfy` and `QueryString.dfy` have the two canonical keys printed from maps,
  `CanonicalOrder.dfy` their order and the escaping, `TagRules.dfy` which tags are valid,
  `TagCollisions.dfy` which unvalidated tags are printed alike. `Text.dfy`, `Ordering.dfy` and
  `Prelude.dfy` hold what they share: joining and splitting, sorting, optional values.
- `MatchmakerData.dfy` has grouping players by team, flattening, and attributes on the wire,
  `AttributeReading.dfy` what is read from unexpected values.
- `ServerState.dfy` has the server state as small steps of any number of calls, and the histories
  those steps make are in `CredentialCache.dfy` (role credentials), `ServerLifecycle.dfy` (readiness
  and shutdown channels), `GameSessions.dfy` and `Refusals.dfy`. `ServerObject.dfy` has the same
  object with one caller at a time, as methods, proved to do what the small steps compose to.

Concurrent code is a state machine over its atomic steps: what happens under a lock, or one atomic
or channel operation. `Apply` gives one step (none if it is not enabled), `Exec` a run (`Next` and
`After` in `ServerState`, where a step that is not enabled does nothing), and the main results hold
for every run. Where one goroutine's code is a method of its own, the method is proved equal to the
step or steps. A Go map may be iterated in any order: loops over maps pick an arbitrary remaining
key.

Assumptions the code needs, and which the model states:

- One writer at a time in `Write`, because its counter is a field and the lock is dropped inside the
  loop (server/internal/transport/websocket.go:295-299).
- No second `Stop` while one waits, and no enqueue on the closed channel
  (metrics/processor.go:416-418). `PanicsExactlyWhen` shows these are the only panics.
- float64 is `real`, except that `int64(value)` truncates, and fits. Strings are sequences of
  characters and tag lengths are in UTF-8 bytes, but the query escaper and the server state work on
  strings of bytes. The classes of Go's `unicode` package are a parameter of which only three
  separators are fixed.
- In `ServerState` every access to a field that no lock protects is a step, each of the three reads
  of the shutdown channel in lines 458-459 included (two exceptions are under "Left out"). What a
  call does between two such accesses joins the second. Validators' verdicts, clocks and answers of
  the service are arguments.

Properties that turned out false of the code are stated as exact conditions:

- `HandleRequest` can return nil without reply or `Close` if the id of an earlier request, whose
  caller has yet to clean up, is used again (`SuccessIsGenuine`, `SharedIdCanFakeSuccess`,
  `SharedIdRun`).
- A replaced reader can start a reconnect, by two schedules and no other
  (`OnlyCurrentReaderInterrupts`): its connection is cancelled after it has tested the context, or
  the trailing store of a `Reconnect` (server/internal/transport/websocket.go:158) falls between
  lines 88 and 136 of a `Connect`. Each leads on to it from wherever it happens
  (`LateCancelLetsStaleReaderIn`, `StoreInWindowLetsStaleReaderIn`), and there are runs of both.
- A direct `Connect` that fails leaves `reconnecting` set. With the lock free, nothing but another
  direct `Connect` can dial exactly if the flag is set and no caller is left to clear or use it
  (`StuckExactlyWhen`, `FailedDirectConnectSticks`).
- A counter's value equals the total of its messages, for all additions, exactly when the sampler
  answers alike for the value and for the message, because `Add` samples each separately
  (`BalancedExactlyWhen`).
- Among all tag maps, as builders take them without validation, some other map is printed like a
  given one exactly if that has two tags or holds an `=` of its own (`AmbiguousExactlyWhen`). What
  keeps two given maps apart is that neither has `=` in a key, nor `,` or `|` anywhere; validated
  tags are such (`CompositeInjective`, `ValidTagsAreSeparable`). Each of the three characters has
  its family of collisions (`EqualsInKeyCollides`, `CommaInValueCollides`, `BarInTagsCollides`).
- Metric keys that hold `|` can collide with tagged ones (`CompositeCollisions`).
- A percentile below 0 panics or falls below the minimum (`PanicsExactlyWhen`,
  `BelowMinimumExactlyWhen`); nothing validates the percentiles of a metric.
- A wire value loses teams that are empty or share a name (`TeamsRoundTripExactlyWhen`), and an
  attribute with more than one property, or a nil list or map, changes
  (`AttributeSurvivesExactlyWhen`). One with no type at all makes marshalling panic
  (`FromMatchmakerData`).
- The cache's freshness test wraps int64 nanoseconds (`FreshExactlyWhen`).
- Requests for credentials can follow a reply without an access key: exactly those of calls already
  past the test of `onManagedEC2` (`MaySendExactlyWhen`, `NoRequestAfterEmptyReply`). The same holds
  of session requests after a stop.
- A shutdown channel can be closed twice, which panics, or be left open for good with the process
  stopped: `ClosePanicsExactlyWhen` and `ClosedExactlyWhen` say when, `DoubleCloseRun` and
  `LostStopRun` are such runs, and `DisciplinedRunsSettle` shows neither happens while processReadys
  and stops do not overlap.

## Model

| member | source | states |
|---|---|---|
| ConnectProtocol.RunKeepsInv | server/internal/transport/websocket.go:84-160 | In every run of Connects, Reconnects, readers and Closes: connection i is cancelled and closed exactly as far as its replacing Connect has come, and only the lock holder is between lines 88 and 144 |
| ConnectProtocol.ConnectionsSettledWhenUnlocked | server/internal/transport/websocket.go:84-148 | Whenever the lock is free every replaced connection was cancelled and closed, the newest is current and live, reader ids are distinct and the newest is connectionId |
| ConnectProtocol.FailedConnectChangesNothing | server/internal/transport/websocket.go:98-128 | A Connect whose dials all fail leaves conn, cancel function, URL and id alone whatever runs beside it; isConnected changes only if Close was called |
| ReaderTests.ReconnectsWereChecked | server/internal/transport/websocket.go:175-209 | A reader whose Reconnect is under way failed to read abnormally on a connection not cancelled, then found no reconnect under way, then auto-reconnect not prevented |
| ReaderTests.PreventedExactlyWhen | server/internal/transport/websocket.go:280-282 | From any state the flag is set exactly if it was or PreventAutoReconnect has been called since |
| ReaderTests.NoReaderPassesPrevent | server/internal/transport/websocket.go:71-75 | From any state with the flag set, whatever runs, no reader gets past its test that was not past it |
| ReaderTests.WhoStillCalls | server/internal/transport/websocket.go:71-82 | Every caller added later came from outside, or from a reader that was past the test when the flag was set |
| ReaderTests.InterruptReconnects | server/internal/transport/websocket.go:71-82 | With the flag clear, an interrupted reader's own moves lead on to a Reconnect that queues, or waits for one under way |
| ReaderTests.RefusedReaderLeaves | server/internal/transport/websocket.go:196-209 | With a reconnect under way, or with auto-reconnect prevented, the reader leaves instead |
| ReaderTests.FailedReaderEnds | server/internal/transport/websocket.go:175-209 | A read that fails normally, or on a cancelled connection, leads to one Close of that connection and the reader's end |
| StaleReaders.OnlyCurrentReaderInterrupts | server/internal/transport/websocket.go:187-201 | A reader that passes a test of reconnecting, into handleNetworkInterrupt or at Reconnect's Swap, reads the current connection, or its own was cancelled after its context test, or a trailing store fell into a window |
| StaleReaders.InterruptsMeans | server/internal/transport/websocket.go:152-196 | What passing such a test is: the reader enters handleNetworkInterrupt, or its Reconnect queues for a Connect of its own |
| StaleReaders.LateCancelLetsStaleReaderIn | server/internal/transport/websocket.go:136-138 | From any reachable state, cancelling a connection whose reader is past its context test leads on to that reader interrupting |
| StaleReaders.ConnectBetweenTests | server/internal/transport/websocket.go:188-196 | From any reachable state with the lock free, a whole Connect between a reader's two tests lets that reader interrupt |
| StaleReaders.StaleReaderByConnectRun | server/internal/transport/websocket.go:187-201 | A complete run from the start of that schedule |
| StaleReaders.StoreInWindowLetsStaleReaderIn | server/internal/transport/websocket.go:151-160 | From any reachable state, a trailing store in a window leads on to the reader being replaced interrupting, if it still has that test before it |
| StaleReaders.StaleReaderByStoreRun | server/internal/transport/websocket.go:151-160 | A complete run from the start of that schedule |
| StuckTransport.FailedDirectConnectSticks | server/internal/transport/websocket.go:84-128 | A direct Connect that fails with nobody else active leaves reconnecting set and nobody to clear it |
| StuckTransport.StuckUntilConnect | server/internal/transport/websocket.go:151-156 | From then on every Reconnect reports success and nothing is dialled until a direct Connect |
| StuckTransport.StuckExactlyWhen | server/internal/transport/websocket.go:84-160 | In any reachable state with the lock free, a run without a direct Connect that dials exists exactly if the state is not of that kind |
| TransportObject.ConnectAlone | server/internal/transport/websocket.go:84-148 | The small steps of an undisturbed Connect compose to one change: new connection current, old one cancelled and closed, flags and id updated |
| TransportObject.ReconnectAlone | server/internal/transport/websocket.go:151-160 | The same for Reconnect, which with the flag already set dials nothing and reports success |
| ConnectOutcome.ConnectLeaves | server/internal/transport/websocket.go:84-148 | Field by field: a Connect adds one live connection, read under its number, and cancels and closes the one before, or leaves all but the flag |
| ConnectOutcome.ReconnectLeaves | server/internal/transport/websocket.go:151-160 | The same with the last URL, or everything as it was |
| ConnectOutcome.CloseLeaves | server/internal/transport/websocket.go:271-278 | A Close of a connected transport closes the current connection once and nothing else |
| TransportObject.WebsocketTransport.Connect | server/internal/transport/websocket.go:84-148 | The method, statement by statement on shared connection objects, has that result |
| TransportObject.WebsocketTransport.Reconnect | server/internal/transport/websocket.go:151-160 | The method has the result of ReconnectAlone; a failed Reconnect, unlike a failed Connect, clears the flag |
| TransportObject.WebsocketTransport.Close | server/internal/transport/websocket.go:271-278 | Closes the current connection once, and only if isConnected was set |
| WriteLoops.RunningLoopShape | server/internal/transport/websocket.go:291-306 | While the loop runs all writes failed abnormally, and the counter is the writes less the reconnects that returned nil |
| WriteLoops.FinishedLoopShape | server/internal/transport/websocket.go:284-311 | At most 5 + k WriteMessage calls for k successful reconnects; nil exactly if the last succeeded; the error variable, nil after each of those reconnects, is non-nil when read at the end |
| WriteLoops.WriteReturnsExactlyWhen | server/internal/transport/websocket.go:291-311 | The loop ends exactly if a write stops failing abnormally or a reconnect fails in time; otherwise it goes on for ever |
| WriteLoops.WebsocketTransport.Write | server/internal/transport/websocket.go:284-311 | The method, the assignment of the reconnect's result to the error included, ends as the loop's specification does |
| WriteLoops.RetryTransport.Write | server/internal/transport/retry.go:34-49 | Nil exactly when a WriteMessage succeeded and it was the last one made; the sleeps add up to the backoff total |
| WriteLoops.TotalSleepIsTriangular | server/internal/transport/retry.go:42 | The sleeps of n failed attempts, stated with the triangular number of n |
| WriteLoops.BackoffTotal | server/internal/transport/retry.go:34-49 | Twice the total is interval times factor times attempt times attempt + 1 |
| RequestCorrelation.WebsocketClient.StoreResponse | server/internal/websocket_client.go:210-219 | Registers a channel unless the id is taken |
| RequestCorrelation.WebsocketClient.SendResponse | server/internal/websocket_client.go:221-234 | Delivers, closes and deletes in the code's order, as the table's step does |
| RequestCorrelation.WebsocketClient.Drain | server/internal/websocket_client.go:158-164 | In any iteration order every registered channel is closed once and the table emptied |
| RequestCorrelation.WebsocketClient.ReadHandler | server/internal/websocket_client.go:190-207 | An error reply completes its request even if its action has a handler; a success is offered to the handler first |
| RequestCorrelation.SendResponseCompletes | server/internal/websocket_client.go:221-234 | From a reachable table, completing an id gives exactly its channel one close and one outcome, with no panic and no blocking |
| ReplyDelivery.ErrorReplyCompletes | server/internal/websocket_client.go:190-200 | In any reachable state an error reply closes its request's channel with the error in it and removes the entry, whatever the handlers |
| ReplyDelivery.GoodReplyCompletes | server/internal/websocket_client.go:202-207 | A 200 reply whose action has no handler does so without the error |
| ReplyDelivery.OtherMessagesChangeNothing | server/internal/websocket_client.go:202-229 | A 200 message for a handler, or one that answers no request, changes nothing |
| ReplyDelivery.ReplyIsReturned | server/internal/gamelift_manager.go:113-136 | End to end: the reply to a waiting request is what HandleRequest returns, an error exactly if its status is not 200 |
| ReplyDelivery.ReturnsExactly | server/internal/gamelift_manager.go:113-136 | Each result of HandleRequest from what was received and whether a response was wanted and parses |
| ReplyDelivery.RequestsRegister | server/internal/websocket_client.go:78-92 | A request with a free id is registered, one with a taken or empty id fails at once |
| ReplyDelivery.WaitingCanTimeOut | server/internal/gamelift_manager.go:113-121 | A waiting request can always time out, and then has given up its entry |
| ReplyDelivery.CloseDrains | server/internal/websocket_client.go:158-164 | In any reachable state Close empties the table and closes exactly the channels in it, sending nothing |
| ReplyDelivery.HandlersAreAdded | server/internal/websocket_client.go:112-116 | A handler added is there for the messages after it |
| RequestCorrelation.RunKeepsInv | server/internal/websocket_client.go:78-97 | The invariant of callers, channels and table over every interleaving of send, write failure, reply, cancel and Close |
| RequestCorrelation.EveryRunIsSafe | server/internal/websocket_client.go:119-234 | No send on a closed channel, no second close, no blocking under the lock; at most one outcome, from a frame with the channel's own id |
| RequestCorrelation.TableIsExact | server/internal/websocket_client.go:210-234 | The table holds exactly the open registered channels, each under its caller's id |
| RequestCorrelation.NothingLeftBehind | server/internal/gamelift_manager.go:106-137 | A caller that has returned has no entry left, a timed-out one included |
| RequestCorrelation.ReturnValueMeans | server/internal/gamelift_manager.go:106-137 | What each result of HandleRequest says happened; a non-200 reply received always surfaces as an error |
| RequestCorrelation.SuccessIsGenuine | server/internal/gamelift_manager.go:106-137 | With ids kept apart, nil means a 200 reply with this id, or Close drained the pending request |
| RequestCorrelation.SharedIdCanFakeSuccess | server/internal/gamelift_manager.go:106-137 | Beginning with an id not kept apart always has a continuation that returns nil with no frame and no Close |
| SharedIds.SharedIdRun | server/internal/websocket_client.go:78-97 | Such a run from the start: a request object sent again while its first call has timed out but not cancelled |
| ReconnectGuard.SingleFlight | server/internal/websocket_client.go:131-154 | At every step at most one reconnect goroutine or one about to launch, exactly if the flag is set |
| ReconnectGuard.StreakCountsTimeouts | server/internal/websocket_client.go:131-154 | The counter is the int32 count of timeouts since the last inbound frame or successful reconnect |
| ReconnectGuard.LaunchesReachedThreshold | server/internal/websocket_client.go:132-142 | Every launch was caused by a timeout that was at least the second of its streak |
| ReconnectGuard.ThresholdExactly | server/internal/websocket_client.go:132-141 | A timeout takes the flag exactly if it is free and the wrapped count reaches the threshold |
| ReconnectGuard.Counted32Facts | server/internal/websocket_client.go:132 | The wrapped counter never exceeds the true count and equals it below 2^31 |
| ReconnectGuard.FlagCanBeCleared | server/internal/websocket_client.go:143-153 | Whoever holds the flag has moves of its own left that clear it |
| TimeoutResets.ResetsWereSuccessful | server/internal/websocket_client.go:143-153 | Every reset by a goroutine follows a successful Reconnect of its own |
| TimeoutResets.FailureLeavesCounter | server/internal/websocket_client.go:145-148 | A failed Reconnect leaves the counter alone and can only clear the flag |
| TimeoutResets.FramesReset | server/internal/websocket_client.go:179 | An inbound frame resets the counter in any reachable state |
| MetricsPipeline.RunKeepsLifecycle | metrics/processor.go:354-430 | Over all schedules and cancellations: wait count, live workers and closes of each channel match the phase, and nothing panics |
| MetricsPipeline.PanicsExactlyWhen | metrics/processor.go:381-430 | A step panics exactly if it is a second Stop while one waits or an enqueue after the close |
| MetricsPipeline.StopIsClean | metrics/processor.go:381-430 | Stop's wait ends only after run and all workers, each channel closed once; it leaves empty channels of the same capacity |
| PipelineFlow.StartsAfresh | metrics/processor.go:354-379 | Start is refused once started; otherwise it begins untold to stop and run brings up all workers |
| PipelineShutdown.StopCanFinish | metrics/processor.go:490-565 | From every reachable state in which Stop waits, steps of run and the workers alone end its wait |
| MetricsPipeline.MessagesAreConserved | metrics/processor.go:463-577 | For each message, copies enqueued = copies in ingress, in hand, queued, buffered, sent and lost |
| MetricsPipeline.BuffersStayBounded | metrics/processor.go:528-577 | Worker buffers, batches and channels never exceed their capacities |
| MetricsPipeline.EachWorkerSendsInOrder | metrics/processor.go:508-575 | What one worker sends, over all its batches, is a subsequence of the enqueue order |
| MetricsPipeline.OneWorkerKeepsOrder | metrics/processor.go:508-575 | With one worker everything handed to Send is |
| PipelineFlow.EverythingCanBeSent | metrics/processor.go:490-575 | From every reachable state not told to stop, the processor's own steps can hand every message in flight to Send and lose none |
| PipelineFlow.FlushesExactly | metrics/processor.go:540-628 | A tick or the end of a worker sends the whole buffer with what is derived, and nothing for an empty one |
| PipelineFlow.ReceivesExactly | metrics/processor.go:558-575 | Receiving takes the head of the queue into the buffer, and only a buffer of 1024 is sent first |
| PipelineFlow.RunNeverBlocks | metrics/processor.go:512-523 | With a message in hand run can forward exactly with room, drop exactly without, and leave exactly when told to stop |
| PipelineFlow.EnqueuesExactly | metrics/processor.go:463-465 | An enqueue waits exactly while ingress is full, and then goes to its end |
| MessageLoss.LossMeans | metrics/processor.go:508-523 | In every run each lost message was dropped at a full queue or, once the context was cancelled or a Stop begun, abandoned by run or left in the channels Stop remakes |
| MessageLoss.OnlyFullQueuesLose | metrics/processor.go:508-523 | Without a cancellation or a Stop, each lost message met a queue filled to its original capacity |
| WorkerLoop.ProcessWorker | metrics/processor.go:528-577 | The loop over one reused buffer: batches, then the buffer, are all that was received, in order; batches hold 1 to 1024, and a worker that leaves keeps none |
| WorkerLoop.SelectIsStep | metrics/processor.go:536-575 | Each select of that loop does to buffer and batches what the pipeline's step does |
| WorkerLoop.LoopForwardsAll | metrics/processor.go:528-577 | The invariant behind it, for every sequence of selects |
| MetricDelivery.Counter.Add | metrics/counter.go:82-86 | Value and message are sampled by two draws; the message has a map of its own with the counter's tags |
| MetricDelivery.Counter.AddAll | metrics/base_metric.go:76-90 | Value and messages after any additions, as functions of the sampler |
| MetricDelivery.BalancedExactlyWhen | metrics/base_metric.go:76-159 | Value = total of messages for all additions, exactly if both draws of each addition agree |
| MetricDelivery.Counter.SetTags | metrics/base_metric.go:110-127 | Fails exactly if some pair is invalid; then only valid pairs were set, in whatever order |
| MetricDelivery.Counter.SetEachTag | metrics/base_metric.go:253-289 | Without dimensional metrics the valid pairs are set and the others skipped |
| MetricDelivery.Counter.CreateDimensional | metrics/base_metric.go:291-314 | A variant starts at 0 with the merged tags and fresh, empty derived metrics, the original is unchanged; without tags it is the original |
| MetricDelivery.MergeTags | metrics/processor.go:630-641 | Global tags win, in place, except that a nil map is replaced |
| MetricDelivery.MergeAll | metrics/processor.go:619-621 | A message carries the global tags exactly if it has a tag map or there are none to carry, maps shared between messages included |
| MetricDelivery.StatsDTransport.Send | metrics/transport.go:164-190 | Delivers in order; on failure at message i exactly 0..i-1 were delivered, and which error it is |
| MetricDelivery.DeliveredByKind | metrics/transport.go:171-186 | Under every name the gauges delivered are the values of the gauge messages sent with that key, in order, and the timers those of the timer messages |
| MetricDelivery.TruncatedTotalNear | metrics/transport.go:173-176 | The truncated total of n >= 1 counts is off by less than n, and exact for whole numbers |
| MetricDelivery.DeliveredCounts | metrics/transport.go:164-190 | Of any messages delivered, the counts under one counter's name add up to the truncated total of its messages |
| MetricDelivery.OwnValues | metrics/base_metric.go:136-159 | What a counter enqueued is what counts under its key |
| MetricDelivery.DeliveredNearValue | metrics/transport.go:164-190 | With agreeing draws, what the client has counted is off from the counter's value by less than the number of messages |
| DerivedMetrics.CloneDerivedMetrics | metrics/base_metric.go:224-250 | Clones of derived metrics start afresh and share nothing with the originals |
| DerivedMetrics.StreamSummarises | metrics/derived/mean.go:30-38 | What the streaming state is, for each kind, after any samples |
| DerivedMetrics.StreamRefinesWindow | metrics/derived/mean.go:40-57 | The streaming form emits what the list of samples since the reset calls for |
| DerivedMetrics.Extremes | metrics/derived/max.go:29-55 | The largest and smallest of a window bound it, are in it, and are the ends of its sorting |
| WindowValues.MaximumEmitted | metrics/derived/max.go:29-55 | What Max emits is a sample of the window and none is greater |
| WindowValues.MinimumEmitted | metrics/derived/min.go:29-55 | What Min emits is a sample of the window and none is smaller |
| WindowValues.MeanEmitted | metrics/derived/mean.go:30-57 | What Mean emits, times the number of samples, is their sum |
| WindowValues.LatestEmitted | metrics/derived/latest.go:28-50 | Latest emits the last sample of the window |
| WindowValues.PercentilesEmitted | metrics/derived/percentile.go:55-78 | One value per percentile in the order asked for, or a panic exactly if one of them panics |
| WindowValues.NothingEmitted | metrics/processor.go:656-664 | An empty window emits nothing, whatever the kind |
| DerivedMetrics.WindowsPartitionSamples | metrics/processor.go:656-664 | Under any interleaving of samples and flushes the windows partition the samples |
| DerivedMetrics.EachFlushEmitsItsWindow | metrics/processor.go:656-664 | In every run each flush emits what its own window calls for, and the run ends at the first window that calls for a panic |
| DerivedMetrics.MeanAndPercentilesWithinExtremes | metrics/derived/percentile.go:55-112 | min <= mean <= max, and min <= percentile <= max for 0..100 |
| DerivedMetrics.OrderOfSamplesIsIrrelevant | metrics/derived/percentile.go:55-78 | Every kind but Latest depends on the multiset of its window alone |
| DerivedMetrics.MeanMetric.HandleMessage | metrics/derived/mean.go:30-38 | Sum and count take the summary's step |
| DerivedMetrics.MeanMetric.EmitMetrics | metrics/derived/mean.go:40-57 | Emits what the summary emits, and leaves it |
| DerivedMetrics.MeanMetric.Clone | metrics/derived/mean.go:65-67 | A clone is fresh and shares no state |
| DerivedMetrics.MaxMetric.HandleMessage | metrics/derived/max.go:29-34 | The running maximum takes the summary's step |
| DerivedMetrics.MinMetric.HandleMessage | metrics/derived/min.go:29-34 | The running minimum takes the summary's step |
| DerivedMetrics.LatestMetric.HandleMessage | metrics/derived/latest.go:28-32 | The last value replaces the one before |
| DerivedMetrics.PercentileMetric.EmitMetrics | metrics/derived/percentile.go:55-78 | One value per percentile from a sorted copy; fails as a whole exactly if one of them panics |
| DerivedMetrics.PercentileMetric.Clone | metrics/derived/percentile.go:86-88 | A clone has the percentiles, none of the samples, and is independent |
| Percentile.PanicsExactlyWhen | metrics/derived/percentile.go:91-112 | The index is out of range exactly for percentiles at least one sample spacing below zero |
| Percentile.LiesBetweenNeighbours | metrics/derived/percentile.go:96-112 | From 0 upward the value lies between two neighbouring sorted samples |
| Percentile.WithinRange | metrics/derived/percentile.go:91-112 | From 0 upward it is within minimum and maximum |
| Percentile.Endpoints | metrics/derived/percentile.go:91-112 | The minimum at 0, the maximum from 100 on |
| Percentile.Monotone | metrics/derived/percentile.go:91-112 | Monotone over all percentiles that do not panic |
| Percentile.BelowMinimumExactlyWhen | metrics/derived/percentile.go:96-112 | A negative percentile that does not panic is below the minimum exactly if the two smallest samples differ |
| Interpolation.SamplesAreHit | metrics/derived/percentile.go:96-112 | At percentile 100 k / (n - 1) the value is sample k |
| Interpolation.Interpolates | metrics/derived/percentile.go:96-112 | Between two samples the value is the lower one plus the part of the way times their difference |
| Interpolation.CellsAreStraight | metrics/derived/percentile.go:110-111 | Any three values within one cell, its ends included, are on one line |
| Interpolation.ShortLists | metrics/derived/percentile.go:91-95 | A single sample at every percentile, zero for none |
| TagKeys.ValidTagAvoidsSeparators | metrics/model/tag.go:22-78 | No validated key or value holds a character the key printer uses |
| TagRules.KeyAcceptedExactlyWhen | metrics/model/tag.go:22-43 | Which keys are accepted, with their 200 bytes and characters spelt out, and which error the others get |
| TagRules.ValueAcceptedExactlyWhen | metrics/model/tag.go:45-58 | The same for values, which may be empty and hold colons |
| TagRules.BytesOf | metrics/model/tag.go:26 | Bytes against characters: one to four each, one for ASCII |
| TagRules.LeadByteMeans | metrics/model/tag.go:29 | The first byte, which alone is tested: an ASCII character is its own, any other's is 0xC2 to 0xF4 |
| TagKeys.TagsKeyOrderIndependent | metrics/processor.go:687-698 | The tags key is the same for every iteration order |
| TagKeys.CreateTagsKey | metrics/processor.go:687-698 | The printer's loop, in any order, yields that key |
| TagKeys.TagsKeyRoundTrip | metrics/processor.go:687-698 | A decoder reads the tags back from the tags key, for tags without separators of the printer |
| TagKeys.CreateCompositeKey | metrics/processor.go:674-685 | The key alone without dimensional metrics or tags, otherwise with the tags key |
| TagKeys.CompositeRoundTrip | metrics/processor.go:674-698 | A decoder reads metric key and tags back, for keys without the bar |
| TagKeys.CompositeInjective | metrics/processor.go:674-698 | Two metrics share a composite key exactly if key and tags are equal, for keys without the bar and such tags |
| TagKeys.CompositeCollisions | metrics/processor.go:674-698 | For arbitrary metric keys, exactly which pairs collide |
| TagKeys.ValidTagsAreSeparable | metrics/model/tag.go:22-78 | Validated tags meet the condition of the round trips |
| TagCollisions.AmbiguousExactlyWhen | metrics/processor.go:687-698 | Among all tag maps, some other one is printed like a given map exactly if that has two tags or an equals sign of its own |
| TagCollisions.EqualsInKeyCollides | metrics/base_metric.go:188-212 | For every map with an equals sign in a key: moving it into the value gives another map with the same tags key |
| TagCollisions.CommaInValueCollides | metrics/base_metric.go:188-212 | For every map with a comma and a pair behind it in a value: that pair as a tag of its own gives the same tags key, if none is sorted between |
| TagCollisions.BarInTagsCollides | metrics/processor.go:674-685 | A bar inside the tags: what stands before it may as well belong to the metric key |
| QueryString.EscapeRoundTrip | server/internal/security/sigv4_utility.go:110-112 | Percent-encoding can be undone, and its output has no separator |
| QueryString.QueryOrderIndependent | server/internal/security/sigv4_utility.go:103-115 | The canonical query is the same for every iteration order |
| QueryString.ToSortedEncodedQueryString | server/internal/security/sigv4_utility.go:103-115 | The loops and the sort, in any order, yield that query |
| QueryString.QueryRoundTrip | server/internal/security/sigv4_utility.go:103-115 | A decoder reads the parameters back |
| QueryString.QueryInjective | server/internal/security/sigv4_utility.go:103-115 | Two maps have one query string exactly if they are equal |
| CanonicalOrder.LeExactlyWhen | server/internal/security/sigv4_utility.go:108 | The sorting order by indices: a prefix first, otherwise the smaller character at the first difference |
| CanonicalOrder.QueryKeysAscend | server/internal/security/sigv4_utility.go:103-115 | The keys read back from the canonical query ascend strictly in that order, and are all there |
| CanonicalOrder.TagPairsAscend | metrics/processor.go:687-698 | The pairs of a tags key do too |
| CanonicalOrder.EscapedExactly | server/internal/security/sigv4_utility.go:110-112 | Which bytes stand for themselves, and the two upper-case hexadecimal digits of the others |
| MatchmakerData.MakeAttributeValue | model/attribute_value.go:104-159 | The type switch with its loops: what is kept of mixed lists and maps |
| AttributeReading.ReadExactly | model/attribute_value.go:104-159 | Each shape of value gives its type and that property alone; of a map the numbers are kept |
| AttributeReading.TextsAddUp | model/attribute_value.go:130-141 | Of a list the texts are kept, in order |
| AttributeReading.OneText | model/attribute_value.go:130-141 | Of a single value, the text if it is one |
| MatchmakerData.AttributeSurvivesExactlyWhen | model/matchmaker_data.go:94-120 | Writing and reading an attribute gives it back exactly if it is single-typed; one without a type panics |
| MatchmakerData.WireAttributeSurvivesExactlyWhen | model/attribute_value.go:104-159 | Reading and writing a wire attribute gives it back exactly if tag and value agree and lists and maps are homogeneous |
| MatchmakerData.GroupByTeam | model/matchmaker_data.go:127-142 | One entry per team, holding its players in their order |
| MatchmakerData.FromMatchmakerData | model/matchmaker_data.go:122-151 | The team map in some order, each team with exactly its players in order, and the other fields kept; panics exactly if some attribute has no type |
| MatchmakerData.ToMatchmakerData | model/matchmaker_data.go:153-174 | All players team by team, tagged with their team |
| MatchmakerData.PlayerSurvivesExactlyWhen | model/matchmaker_data.go:122-174 | A player comes back unchanged exactly without latencies and with single-typed attributes |
| MatchmakerData.PlayersRoundTrip | model/matchmaker_data.go:122-174 | For any order of the teams the players come back permuted, each team in order |
| MatchmakerData.TeamsRoundTripExactlyWhen | model/matchmaker_data.go:122-174 | Flattening then grouping gives the same teams exactly if names are distinct and no team is empty |
| MatchmakerData.BackfillModeSurvivesExactlyWhen | model/matchmaker_backfillmode.go:22-50 | A mode survives printing and parsing exactly if it is a known one |
| AttributeReading.ModeNames | model/matchmaker_backfillmode.go:20-37 | The names of the modes, both ways |
| ServerState.PlaceExactlyWhen | server/server_state.go:194-443 | A call is where its own last step brought it, whatever the others did since; so the calls waiting for credentials are exactly those sent and not answered |
| ServerState.FreshExactlyWhen | server/server_state.go:387-388 | The wrapped comparison means more than 15 minutes left if the nanoseconds fit int64, and within one wrap only then |
| CredentialCache.ManagedExactlyWhen | server/server_state.go:430-434 | The flag is set exactly since a valid init with no empty-key reply after it |
| CredentialCache.MaySendExactlyWhen | server/server_state.go:405-429 | While the flag is cleared and until init succeeds, exactly the calls past the test of line 405 can still send a request |
| CredentialCache.NoRequestAfterEmptyReply | server/server_state.go:405-434 | In any run a request sent after an empty-key reply, with no init between, belongs to a call that was past the test when the reply came |
| CredentialCache.RequestsWereChecked | server/server_state.go:396-429 | Every request sent went through the tests in order, each true when it was made, and names the caller's role and session |
| CredentialCache.LookupsFoundManaged | server/server_state.go:405-413 | A cached answer goes to a call that found the process managed when it began |
| CredentialCache.CachedExactlyWhen | server/server_state.go:383-443 | The cache holds exactly the last credentials granted for a role that nothing has displaced |
| CredentialCache.CredentialsAreGenuine | server/server_state.go:396-443 | Credentials returned without error are this call's own non-empty reply or the last granted for the role, fresh when looked up |
| CredentialCache.OnlyTheseReturn | server/server_state.go:396-443 | No other step returns credentials without error |
| CredentialCache.SessionNameSent | server/server_state.go:414-420 | A default name is a prefix of fleet and host, cut only beyond 64 bytes; a given name is kept |
| ServerLifecycle.ReadyExactlyWhen | server/server_state.go:229-243 | Ready exactly between line 229 of a processReady and the next compare-and-swap of a stop |
| ServerLifecycle.EveryRunBoundsCloses | server/server_state.go:456-462 | No channel is closed twice without a panic, and only the current one can be closed twice |
| ServerLifecycle.ClosedExactlyWhen | server/server_state.go:229-231 | A channel is never closed exactly if no stop closes before the next channel is made, twice exactly if that close panicked |
| ServerLifecycle.ClosePanicsExactlyWhen | server/server_state.go:456-462 | A close panics exactly if another stop closed after this one's test of the channel, and no channel was made since |
| ServerLifecycle.TwoStopsCanPanic | server/server_state.go:456-462 | From any state with two stops past their compare-and-swap and the channel open, there is a continuation that panics |
| ServerLifecycle.DoubleCloseRun | server/server_state.go:456-462 | A complete run from the start that panics |
| ServerLifecycle.ChannelsStay | server/server_state.go:456-462 | With the process not ready and no stop under way, open channels stay open until a processReady succeeds |
| ServerLifecycle.LostStopRun | server/server_state.go:229-230 | A complete run that ends so, the process not ready and its channel open |
| ServerLifecycle.DisciplinedRunsSettle | server/server_state.go:194-243 | If processReadys and stops do not overlap nothing panics, a ready process has an open channel, and one that is not ready has closed its last |
| GameSessions.SessionIdExactlyWhen | server/server_state.go:520-539 | The id is the last one accepted; stops do not clear it |
| GameSessions.AcceptedWhileReady | server/server_state.go:531-535 | Every accepted session arrived while the process was ready |
| GameSessions.SessionRequestsWereChecked | server/server_state.go:246-319 | A session request that goes out began while ready, found a session, has good arguments, and carries the id that was the last accepted when it was put in |
| GameSessions.MaySendExactlyWhen | server/server_state.go:246-319 | After a stop and until a processReady succeeds, exactly the calls past the readiness test can still send |
| Refusals.CredentialsRefusedExactlyWhen | server/server_state.go:396-434 | Which error a call for credentials returns, at which test, and at no others |
| Refusals.RefusalCarries | server/server_state.go:396-434 | What comes with an error: what the service left in the result, or nothing |
| Refusals.CallsRefusedExactlyWhen | server/server_state.go:194-319 | The same for the other calls |
| Refusals.NamesExactlyWhen | server/server_state.go:108-111 | Fleet and host are those of the last init that succeeded |
| ServerObject.GetAlone | server/server_state.go:396-443 | The small steps of an undisturbed call compose to one result |
| ServerObject.StopAlone | server/server_state.go:456-462 | An undisturbed stop closes the current channel if it is open, and only if the process was ready |
| ServerObject.SessionAlone | server/server_state.go:246-319 | An undisturbed session request goes out exactly if ready, with a session accepted and good arguments |
| ServerObject.GameLiftServerState.Init | server/server_state.go:84-114 | Clears the cache even if validation fails |
| ServerObject.GameLiftServerState.ProcessReady | server/server_state.go:194-233 | A fresh shutdown channel on success, nothing changed otherwise |
| ServerObject.GameLiftServerState.ProcessEnding | server/server_state.go:235-244 | Stops only if the service answered |
| ServerObject.GameLiftServerState.StopServerProcess | server/server_state.go:456-462 | Has the result of StopAlone |
| ServerObject.GameLiftServerState.OnStartGameSession | server/server_state.go:520-539 | Ignored when nil or not ready |
| ServerObject.GameLiftServerState.RequestForSession | server/server_state.go:246-319 | Has the result of SessionAlone |
| ServerObject.GameLiftServerState.GetRoleCredentialsFromCache | server/server_state.go:383-394 | A hit leaves the cache, a stale entry is deleted |
| ServerObject.GameLiftServerState.GetFleetRoleCredentials | server/server_state.go:396-443 | Has the result of GetAlone, and fills the caller's session name even if validation then fails |

## Left out

- Dialling, TLS, gorilla/websocket, statsd, HTTP fetchers, crash reporter, container metadata: each is a free choice of success or failure.
- The backoff timing of Connect: its dials are one success or one failure.
- The tags and the sample rate that Send passes on with each value.
- JSON text: `Reload` stands for printing and parsing, after which typed lists and maps are untyped ones.
- SHA-256, HMAC, UUIDs and jitter. The sampler is an arbitrary function of its draws.
- Field validation, environment lookup, logging, process exit, and the enum tables other than the backfill mode.
- Data races outside the modelled steps: HandleMessage against emitDerivedMetrics, a torn read of a field.
- Heartbeats and the `up` gauge: they are sent beside the pipeline, on their own.
- Emission for duplicate registrations: the first wins, and nothing is claimed for the others.
- The formatting of percentile keys, and panics of attributes whose type is out of range or of a negative backfill mode.
- Custom derived metrics that cannot be cloned: the original is shared then.
- Init's writes of hostID, fleetID and onManagedEC2 (server/server_state.go:109-111 and, for containers, 152) are one step, and so are the two reads that make a default session name.
- TransportObject.WebsocketTransport.Connect: one caller at a time; what others may do meanwhile is in ConnectProtocol.
- WriteLoops.WebsocketTransport.Write: takes a ghost bound that exists exactly if the loop ends, because otherwise the code does not return.
- WriteLoops.RetryTransport.Write: overflow of the sleep's Duration is not modelled, and every inner Write it reaches is assumed to end.
- MetricsPipeline.MessagesAreConserved: derived messages are outside the count; a batch handed to Send counts as sent whether or not Send fails.
- MetricDelivery.TruncatedTotalNear: values beyond int64 are not modelled.
- ServerObject.GameLiftServerState.GetFleetRoleCredentials: one thread at a time; interleaved calls are in CredentialCache.
- The manager becoming nil in destroy: calls after it panic in the code, and are ordinary steps here.
- ServerState.FreshExactlyWhen: beyond one wrap (584 years) only the direction for differences that fit is stated.
