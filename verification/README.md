# Fault protocols of the RabbitMQ client

This project models the parts of `mq_adapters` that have to survive faults, reconnects and
interleavings, and proves what they keep over every run:

- `BackendMachine`, `BackendRuns`, `BackendTheorems`, `BackendSteps`, `BackendThread`: `SyncPublishBackend`, its
  queue, its I/O thread, and `start`, `stop` and `publish` called from other threads.
- `Handlers`, `DeadLettering`: what a consumer does with one delivery, call by call, with any call raising.
- `Settlement`, `SettlementRuns`, `SettlementHistory`, `SettlementTheorems`, `SettlementRetries`,
  `SettlementOutcomes`: a listener of any of the three kinds against a broker, with many deliveries, reconnects
  and late completions.
- `ListenerLoop`: the thread of a sync `Listener`: reconnects, connect retries, `stop_listening`.
- `AsyncListeners`: the concurrency limit of `AsyncListener` across starts, stops and cancellations.
- `AsyncSenders`, `ConfirmBatching`, `BatchedSends`: the nested retries of `AsyncSender`, its batched confirms,
  and concurrent sends that retry on them.
- `RetryPolicies`: the backoff schedule and the two retry loops.

## How it is modelled

A protocol is a total step function over a tape of inputs. An input is a move of the environment (a
producer, a stop, a lost connection, time passing) or the next step of the modelled thread together with
the answer of the call it makes there, so a tape is one interleaving with one choice of faults. Theorems
quantify over all tapes. The code that works by changing its fields is a class with those fields, and its
methods are proved to take exactly the steps of the step function. `BackendThread.SyncPublishBackend.Run`
and `ListenerLoop.Listener.Run` keep the loops and nested exception paths of the originals and are proved
so over every tape, so each theorem about tapes is one about the loop. The methods of
`AsyncListeners.AsyncListener` and `ConfirmBatching.Batcher` have no such loop in the source: each stands for
one stretch of a task between two awaits and is proved to take one step, and the event loop that picks the
order of the stretches is the tape. The handlers of `Handlers` are programs of broker calls, which
`Settlement` runs one call at a time. Code that only computes is functions.

## Assumptions

- A broker call that raises took no effect, and one that returns took effect; `add_callback_threadsafe` that
  raises did not enqueue.
- The configured dead-letter queue exists. The sync channel publishes without confirms, so that a copy to a
  queue that does not exist is dropped without an exception, and the message acked after it.
- `start` and `stop` of one object are called one after the other; each object has its own `Stats`.
- Tags are per channel and a delivery is settled at most once (section 1.8.3.13 of AMQP 0-9-1).
  `basic.nack` and the `x-death` header are RabbitMQ extensions; what is assumed of them is that a
  negative acknowledgement requeues or dead-letters. A dead-lettered message is kept, its queue having
  a dead-letter exchange. The exact retry count further assumes that the retry route adds a fixed
  c >= 1 to the `x-death` total at each return.
- Nothing is assumed of when pika's `process_data_events` runs a callback that waits, except that it does so
  while it pumps: whether it has run is part of each pump's answer. pika may dispatch its own callbacks before
  the consumers', and one that is enqueued from, or during, a message callback then waits for the next pump.
- asyncio's `wait_for` cancels what it waits for when its time is over and then waits for it to end.
- Delays are reals. The code raises the power before it takes the cap (`retry_policy.py`, lines 56-57), and a
  Python float power out of range raises: with multiplier 2.0 at exponent 1024. A policy therefore carries
  the `range` of the arithmetic, the largest power that does not raise, as a sixth field, and every theorem
  holds for any range. A limited `sync_retry` or `async_retry` reaches exponent 1024 only if its limit does;
  the backend's loop and the sync listener's never look at `max_attempts` and reach it after 1025 failures in
  a row.
- `time.sleep` raises for a negative time and `asyncio.sleep` does not. No delay is longer than `time.sleep`
  takes, which is some 292 years.
- The clock is monotone.

## Where the code and its documentation differ

The code is followed.

- The backend and the sync listener are documented to reconnect with backoff. They back off inside the exception
  handler itself, so that a delay or a sleep that raises there ends the thread, without a stop and, in the
  backend, without closing: `NeverStoppedNeverDies` (in both) gives the exact condition on the policy, and
  `LongOutageKills`, `NegativeCapKills` and `CrashLeavesOpen` the failing cases.
- `start` of the backend is described as idempotent. A stop can leave its sentinel in the queue, and the
  next thread then dies at it: `RestartCleanIffNoSentinel`, `NeverPastSentinel`, `StaleSentinelReachable`.
- The dead-letter settings do not apply to a listener without offload: `_internal_wrapper` always nacks
  with a requeue. `DirectAgreesIff` says when this shows.
- The listeners' documentation says that a failing callback is nacked with a requeue; the offload and
  async code follow the configured `on_error`.
- `max_concurrency` can be exceeded after a restart: `SessionConservedIff`, `OrderlyConserved`, `LimitCanBeExceeded`.
- `stop_listening` can leave the connection open, without any fault when it is called during a message callback:
  `ClosedAtEndIff`, `StopInsideCallbackLeavesOpen`, `OpenIfLate`, `StopCanLeaveOpen`, `FailingPumpLeavesOpen`.
- A failed batched confirm is raised in the send that filled the batch or in a flush. The filling send then
  publishes its own message again, confirmed or not, and the failed one is not retried: `OwnReportIffFilled`,
  `RetriedIff`, `FailureGoesUnheard`, `WrongSendRetries`.
- `AsyncSender.start` looks at the connection only, so an open connection without an exchange is not
  repaired by retrying, and every connection its retries open but the last is left open and forgotten:
  `StartCanEndHalfOpen`, `HalfOpenNeverRepaired`, `SendStaysHalfOpen`.

## Model

| member | source | states |
|---|---|---|
| BackendTheorems.RunsKeepInv | src/mq_adapters/sync_publisher_backend.py:134-283 | every interleaving of producers, starts, stops, drops, errors and time keeps the whole inductive invariant |
| BackendTheorems.AcceptedAttemptedInOrder | src/mq_adapters/sync_publisher_backend.py:124-242 | accepted requests are those attempted, in order and once each, then at most one in hand, then those queued; published plus failed is attempts plus confirm-setup failures |
| BackendTheorems.HistoryOnlyGrows | src/mq_adapters/sync_publisher_backend.py:124-242 | across any inputs, restarts included, nothing accepted, taken or attempted is forgotten or reordered |
| BackendTheorems.ChannelsShareFairly | src/mq_adapters/sync_publisher_backend.py:226-228 | of the k attempts of one connection channel ch got k/N, and one more exactly when ch < k%N; any two channels differ by at most one |
| BackendTheorems.PublishOnCurrentChannels | src/mq_adapters/sync_publisher_backend.py:149-173 | at every publish there are exactly N channels, all of the newest connection; channels created never exceed N times connections created |
| BackendTheorems.StoppedStep | src/mq_adapters/sync_publisher_backend.py:190-193 | after the event is set a thread at the head of its loop leaves it, and a thread that left stays away |
| BackendTheorems.StopTakesAtMostOne | src/mq_adapters/sync_publisher_backend.py:190-224 | from the stop event to a later start at most one more request is taken, none once past the wait |
| BackendTheorems.StopEndsThread | src/mq_adapters/sync_publisher_backend.py:107-122 | a completed stop ends the thread within channels + 9 of its own steps, whatever they meet, even without heartbeats and with no room for the sentinel |
| BackendTheorems.OnlyBackoffsKill | src/mq_adapters/sync_publisher_backend.py:190-264 | without a stop the live threads are the starts less the raising backoffs: heartbeats, drops and errors, in any number, end none |
| BackendTheorems.NeverStoppedNeverDies | src/mq_adapters/sync_publisher_backend.py:190-264 | a backend that is never stopped survives every run if and only if its policy can never raise: delays not negative or jittered, multiplier not beyond 1 in size |
| BackendTheorems.SentinelsBounded | src/mq_adapters/sync_publisher_backend.py:107-122 | sentinels queued plus consumed never exceed the stops that passed their guard |
| BackendTheorems.RestartCleanIffNoSentinel | src/mq_adapters/sync_publisher_backend.py:99-122 | a restart survives everything short of another stop exactly when no sentinel is queued at the start and its backoffs never raise |
| BackendTheorems.NeverPastSentinel | src/mq_adapters/sync_publisher_backend.py:190-224 | with a sentinel queued, no run without a new start, whatever its faults, takes a request behind the first one |
| BackendTheorems.DiesAtSentinel | src/mq_adapters/sync_publisher_backend.py:190-224 | left alone and without faults the thread does get there: it takes all that is ahead of the first sentinel, dies unasked, and leaves the rest queued |
| BackendTheorems.StaleSentinelReachable | src/mq_adapters/sync_publisher_backend.py:99-122 | one start and one stop reach the state in which a restart dies |
| BackendTheorems.BackoffFollowsFailures | src/mq_adapters/sync_publisher_backend.py:244-251 | the failure counter is the failed iterations in a row, and the reconnect counter all of them; the k-th in a row sleeps the delay of attempt k+1, or ends the thread exactly when that raises; a publish error is always a first failure |
| BackendTheorems.LongOutageKills | src/mq_adapters/sync_publisher_backend.py:244-251 | with a multiplier beyond 1 an outage ends the thread at exactly the failure whose power leaves the range, 1025 in a row with doubles and multiplier 2 |
| BackendTheorems.NegativeCapKills | src/mq_adapters/sync_publisher_backend.py:244-251 | with a negative cap and no jitter one refused connect ends the thread, with no stop and no sentinel |
| BackendTheorems.CrashLeavesOpen | src/mq_adapters/sync_publisher_backend.py:244-262 | a backoff that raises after a refused publish leaves the connection open |
| BackendTheorems.CrashReached | src/mq_adapters/sync_publisher_backend.py:190-262 | a start, no fault up to the wait and one refused request come to that |
| BackendTheorems.ConnectionsNeverForgotten | src/mq_adapters/sync_publisher_backend.py:152-157 | connections opened are those closed, lost, left by a raising close or by a thread that died backing off, and the live one; a dead thread holds none |
| BackendTheorems.DueTimesMoveOn | src/mq_adapters/sync_publisher_backend.py:175-188 | within a session the heartbeat's due time never moves back |
| BackendTheorems.PumpNeverStarved | src/mq_adapters/sync_publisher_backend.py:175-216 | the pumps of a session are at least an interval apart, and no publish overtakes a heartbeat due when its request was taken |
| BackendSteps.DuePumpIsMade | src/mq_adapters/sync_publisher_backend.py:175-188 | a heartbeat that is due on an open connection is sent, whatever was taken from the queue, and the next is due one interval later |
| BackendSteps.PumpsKeepUp | src/mq_adapters/sync_publisher_backend.py:175-216 | in every run without a drop or a failing call the due time is where it was, or one interval after the last pump made since |
| BackendSteps.WaitExact | src/mq_adapters/sync_publisher_backend.py:201-216 | a wait ends with the head of the queue if there is one, with the tick once a heartbeat is due, and else goes on |
| BackendSteps.ScheduleRealigned | src/mq_adapters/sync_publisher_backend.py:264 | a heartbeat is due at once after a start and one interval after a reconnect |
| BackendSteps.ConnectExact | src/mq_adapters/sync_publisher_backend.py:152-159 | an open connection keeps its channels and counts; another is replaced by a new, empty one exactly when the factory succeeds |
| BackendSteps.ChannelExact | src/mq_adapters/sync_publisher_backend.py:162-173 | a missing channel is opened and kept even when its confirms fail, and exactly then a failed publish is counted |
| BackendSteps.CloseExact | src/mq_adapters/sync_publisher_backend.py:253-283 | an open connection is closed and forgotten, and counted as closed exactly when the close does not raise |
| BackendSteps.PublishExact | src/mq_adapters/sync_publisher_backend.py:226-242 | one attempt of the request in hand; an error fails the iteration with the request spent and accounted for |
| BackendSteps.PutExact | src/mq_adapters/sync_publisher_backend.py:124-128 | a put is accepted, at the end, exactly when the queue has no bound or is below it |
| BackendSteps.StopExact | src/mq_adapters/sync_publisher_backend.py:107-120 | the event is set once, and the sentinel goes in by the same rule as a put |
| BackendSteps.StartExact | src/mq_adapters/sync_publisher_backend.py:99-137 | a new thread has nothing of the old one but the queue and the counts |
| BackendThread.SyncPublishBackend.constructor | src/mq_adapters/sync_publisher_backend.py:47-87 | channels at least 1, queue bound and interval not negative, nothing started |
| BackendThread.SyncPublishBackend.Publish | src/mq_adapters/sync_publisher_backend.py:124-128 | enqueues the request under its key or the default one exactly when there is room |
| BackendThread.SyncPublishBackend.Start | src/mq_adapters/sync_publisher_backend.py:99-105 | no effect while the thread lives, else clears the event and begins a fresh run; the queue is kept |
| BackendThread.SyncPublishBackend.RequestStop | src/mq_adapters/sync_publisher_backend.py:107-111 | passes its guard, and sets the event, exactly when the event was not set |
| BackendThread.SyncPublishBackend.PutSentinel | src/mq_adapters/sync_publisher_backend.py:112-120 | puts the sentinel exactly when there is room at the end of the wait |
| BackendThread.SyncPublishBackend.Stop | src/mq_adapters/sync_publisher_backend.py:107-122 | the two halves together; nothing when the event was already set |
| BackendThread.SyncPublishBackend.EnsureConnectionAndChannels | src/mq_adapters/sync_publisher_backend.py:149-173 | takes the machine, under any interleaving, to the wait or to the failure path |
| BackendThread.SyncPublishBackend.Get | src/mq_adapters/sync_publisher_backend.py:201-213 | gives the head of the queue, or the heartbeat tick once it is due and the queue is empty |
| BackendThread.SyncPublishBackend.PumpIoIfDue | src/mq_adapters/sync_publisher_backend.py:175-188 | one machine step: pumps exactly when due and open, and moves the due time on |
| BackendThread.SyncPublishBackend.BasicPublish | src/mq_adapters/sync_publisher_backend.py:226-242 | one machine step: one attempt, counted once whether it raises or not, on the next channel |
| BackendThread.SyncPublishBackend.TakeAndPublish | src/mq_adapters/sync_publisher_backend.py:201-242 | takes the machine from the wait to the loop head, the failure path or the exit, by the item taken |
| BackendThread.SyncPublishBackend.BackOff | src/mq_adapters/sync_publisher_backend.py:244-251 | one machine step: counts, and sleeps, or ends the thread exactly when the delay or the sleep raises |
| BackendThread.SyncPublishBackend.Recover | src/mq_adapters/sync_publisher_backend.py:244-264 | the steps of the handler in order, ending at the loop head, or dead with the connection unclosed when backing off raised |
| BackendThread.SyncPublishBackend.CleanUp | src/mq_adapters/sync_publisher_backend.py:266-283 | closes what is open and ends the thread |
| BackendThread.SyncPublishBackend.Run | src/mq_adapters/sync_publisher_backend.py:134-283 | under every interleaving and every choice of faults the loop goes through exactly the machine's states, and returns only at the tape's or the thread's end |
| Handlers.Listener.InternalWrapper | src/mq_adapters/sync_adapter.py:316-338 | makes exactly the calls of the direct program, counts what was accepted, and lets an exception out exactly when the nack raised |
| Handlers.Listener.HandleFail | src/mq_adapters/sync_adapter.py:243-285 | makes exactly the calls of the failure program: publish then ack for poison, else one nack by mode, and nothing after a raise |
| Handlers.Listener.OnDone | src/mq_adapters/sync_adapter.py:212-304 | makes exactly the offload program's calls, counts each accepted one, and releases one permit on every path |
| Handlers.Listener.OffloadWrapper | src/mq_adapters/sync_adapter.py:190-314 | ignored while stopping; else counted, and then blocked exactly when no permit is free, or handed over |
| Handlers.Listener.HandOver | src/mq_adapters/sync_adapter.py:204-314 | a submitted job keeps one permit; a refused one gives it back and is handled directly, unless stopping by then |
| Handlers.NackLast | src/mq_adapters/async_adapter.py:475-481 | nacks by the configured mode; a raise goes no further |
| Handlers.FailDelivery | src/mq_adapters/async_adapter.py:417-481 | makes exactly the failure program's calls: publish, ack, and the nack when either raised or it is not poison |
| Handlers.RunHandler | src/mq_adapters/async_adapter.py:406-481 | makes exactly the async program's calls, an ack that raises taking the failure path |
| Handlers.HandleCounts | src/mq_adapters/sync_adapter.py:212-338 | for every handler, context and way of failing: exactly which copies, acks and nacks are accepted |
| Handlers.SettledAtMostOnce | src/mq_adapters/sync_adapter.py:225-298 | at most one settlement is accepted, it is the last call, and at most one copy is published |
| Handlers.FailureExact | src/mq_adapters/sync_adapter.py:243-283 | what a failure comes to without faults, in terms of the queue's name, the attempt and the limit alone: copied and acked before on_error is looked at, else nacked as that says |
| Handlers.OtherwiseExact | src/mq_adapters/sync_adapter.py:316-338 | nothing under auto-ack, one ack on success, one requeueing nack from the direct handler |
| Handlers.EndedIsPlay | src/mq_adapters/async_adapter.py:409-481 | calls that bring a handler's program to its end are a whole play of it for some answers |
| Handlers.AsyncEndsSettled | src/mq_adapters/async_adapter.py:409-481 | a delivery ends settled exactly once when its nack is accepted; copied and nacked both exactly when the copy's ack raised |
| Handlers.OffloadEndsSettled | src/mq_adapters/sync_adapter.py:225-298 | a delivery stays unsettled exactly when a call of its one path raised, and says when its copy is out already |
| Handlers.PolicyAgreement | src/mq_adapters/async_adapter.py:426-479 | without faults the async and offload handlers make the same calls for every raw configuration, headers, flag and outcome |
| Handlers.DirectAgreesIff | src/mq_adapters/sync_adapter.py:325-338 | the direct handler agrees with them exactly on success, under auto-ack, or when the failure is to be requeued and is not poison |
| Handlers.PoisonAfterExactly | src/mq_adapters/sync_adapter.py:241-283 | an always-failing message is handled exactly 1 + ceil((max_retries-1)/c) times, then copied once, body and headers as delivered, and acked |
| Handlers.RetriesGoOn | src/mq_adapters/dead_lettering.py:67-97 | until then the broker does redeliver: trails of every length up to the bound exist |
| Handlers.RequeueNeverPoison | src/mq_adapters/async_adapter.py:426-479 | under requeue a message that starts below max_retries is nacked for ever and never copied |
| DeadLettering.DictAt | src/mq_adapters/dead_lettering.py:42-47 | the entries of the first of the keys that holds a dict, or nothing |
| DeadLettering.KeysInOrder | src/mq_adapters/dead_lettering.py:39-47 | the canonical key first, then its two aliases, each passed over unless it holds a dict |
| DeadLettering.ResolveQueueArguments | src/mq_adapters/dead_lettering.py:42-47 | the loop over the three keys finds that dict |
| DeadLettering.ResolveConfig | src/mq_adapters/dead_lettering.py:50-64 | every raw configuration gives the configured limit when it is a number above 1 and else 1, one of two modes, and the configured queue |
| DeadLettering.ModeExact | src/mq_adapters/dead_lettering.py:52-63 | the mode is dead_letter exactly when the text is that word in some case between blanks |
| DeadLettering.LowerExact | src/mq_adapters/dead_lettering.py:52 | lower case moves each upper-case letter by the distance of the alphabets and keeps the rest |
| DeadLettering.BlanksExact | src/mq_adapters/dead_lettering.py:52 | the ten ASCII characters that are stripped |
| DeadLettering.RetryAttemptFromHeaders | src/mq_adapters/dead_lettering.py:67-97 | the loop's result is 1 plus the total of the parseable counts, a negative total counting as 0 |
| DeadLettering.Attempt | src/mq_adapters/dead_lettering.py:97 | an attempt number is at least 1 |
| DeadLettering.AttemptExact | src/mq_adapters/dead_lettering.py:77-97 | for every list of counts the attempt is 1 plus their sum, and 1 if that is not positive or there is no list |
| DeadLettering.SumCountsAppend | src/mq_adapters/dead_lettering.py:87-93 | the total of a list is that of its parts, wherever it is cut |
| DeadLettering.UnparseableIgnored | src/mq_adapters/dead_lettering.py:84-95 | an entry without a parseable count changes nothing, wherever it stands |
| SettlementRuns.RunsKeepInv | src/mq_adapters/sync_adapter.py:190-338 | every interleaving of deliveries, completions, faults and reconnects keeps the settlement invariant |
| SettlementRuns.FindsOwn | src/mq_adapters/sync_adapter.py:221-228 | a call that reaches its channel finds under its tag the very message it was made for |
| SettlementHistory.RecordsAreTrue | src/mq_adapters/sync_adapter.py:190-338 | in every run each delivery was made on the tape, of its message as it then was; is recorded as returned or raised exactly as its callback ended there; was given up only by a stop or a cancellation; and has made its handler's calls up to where it stands |
| SettlementHistory.CallsAreTheHandlers | src/mq_adapters/sync_adapter.py:212-299 | in every run the calls made for a delivery that has run its course are exactly its handler's for the way its callback ended; before that there are none |
| SettlementTheorems.AtLeastOnce | src/mq_adapters/sync_adapter.py:212-299 | an acked message was acked by a delivery the tape made of it, whose callback returned on the tape, or whose copy is in the dead-letter queue; any other is still with the broker |
| SettlementOutcomes.FaultlessDelivery | src/mq_adapters/sync_adapter.py:190-338 | without faults, in every mode and by either way to settle, exactly where a delivered message ends and which copy is published |
| SettlementOutcomes.Settles | src/mq_adapters/sync_adapter.py:225-283 | a settlement let through on its channel puts its own message where it says: acked, ready again, or on the dead-letter route |
| SettlementOutcomes.RaisesLeaveAll | src/mq_adapters/sync_adapter.py:225-298 | a call that raises or does not reach its channel changes nothing with the broker |
| SettlementOutcomes.AsyncCopyGoesByCurrent | src/mq_adapters/async_adapter.py:450-470 | an async poison copy goes by the listener's channel of the moment, even if the delivery's own is gone |
| SettlementOutcomes.BusyExact | src/mq_adapters/sync_adapter.py:190-338 | the I/O thread is busy with a delivery until it is handed to a worker or done with |
| SettlementOutcomes.WaitsExact | src/mq_adapters/sync_adapter.py:289-299 | what waits on a connection runs only on that connection, and when its thread is not busy |
| SettlementOutcomes.RefusalFallsBack | src/mq_adapters/sync_adapter.py:307-314 | a refused submit gives the permit back and hands the delivery to the direct handler, unless a stop has come between |
| SettlementOutcomes.DeliversOtherwise | src/mq_adapters/sync_adapter.py:316-319 | under auto-ack the broker is done with a message as it delivers it; a delivery is ignored exactly by a stopped sync listener |
| SettlementOutcomes.LossRequeues | src/mq_adapters/sync_adapter.py:436-460 | a lost channel gives back exactly what was unsettled on it |
| SettlementTheorems.AckIsFinal | src/mq_adapters/sync_adapter.py:225-285 | no later input changes an acked message, and no message ever loses its body |
| SettlementTheorems.SettlesOwnOnly | src/mq_adapters/sync_adapter.py:221-293 | a call changes no message but its own delivery's, and that only while unsettled under its own channel and tag; a stale call changes nothing |
| SettlementTheorems.SettledOnce | src/mq_adapters/sync_adapter.py:225-298 | no delivery is settled twice, none shares channel and tag with another, and the broker never has to refuse a settlement |
| SettlementTheorems.NothingStranded | src/mq_adapters/async_adapter.py:409-481 | whatever is unsettled is being handled, or waits on the live connection, or was given up on the tape by a stop or cancellation, or its last call raised, which for async is the nack |
| SettlementTheorems.CopiesArePoison | src/mq_adapters/sync_adapter.py:245-275 | each copy belongs to one poison delivery at or past max_retries, at most one per delivery, never to a direct one |
| SettlementRetries.RunsKeepRetries | src/mq_adapters/dead_lettering.py:67-97 | every run whose dead-letter route adds at least c deaths keeps each message paid up: c deaths for every trip round the route but one under way |
| SettlementRetries.RetriesBounded | src/mq_adapters/sync_adapter.py:241-283 | amid other deliveries, reconnects and faults a message goes round at most ceil((max_retries-1)/c) times short of poison; as poison only from an async handler, once per delivery with a call that raised |
| SettlementTheorems.PermitsConserved | src/mq_adapters/sync_adapter.py:202-314 | free permits plus deliveries holding one always equal max_in_flight |
| SettlementTheorems.WorkerStep | src/mq_adapters/sync_adapter.py:212-304 | whatever it is answered, a step of a job that holds a permit releases it or brings that closer, and concerns no other delivery |
| SettlementTheorems.BlockedNotForever | src/mq_adapters/sync_adapter.py:202-304 | whenever the I/O thread waits for a permit, some other delivery holds one, and its worker gives it back within six steps of its own, whatever its callback does and however its calls are answered; the I/O thread then gets it |
| ListenerLoop.RunsKeepInv | src/mq_adapters/sync_adapter.py:421-484 | every interleaving of the loop, a stop and drops keeps the loop's invariant |
| ListenerLoop.LoopAccounts | src/mq_adapters/sync_adapter.py:421-482 | connections opened are closed, closed uncounted, lost, left by a raising close, or live; the k-th failure in a row sleeps the delay of attempt k+1, or raises exactly when that does |
| ListenerLoop.ConnectIsSyncRetry | src/mq_adapters/sync_adapter.py:566-581 | a connect that is not stopped is sync_retry with the connect policy: as many factory calls, set up exactly if one succeeds, failed exactly if the retry raises |
| ListenerLoop.HeadExact | src/mq_adapters/sync_adapter.py:426-434 | a head goes on with an open connection, connects without one, and ends when stopped |
| ListenerLoop.PumpExact | src/mq_adapters/sync_adapter.py:436-438 | a pump that returns resets the failures; a waiting close runs exactly if the pump ran it |
| ListenerLoop.FailureExact | src/mq_adapters/sync_adapter.py:439-482 | a failure closes what is open, counts the close exactly if it does not raise, and forgets the connection |
| ListenerLoop.OthersExact | src/mq_adapters/sync_adapter.py:486-560 | what the flag, the close request and a drop do; a direct close is not counted |
| ListenerLoop.NeverStoppedNeverDies | src/mq_adapters/sync_adapter.py:426-484 | a listener that is never stopped runs on in every run if and only if its loop policy's backoffs never raise |
| ListenerLoop.StopsWithinFiveSteps | src/mq_adapters/sync_adapter.py:426-484 | once the flag is set the thread ends within five steps of its own, with at most one more connect and one more pump and no backoff of the loop |
| ListenerLoop.ClosedAtEndIff | src/mq_adapters/sync_adapter.py:486-560 | on every tape after the request, with any faults and drops: at the end of the thread no connection is open exactly when the close was direct and succeeded, or was enqueued ahead of a pump that was reached, ran it and could close, or none was open or got opened, or it was lost |
| ListenerLoop.ClosedIfInTime | src/mq_adapters/sync_adapter.py:502-527 | enqueued ahead of a pump that still runs it, and with none of the thread's own calls failing, the close is made on every tape |
| ListenerLoop.OpenIfLate | src/mq_adapters/sync_adapter.py:502-527 | enqueued with no pump ahead, an open connection stays open on every tape unless it is lost |
| ListenerLoop.StopInsideCallbackLeavesOpen | src/mq_adapters/sync_adapter.py:426-437 | enqueued while a pump is past its own callbacks, as in a message callback, the close is not run: the pump returns, the loop ends, and the connection stays open without any fault |
| ListenerLoop.FailingPumpLeavesOpen | src/mq_adapters/sync_adapter.py:436-460 | enqueued ahead of a pump that raises before it runs it, the close is never run and the thread ends with the connection open |
| ListenerLoop.PumpCaseReached | src/mq_adapters/sync_adapter.py:426-437 | the first iteration of a listener comes to either case when the stop finds it pumping |
| ListenerLoop.StopCanLeaveOpen | src/mq_adapters/sync_adapter.py:486-560 | a reachable stop during the first connect: if that connect succeeds the connection stays open on every tape unless it is lost |
| ListenerLoop.Listener.Run | src/mq_adapters/sync_adapter.py:421-484 | under every interleaving the loop goes through exactly the machine's states |
| ListenerLoop.Listener.CreateConnection | src/mq_adapters/sync_adapter.py:566-581 | the connect retry takes the machine to the setup of the channel or to the failure path |
| ListenerLoop.Listener.AskForClose | src/mq_adapters/sync_adapter.py:502-560 | the close is enqueued, or made directly and not counted, or there is none to make |
| ListenerLoop.Listener.HandleFailure | src/mq_adapters/sync_adapter.py:439-482 | one machine step of either handler: nothing once stopping, else close, forget, count and back off; what the inner one raises the outer one catches, what the outer one raises ends the thread |
| AsyncListeners.MaxConcurrency | src/mq_adapters/async_adapter.py:323-327 | the limit given, at least 1; without one the prefetch count if that is positive, and else 100 |
| AsyncListeners.EndExact | src/mq_adapters/async_adapter.py:482-486 | a handler that ends or is cancelled is gone, and gives a permit, to the current semaphore, exactly if it held one |
| AsyncListeners.BeginExact | src/mq_adapters/async_adapter.py:406-408 | a handler waits on the semaphore current at its start, and gets a permit exactly when that has one |
| AsyncListeners.StopExact | src/mq_adapters/async_adapter.py:509-521 | a stop ends exactly when all that was in flight as it began to wait has ended |
| AsyncListeners.PermitLaw | src/mq_adapters/async_adapter.py:402-533 | in every run and for every session, free plus held plus lost permits are the limit plus those that strayed in; the current session has lost none |
| AsyncListeners.SessionConservedIff | src/mq_adapters/async_adapter.py:402-533 | a session keeps free plus held equal to the limit, through any cancellations, exactly when at its start no earlier handler holds or can still get a permit |
| AsyncListeners.OrderlyConserved | src/mq_adapters/async_adapter.py:402-533 | over any number of sessions the limit is kept exactly, and after a stop no handler is left, when no message comes while a stop waits and every start follows a stop |
| AsyncListeners.LimitCanBeExceeded | src/mq_adapters/async_adapter.py:500-521 | a message that comes while a stop waits outlives it, and in the next session a limit of 1 lets two handlers run at once |
| AsyncListeners.AsyncListener.Start | src/mq_adapters/async_adapter.py:401-402 | a new semaphore with the whole limit; earlier handlers keep theirs |
| AsyncListeners.AsyncListener.StopBegins | src/mq_adapters/async_adapter.py:509-513 | a stop waits for exactly the handlers in flight when its wait begins |
| AsyncListeners.AsyncListener.StopEnds | src/mq_adapters/async_adapter.py:516-521 | once those have ended the semaphore is given up, with whatever handlers came later, which are no longer tracked |
| AsyncListeners.AsyncListener.OnMessage | src/mq_adapters/async_adapter.py:488-496 | one more handler, and nothing else |
| AsyncListeners.AsyncListener.BeginHandler | src/mq_adapters/async_adapter.py:406-408 | the handler waits on the semaphore that is current, or ends without one |
| AsyncListeners.AsyncListener.AcquirePermit | src/mq_adapters/async_adapter.py:408 | gets a permit of the semaphore it waits on exactly when there is one |
| AsyncListeners.AsyncListener.EndHandler | src/mq_adapters/async_adapter.py:482-486 | the permit goes to the semaphore that is current at the end, or to nobody, cancelled or not |
| AsyncListeners.AsyncListener.CancelEarly | src/mq_adapters/async_adapter.py:406-409 | a cancellation before the permit gives nothing back |
| AsyncSenders.AsyncSender.DoStartOnce | src/mq_adapters/async_adapter.py:160-181 | each of the three calls sets its own field and only if it succeeds; an open connection is overwritten without a close |
| AsyncSenders.AsyncSender.Start | src/mq_adapters/async_adapter.py:155-188 | nothing while the connection is open; else as many factory calls as the retry loop makes, and, however it ends, exactly what those turns cached, opened and forgot |
| AsyncSenders.AsyncSender.DoPublish | src/mq_adapters/async_adapter.py:212-227 | one attempt: connects when what is cached is not usable, and publishes exactly when there is then an exchange |
| AsyncSenders.AsyncSender.Send | src/mq_adapters/async_adapter.py:206-236 | the outer retry, with the exact factory calls, publishes, sleeps, and connections opened and forgotten of both loops; what is cached is forgotten unclosed when it gives up |
| AsyncSenders.SendCostBounded | src/mq_adapters/async_adapter.py:206-236 | with n attempts at most n*n factory calls, n publishes and n*(n-1)+1 connections let go of open, whatever happens |
| AsyncSenders.SendRetriesPublish | src/mq_adapters/async_adapter.py:212-236 | with everything cached, a send whose k-th publish is the first to succeed publishes exactly k times and sleeps k-1 times, or raises after all its attempts, if and only if no power overflows |
| AsyncSenders.FreshSendConnects | src/mq_adapters/async_adapter.py:155-227 | a fresh sender connects with one factory call if that succeeds, then publishes, and has everything cached |
| AsyncSenders.GivesUpWhen | src/mq_adapters/async_adapter.py:229-236 | what is cached is reset on every way out of a send but a return |
| AsyncSenders.AwaySendExact | src/mq_adapters/async_adapter.py:206-236 | with the broker away exactly n*n factory calls and n*n-1 sleeps, then the error, if and only if no power overflows within n-1 backoffs |
| AsyncSenders.StartCanEndHalfOpen | src/mq_adapters/async_adapter.py:160-188 | a start that is never set up raises with its last connection open, the exchange as before, and all its other connections open and forgotten |
| AsyncSenders.HalfOpenNeverRepaired | src/mq_adapters/async_adapter.py:155-236 | on open connections a send calls no factory, and publishes exactly when some attempt finds an exchange; if none does it fails after all its attempts |
| AsyncSenders.SendStaysHalfOpen | src/mq_adapters/async_adapter.py:206-236 | a send from a fresh sender on such a broker: n factory calls, all in its first attempt, no publish, and all n connections left open and forgotten |
| ConfirmBatching.Batcher.FlushConfirms | src/mq_adapters/async_adapter.py:199-204 | hands over all that is pending, in order, and leaves nothing pending |
| ConfirmBatching.Batcher.Enqueue | src/mq_adapters/async_adapter.py:218-225 | appends the new future; awaits the whole list exactly when it is full |
| ConfirmBatching.FlushTakesAll | src/mq_adapters/async_adapter.py:199-204 | a flush takes all that is pending into one gather, and nothing if there is nothing |
| ConfirmBatching.PublishExact | src/mq_adapters/async_adapter.py:218-225 | a publish makes one future, pending or in the gather it fills |
| ConfirmBatching.BatchesPartitionFutures | src/mq_adapters/async_adapter.py:190-227 | in every interleaving fewer are pending than a batch, and each future is pending or in exactly one gather, in creation order |
| ConfirmBatching.OwnReportIffFilled | src/mq_adapters/async_adapter.py:199-225 | an attempt ever awaits the gather that holds its own future exactly when it filled the batch |
| BatchedSends.RunsKeepInv | src/mq_adapters/async_adapter.py:206-236 | every interleaving of concurrent sends, flushes and retries keeps, for each send, that all attempts before its last failed with the batch they filled, and what its phase says of the last |
| BatchedSends.RetriedIff | src/mq_adapters/async_adapter.py:212-236 | a send takes an attempt for a failure, and publishes its message again or gives up, exactly when the attempt filled a batch in which some confirm failed, its own or not |
| BatchedSends.AttemptsBounded | src/mq_adapters/async_adapter.py:229-230 | in every run a send makes at most as many attempts as its policy allows, and gives up only when that says so |
| BatchedSends.SendSteps | src/mq_adapters/async_adapter.py:212-230 | what an attempt, a failure and the end of a gather make of their own send, and of no other |
| BatchedSends.FailureGoesUnheard | src/mq_adapters/async_adapter.py:218-230 | an attempt that filled no batch is its send's last and the send has returned, however its confirm comes out |
| BatchedSends.WrongSendRetries | src/mq_adapters/async_adapter.py:212-230 | two sends and batches of two: the send of the unconfirmed message has returned, and the confirmed message is published twice |
| RetryPolicies.ScheduleNonDecreasing | src/mq_adapters/retry_policy.py:49-62 | a growing schedule without jitter is non-decreasing exactly when the cap is not negative |
| RetryPolicies.CapIsAbsorbing | src/mq_adapters/retry_policy.py:54-57 | no delay exceeds the cap, and once at the cap the schedule stays there |
| RetryPolicies.BackoffSaturates | src/mq_adapters/retry_policy.py:54-57 | raising the power and capping equals a recurrence that never multiplies past the cap |
| RetryPolicies.TotalBelowCaps | src/mq_adapters/retry_policy.py:49-62 | the total over n attempts is at most n-1 caps |
| RetryPolicies.TotalBelowGeometric | src/mq_adapters/retry_policy.py:49-62 | the total over n attempts is at most the uncapped geometric sum in closed form |
| RetryPolicies.JitterBounded | src/mq_adapters/retry_policy.py:59-62 | a jittered delay lies between 0 and the cap plus the jitter, within the jitter of the plain one unless cut at 0 |
| RetryPolicies.SafeExact | src/mq_adapters/retry_policy.py:49-62 | the first n backoffs do not raise, whatever is drawn, exactly when 1 and the n-th power are in range and, for a blocking sleep, no delay can be negative |
| RetryPolicies.AlwaysSafeExact | src/mq_adapters/retry_policy.py:49-62 | no number of backoffs raises exactly when the multiplier is not beyond 1 in size and no delay can be negative |
| RetryPolicies.SafeUpTo | src/mq_adapters/retry_policy.py:54-57 | with a multiplier beyond 1 the backoffs are safe up to the one after the last exponent in range, and no further |
| RetryPolicies.SleepsExact | src/mq_adapters/retry_policy.py:83-96 | the i-th sleep of a loop is base * multiplier^(i-1) or the cap, and with jitter that plus what was drawn, cut at 0 |
| RetryPolicies.InterruptLeaves | src/mq_adapters/retry_policy.py:125-127 | what except Exception does not catch leaves the loop at once |
| RetryPolicies.StopExact | src/mq_adapters/retry_policy.py:119-123 | a first stop before call k, after failures the policy allows, means exactly k-1 calls and the last of their errors |
| RetryPolicies.SyncRetry | src/mq_adapters/retry_policy.py:100-148 | the loop ends where the first ending turn is, with its verdict, calls and delays; a delay or sleep that raises is such a turn |
| RetryPolicies.AsyncRetry | src/mq_adapters/retry_policy.py:65-97 | the same without a stop predicate and with a sleep that takes any time |
| RetryPolicies.CallCountExact | src/mq_adapters/retry_policy.py:116-148 | min(first success, max(1, max_attempts)) calls and one sleep fewer, ending in that success or the last failure, if and only if the policy is safe for those sleeps; else fewer, ending in a raising backoff |
| RetryPolicies.StopBoundsCalls | src/mq_adapters/retry_policy.py:119-123 | a stop before call k leaves at most k-1 calls, and raises the last failure or aborts |
| RetryPolicies.UnlimitedNeverGivesUp | src/mq_adapters/retry_policy.py:128-131 | an unlimited policy goes on exactly as long as every call fails, no stop is seen and its backoffs are safe |
| RetryPolicies.NegativeCapRaises | src/mq_adapters/retry_policy.py:127-148 | with a negative cap and no jitter the first failure is the last call |
| RetryPolicies.OverflowEnds | src/mq_adapters/retry_policy.py:127-148 | with a multiplier beyond 1 an unlimited loop of failing calls ends after exactly e+2 of them, e the last exponent in range |

## Left out

- pika and aio-pika internals, sockets and real threads: they are the environment's moves and answers.
- Connection parameters, environment loading, JSON and UTF-8 serialization, logging: plumbing around the protocols.
- `client.py` and `publisher_pool.py`: a cache and a collect-errors loop over the backend.
- `Stats` and its lock: counters are integers updated atomically.
- Exchange and queue declaration, bindings and QoS: no property of runs depends on them.
- `_auto_ack_wrapper`: it settles nothing; its exception reaches the loop as a failing pump.
- SettlementTheorems.NothingStranded: a settlement queued on the live connection counts as accounted for; once a stopped listener's thread has ended with its connection open nobody pumps it, and the delivery stays unsettled until that connection goes.
- Handlers.FailDelivery: message properties other than body and headers are not modelled, and copying them always succeeds.
- Handlers.Listener.OffloadWrapper: its wait for a permit is the end of this call and the start of `HandOver`; that the wait ends is `SettlementTheorems.BlockedNotForever`.
- Handlers.Listener.OnDone: a delivery without a tag, and a cancelled future, are not modelled.
- Handlers.Listener.OnDone: the settlement it schedules runs at once; where and when it runs is modelled in `Settlement`.
- DeadLettering.ResolveConfig: what `str()` gives for a value and `int()` for a leaf is taken as given, and `strip` and `lower` are modelled for ASCII.
- BackendThread.SyncPublishBackend.Stop: the one-second wait for room is a point in time chosen by the environment, and the join is left out.
- BackendThread.SyncPublishBackend.Publish: a call that blocks on a full queue is modelled as made when there is room.
- BackendThread.SyncPublishBackend.CleanUp: closing the channels before the connection is left out, as is the passing of the time slept in a backoff.
- BackendTheorems.OnlyBackoffsKill: errors that are not `Exception`, such as an interpreter shutdown, are not modelled.
- ListenerLoop.Listener.Run: the channel's own loss shows as the loss of the connection or a failing pump, and deliveries run in `Settlement`, where reconnects are inputs.
- AsyncListeners.AsyncListener.Start: connecting, declaring and consuming are left out.
- AsyncListeners.AsyncListener.StopEnds: a `stop` that is itself cancelled, and the closing of channel and connection, are left out; the timeout's cancellations may come at any time.
- AsyncSenders.AsyncSender.Send: what other tasks and the broker do to the cached state between attempts is free, within one `start` it is left out; so are the routing key and body.
- AsyncSenders.AsyncSender.Start: the start of the flusher task is left out; a flush may come at any time in `ConfirmBatching`.
- ConfirmBatching.Batcher.FlushConfirms: the outcome of a gather is left out; who awaits it is kept, and `BatchedSends` adds what it raises.
- BatchedSends.RetriedIff: concurrent sends are modelled on values, over the proved `ConfirmBatching` steps; what a send that gives up does to the shared connection is in `AsyncSenders` only.
