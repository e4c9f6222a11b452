# pubsub-to-bigquery pump, modelled in Dafny

The pump drains a Pub/Sub subscription into a BigQuery table. One run
(`pump()` in pump.go) opens a Pub/Sub client and an `ImportClient`
(inserter.go), then lets the subscription call a handler once per message.
The handler decodes the payload into the importer's in-memory buffer, acks
the message, flushes the buffer to BigQuery every `batchSize` messages, and
cancels the run once it has lasted more than `maxDuration` seconds. A stall
watchdog ticks in the background and cancels the run once no message has
arrived for more than `maxStall` seconds. When the subscription's `Receive`
returns, a fixed chain of checks picks the run's result: the receive error,
then the handler's error, then a final insert of the leftovers, then the
metrics submission. The result is `(totalCounter, nil)` or `(0, err)`.

Files:

- `types.dfy` (module `Types`): `Option`, `Result`, the collaborators' error
  `Cause`, and `Record` (the source's `simpleRecord`).
- `inserter.dfy` (module `Inserter`): the `ImportClient` class with its
  `records` buffer, and `Append`, `Clear`, `Insert` and `NewImportClient`. The
  BigQuery inserter is a `Sink` object that logs every batch handed to `Put`.
- `pump.dfy` (module `PumpSpec`): the run's state as a value (`RunState`). It
  has one function per atomic step: `OnMessage` for the handler, `OnTick` for
  the watchdog, and `Finished` for the post-`Receive` chain. It also holds
  `SubmitMetrics`, `PumpResult` for `pump()` as a whole, and the lemmas about
  whole runs.
- `pump_run.dfy` (module `PumpRun`): the class `Run` holds the locals that the
  handler closure and the watchdog capture. Its methods `HandleMessage`,
  `Tick` and `Finish` update them in place, and each is proved equal to the
  matching `PumpSpec` function. The method `Pump` is `pump()` itself: set-up,
  a loop that applies the delivered messages and ticks in order, then `Finish`.

Collaborators are parameters:

- the JSON decoder's answer for a payload is a `Result<Record, Cause>`;
- each BigQuery `Put` answer, the Pub/Sub and BigQuery client set-up, the
  `Receive` error, the metrics client and each metric publication are an
  `Option<Cause>` (or a function returning one);
- the clock is passed in as whole seconds with every event. `pump()` reads it
  separately at each point: `Config.start` at pump.go:23 and `Config.ready` at
  pump.go:47, after both clients are set up; each delivery carries `now`, read
  when the handler starts (pump.go:69), and `checkedAt`, read for the duration
  check after the append and any flush (pump.go:98).

The handler runs under a mutex, so each delivery is one atomic step. A run is
a sequence of such steps interleaved with watchdog ticks.

### Behaviour as written

The model follows the code, including these behaviours, which a reader of
the code may not expect:

- `Insert` never empties the buffer after a successful `Put`, so every flush
  resends everything flushed before. With batchSize 3 and messages A..E, the
  sink sees `[A,B,C]` and then `[A,B,C,D,E]`, not `[D,E]`
  (`PumpSpec.ResendScenario`, `PumpSpec.ResendsPreserved`).
- The final insert at pump.go:122 hands over the whole buffer again, even when
  nothing arrived since the last flush. With batchSize 3 and messages A, B, C,
  the sink sees `[A,B,C]` twice and the run returns `(3, nil)`
  (`PumpSpec.DrainSendsEverything`, `PumpSpec.DrainRepeatsLastBatch`).
- Both counters are bumped before the append, so a message that fails to
  decode is still counted (`PumpSpec.OnMessage`,
  `PumpSpec.TotalCountsDeliveries`).
- An append error or an insert error only records `innerError`. Neither
  cancels the run.
- If the message that brings `messageCounter` to `batchSize` fails to decode,
  the reset is skipped. The `==` test then never holds again, so no later
  message triggers a flush (`PumpSpec.StuckAfterFailedAppend`). A
  `batchSize` of zero or less never flushes during the run for the same reason
  (`PumpSpec.CounterOverrunNeverFlushes`).
- `batchSize`, `maxStall` and `maxDuration` are not validated. The model
  accepts any integer.

## Model

| member | source | states |
|---|---|---|
| `Inserter.NewImportClient` | inserter.go:12-24 | a client set-up error is returned unchanged with no importer; otherwise a fresh importer with an empty buffer and a sink that has received nothing |
| `Inserter.ImportClient.constructor` | inserter.go:20-23 | a freshly built importer holds no records |
| `Inserter.ImportClient.Append` | inserter.go:37-48 | a payload that fails to decode returns the decoder's error and leaves `records` unchanged; one that decodes adds exactly its record at the end and keeps earlier records in order |
| `Inserter.ImportClient.Clear` | inserter.go:50-55 | `records` is empty afterwards whatever it held |
| `Inserter.ImportClient.Insert` | inserter.go:57-68 | on an empty buffer: no sink call and success; otherwise exactly one `Put` carrying the whole buffer, whose error is returned unchanged; `records` is never modified (the frame is the sink alone) |
| `Inserter.Sink.Put` | inserter.go:63 | the batch is appended to the sink's log and the service's answer is returned |
| `Inserter.InsertTwice` | inserter.go:57-68 | two inserts on a non-empty buffer hand the sink the same records twice |
| `PumpSpec.OnMessage` | pump.go:67-104 | one handler call: the last-message time becomes the clock read at handler entry; both counters bumped before the append; the message is acked iff its payload decoded; on a decode failure `innerError` is that error (overwriting any earlier one) with no flush and no cancellation; a flush happens iff the append succeeded and the bumped counter equals `batchSize`, resets the counter and sends the whole buffer; a sink error becomes `innerError` and skips the duration check; otherwise the run is cancelled iff the seconds from `start` to the second clock reading, taken after the append and any flush, strictly exceed `maxDuration` |
| `PumpSpec.OnTick` | pump.go:54-61 | a running watchdog cancels and stops iff seconds since the last message strictly exceed `maxStall`; a stopped watchdog changes nothing; nothing else is touched |
| `PumpSpec.Finished` | pump.go:106-134 | the watchdog is stopped; the receive error wins over `innerError`, which wins over the final insert, which wins over metrics; the final insert runs only when both errors are nil and its error is reported as an insert failure; a metrics failure after a clean insert is reported as a metrics failure carrying `SubmitMetrics`'s error; every error is paired with count 0, and success returns `totalCounter` |
| `PumpSpec.PublishEach` | pump.go:143-153 | metrics are published in order and publishing stops at the first failure, which is reported with that metric's name; success iff every publish succeeded |
| `PumpSpec.SubmitMetrics` | pump.go:137-156 | a metrics client error is returned before anything is published; otherwise success iff the invocation (1), message (count) and duration metrics all publish |
| `PumpSpec.PumpResult` | pump.go:20-135 | a Pub/Sub client error is reported as that client's failure, and otherwise a BigQuery client error as the importer's failure; every error result has count 0; success implies both clients opened, `Receive` returned nil, no payload failed to decode, and the count equals the number of handler calls |
| `PumpSpec.TotalCountsDeliveries` | pump.go:74-75 | after any run, `totalCounter` has grown by the number of handler calls, failed decodes included |
| `PumpSpec.BufferAndAcks` | pump.go:78-85 | after any run, the buffer holds exactly the decoded records and the acked ids are exactly those of the decoded messages, in delivery order |
| `PumpSpec.StickyFlags` | pump.go:55-102 | a recorded handler error is never cleared, and neither a cancellation nor a stopped watchdog is ever undone |
| `PumpSpec.DecodeFailureSticks` | pump.go:78-83 | once any payload fails to decode, the run ends with `innerError` set |
| `PumpSpec.BatchCadence` | pump.go:74-95 | with `batchSize >= 1` and every payload decoding, the counter stays in `[0, batchSize)` and the handler calls split into one sink call per whole batch plus the counter's remainder, whatever the sink answers |
| `PumpSpec.BatchCadenceFromStart` | pump.go:74-91 | from a fresh run, after n handler calls the counter is `n % batchSize` and the sink has been called `n / batchSize` times |
| `PumpSpec.ResendsPreserved` | inserter.go:57-68 | during the receive phase, each batch sent is a prefix of the buffer and strictly extends every earlier batch, so a later flush resends all earlier records |
| `PumpSpec.DrainSendsEverything` | pump.go:106-125 | after a receive phase with no handler error and a nil receive error, the final insert sends exactly the records decoded during the run (nothing if there were none); every earlier batch is a prefix of it, so it may repeat the last batch |
| `PumpSpec.CounterOverrunNeverFlushes` | pump.go:88-90 | once the counter is at or past `batchSize`, it only grows and no batch is ever flushed again |
| `PumpSpec.StuckAfterFailedAppend` | pump.go:74-90 | if the message that reaches `batchSize` fails to decode, the counter is left at `batchSize` and no later message flushes |
| `PumpSpec.ResendScenario` | pump.go:67-134 | batchSize 3 with messages A..E all succeeding: the sink receives `[A,B,C]` then `[A,B,C,D,E]`, and the run returns `(5, nil)` |
| `PumpSpec.DrainRepeatsLastBatch` | pump.go:67-134 | batchSize 3 with messages A, B, C all succeeding: the sink receives `[A,B,C]` twice, and the run returns `(3, nil)` |
| `PumpRun.Run.constructor` | pump.go:42-47 | the run starts with both counters 0, no error, nothing acked, not cancelled, and the last-message time at the clock reading taken after client set-up (`ready`), not at `start` |
| `PumpRun.Run.HandleMessage` | pump.go:67-104 | the in-place handler leaves exactly the state `OnMessage` gives |
| `PumpRun.Run.Tick` | pump.go:51-64 | the in-place watchdog tick leaves exactly the state `OnTick` gives |
| `PumpRun.Run.Finish` | pump.go:106-134 | the in-place post-`Receive` chain leaves the state and returns the result `Finished` gives |
| `PumpRun.Pump` | pump.go:20-135 | `pump()` returns what `PumpResult` gives: `(0, err)` on any failure, and on success the number of handler calls |

## Left out

- Concurrency is not modelled: the ticker goroutine, concurrent `Receive` callbacks, the mutexes, and the unsynchronised write of `lastMessage` at pump.go:69. A run is modelled as a sequence of atomic steps. The handler's mutex makes this faithful for handler calls, but the race on `lastMessage` is not represented.
- The mutexes created afresh in `Append` and `Clear` guard nothing, so those methods are plain sequential updates.
- Cancellation is recorded as a flag and does not cut the event sequence short. Handlers already in flight when the run is cancelled still run. When `Receive` returns, and with which error, is an input.
- The watchdog's 5-second period is not modelled: a tick may happen at any time. So "the run stops within one tick period of the stall" is not stated.
- Time is whole seconds. `int(...)` truncates a real duration at pump.go:55 and pump.go:98. Differences of whole-second readings are exact, so sub-second truncation is not represented. The duration metric, a float64 at pump.go:128, is the whole-second difference.
- JSON decoding, the BigQuery, Pub/Sub and Stackdriver clients, and `Put` are oracles passed in as answers. A partial `Put` failure is one error.
- The uuid insert id from `simpleRecord.Save` (inserter.go:28-30) is not modelled, because it only feeds BigQuery's de-duplication.
- Logging, and the error message text built by `fmt.Errorf`, are not modelled. Each failure is a `Failure` constructor naming its stage, and it carries the collaborator's error.
- handler.go (the HTTP webhook, its token check and its payload parsing), main.go (environment configuration and server start-up) and vendor/github.com/mchmarny/gcputil/metric/sd.go (the Stackdriver client) are not part of this model.
