/** Model of pump.go as functions: the state the `Receive` handler, the stall
    watchdog and the post-`Receive` chain share during one run, one function
    per atomic step, and the properties a run has. The class `PumpRun.Run`
    performs these steps in place and is proved against these functions. */
module PumpSpec {
  import opened Types
  import opened Inserter

  /** The package-level settings `pump()` reads, plus two clock readings in
      whole seconds: `start`, taken when `pump()` begins, and `ready`, taken
      after the clients have been set up, where the last-message time starts. */
  datatype Config = Config(batchSize: int, maxStall: int, maxDuration: int, start: int, ready: int)

  /** One message handed to the handler: its id, the decoder's answer for its
      payload, the clock when the handler starts (whole seconds), the sink's
      answer should this delivery trigger a flush, and the clock when the
      handler checks the run's duration, after the append and any flush. */
  datatype Delivery = Delivery(id: string, decoded: Result<Record, Cause>, now: int, put: Option<Cause>,
                               checkedAt: int)

  /** The atomic steps of a run: a handler invocation or a watchdog tick. */
  datatype Event = Deliver(d: Delivery) | Tick(now: int)

  /** Everything a run mutates: the importer's buffer, the batches the sink has
      been handed, the handler's counters and error, the acknowledged message
      ids (in order), the time of the last message, whether the run has been
      cancelled and whether the watchdog has stopped. */
  datatype RunState = RunState(
    records: seq<Record>,
    sent: seq<seq<Record>>,
    messageCounter: int,
    totalCounter: int,
    innerError: Option<Cause>,
    acked: seq<string>,
    lastMessage: int,
    cancelled: bool,
    tickerStopped: bool)

  datatype Metric = Metric(name: string, value: int)

  datatype MetricsFailure = ClientFailed(cause: Cause) | PublishFailed(metric: string, cause: Cause)

  /** Each way `pump()` can fail, with the collaborator's error. */
  datatype Failure =
    | PubsubClientFailed(cause: Cause)
    | BigqueryClientFailed(cause: Cause)
    | ReceiveFailed(cause: Cause)
    | ProcessFailed(cause: Cause)
    | InsertFailed(cause: Cause)
    | MetricsFailed(metrics: MetricsFailure)

  /** What `pump()` returns: the record count and an optional error. */
  datatype RunResult = RunResult(count: int, err: Option<Failure>)

  /** The state right after set-up: an empty importer and sink, both counters
      at zero, no error, the last message time set to the clock reading taken
      once the clients are ready. */
  function Initial(c: Config): RunState
  {
    RunState([], [], 0, 0, None, [], c.ready, false, false)
  }

  /** One invocation of the `Receive` handler. Both counters are bumped before
      the append; a failed append records the error and ends the handler; a
      successful one acks the message, flushes when the counter is exactly
      `batchSize`, and, unless the flush failed, cancels the run when the
      elapsed run time exceeds `maxDuration`. */
  function OnMessage(c: Config, s: RunState, d: Delivery): (r: RunState)
    // every delivery is counted, whatever becomes of its payload
    ensures r.totalCounter == s.totalCounter + 1
    ensures r.lastMessage == d.now
    // acknowledged exactly when the payload decoded
    ensures r.acked == if d.decoded.Ok? then s.acked + [d.id] else s.acked
    ensures r.records == if d.decoded.Ok? then s.records + [d.decoded.value] else s.records
    // a decode failure is recorded and ends the handler: no flush, no cancellation
    ensures d.decoded.Err? ==>
      r.innerError == Some(d.decoded.error) && r.sent == s.sent && r.cancelled == s.cancelled
    // a flush happens exactly when the bumped counter equals batchSize after a
    // successful append; it resets the counter and hands over the whole buffer
    ensures var flush := d.decoded.Ok? && s.messageCounter + 1 == c.batchSize;
      && r.messageCounter == (if flush then 0 else s.messageCounter + 1)
      && r.sent == (if flush then s.sent + [r.records] else s.sent)
      && (d.decoded.Ok? ==> r.innerError == (if flush && d.put.Some? then d.put else s.innerError))
      && r.cancelled == (s.cancelled || (d.decoded.Ok? && !(flush && d.put.Some?) && d.checkedAt - c.start > c.maxDuration))
    ensures r.tickerStopped == s.tickerStopped
  {
    var counted := s.(lastMessage := d.now,
                      messageCounter := s.messageCounter + 1,
                      totalCounter := s.totalCounter + 1);
    match d.decoded
    case Err(e) =>
      counted.(innerError := Some(e))
    case Ok(rec) =>
      var appended := counted.(records := counted.records + [rec], acked := counted.acked + [d.id]);
      if appended.messageCounter == c.batchSize then
        var flushed := appended.(messageCounter := 0, sent := PutLog(appended.records, appended.sent));
        var insertErr := InsertError(appended.records, d.put);
        if insertErr.Some? then flushed.(innerError := insertErr)
        else CheckDuration(c, flushed, d.checkedAt)
      else
        CheckDuration(c, appended, d.checkedAt)
  }

  /** The handler's last step: cancel once the whole seconds since the start
      strictly exceed `maxDuration`. */
  function CheckDuration(c: Config, s: RunState, now: int): RunState
  {
    if now - c.start > c.maxDuration then s.(cancelled := true) else s
  }

  /** One tick of the stall watchdog. A running watchdog cancels the run and
      stops for good when the whole seconds since the last message strictly
      exceed `maxStall`; a stopped one does nothing. */
  function OnTick(c: Config, s: RunState, now: int): (r: RunState)
    ensures r.cancelled == (s.cancelled || (!s.tickerStopped && now - s.lastMessage > c.maxStall))
    ensures r.tickerStopped == (s.tickerStopped || now - s.lastMessage > c.maxStall)
    ensures s.tickerStopped ==> r == s
    ensures r.(cancelled := s.cancelled, tickerStopped := s.tickerStopped) == s
  {
    if !s.tickerStopped && now - s.lastMessage > c.maxStall then
      s.(cancelled := true, tickerStopped := true)
    else
      s
  }

  function Step(c: Config, s: RunState, e: Event): RunState
  {
    match e
    case Deliver(d) => OnMessage(c, s, d)
    case Tick(now) => OnTick(c, s, now)
  }

  /** The state after the events `evs`, applied in order, one atomic step each. */
  function RunEvents(c: Config, s: RunState, evs: seq<Event>): RunState
    decreases |evs|
  {
    if evs == [] then s
    else Step(c, RunEvents(c, s, evs[..|evs| - 1]), evs[|evs| - 1])
  }

  /** The number of handler invocations among `evs`. */
  function Deliveries(evs: seq<Event>): nat
    decreases |evs|
  {
    if evs == [] then 0
    else Deliveries(evs[..|evs| - 1]) + (if evs[|evs| - 1].Deliver? then 1 else 0)
  }

  /** The records decoded from the deliveries among `evs`, in order. */
  function DecodedRecords(evs: seq<Event>): seq<Record>
    decreases |evs|
  {
    if evs == [] then []
    else
      var e := evs[|evs| - 1];
      DecodedRecords(evs[..|evs| - 1]) + (if e.Deliver? && e.d.decoded.Ok? then [e.d.decoded.value] else [])
  }

  /** The ids of the deliveries among `evs` whose payload decoded, in order. */
  function DecodedIds(evs: seq<Event>): seq<string>
    decreases |evs|
  {
    if evs == [] then []
    else
      var e := evs[|evs| - 1];
      DecodedIds(evs[..|evs| - 1]) + (if e.Deliver? && e.d.decoded.Ok? then [e.d.id] else [])
  }

  ghost predicate AllDecode(evs: seq<Event>)
  {
    forall i :: 0 <= i < |evs| && evs[i].Deliver? ==> evs[i].d.decoded.Ok?
  }

  /** The three metrics `submitMetrics` publishes, in order. */
  function Metrics(count: int, duration: int): seq<Metric>
  {
    [Metric("invocation", 1), Metric("message", count), Metric("duration", duration)]
  }

  /** Publishes `ms` in order, stopping at the first failure; returns the
      metrics whose publication was attempted and the failure, if any. */
  function PublishEach(ms: seq<Metric>, publish: Metric -> Option<Cause>): (r: (seq<Metric>, Option<MetricsFailure>))
    ensures r.0 <= ms
    ensures forall i :: 0 <= i < |r.0| - 1 ==> publish(r.0[i]).None?
    ensures r.1.None? <==> forall i :: 0 <= i < |ms| ==> publish(ms[i]).None?
    ensures r.1.None? ==> r.0 == ms
    ensures r.1.Some? ==>
      && r.0 != []
      && publish(r.0[|r.0| - 1]) == Some(r.1.value.cause)
      && r.1.value == PublishFailed(r.0[|r.0| - 1].name, r.1.value.cause)
    decreases |ms|
  {
    if ms == [] then ([], None)
    else
      match publish(ms[0])
      case Some(e) => ([ms[0]], Some(PublishFailed(ms[0].name, e)))
      case None =>
        var rest := PublishEach(ms[1..], publish);
        ([ms[0]] + rest.0, rest.1)
  }

  /** `submitMetrics`: open the metrics client (`clientErr` is its answer),
      then publish the invocation, message and duration metrics. */
  function SubmitMetrics(clientErr: Option<Cause>, publish: Metric -> Option<Cause>, count: int, duration: int)
    : (r: (seq<Metric>, Option<MetricsFailure>))
    ensures clientErr.Some? ==> r == ([], Some(ClientFailed(clientErr.value)))
    ensures r.1.None? <==>
      clientErr.None?
      && publish(Metric("invocation", 1)).None?
      && publish(Metric("message", count)).None?
      && publish(Metric("duration", duration)).None?
    ensures r.1.None? ==> r.0 == Metrics(count, duration)
  {
    if clientErr.Some? then ([], Some(ClientFailed(clientErr.value)))
    else
      var r := PublishEach(Metrics(count, duration), publish);
      assert Metrics(count, duration)[0] == Metric("invocation", 1);
      assert Metrics(count, duration)[1] == Metric("message", count);
      assert Metrics(count, duration)[2] == Metric("duration", duration);
      r
  }

  /** What happens once `Receive` has returned with `receiveErr`: the watchdog
      is stopped, then the receive error, the handler's error, the final
      insert of the leftovers and the metrics are checked in that order, and
      the first failure is returned with a count of zero. */
  function Finished(c: Config, s: RunState, receiveErr: Option<Cause>, finalPut: Option<Cause>,
                    metricsClientErr: Option<Cause>, publish: Metric -> Option<Cause>, now: int)
    : (r: (RunState, RunResult))
    ensures r.0.tickerStopped
    ensures r.0 == s.(tickerStopped := true, sent := r.0.sent)
    ensures r.1.err.Some? ==> r.1.count == 0
    ensures r.1.err.None? ==> r.1.count == s.totalCounter
    ensures receiveErr.Some? ==> r.1.err == Some(ReceiveFailed(receiveErr.value))
    ensures receiveErr.None? && s.innerError.Some? ==> r.1.err == Some(ProcessFailed(s.innerError.value))
    // the final insert runs only when neither error is set
    ensures r.0.sent == if receiveErr.None? && s.innerError.None? then PutLog(s.records, s.sent) else s.sent
    ensures receiveErr.None? && s.innerError.None? && s.records != [] && finalPut.Some?
      ==> r.1.err == Some(InsertFailed(finalPut.value))
    // a metrics failure is reported as such, carrying the failed stage
    ensures var m := SubmitMetrics(metricsClientErr, publish, s.totalCounter, now - c.start).1;
      receiveErr.None? && s.innerError.None? && InsertError(s.records, finalPut).None? && m.Some?
      ==> r.1.err == Some(MetricsFailed(m.value))
    ensures r.1.err.None? <==>
      receiveErr.None? && s.innerError.None? && InsertError(s.records, finalPut).None?
      && SubmitMetrics(metricsClientErr, publish, s.totalCounter, now - c.start).1.None?
  {
    var stopped := s.(tickerStopped := true);
    if receiveErr.Some? then
      (stopped, RunResult(0, Some(ReceiveFailed(receiveErr.value))))
    else if s.innerError.Some? then
      (stopped, RunResult(0, Some(ProcessFailed(s.innerError.value))))
    else
      var drained := stopped.(sent := PutLog(s.records, s.sent));
      var insertErr := InsertError(s.records, finalPut);
      if insertErr.Some? then
        (drained, RunResult(0, Some(InsertFailed(insertErr.value))))
      else
        var metricsErr := SubmitMetrics(metricsClientErr, publish, s.totalCounter, now - c.start).1;
        if metricsErr.Some? then
          (drained, RunResult(0, Some(MetricsFailed(metricsErr.value))))
        else
          (drained, RunResult(s.totalCounter, None))
  }

  /** `pump()` as a whole: client set-up, the events of the receive loop, and
      the post-`Receive` chain ending at `now`. */
  function PumpResult(c: Config, pubsubErr: Option<Cause>, bigqueryErr: Option<Cause>, evs: seq<Event>,
                      receiveErr: Option<Cause>, finalPut: Option<Cause>,
                      metricsClientErr: Option<Cause>, publish: Metric -> Option<Cause>, now: int)
    : (r: RunResult)
    ensures r.err.Some? ==> r.count == 0
    // a client set-up failure is reported as that client's failure
    ensures pubsubErr.Some? ==> r.err == Some(PubsubClientFailed(pubsubErr.value))
    ensures pubsubErr.None? && bigqueryErr.Some? ==> r.err == Some(BigqueryClientFailed(bigqueryErr.value))
    ensures r.err.None? ==> pubsubErr.None? && bigqueryErr.None? && receiveErr.None?
    // on success every handler invocation is counted, and none failed to decode
    ensures r.err.None? ==> r.count == Deliveries(evs) && AllDecode(evs)
  {
    if pubsubErr.Some? then RunResult(0, Some(PubsubClientFailed(pubsubErr.value)))
    else if bigqueryErr.Some? then RunResult(0, Some(BigqueryClientFailed(bigqueryErr.value)))
    else
      var s := RunEvents(c, Initial(c), evs);
      TotalCountsDeliveries(c, Initial(c), evs);
      DecodeFailureSticks(c, Initial(c), evs);
      Finished(c, s, receiveErr, finalPut, metricsClientErr, publish, now).1
  }

  // ---------------------------------------------------------------------
  // Properties of a run

  /** `totalCounter` counts every handler invocation, including those whose
      payload did not decode. */
  lemma {:induction false} TotalCountsDeliveries(c: Config, s: RunState, evs: seq<Event>)
    ensures RunEvents(c, s, evs).totalCounter == s.totalCounter + Deliveries(evs)
    decreases |evs|
  {
    if evs != [] {
      TotalCountsDeliveries(c, s, evs[..|evs| - 1]);
    }
  }

  /** The buffer holds exactly the decoded records and the acked ids are
      exactly those of the decoded messages, in delivery order. */
  lemma {:induction false} BufferAndAcks(c: Config, s: RunState, evs: seq<Event>)
    ensures RunEvents(c, s, evs).records == s.records + DecodedRecords(evs)
    ensures RunEvents(c, s, evs).acked == s.acked + DecodedIds(evs)
    decreases |evs|
  {
    if evs != [] {
      BufferAndAcks(c, s, evs[..|evs| - 1]);
    }
  }

  /** A handler error is never cleared, and neither cancellation nor a stopped
      watchdog is ever undone. */
  lemma {:induction false} StickyFlags(c: Config, s: RunState, evs: seq<Event>)
    ensures s.innerError.Some? ==> RunEvents(c, s, evs).innerError.Some?
    ensures s.cancelled ==> RunEvents(c, s, evs).cancelled
    ensures s.tickerStopped ==> RunEvents(c, s, evs).tickerStopped
    decreases |evs|
  {
    if evs != [] {
      StickyFlags(c, s, evs[..|evs| - 1]);
    }
  }

  /** A single payload that fails to decode leaves the run with an error. */
  lemma {:induction false} DecodeFailureSticks(c: Config, s: RunState, evs: seq<Event>)
    ensures !AllDecode(evs) ==> RunEvents(c, s, evs).innerError.Some?
    decreases |evs|
  {
    if !AllDecode(evs) {
      var front := evs[..|evs| - 1];
      var i :| 0 <= i < |evs| && evs[i].Deliver? && !evs[i].d.decoded.Ok?;
      if i == |evs| - 1 {
        // the last invocation itself failed to decode
      } else {
        assert front[i] == evs[i];
        DecodeFailureSticks(c, s, front);
        StickyFlags(c, RunEvents(c, s, front), evs[|evs| - 1..]);
        assert evs[|evs| - 1..][..0] == [];
      }
    }
  }

  /** When every payload decodes and `batchSize >= 1`, the counter stays in
      [0, batchSize) and the invocations are split into whole batches, one
      sink call each, plus the counter's remainder. */
  lemma {:induction false} BatchCadence(c: Config, s: RunState, evs: seq<Event>)
    requires 1 <= c.batchSize
    requires 0 <= s.messageCounter < c.batchSize
    requires AllDecode(evs)
    ensures var r := RunEvents(c, s, evs);
      && 0 <= r.messageCounter < c.batchSize
      && s.messageCounter + Deliveries(evs) == c.batchSize * (|r.sent| - |s.sent|) + r.messageCounter
    decreases |evs|
  {
    if evs != [] {
      var front := evs[..|evs| - 1];
      assert AllDecode(front) by {
        forall i | 0 <= i < |front| && front[i].Deliver?
          ensures front[i].d.decoded.Ok?
        {
          assert front[i] == evs[i];
        }
      }
      BatchCadence(c, s, front);
      var p := RunEvents(c, s, front);
      var q := |p.sent| - |s.sent|;
      assert c.batchSize * (q + 1) == c.batchSize * q + c.batchSize;
    }
  }

  /** From a fresh run in which every payload decodes, after n invocations
      the counter is n % batchSize and the sink has been called n / batchSize
      times. */
  lemma BatchCadenceFromStart(c: Config, evs: seq<Event>)
    requires 1 <= c.batchSize
    requires AllDecode(evs)
    ensures RunEvents(c, Initial(c), evs).messageCounter == Deliveries(evs) % c.batchSize
    ensures |RunEvents(c, Initial(c), evs).sent| == Deliveries(evs) / c.batchSize
  {
    BatchCadence(c, Initial(c), evs);
    var r := RunEvents(c, Initial(c), evs);
    DivModUnique(Deliveries(evs), c.batchSize, |r.sent|, r.messageCounter);
  }

  lemma DivModUnique(n: int, b: int, q: int, m: int)
    requires 1 <= b && 0 <= m < b && n == b * q + m
    ensures q == n / b && m == n % b
  {
    var k := q - n / b;
    assert b * k == b * q - b * (n / b);
    MulSign(b, k);
  }

  lemma {:induction false} MulSign(b: int, k: int)
    requires 1 <= b
    ensures k >= 1 ==> b * k >= b
    ensures k <= -1 ==> b * k <= -b
  {
  }

  /** The shape of what the sink receives during the receive phase: every
      batch is a prefix of the current buffer, and each batch strictly extends
      every earlier one, so every flush in the handler resends all records of
      the flushes before it. The final insert after `Receive` may break the
      strict extension (see `DrainSendsEverything`). */
  ghost predicate Resends(s: RunState)
  {
    && (forall k :: 0 <= k < |s.sent| ==> s.sent[k] <= s.records)
    && (forall j, k :: 0 <= j < k < |s.sent| ==> s.sent[j] < s.sent[k])
  }

  /** Every receive phase keeps that shape, whatever the decoder and the sink
      answer. */
  lemma {:induction false} ResendsPreserved(c: Config, s: RunState, evs: seq<Event>)
    requires Resends(s)
    ensures Resends(RunEvents(c, s, evs))
    decreases |evs|
  {
    if evs != [] {
      ResendsPreserved(c, s, evs[..|evs| - 1]);
      var p := RunEvents(c, s, evs[..|evs| - 1]);
      var r := RunEvents(c, s, evs);
      if r.sent != p.sent {
        assert r.sent == p.sent + [r.records] && r.records == p.records + [evs[|evs| - 1].d.decoded.value];
      }
    }
  }

  /** The final insert after a clean receive phase hands the sink the whole
      buffer, which is every record decoded during the run, whether or not
      anything arrived since the last flush; every batch sent before it is a
      prefix of that final batch. */
  lemma DrainSendsEverything(c: Config, evs: seq<Event>, finalPut: Option<Cause>,
                             metricsClientErr: Option<Cause>, publish: Metric -> Option<Cause>, now: int)
    requires RunEvents(c, Initial(c), evs).innerError.None?
    ensures var s := RunEvents(c, Initial(c), evs);
      var fin := Finished(c, s, None, finalPut, metricsClientErr, publish, now);
      && fin.0.sent == (if DecodedRecords(evs) == [] then s.sent else s.sent + [DecodedRecords(evs)])
      && (forall k :: 0 <= k < |s.sent| ==> s.sent[k] <= DecodedRecords(evs))
  {
    BufferAndAcks(c, Initial(c), evs);
    assert RunEvents(c, Initial(c), evs).records == DecodedRecords(evs) by {
      assert [] + DecodedRecords(evs) == DecodedRecords(evs);
    }
    ResendsPreserved(c, Initial(c), evs);
  }

  /** Once the counter is at or past `batchSize` (a failed append on the
      message that reached the threshold leaves it there), the `==` test
      never holds again: the counter only grows and no batch is flushed. */
  lemma {:induction false} CounterOverrunNeverFlushes(c: Config, s: RunState, evs: seq<Event>)
    requires s.messageCounter >= c.batchSize
    ensures RunEvents(c, s, evs).sent == s.sent
    ensures RunEvents(c, s, evs).messageCounter == s.messageCounter + Deliveries(evs)
    decreases |evs|
  {
    if evs != [] {
      CounterOverrunNeverFlushes(c, s, evs[..|evs| - 1]);
    }
  }

  /** The message that brings the counter to `batchSize` fails to decode: the
      reset is skipped, and no later message ever triggers a flush. */
  lemma {:induction false} StuckAfterFailedAppend(c: Config, s: RunState, d: Delivery, evs: seq<Event>)
    requires s.messageCounter + 1 == c.batchSize
    requires d.decoded.Err?
    ensures RunEvents(c, OnMessage(c, s, d), evs).sent == s.sent
    ensures RunEvents(c, OnMessage(c, s, d), evs).messageCounter == c.batchSize + Deliveries(evs)
  {
    CounterOverrunNeverFlushes(c, OnMessage(c, s, d), evs);
  }

  /** Running one more event is one more step. */
  lemma RunOneMore(c: Config, s: RunState, evs: seq<Event>, k: nat)
    requires k < |evs|
    ensures RunEvents(c, s, evs[..k + 1]) == Step(c, RunEvents(c, s, evs[..k]), evs[k])
  {
    assert evs[..k + 1][..k] == evs[..k];
  }

  /** Five messages A..E, all decoding, delivered in the first seconds of a
      run whose sink calls all succeed. */
  function ScenarioEvents(a: Record, b: Record, cc: Record, d: Record, e: Record): seq<Event>
  {
    [Deliver(Delivery("A", Ok(a), 1, None, 1)), Deliver(Delivery("B", Ok(b), 1, None, 1)),
     Deliver(Delivery("C", Ok(cc), 2, None, 2)), Deliver(Delivery("D", Ok(d), 2, None, 2)),
     Deliver(Delivery("E", Ok(e), 3, None, 3))]
  }

  function ScenarioConfig(): Config { Config(3, 30, 900, 0, 0) }

  lemma Scenario1(a: Record, b: Record, cc: Record, d: Record, e: Record)
    ensures RunEvents(ScenarioConfig(), Initial(ScenarioConfig()), ScenarioEvents(a, b, cc, d, e)[..1])
      == RunState([a], [], 1, 1, None, ["A"], 1, false, false)
  {
  }

  lemma Scenario2(a: Record, b: Record, cc: Record, d: Record, e: Record)
    ensures RunEvents(ScenarioConfig(), Initial(ScenarioConfig()), ScenarioEvents(a, b, cc, d, e)[..2])
      == RunState([a, b], [], 2, 2, None, ["A", "B"], 1, false, false)
  {
    Scenario1(a, b, cc, d, e);
    RunOneMore(ScenarioConfig(), Initial(ScenarioConfig()), ScenarioEvents(a, b, cc, d, e), 1);
  }

  lemma Scenario3(a: Record, b: Record, cc: Record, d: Record, e: Record)
    ensures RunEvents(ScenarioConfig(), Initial(ScenarioConfig()), ScenarioEvents(a, b, cc, d, e)[..3])
      == RunState([a, b, cc], [[a, b, cc]], 0, 3, None, ["A", "B", "C"], 2, false, false)
  {
    Scenario2(a, b, cc, d, e);
    RunOneMore(ScenarioConfig(), Initial(ScenarioConfig()), ScenarioEvents(a, b, cc, d, e), 2);
    var s2 := RunState([a, b], [], 2, 2, None, ["A", "B"], 1, false, false);
    var third := Delivery("C", Ok(cc), 2, None, 2);
    assert ScenarioEvents(a, b, cc, d, e)[2] == Deliver(third);
    assert [a, b] + [cc] == [a, b, cc];
    assert PutLog([a, b, cc], []) == [[a, b, cc]];
    assert OnMessage(ScenarioConfig(), s2, third)
      == RunState([a, b, cc], [[a, b, cc]], 0, 3, None, ["A", "B", "C"], 2, false, false);
  }

  lemma Scenario4(a: Record, b: Record, cc: Record, d: Record, e: Record)
    ensures RunEvents(ScenarioConfig(), Initial(ScenarioConfig()), ScenarioEvents(a, b, cc, d, e)[..4])
      == RunState([a, b, cc, d], [[a, b, cc]], 1, 4, None, ["A", "B", "C", "D"], 2, false, false)
  {
    Scenario3(a, b, cc, d, e);
    RunOneMore(ScenarioConfig(), Initial(ScenarioConfig()), ScenarioEvents(a, b, cc, d, e), 3);
  }

  lemma Scenario5(a: Record, b: Record, cc: Record, d: Record, e: Record)
    ensures RunEvents(ScenarioConfig(), Initial(ScenarioConfig()), ScenarioEvents(a, b, cc, d, e)[..5])
      == RunState([a, b, cc, d, e], [[a, b, cc]], 2, 5, None, ["A", "B", "C", "D", "E"], 3, false, false)
  {
    Scenario4(a, b, cc, d, e);
    RunOneMore(ScenarioConfig(), Initial(ScenarioConfig()), ScenarioEvents(a, b, cc, d, e), 4);
  }

  /** With batchSize 3 and five messages A..E that all decode, and every sink
      and metrics call succeeding, the sink sees [A,B,C] and then
      [A,B,C,D,E] (not [D,E]), and the run returns (5, no error). */
  lemma ResendScenario(a: Record, b: Record, cc: Record, d: Record, e: Record, publish: Metric -> Option<Cause>)
    requires forall m :: publish(m) == None
    ensures var c := ScenarioConfig();
      var fin := Finished(c, RunEvents(c, Initial(c), ScenarioEvents(a, b, cc, d, e)), None, None, None, publish, 4);
      && fin.0.sent == [[a, b, cc], [a, b, cc, d, e]]
      && fin.1 == RunResult(5, None)
  {
    Scenario5(a, b, cc, d, e);
    assert ScenarioEvents(a, b, cc, d, e)[..5] == ScenarioEvents(a, b, cc, d, e);
  }

  /** With batchSize 3 and messages A, B, C, the third message flushes
      `[A,B,C]`; nothing arrives after it, yet the final insert sends
      `[A,B,C]` again, and the run still returns `(3, nil)`. */
  lemma DrainRepeatsLastBatch(a: Record, b: Record, cc: Record, d: Record, e: Record,
                              publish: Metric -> Option<Cause>)
    requires forall m :: publish(m) == None
    ensures var c := ScenarioConfig();
      var fin := Finished(c, RunEvents(c, Initial(c), ScenarioEvents(a, b, cc, d, e)[..3]), None, None, None, publish, 4);
      && fin.0.sent == [[a, b, cc], [a, b, cc]]
      && fin.1 == RunResult(3, None)
  {
    Scenario3(a, b, cc, d, e);
  }
}
