/** Model of pump.go as it runs: `pump()` sets up the clients, then the
    `Receive` handler and the stall watchdog update the run's state in place,
    one atomic step at a time, and the post-`Receive` chain picks the result.
    Each step is proved to do what the matching function of module `PumpSpec`
    says. */
module PumpRun {
  import opened Types
  import opened Inserter
  import opened PumpSpec

  /** The locals of one `pump()` call that its handler closure and its
      watchdog goroutine capture, and the importer they share. */
  class Run {
    const config: Config
    const imp: ImportClient
    var messageCounter: int
    var totalCounter: int
    var innerError: Option<Cause>
    var acked: seq<string>
    var lastMessage: int
    var cancelled: bool
    var tickerStopped: bool

    /** The run's state as a value, buffer and sink included. */
    function State(): RunState
      reads this, imp, imp.sink
    {
      RunState(imp.records, imp.sink.calls, messageCounter, totalCounter, innerError,
               acked, lastMessage, cancelled, tickerStopped)
    }

    /** The state just before `Receive` is called, with an importer fresh
        from `NewImportClient`. */
    constructor (config: Config, imp: ImportClient)
      requires imp.records == [] && imp.sink.calls == []
      ensures this.config == config && this.imp == imp
      ensures State() == Initial(config)
    {
      this.config := config;
      this.imp := imp;
      messageCounter := 0;
      totalCounter := 0;
      innerError := None;
      acked := [];
      lastMessage := config.ready;
      cancelled := false;
      tickerStopped := false;
    }

    /** The body of the `Receive` handler for one delivered message. */
    method HandleMessage(d: Delivery)
      modifies this, imp, imp.sink
      ensures State() == OnMessage(config, old(State()), d)
    {
      lastMessage := d.now;
      messageCounter := messageCounter + 1;
      totalCounter := totalCounter + 1;

      var appendErr := imp.Append(d.decoded);
      if appendErr.Some? {
        innerError := appendErr;
        return;
      }

      acked := acked + [d.id];

      if messageCounter == config.batchSize {
        messageCounter := 0;
        var insertErr := imp.Insert(d.put);
        if insertErr.Some? {
          innerError := insertErr;
          return;
        }
      }

      if d.checkedAt - config.start > config.maxDuration {
        cancelled := true;
      }
    }

    /** One tick of the stall watchdog at time `now`. */
    method Tick(now: int)
      modifies this
      ensures State() == OnTick(config, old(State()), now)
    {
      if !tickerStopped {
        if now - lastMessage > config.maxStall {
          cancelled := true;
          tickerStopped := true;
        }
      }
    }

    /** What `pump()` does once `Receive` has returned `receiveErr`: stop the
        watchdog, check the errors in order, insert the leftovers, submit the
        metrics. */
    method Finish(receiveErr: Option<Cause>, finalPut: Option<Cause>,
                  metricsClientErr: Option<Cause>, publish: Metric -> Option<Cause>, now: int)
      returns (count: int, err: Option<Failure>)
      modifies this, imp.sink
      ensures State() == Finished(config, old(State()), receiveErr, finalPut, metricsClientErr, publish, now).0
      ensures RunResult(count, err)
        == Finished(config, old(State()), receiveErr, finalPut, metricsClientErr, publish, now).1
    {
      ghost var s0 := State();
      ghost var fin := Finished(config, s0, receiveErr, finalPut, metricsClientErr, publish, now);
      tickerStopped := true;

      if receiveErr.Some? {
        return 0, Some(ReceiveFailed(receiveErr.value));
      }

      if innerError.Some? {
        return 0, Some(ProcessFailed(innerError.value));
      }

      var insertErr := imp.Insert(finalPut);
      assert imp.sink.calls == PutLog(s0.records, s0.sent) && insertErr == InsertError(s0.records, finalPut);
      assert State() == fin.0;
      if insertErr.Some? {
        return 0, Some(InsertFailed(insertErr.value));
      }

      var metricsErr := SubmitMetrics(metricsClientErr, publish, totalCounter, now - config.start).1;
      if metricsErr.Some? {
        return 0, Some(MetricsFailed(metricsErr.value));
      }

      return totalCounter, None;
    }
  }

  /** `pump()`: open the Pub/Sub client (`pubsubErr` is its answer) and the
      importer (`bigqueryErr`), apply the events the subscription delivers
      and the watchdog's ticks in the order they happen, then finish. The loop
      stands for the subscription's dispatch of handler invocations. */
  method Pump(c: Config, pubsubErr: Option<Cause>, bigqueryErr: Option<Cause>, evs: seq<Event>,
              receiveErr: Option<Cause>, finalPut: Option<Cause>,
              metricsClientErr: Option<Cause>, publish: Metric -> Option<Cause>, now: int)
    returns (count: int, err: Option<Failure>)
    ensures RunResult(count, err)
      == PumpResult(c, pubsubErr, bigqueryErr, evs, receiveErr, finalPut, metricsClientErr, publish, now)
    ensures err.Some? ==> count == 0
    ensures err.None? ==> count == Deliveries(evs)
  {
    if pubsubErr.Some? {
      return 0, Some(PubsubClientFailed(pubsubErr.value));
    }

    var imp, impErr := NewImportClient(bigqueryErr);
    if impErr.Some? {
      return 0, Some(BigqueryClientFailed(impErr.value));
    }

    var run := new Run(c, imp);
    var i := 0;
    while i < |evs|
      invariant 0 <= i <= |evs|
      invariant run.imp == imp && run.config == c
      invariant fresh(run) && fresh(imp) && fresh(imp.sink)
      invariant run.State() == RunEvents(c, Initial(c), evs[..i])
    {
      assert evs[..i + 1][..i] == evs[..i];
      match evs[i] {
        case Deliver(d) => run.HandleMessage(d);
        case Tick(t) => run.Tick(t);
      }
      i := i + 1;
    }
    assert evs[..i] == evs;

    count, err := run.Finish(receiveErr, finalPut, metricsClientErr, publish, now);
  }
}
