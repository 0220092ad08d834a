// RunAdvancedPipeline (pkg/pipeline/run.go) under one schedule: every
// goroutine runs to completion as soon as it is started, in the order the
// function starts them. Channels and WaitGroups are the objects of module
// Channels; the close-at-zero protocol for every other schedule is the
// subject of module CloseProtocol.

module PipelineRun {
  import opened Types
  import opened Format
  import opened Routing
  import opened Channels
  import opened Validation
  import opened Transformation
  import opened Production
  import opened MetricsCollection

  /** go func() { wg.Wait(); close(ch) }(): the goroutine is suspended while
      the counter is not zero; then it closes the channel. */
  method CloseWhenReleased<T>(wg: WaitGroup, ch: Channel<T>) returns (exit: Exit)
    modifies ch
    ensures exit == if !wg.Released() then Suspended else if old(ch.closed) then Panicked else Returned
    ensures ch.closed == (old(ch.closed) || wg.Released()) && ch.buffer == old(ch.buffer)
  {
    if !wg.Released() {
      return Suspended;
    }
    var ok := ch.Close();
    exit := if ok then Returned else Panicked;
  }

  /** A fan-out goroutine: each record drawn from `src` is sent to `first`
      and then to `second` before the next is drawn. Its deferred closes run
      in reverse order of deferral once `src` is closed and drained: `second`
      is closed, then `first`. It is the only writer of its two outputs. */
  method FanOut<T>(src: Channel<T>, first: Channel<T>, second: Channel<T>) returns (exit: Exit)
    requires src != first && src != second && first != second
    requires !first.closed && !second.closed
    modifies src, first, second
    ensures exit == if old(src.closed) then Returned else Suspended
    ensures src.buffer == [] && src.closed == old(src.closed)
    ensures first.buffer == old(first.buffer) + old(src.buffer)
    ensures second.buffer == old(second.buffer) + old(src.buffer)
    ensures first.closed == old(src.closed) && second.closed == old(src.closed)
  {
    ghost var pending := src.buffer;
    ghost var i := 0;
    while true
      invariant 0 <= i <= |pending| && src.buffer == pending[i..]
      invariant src.closed == old(src.closed) && !first.closed && !second.closed
      invariant first.buffer == old(first.buffer) + pending[..i]
      invariant second.buffer == old(second.buffer) + pending[..i]
      decreases |src.buffer|
    {
      var received := src.Receive();
      match received
      case WouldBlock =>
        assert pending[..i] == pending;
        return Suspended;
      case EndOfStream =>
        assert pending[..i] == pending;
        var ok2 := second.Close();
        var ok1 := first.Close();
        assert ok1 && ok2;
        return Returned;
      case Item(x) =>
        assert pending[..i + 1] == pending[..i] + [x];
        var ok1 := first.Send(x);
        var ok2 := second.Send(x);
        assert ok1 && ok2;
        i := i + 1;
    }
  }

  /** Loader and ErrorHandler as sinks: every item drawn from `ch` is
      written out, in order. Writing lines to a file is not modelled. */
  method Drain<T>(ch: Channel<T>) returns (written: seq<T>, exit: Exit)
    modifies ch
    ensures written == old(ch.buffer) && ch.buffer == [] && ch.closed == old(ch.closed)
    ensures exit == if old(ch.closed) then Returned else Suspended
  {
    written := [];
    while true
      invariant old(ch.buffer) == written + ch.buffer && ch.closed == old(ch.closed)
      decreases |ch.buffer|
    {
      var received := ch.Receive();
      match received
      case WouldBlock =>
        return written, Suspended;
      case EndOfStream =>
        return written, Returned;
      case Item(x) =>
        written := written + [x];
    }
  }

  /** The numWorkers validator goroutines, each run when started:
      wg.Add(1), validatorWg.Add(1), errorWg.Add(1), Validator, then the
      deferred Done calls. The first drains the closed data channel; the
      rest find it drained and return at once. */
  method StartValidators(numWorkers: int, dataCh: Channel<DataRecord>, validCh: Channel<DataRecord>,
                         errorCh: Channel<DataRecord>, wg: WaitGroup, validatorWg: WaitGroup, errorWg: WaitGroup)
    requires dataCh != validCh && dataCh != errorCh && validCh != errorCh
    requires wg != validatorWg && wg != errorWg && validatorWg != errorWg
    requires dataCh.closed && !validCh.closed && !errorCh.closed
    requires wg.counter >= 0 && validatorWg.counter >= 0 && errorWg.counter >= 0
    modifies dataCh, validCh, errorCh, wg, validatorWg, errorWg
    ensures wg.counter == old(wg.counter) && validatorWg.counter == old(validatorWg.counter) && errorWg.counter == old(errorWg.counter)
    ensures dataCh.closed && !validCh.closed && !errorCh.closed
    ensures numWorkers > 0 ==>
      dataCh.buffer == [] &&
      validCh.buffer == old(validCh.buffer) + ValidOf(old(dataCh.buffer)) &&
      errorCh.buffer == old(errorCh.buffer) + InvalidOf(old(dataCh.buffer))
    ensures numWorkers <= 0 ==>
      dataCh.buffer == old(dataCh.buffer) && validCh.buffer == old(validCh.buffer) && errorCh.buffer == old(errorCh.buffer)
  {
    var i := 0;
    while i < numWorkers
      invariant 0 <= i && (numWorkers <= 0 ==> i == 0)
      invariant wg.counter == old(wg.counter) && validatorWg.counter == old(validatorWg.counter) && errorWg.counter == old(errorWg.counter)
      invariant dataCh.closed && !validCh.closed && !errorCh.closed
      invariant i > 0 ==>
        dataCh.buffer == [] &&
        validCh.buffer == old(validCh.buffer) + ValidOf(old(dataCh.buffer)) &&
        errorCh.buffer == old(errorCh.buffer) + InvalidOf(old(dataCh.buffer))
      invariant i == 0 ==>
        dataCh.buffer == old(dataCh.buffer) && validCh.buffer == old(validCh.buffer) && errorCh.buffer == old(errorCh.buffer)
    {
      var a1 := wg.Add(1);
      var a2 := validatorWg.Add(1);
      var a3 := errorWg.Add(1);
      ghost var before := dataCh.buffer;
      var exit := Validator(dataCh, validCh, errorCh);
      assert exit == Returned;
      if i > 0 {
        assert before == [] && Validations([]) == [];
      }
      var d3 := errorWg.Done();
      var d2 := validatorWg.Done();
      var d1 := wg.Done();
      i := i + 1;
    }
  }

  /** The numWorkers transformer goroutines, started like the validators;
      all of them count in errorWg as well. */
  method StartTransformers(numWorkers: int, validCh: Channel<DataRecord>, processedCh: Channel<ProcessedRecord>,
                           errorCh: Channel<DataRecord>, wg: WaitGroup, transformerWg: WaitGroup, errorWg: WaitGroup,
                           clock: nat -> Time)
    requires validCh != errorCh && processedCh as object != validCh && processedCh as object != errorCh
    requires wg != transformerWg && wg != errorWg && transformerWg != errorWg
    requires validCh.closed && !processedCh.closed && !errorCh.closed
    requires wg.counter >= 0 && transformerWg.counter >= 0 && errorWg.counter >= 0
    modifies validCh, processedCh, errorCh, wg, transformerWg, errorWg
    ensures wg.counter == old(wg.counter) && transformerWg.counter == old(transformerWg.counter) && errorWg.counter == old(errorWg.counter)
    ensures validCh.closed && !processedCh.closed && !errorCh.closed
    ensures numWorkers > 0 ==>
      validCh.buffer == [] &&
      processedCh.buffer == old(processedCh.buffer) + ProcessedOf(old(validCh.buffer), clock) &&
      errorCh.buffer == old(errorCh.buffer) + FailedOf(old(validCh.buffer), clock)
    ensures numWorkers <= 0 ==>
      validCh.buffer == old(validCh.buffer) && processedCh.buffer == old(processedCh.buffer) && errorCh.buffer == old(errorCh.buffer)
  {
    var i := 0;
    while i < numWorkers
      invariant 0 <= i && (numWorkers <= 0 ==> i == 0)
      invariant wg.counter == old(wg.counter) && transformerWg.counter == old(transformerWg.counter) && errorWg.counter == old(errorWg.counter)
      invariant validCh.closed && !processedCh.closed && !errorCh.closed
      invariant i > 0 ==>
        validCh.buffer == [] &&
        processedCh.buffer == old(processedCh.buffer) + ProcessedOf(old(validCh.buffer), clock) &&
        errorCh.buffer == old(errorCh.buffer) + FailedOf(old(validCh.buffer), clock)
      invariant i == 0 ==>
        validCh.buffer == old(validCh.buffer) && processedCh.buffer == old(processedCh.buffer) && errorCh.buffer == old(errorCh.buffer)
    {
      var a1 := wg.Add(1);
      var a2 := transformerWg.Add(1);
      var a3 := errorWg.Add(1);
      ghost var before := validCh.buffer;
      var exit := Transformer(validCh, processedCh, errorCh, clock);
      assert exit == Returned;
      if i > 0 {
        assert before == [] && Transformations([], clock) == [];
      }
      var d3 := errorWg.Done();
      var d2 := transformerWg.Done();
      var d1 := wg.Done();
      i := i + 1;
    }
  }

  /** What reaches the loader: the records that pass both stages. */
  function LoadedOf(produced: seq<DataRecord>, clock: nat -> Time): seq<ProcessedRecord> {
    ProcessedOf(ValidOf(produced), clock)
  }

  /** What reaches the error handler: the validation failures, then the
      transformation failures. */
  function HandledOf(produced: seq<DataRecord>, clock: nat -> Time): seq<DataRecord> {
    InvalidOf(produced) + FailedOf(ValidOf(produced), clock)
  }

  /** Steps 1 and 2 of RunAdvancedPipeline: the producer, the validators,
      and the goroutine that closes validCh once validatorWg reaches zero. */
  method ProduceAndValidate(numRecords: int, numWorkers: int, draw: nat -> real, stamps: nat -> Time,
                            dataCh: Channel<DataRecord>, validCh: Channel<DataRecord>, errorCh: Channel<DataRecord>,
                            wg: WaitGroup, validatorWg: WaitGroup, errorWg: WaitGroup)
    requires dataCh != validCh && dataCh != errorCh && validCh != errorCh
    requires wg != validatorWg && wg != errorWg && validatorWg != errorWg
    requires dataCh.buffer == [] && validCh.buffer == [] && errorCh.buffer == []
    requires !dataCh.closed && !validCh.closed && !errorCh.closed
    requires wg.counter == 0 && validatorWg.counter == 0 && errorWg.counter == 0
    modifies dataCh, validCh, errorCh, wg, validatorWg, errorWg
    ensures wg.counter == 0 && validatorWg.counter == 0 && errorWg.counter == 0
    ensures dataCh.closed && dataCh.buffer == if numWorkers > 0 then [] else Produced(Count(numRecords), draw, stamps)
    ensures validCh.closed && !errorCh.closed
    ensures validCh.buffer == if numWorkers > 0 then ValidOf(Produced(Count(numRecords), draw, stamps)) else []
    ensures errorCh.buffer == if numWorkers > 0 then InvalidOf(Produced(Count(numRecords), draw, stamps)) else []
  {
    var ok := wg.Add(1);
    var exit := Producer(dataCh, numRecords, draw, stamps);
    assert exit == Returned;
    ghost var produced := dataCh.buffer;
    assert produced == Produced(Count(numRecords), draw, stamps);
    ok := wg.Done();
    assert dataCh.buffer == produced && validCh.buffer == [] && errorCh.buffer == [];
    StartValidators(numWorkers, dataCh, validCh, errorCh, wg, validatorWg, errorWg);
    assert validCh.buffer == if numWorkers > 0 then ValidOf(produced) else [];
    exit := CloseWhenReleased(validatorWg, validCh);
    assert exit == Returned;
  }

  /** Step 3: the transformers, then the goroutines that close processedCh
      once transformerWg reaches zero and errorCh once errorWg does. */
  method TransformAndClose(numWorkers: int, clock: nat -> Time,
                           validCh: Channel<DataRecord>, processedCh: Channel<ProcessedRecord>, errorCh: Channel<DataRecord>,
                           wg: WaitGroup, transformerWg: WaitGroup, errorWg: WaitGroup)
    requires validCh != errorCh && processedCh as object != validCh && processedCh as object != errorCh
    requires wg != transformerWg && wg != errorWg && transformerWg != errorWg
    requires validCh.closed && !processedCh.closed && !errorCh.closed && processedCh.buffer == []
    requires wg.counter == 0 && transformerWg.counter == 0 && errorWg.counter == 0
    modifies validCh, processedCh, errorCh, wg, transformerWg, errorWg
    ensures wg.counter == 0 && transformerWg.counter == 0 && errorWg.counter == 0
    ensures validCh.closed && validCh.buffer == if numWorkers > 0 then [] else old(validCh.buffer)
    ensures processedCh.closed && errorCh.closed
    ensures processedCh.buffer == if numWorkers > 0 then ProcessedOf(old(validCh.buffer), clock) else []
    ensures errorCh.buffer == old(errorCh.buffer) + if numWorkers > 0 then FailedOf(old(validCh.buffer), clock) else []
  {
    StartTransformers(numWorkers, validCh, processedCh, errorCh, wg, transformerWg, errorWg, clock);
    var exit := CloseWhenReleased(transformerWg, processedCh);
    assert exit == Returned;
    exit := CloseWhenReleased(errorWg, errorCh);
    assert exit == Returned;
  }

  /** The two fan-outs, the loader, the error handler and the metrics
      collector, which here receives the whole processed stream first. */
  method Distribute(processedCh: Channel<ProcessedRecord>, errorCh: Channel<DataRecord>,
                    loaderCh: Channel<ProcessedRecord>, metricsProcessedCh: Channel<ProcessedRecord>,
                    errorHandlerCh: Channel<DataRecord>, metricsErrorCh: Channel<DataRecord>, wg: WaitGroup)
    returns (metrics: Metrics, loaded: seq<ProcessedRecord>, handled: seq<DataRecord>)
    requires processedCh != loaderCh && processedCh != metricsProcessedCh && loaderCh != metricsProcessedCh
    requires errorCh != errorHandlerCh && errorCh != metricsErrorCh && errorHandlerCh != metricsErrorCh
    requires processedCh.closed && errorCh.closed
    requires !loaderCh.closed && !metricsProcessedCh.closed && !errorHandlerCh.closed && !metricsErrorCh.closed
    requires loaderCh.buffer == [] && metricsProcessedCh.buffer == [] && errorHandlerCh.buffer == [] && metricsErrorCh.buffer == []
    requires wg.counter == 0
    modifies processedCh, errorCh, loaderCh, metricsProcessedCh, errorHandlerCh, metricsErrorCh, wg
    ensures wg.Released()
    ensures processedCh.closed && errorCh.closed && processedCh.buffer == [] && errorCh.buffer == []
    ensures loaderCh.closed && metricsProcessedCh.closed && errorHandlerCh.closed && metricsErrorCh.closed
    ensures loaderCh.buffer == [] && metricsProcessedCh.buffer == [] && errorHandlerCh.buffer == [] && metricsErrorCh.buffer == []
    ensures loaded == old(processedCh.buffer) && handled == old(errorCh.buffer)
    ensures metrics == Tally(loaded, handled)
  {
    var ok := wg.Add(1);
    var exit := FanOut(processedCh, loaderCh, metricsProcessedCh);
    assert exit == Returned;
    ok := wg.Done();
    ok := wg.Add(1);
    exit := FanOut(errorCh, errorHandlerCh, metricsErrorCh);
    assert exit == Returned;
    ok := wg.Done();

    ok := wg.Add(1);
    loaded, exit := Drain(loaderCh);
    assert exit == Returned;
    ok := wg.Done();
    ok := wg.Add(1);
    handled, exit := Drain(errorHandlerCh);
    assert exit == Returned;
    ok := wg.Done();

    ok := wg.Add(1);
    var ps, e1 := Drain(metricsProcessedCh);
    var es, e2 := Drain(metricsErrorCh);
    StreamsInTurnFeasible(ps, es);
    StreamsInTurnDelivers(ps, es);
    var finished;
    metrics, finished := MetricsCollector(StreamsInTurn(ps, es));
    assert finished;
    ok := wg.Done();
  }

  /** RunAdvancedPipeline(numRecords, numWorkers). `draw` and `stamps` stand
      for the producer's random draws and clock readings, `clock` for the
      transformers'. Every send and close succeeds, every goroutine returns
      and wg.Wait() returns; the result is the metrics collector's, and the
      loader and error handler write what the two stages route to them. With
      no workers nothing is validated and the metrics stay zero. */
  method RunAdvancedPipeline(numRecords: int, numWorkers: int, draw: nat -> real, stamps: nat -> Time, clock: nat -> Time)
    returns (metrics: Metrics, loaded: seq<ProcessedRecord>, handled: seq<DataRecord>)
    ensures numWorkers > 0 ==>
      loaded == LoadedOf(Produced(Count(numRecords), draw, stamps), clock) &&
      handled == HandledOf(Produced(Count(numRecords), draw, stamps), clock)
    ensures numWorkers <= 0 ==> loaded == [] && handled == []
    ensures metrics == Tally(loaded, handled)
    ensures metrics.ProcessedCount == |loaded| && metrics.ErrorCount == |handled|
    ensures metrics.ProcessedCount + metrics.ErrorCount == if numWorkers > 0 then Count(numRecords) else 0
  {
    Conservation(Produced(Count(numRecords), draw, stamps), clock);
    var dataCh := new Channel<DataRecord>();
    var validCh := new Channel<DataRecord>();
    var processedCh := new Channel<ProcessedRecord>();
    var errorCh := new Channel<DataRecord>();
    var wg := new WaitGroup();
    var validatorWg := new WaitGroup();
    var transformerWg := new WaitGroup();
    var errorWg := new WaitGroup();

    ProduceAndValidate(numRecords, numWorkers, draw, stamps, dataCh, validCh, errorCh, wg, validatorWg, errorWg);
    TransformAndClose(numWorkers, clock, validCh, processedCh, errorCh, wg, transformerWg, errorWg);
    // The consumers' channels; when they are made has no effect.
    var loaderCh := new Channel<ProcessedRecord>();
    var errorHandlerCh := new Channel<DataRecord>();
    var metricsProcessedCh := new Channel<ProcessedRecord>();
    var metricsErrorCh := new Channel<DataRecord>();
    metrics, loaded, handled := Distribute(processedCh, errorCh, loaderCh, metricsProcessedCh, errorHandlerCh, metricsErrorCh, wg);
    // wg.Wait()
    assert wg.Released();
  }

  /** Every record produced ends in exactly one of the two sinks. */
  lemma Conservation(produced: seq<DataRecord>, clock: nat -> Time)
    ensures |LoadedOf(produced, clock)| + |HandledOf(produced, clock)| == |produced|
  {
    RoutingConserves(Validations(produced));
    RoutingConserves(Transformations(ValidOf(produced), clock));
  }

  /** What the sinks hold. Every record at the error handler carries an
      error message and the status of the stage that rejected it; every
      record at the loader is processed and has a value in [0, 1000], and
      carries no error when no produced record did. */
  lemma SinkContents(produced: seq<DataRecord>, clock: nat -> Time)
    ensures forall k :: 0 <= k < |HandledOf(produced, clock)| ==>
      HandledOf(produced, clock)[k].Error != "" &&
      (HandledOf(produced, clock)[k].Status == StatusInvalid || HandledOf(produced, clock)[k].Status == StatusTransformationError)
    ensures forall k :: 0 <= k < |LoadedOf(produced, clock)| ==>
      LoadedOf(produced, clock)[k].Status() == StatusProcessed &&
      MinValue <= LoadedOf(produced, clock)[k].Value() <= MaxValue
    ensures (forall i :: 0 <= i < |produced| ==> produced[i].Error == "") ==>
      forall k :: 0 <= k < |LoadedOf(produced, clock)| ==> LoadedOf(produced, clock)[k].Error() == ""
  {
    var vs := Validations(produced);
    var valid := ValidOf(produced);
    var ts := Transformations(valid, clock);
    AcceptedInOrder(vs);
    RejectedInOrder(vs);
    AcceptedInOrder(ts);
    RejectedInOrder(ts);
    var handled := HandledOf(produced, clock);
    forall k | 0 <= k < |handled|
      ensures handled[k].Error != "" && (handled[k].Status == StatusInvalid || handled[k].Status == StatusTransformationError)
    {
      if k < |Rejected(vs)| {
        var m := RejectedAt(vs)[k];
        assert vs[m] == Reject(handled[k]) && vs[m] == Validate(produced[m]);
      } else {
        var j := RejectedAt(ts)[k - |Rejected(vs)|];
        assert ts[j] == Reject(handled[k]) && ts[j] == Transform(valid[j], clock(j));
      }
    }
    var loaded := LoadedOf(produced, clock);
    forall k | 0 <= k < |loaded|
      ensures loaded[k].Status() == StatusProcessed && MinValue <= loaded[k].Value() <= MaxValue
      ensures (forall i :: 0 <= i < |produced| ==> produced[i].Error == "") ==> loaded[k].Error() == ""
    {
      var j := AcceptedAt(ts)[k];
      assert ts[j] == Accept(loaded[k]) && ts[j] == Transform(valid[j], clock(j));
      var m := AcceptedAt(vs)[j];
      assert vs[m] == Accept(valid[j]) && vs[m] == Validate(produced[m]);
    }
  }

  /** Where record i of the package producer ends: a record with i % 10 == 0
      fails validation with status "invalid"; of the rest, exactly those with
      i % 11 == 0 fail the unit check; every other record is processed. */
  lemma ProducedRoute(i: nat, draw: real, stamp: Time, at: Time)
    requires IsDraw(draw)
    ensures Validate(ProducedRecord(i, draw, stamp)).Reject? <==> i % 10 == 0
    ensures i % 10 == 0 ==> Validate(ProducedRecord(i, draw, stamp)).failed.Status == StatusInvalid
    ensures i % 10 != 0 ==> (Transform(ProducedRecord(i, draw, stamp), at).Reject? <==> i % 11 == 0)
  {
    if i % 10 != 0 {
      ProducedValueRange(i, draw, stamp);
    }
  }

  /** The indices below n that the producer sends down the error path. */
  function ErrorIndices(n: nat): nat {
    if n == 0 then 0 else ErrorIndices(n - 1) + (if (n - 1) % 10 == 0 || (n - 1) % 11 == 0 then 1 else 0)
  }

  /** One more record at the end of the input reaches the error handler
      exactly when validation or the unit check rejects it. */
  lemma HandledSnoc(q: seq<DataRecord>, r: DataRecord, clock: nat -> Time)
    ensures |HandledOf(q + [r], clock)| == |HandledOf(q, clock)| +
      (if Validate(r).Reject? || Transform(r, clock(|ValidOf(q)|)).Reject? then 1 else 0)
  {
    ValidationsAppend(q, [r]);
    RoutingSnoc(Validations(q), Validate(r));
    var v := ValidOf(q);
    assert ValidOf(q + [r]) == v + (if Validate(r).Accept? then [r] else []);
    TransformationsSnoc(v, r, clock);
    RoutingSnoc(Transformations(v, clock), Transform(r, clock(|v|)));
    if Validate(r).Accept? {
      assert FailedOf(v + [r], clock) == FailedOf(v, clock) + (if Transform(r, clock(|v|)).Reject? then [Transform(r, clock(|v|)).failed] else []);
    } else {
      assert ValidOf(q + [r]) == v;
    }
  }

  /** With the package producer, the error handler receives one record for
      each index i with i % 10 == 0 or i % 11 == 0, and the loader the rest. */
  lemma {:induction false} ErrorPathCount(n: nat, draw: nat -> real, stamps: nat -> Time, clock: nat -> Time)
    requires forall k: nat :: IsDraw(draw(k))
    ensures |HandledOf(Produced(n, draw, stamps), clock)| == ErrorIndices(n)
    ensures |LoadedOf(Produced(n, draw, stamps), clock)| == n - ErrorIndices(n)
  {
    Conservation(Produced(n, draw, stamps), clock);
    if n > 0 {
      var q := Produced(n - 1, draw, stamps);
      var r := ProducedRecord(n - 1, draw(n - 1), stamps(n - 1));
      ErrorPathCount(n - 1, draw, stamps, clock);
      ProducedStep(n - 1, draw, stamps);
      HandledSnoc(q, r, clock);
      ProducedRoute(n - 1, draw(n - 1), stamps(n - 1), clock(|ValidOf(q)|));
    }
  }

  /** The produced index a record at the error handler comes from: its ID
      names it, and the index is one that validation or the unit check
      rejects. */
  lemma HandledOrigin(n: nat, draw: nat -> real, stamps: nat -> Time, clock: nat -> Time, k: nat)
    returns (m: nat)
    requires forall k: nat :: IsDraw(draw(k))
    requires k < |HandledOf(Produced(n, draw, stamps), clock)|
    ensures m < n && HandledOf(Produced(n, draw, stamps), clock)[k].ID == RecordId(m)
    ensures m % 10 == 0 || m % 11 == 0
  {
    var produced := Produced(n, draw, stamps);
    var vs := Validations(produced);
    var valid := ValidOf(produced);
    var ts := Transformations(valid, clock);
    var handled := HandledOf(produced, clock);
    AcceptedInOrder(vs);
    RejectedInOrder(vs);
    if k < |Rejected(vs)| {
      m := RejectedAt(vs)[k];
      assert vs[m] == Reject(handled[k]) && vs[m] == Validate(produced[m]);
      ProducedRoute(m, draw(m), stamps(m), 0);
    } else {
      RejectedInOrder(ts);
      var j := RejectedAt(ts)[k - |Rejected(vs)|];
      assert ts[j] == Reject(handled[k]) && ts[j] == Transform(valid[j], clock(j));
      m := AcceptedAt(vs)[j];
      assert vs[m] == Accept(valid[j]) && vs[m] == Validate(produced[m]);
      ProducedRoute(m, draw(m), stamps(m), clock(j));
    }
  }

  /** The produced index a record at the loader comes from: its ID names
      it, and both stages accept the record at that index. */
  lemma LoadedOrigin(n: nat, draw: nat -> real, stamps: nat -> Time, clock: nat -> Time, k: nat)
    returns (m: nat)
    requires forall k: nat :: IsDraw(draw(k))
    requires k < |LoadedOf(Produced(n, draw, stamps), clock)|
    ensures m < n && LoadedOf(Produced(n, draw, stamps), clock)[k].ID() == RecordId(m)
    ensures !(m % 10 == 0 || m % 11 == 0)
  {
    var produced := Produced(n, draw, stamps);
    var vs := Validations(produced);
    var valid := ValidOf(produced);
    var ts := Transformations(valid, clock);
    var loaded := LoadedOf(produced, clock);
    AcceptedInOrder(vs);
    AcceptedInOrder(ts);
    var j := AcceptedAt(ts)[k];
    assert ts[j] == Accept(loaded[k]) && ts[j] == Transform(valid[j], clock(j));
    m := AcceptedAt(vs)[j];
    assert vs[m] == Accept(valid[j]) && vs[m] == Validate(produced[m]);
    ProducedRoute(m, draw(m), stamps(m), clock(j));
  }

  /** Where record i of the package producer ends: at position k of the
      error handler's input when validation or the unit check rejects it,
      and at position k of the loader's input otherwise. */
  lemma Destination(n: nat, draw: nat -> real, stamps: nat -> Time, clock: nat -> Time, i: nat)
    returns (k: nat, toHandler: bool)
    requires forall k: nat :: IsDraw(draw(k))
    requires i < n
    ensures toHandler <==> (i % 10 == 0 || i % 11 == 0)
    ensures toHandler ==> k < |HandledOf(Produced(n, draw, stamps), clock)| &&
                          HandledOf(Produced(n, draw, stamps), clock)[k].ID == RecordId(i)
    ensures !toHandler ==> k < |LoadedOf(Produced(n, draw, stamps), clock)| &&
                           LoadedOf(Produced(n, draw, stamps), clock)[k].ID() == RecordId(i)
  {
    var produced := Produced(n, draw, stamps);
    var vs := Validations(produced);
    var valid := ValidOf(produced);
    var ts := Transformations(valid, clock);
    ProducedRoute(i, draw(i), stamps(i), 0);
    toHandler := i % 10 == 0 || i % 11 == 0;
    if i % 10 == 0 {
      k := RejectedIndex(vs, i);
    } else {
      var j := AcceptedIndex(vs, i);
      assert valid[j] == produced[i];
      ProducedRoute(i, draw(i), stamps(i), clock(j));
      if i % 11 == 0 {
        var h := RejectedIndex(ts, j);
        k := |Rejected(vs)| + h;
      } else {
        k := AcceptedIndex(ts, j);
      }
    }
  }

  /** With the package producer, the record with ID RecordId(i) reaches the
      error handler exactly when i % 10 == 0 or i % 11 == 0, and the loader
      exactly otherwise. */
  lemma ErrorPathIds(n: nat, draw: nat -> real, stamps: nat -> Time, clock: nat -> Time, i: nat)
    requires forall k: nat :: IsDraw(draw(k))
    requires i < n
    ensures (exists k :: 0 <= k < |HandledOf(Produced(n, draw, stamps), clock)| &&
               HandledOf(Produced(n, draw, stamps), clock)[k].ID == RecordId(i))
            <==> (i % 10 == 0 || i % 11 == 0)
    ensures (exists k :: 0 <= k < |LoadedOf(Produced(n, draw, stamps), clock)| &&
               LoadedOf(Produced(n, draw, stamps), clock)[k].ID() == RecordId(i))
            <==> !(i % 10 == 0 || i % 11 == 0)
  {
    var produced := Produced(n, draw, stamps);
    var handled := HandledOf(produced, clock);
    var loaded := LoadedOf(produced, clock);
    // A sink record with this ID comes from index i itself.
    forall k | 0 <= k < |handled| && handled[k].ID == RecordId(i)
      ensures i % 10 == 0 || i % 11 == 0
    {
      var m := HandledOrigin(n, draw, stamps, clock, k);
      RecordIdInjective(m, i);
    }
    forall k | 0 <= k < |loaded| && loaded[k].ID() == RecordId(i)
      ensures !(i % 10 == 0 || i % 11 == 0)
    {
      var m := LoadedOrigin(n, draw, stamps, clock, k);
      RecordIdInjective(m, i);
    }
    // Record i itself reaches the sink its index names.
    var k, toHandler := Destination(n, draw, stamps, clock, i);
  }

  /** Index 10m + j of a decade (m, j < 10) is a multiple of 10 exactly when
      j is 0, and a multiple of 11 exactly when j is m. */
  lemma DecadeIndex(m: nat, j: nat)
    requires m < 10 && j < 10
    ensures (10 * m + j) % 10 == 0 <==> j == 0
    ensures (10 * m + j) % 11 == 0 <==> j == m
  {
    if j >= m {
      assert 10 * m + j == 11 * m + (j - m);
    } else {
      assert 10 * m + j == 11 * (m - 1) + (11 + j - m);
    }
  }

  /** The first decade holds one error index: 0, a multiple of both. */
  lemma ErrorIndicesFirstDecade()
    ensures ErrorIndices(10) == 1
  {
    var j := 0;
    while j < 10
      invariant 0 <= j <= 10
      invariant ErrorIndices(j) == (if j > 0 then 1 else 0)
    {
      DecadeIndex(0, j);
      j := j + 1;
    }
  }

  /** Every later decade [10m, 10m + 10) below 100 holds two: 10m and 11m. */
  lemma ErrorIndicesDecade(m: nat)
    requires 1 <= m < 10
    ensures ErrorIndices(10 * m + 10) == ErrorIndices(10 * m) + 2
  {
    var j := 0;
    while j < 10
      invariant 0 <= j <= 10
      invariant ErrorIndices(10 * m + j) == ErrorIndices(10 * m) + (if j > 0 then 1 else 0) + (if j > m then 1 else 0)
    {
      DecadeIndex(m, j);
      j := j + 1;
    }
  }

  lemma ErrorIndicesFifty()
    ensures ErrorIndices(50) == 9
  {
    ErrorIndicesFirstDecade();
    ErrorIndicesDecade(1);
    ErrorIndicesDecade(2);
    ErrorIndicesDecade(3);
    ErrorIndicesDecade(4);
  }

  /** Fifty records: nine errors (indices 0, 10, 20, 30, 40, 11, 22, 33, 44)
      and forty-one processed records. */
  lemma FiftyRecords(draw: nat -> real, stamps: nat -> Time, clock: nat -> Time)
    requires forall k: nat :: IsDraw(draw(k))
    ensures |HandledOf(Produced(50, draw, stamps), clock)| == 9
    ensures |LoadedOf(Produced(50, draw, stamps), clock)| == 41
  {
    ErrorPathCount(50, draw, stamps, clock);
    ErrorIndicesFifty();
  }
}
