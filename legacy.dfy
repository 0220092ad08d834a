// The stage goroutines of src/main.go, an older copy of the pipeline. Its
// per-record rules are those of pkg/pipeline (Validation.Validate and
// Transformation.Transform); what differs is the producer (a value in
// [10, 110), a sensor and a room, every seventh record out of range) and
// the goroutines' own bookkeeping: each takes a WaitGroup and calls Done on
// the way out, and every validator and every transformer closes its output
// channel when its input is drained.

module LegacyMain {
  import opened Types
  import opened Format
  import opened Channels
  import opened Validation
  import opened Transformation
  import opened MetricsCollection
  import opened Production

  const LegacyUnit := "Celsius"
  const SensorPrefix := "sensor-"
  const RoomPrefix := "Room-"
  /** time.Second, with clock readings counted in nanoseconds. */
  const Second: Time := 1_000_000_000

  /** The random numbers one record consumes: rand.Intn(5), rand.Float64()
      and rand.Intn(3), in the order the record literal evaluates them. */
  datatype Draws = Draws(sensor: nat, value: real, room: nat)

  predicate IsLegacyDraw(d: Draws) {
    d.sensor < 5 && IsDraw(d.value) && d.room < 3
  }

  /** Record i, given its draws and the clock reading `now` taken for it:
      stamped i seconds after that reading, with a value of 10 plus 100
      times the draw, except that every seventh record carries -1 and every
      eleventh the unit "INVALID_UNIT". */
  function LegacyRecord(i: nat, d: Draws, now: Time): (r: DataRecord)
    ensures r.ID == RecordId(i) && r.Timestamp == now + i * Second
    ensures r.SensorID == SensorPrefix + Decimal(d.sensor + 1) && r.Location == RoomPrefix + Decimal(d.room + 1)
    ensures r.Value == if i % 7 == 0 then InjectedValue else d.value * 100.0 + 10.0
    ensures r.Unit == if i % 11 == 0 then InvalidUnit else LegacyUnit
    ensures r.Status == StatusRaw && r.Error == ""
  {
    var r := DataRecord(RecordId(i), now + i * Second, SensorPrefix + Decimal(d.sensor + 1),
      d.value * 100.0 + 10.0, LegacyUnit, RoomPrefix + Decimal(d.room + 1), StatusRaw, "");
    var r := if i % 7 == 0 then r.(Value := InjectedValue) else r;
    if i % 11 == 0 then r.(Unit := InvalidUnit) else r
  }

  /** The first n records of a run, in the order they are sent; clock(i)
      is the time.Now() reading taken for record i. */
  function LegacyProduced(n: nat, draws: nat -> Draws, clock: nat -> Time): (s: seq<DataRecord>)
    ensures |s| == n
    ensures forall i :: 0 <= i < n ==> s[i] == LegacyRecord(i, draws(i), clock(i))
  {
    seq(n, i requires 0 <= i < n => LegacyRecord(i, draws(i), clock(i)))
  }

  lemma LegacyProducedStep(n: nat, draws: nat -> Draws, clock: nat -> Time)
    ensures LegacyProduced(n + 1, draws, clock) == LegacyProduced(n, draws, clock) + [LegacyRecord(n, draws(n), clock(n))]
  {
    var a, b := LegacyProduced(n + 1, draws, clock), LegacyProduced(n, draws, clock) + [LegacyRecord(n, draws(n), clock(n))];
    assert |a| == |b|;
    forall k | 0 <= k < |a| ensures a[k] == b[k] {
    }
  }

  /** A value that was not overridden lies in [10, 110). */
  lemma LegacyValueRange(i: nat, d: Draws, now: Time)
    requires IsLegacyDraw(d) && i % 7 != 0
    ensures 10.0 <= LegacyRecord(i, d, now).Value < 110.0
  {
  }

  /** The sensor is one of "sensor-1" .. "sensor-5" and the location one of
      "Room-1" .. "Room-3". */
  lemma LegacyLabels(i: nat, d: Draws, now: Time)
    requires IsLegacyDraw(d)
    ensures var s := LegacyRecord(i, d, now).SensorID;
      |s| == |SensorPrefix| + 1 && s[..|SensorPrefix|] == SensorPrefix && '1' <= s[|SensorPrefix|] <= '5'
    ensures var l := LegacyRecord(i, d, now).Location;
      |l| == |RoomPrefix| + 1 && l[..|RoomPrefix|] == RoomPrefix && '1' <= l[|RoomPrefix|] <= '3'
  {
    assert Decimal(d.sensor + 1) == [DigitChar(d.sensor + 1)];
    assert Decimal(d.room + 1) == [DigitChar(d.room + 1)];
  }

  /** With a clock that never goes backwards, later records carry strictly
      later timestamps: each is shifted one more second than the one before. */
  lemma LegacyTimestampsIncrease(n: nat, draws: nat -> Draws, clock: nat -> Time)
    requires forall i: nat, j: nat :: i <= j ==> clock(i) <= clock(j)
    ensures forall i, j :: 0 <= i < j < n ==>
      LegacyProduced(n, draws, clock)[i].Timestamp < LegacyProduced(n, draws, clock)[j].Timestamp
  {
    forall i, j | 0 <= i < j < n
      ensures LegacyProduced(n, draws, clock)[i].Timestamp < LegacyProduced(n, draws, clock)[j].Timestamp
    {
      assert clock(i) <= clock(j);
      assert i * Second < j * Second;
    }
  }

  /** Where record i ends: a record with i % 7 == 0 fails validation with
      status "invalid"; of the rest, exactly those with i % 11 == 0 fail the
      unit check; every other record is processed. */
  lemma LegacyRoute(i: nat, d: Draws, now: Time, at: Time)
    requires IsLegacyDraw(d)
    ensures Validate(LegacyRecord(i, d, now)).Reject? <==> i % 7 == 0
    ensures i % 7 == 0 ==> Validate(LegacyRecord(i, d, now)).failed.Status == StatusInvalid
    ensures i % 7 != 0 ==> (Transform(LegacyRecord(i, d, now), at).Reject? <==> i % 11 == 0)
  {
    if i % 7 != 0 {
      LegacyValueRange(i, d, now);
    }
  }

  /** defer wg.Done(): runs once the goroutine leaves, also on a panic, and
      panics itself when the counter is already zero. */
  method Leave(wg: WaitGroup, exit: Exit) returns (final: Exit)
    modifies wg
    ensures exit == Suspended ==> final == Suspended && wg.counter == old(wg.counter)
    ensures exit != Suspended ==> wg.counter == (if old(wg.counter) >= 1 then old(wg.counter) - 1 else old(wg.counter))
    ensures exit != Suspended ==> (final == Returned <==> exit == Returned && old(wg.counter) >= 1)
    ensures exit != Suspended ==> final != Suspended
  {
    final := exit;
    if exit != Suspended {
      var ok := wg.Done();
      if !ok {
        final := Panicked;
      }
    }
  }

  /** producer: sends records 0 .. numRecords-1, closes dataCh and calls Done. */
  method LegacyProducer(dataCh: Channel<DataRecord>, wg: WaitGroup, numRecords: int, draws: nat -> Draws, clock: nat -> Time)
    returns (exit: Exit)
    modifies dataCh, wg
    ensures exit == Returned <==> !old(dataCh.closed) && old(wg.counter) >= 1
    ensures exit != Suspended && dataCh.closed
    ensures dataCh.buffer == old(dataCh.buffer) + (if old(dataCh.closed) then [] else LegacyProduced(Count(numRecords), draws, clock))
    ensures wg.counter == if old(wg.counter) >= 1 then old(wg.counter) - 1 else old(wg.counter)
  {
    var i := 0;
    exit := Returned;
    while i < numRecords
      invariant 0 <= i <= Count(numRecords)
      invariant dataCh.closed == old(dataCh.closed) && wg.counter == old(wg.counter)
      invariant dataCh.buffer == old(dataCh.buffer) + LegacyProduced(i, draws, clock)
      invariant i > 0 ==> !old(dataCh.closed)
    {
      var ok := dataCh.Send(LegacyRecord(i, draws(i), clock(i)));
      if !ok {
        exit := Panicked;
        break;
      }
      LegacyProducedStep(i, draws, clock);
      i := i + 1;
    }
    if exit == Returned {
      var ok := dataCh.Close();
      if !ok {
        exit := Panicked;
      }
    }
    exit := Leave(wg, exit);
  }

  /** validator: the pkg validator loop, then close(validCh), then Done.
      Every validator closes validCh, so with two of them on the same
      channel the second close panics. */
  method LegacyValidator(inCh: Channel<DataRecord>, validCh: Channel<DataRecord>, errorCh: Channel<DataRecord>, wg: WaitGroup)
    returns (exit: Exit)
    requires inCh != validCh && inCh != errorCh && validCh != errorCh
    modifies inCh, validCh, errorCh, wg
    ensures exit == Returned <==>
      old(inCh.closed) && !old(validCh.closed) && !(old(errorCh.closed) && InvalidOf(old(inCh.buffer)) != []) &&
      old(wg.counter) >= 1
    ensures exit != Panicked ==>
      inCh.buffer == [] &&
      validCh.buffer == old(validCh.buffer) + ValidOf(old(inCh.buffer)) &&
      errorCh.buffer == old(errorCh.buffer) + InvalidOf(old(inCh.buffer))
    ensures exit == Returned ==> validCh.closed && wg.counter == old(wg.counter) - 1
    ensures old(inCh.closed) && old(validCh.closed) ==> exit == Panicked
    ensures validCh.closed == (old(validCh.closed) || (old(inCh.closed) && !(old(errorCh.closed) && InvalidOf(old(inCh.buffer)) != [])))
    ensures wg.counter == if exit != Suspended && old(wg.counter) >= 1 then old(wg.counter) - 1 else old(wg.counter)
    ensures inCh.closed == old(inCh.closed) && errorCh.closed == old(errorCh.closed)
  {
    exit := Validator(inCh, validCh, errorCh);
    if exit == Returned {
      var ok := validCh.Close();
      if !ok {
        exit := Panicked;
      }
    }
    exit := Leave(wg, exit);
  }

  /** transformer: the pkg transformer loop, then close(out), then Done.
      Every transformer closes `out`, so with two of them on the same
      channel the second close panics. */
  method LegacyTransformer(inCh: Channel<DataRecord>, out: Channel<ProcessedRecord>, errorCh: Channel<DataRecord>,
                           wg: WaitGroup, clock: nat -> Time)
    returns (exit: Exit)
    requires inCh != errorCh && out as object != inCh && out as object != errorCh
    modifies inCh, out, errorCh, wg
    ensures exit == Returned <==>
      old(inCh.closed) && !old(out.closed) && !(old(errorCh.closed) && FailedOf(old(inCh.buffer), clock) != []) &&
      old(wg.counter) >= 1
    ensures exit != Panicked ==>
      inCh.buffer == [] &&
      out.buffer == old(out.buffer) + ProcessedOf(old(inCh.buffer), clock) &&
      errorCh.buffer == old(errorCh.buffer) + FailedOf(old(inCh.buffer), clock)
    ensures exit == Returned ==> out.closed && wg.counter == old(wg.counter) - 1
    ensures old(inCh.closed) && old(out.closed) ==> exit == Panicked
    ensures out.closed == (old(out.closed) || (old(inCh.closed) && !(old(errorCh.closed) && FailedOf(old(inCh.buffer), clock) != [])))
    ensures wg.counter == if exit != Suspended && old(wg.counter) >= 1 then old(wg.counter) - 1 else old(wg.counter)
    ensures inCh.closed == old(inCh.closed) && errorCh.closed == old(errorCh.closed)
  {
    exit := Transformer(inCh, out, errorCh, clock);
    if exit == Returned {
      var ok := out.Close();
      if !ok {
        exit := Panicked;
      }
    }
    exit := Leave(wg, exit);
  }

  /** metricsCollector: the pkg collector loop, then Done once both inputs
      have been closed; while one is still open the goroutine waits. */
  method LegacyMetricsCollector(schedule: seq<Event>, wg: WaitGroup) returns (m: Metrics, exit: Exit)
    requires Feasible(schedule)
    modifies wg
    ensures m == Tally(Procs(schedule), Errs(schedule))
    ensures exit == Suspended <==> !(CloseP in schedule && CloseE in schedule)
    ensures exit == Returned <==> CloseP in schedule && CloseE in schedule && old(wg.counter) >= 1
    ensures wg.counter == if exit == Returned then old(wg.counter) - 1 else old(wg.counter)
  {
    var finished;
    m, finished := MetricsCollector(schedule);
    exit := Leave(wg, if finished then Returned else Suspended);
  }

  /** Two validators on one validCh, as the coordinator starts them with
      numWorkers >= 2: once dataCh is closed and drained the first closes
      validCh and the second panics on the same close. The two transformers
      reading the closed validCh then do the same to processedCh. */
  method SharedOutputDoubleClose() returns (first: Exit, second: Exit, firstT: Exit, secondT: Exit)
    ensures first == Returned && second == Panicked
    ensures firstT == Returned && secondT == Panicked
  {
    var dataCh := new Channel<DataRecord>();
    var validCh := new Channel<DataRecord>();
    var errorCh := new Channel<DataRecord>();
    var processedCh := new Channel<ProcessedRecord>();
    var workerWg := new WaitGroup();
    var ok := workerWg.Add(4);
    ok := dataCh.Close();
    first := LegacyValidator(dataCh, validCh, errorCh, workerWg);
    second := LegacyValidator(dataCh, validCh, errorCh, workerWg);
    firstT := LegacyTransformer(validCh, processedCh, errorCh, workerWg, _ => 0);
    secondT := LegacyTransformer(validCh, processedCh, errorCh, workerWg, _ => 0);
  }
}
