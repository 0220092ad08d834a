// The producer (pkg/pipeline/producer.go): record i of a run is built from
// its index, one random draw and one clock reading; every tenth record gets
// an out-of-range value and every eleventh an invalid unit; the output is
// closed after the last send.

module Production {
  import opened Types
  import opened Format
  import opened Channels
  import Transformation

  const DefaultUnit := "unit_A"
  const InjectedValue: real := -1.0

  /** A draw of rand.Float64(): a number in [0, 1). */
  predicate IsDraw(d: real) { 0.0 <= d < 1.0 }

  /** Record i of a run, given the draw and the clock reading taken for it.
      SensorID, Location and Error are left empty. */
  function ProducedRecord(i: nat, draw: real, stamp: Time): (r: DataRecord)
    ensures r.ID == RecordId(i) && r.Timestamp == stamp && r.Status == StatusRaw
    ensures r.SensorID == "" && r.Location == "" && r.Error == ""
    ensures r.Value == if i % 10 == 0 then InjectedValue else draw * 100.0
    ensures r.Unit == if i % 11 == 0 then Transformation.InvalidUnit else DefaultUnit
  {
    var r := DataRecord(RecordId(i), stamp, "", draw * 100.0, DefaultUnit, "", StatusRaw, "");
    var r := if i % 10 == 0 then r.(Value := InjectedValue) else r;
    if i % 11 == 0 then r.(Unit := Transformation.InvalidUnit) else r
  }

  /** The number of records a run emits: the loop `for i := 0; i < n; i++`
      runs no times when n is zero or negative. */
  function Count(numRecords: int): nat {
    if numRecords > 0 then numRecords else 0
  }

  /** The first n records of a run, in the order they are sent. */
  function Produced(n: nat, draw: nat -> real, clock: nat -> Time): (s: seq<DataRecord>)
    ensures |s| == n
    ensures forall i :: 0 <= i < n ==> s[i] == ProducedRecord(i, draw(i), clock(i))
  {
    seq(n, i requires 0 <= i < n => ProducedRecord(i, draw(i), clock(i)))
  }

  lemma ProducedStep(n: nat, draw: nat -> real, clock: nat -> Time)
    ensures Produced(n + 1, draw, clock) == Produced(n, draw, clock) + [ProducedRecord(n, draw(n), clock(n))]
  {
    var a, b := Produced(n + 1, draw, clock), Produced(n, draw, clock) + [ProducedRecord(n, draw(n), clock(n))];
    assert |a| == |b|;
    forall k | 0 <= k < |a| ensures a[k] == b[k] {
    }
  }

  /** A record whose value was not overridden carries 100 times its draw,
      which lies in [0, 100). */
  lemma ProducedValueRange(i: nat, draw: real, stamp: Time)
    requires IsDraw(draw) && i % 10 != 0
    ensures 0.0 <= ProducedRecord(i, draw, stamp).Value < 100.0
  {
  }

  /** Every record of a run reads back, from its ID alone, as its own index:
      the IDs are pairwise distinct and follow the order of sending. */
  lemma ProducedIds(n: nat, draw: nat -> real, clock: nat -> Time)
    ensures forall i :: 0 <= i < n ==> ParseRecordId(Produced(n, draw, clock)[i].ID) == Some(i)
  {
    forall i | 0 <= i < n ensures ParseRecordId(Produced(n, draw, clock)[i].ID) == Some(i) {
      RecordIdRoundTrip(i);
    }
  }

  /** The loop of Producer: sends records 0 .. numRecords-1 in order, then
      closes `out`. A send or the close on an already closed `out` panics;
      since only the producer closes `out`, the first panic stops it. */
  method Producer(out: Channel<DataRecord>, numRecords: int, draw: nat -> real, clock: nat -> Time)
    returns (exit: Exit)
    modifies out
    ensures exit != Suspended
    ensures exit == Panicked <==> old(out.closed)
    ensures out.closed
    ensures out.buffer == old(out.buffer) + (if exit == Returned then Produced(Count(numRecords), draw, clock) else [])
  {
    var i := 0;
    while i < numRecords
      invariant 0 <= i <= Count(numRecords)
      invariant out.closed == old(out.closed)
      invariant out.buffer == old(out.buffer) + Produced(i, draw, clock)
      invariant i > 0 ==> !old(out.closed)
    {
      var record := ProducedRecord(i, draw(i), clock(i));
      var ok := out.Send(record);
      if !ok {
        return Panicked;
      }
      ProducedStep(i, draw, clock);
      i := i + 1;
    }
    var ok := out.Close();
    exit := if ok then Returned else Panicked;
  }

  /** A run of ten records emits ten, each with a non-empty ID; the first
      carries both injected faults. */
  lemma TenRecords(draw: nat -> real, clock: nat -> Time)
    ensures |Produced(Count(10), draw, clock)| == 10
    ensures forall i :: 0 <= i < 10 ==> Produced(10, draw, clock)[i].ID != ""
    ensures Produced(10, draw, clock)[0].Value == InjectedValue
    ensures Produced(10, draw, clock)[0].Unit == Transformation.InvalidUnit
  {
  }
}
