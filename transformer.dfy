// The transformer stage (pkg/pipeline/transformer.go): the anomaly score and
// flag, the unit check that diverts a record to the error channel, and the
// loop that drains the valid channel.

module Transformation {
  import opened Types
  import opened Routing
  import opened Channels

  const InvalidUnit := "INVALID_UNIT"
  const UnitError := "Invalid unit for transformation"
  const ScoreFactor: real := 0.1
  const AnomalyThreshold: real := 8.0

  /** The anomaly score of a value and whether it flags an anomaly. */
  function Score(value: real): (score: real)
    ensures score > AnomalyThreshold <==> value > 80.0
    ensures value > 0.0 ==> score > 0.0
  {
    value * ScoreFactor
  }

  /** The per-record rule. A record whose unit is "INVALID_UNIT" goes to the
      error channel whatever its score; any other record becomes a
      ProcessedRecord stamped `at`, with status "processed". */
  function Transform(r: DataRecord, at: Time): (v: Verdict<ProcessedRecord>)
    ensures v.Reject? <==> r.Unit == InvalidUnit
    ensures v.Reject? ==> v.failed.Status == StatusTransformationError && v.failed.Error == UnitError
    ensures v.Reject? ==> v.failed.(Status := r.Status, Error := r.Error) == r
    ensures v.Accept? ==> v.out.Status() == StatusProcessed && v.out.Record.(Status := r.Status) == r
    ensures v.Accept? ==> v.out.ProcessedAt == at && v.out.AnomalyScore == r.Value * ScoreFactor
    ensures v.Accept? ==> (v.out.IsAnomaly <==> v.out.AnomalyScore > AnomalyThreshold)
  {
    var score := Score(r.Value);
    if r.Unit == InvalidUnit then
      Reject(r.(Status := StatusTransformationError, Error := UnitError))
    else
      Accept(ProcessedRecord(r.(Status := StatusProcessed), at, score, score > AnomalyThreshold))
  }

  /** Transforming an output again changes nothing but the reading: a
      processed record is accepted again as the same record, and a failed
      record is rejected again as itself. */
  lemma TransformIdempotent(r: DataRecord, at: Time, at': Time)
    ensures match Transform(r, at)
            case Accept(p) => Transform(p.Record, at').Accept? && Transform(p.Record, at').out.Record == p.Record
            case Reject(e) => Transform(e, at') == Reject(e)
  {
  }

  /** The rule applied to a run of records; `clock(k)` is the reading taken
      for the k-th record of the run. */
  function Transformations(s: seq<DataRecord>, clock: nat -> Time): (vs: seq<Verdict<ProcessedRecord>>)
    ensures |vs| == |s|
    ensures forall i :: 0 <= i < |s| ==> vs[i] == Transform(s[i], clock(i))
  {
    seq(|s|, i requires 0 <= i < |s| => Transform(s[i], clock(i)))
  }

  /** What the transformer sends on `out` for a run of input records. */
  function ProcessedOf(s: seq<DataRecord>, clock: nat -> Time): seq<ProcessedRecord> {
    Accepted(Transformations(s, clock))
  }

  /** What the transformer sends on errCh for a run of input records. */
  function FailedOf(s: seq<DataRecord>, clock: nat -> Time): seq<DataRecord> {
    Rejected(Transformations(s, clock))
  }

  lemma TransformationsStep(p: seq<DataRecord>, i: nat, clock: nat -> Time)
    requires i < |p|
    ensures Transformations(p[..i + 1], clock) == Transformations(p[..i], clock) + [Transform(p[i], clock(i))]
  {
    var a, b := Transformations(p[..i + 1], clock), Transformations(p[..i], clock) + [Transform(p[i], clock(i))];
    assert |a| == |b|;
    forall k | 0 <= k < |a| ensures a[k] == b[k] {
      if k < i {
        assert p[..i + 1][k] == p[..i][k];
      }
    }
  }

  /** One more record at the end of a run is transformed with the next
      clock reading; the earlier verdicts stay as they were. */
  lemma TransformationsSnoc(s: seq<DataRecord>, x: DataRecord, clock: nat -> Time)
    ensures Transformations(s + [x], clock) == Transformations(s, clock) + [Transform(x, clock(|s|))]
  {
    var a, b := Transformations(s + [x], clock), Transformations(s, clock) + [Transform(x, clock(|s|))];
    assert |a| == |b|;
    forall k | 0 <= k < |a| ensures a[k] == b[k] {
      if k < |s| {
        assert (s + [x])[k] == s[k];
      }
    }
  }

  /** Whatever a prefix routes, the whole run routes too: each output of a
      prefix is a prefix of the output of the whole run. */
  lemma TransformationsPrefix(p: seq<DataRecord>, i: nat, clock: nat -> Time)
    requires i <= |p|
    ensures Accepted(Transformations(p[..i], clock)) <= Accepted(Transformations(p, clock))
    ensures Rejected(Transformations(p[..i], clock)) <= Rejected(Transformations(p, clock))
  {
    var rest := seq(|p| - i, k requires 0 <= k < |p| - i => Transform(p[i + k], clock(i + k)));
    assert Transformations(p, clock) == Transformations(p[..i], clock) + rest;
    RoutingAppend(Transformations(p[..i], clock), rest);
  }

  /** for record := range in { ... }. Each record drawn from `inCh` is sent
      to exactly one of `out` and errCh, the k-th drawn stamped clock(k);
      the outputs are never closed here. The loop ends when `inCh` is closed
      and drained (Returned) or empty but open (Suspended); a send on a
      closed output panics. */
  method Transformer(inCh: Channel<DataRecord>, out: Channel<ProcessedRecord>, errCh: Channel<DataRecord>, clock: nat -> Time)
    returns (exit: Exit)
    requires inCh != errCh && out as object != inCh && out as object != errCh
    modifies inCh, out, errCh
    ensures inCh.closed == old(inCh.closed) && out.closed == old(out.closed) && errCh.closed == old(errCh.closed)
    ensures exit == Panicked <==>
      (old(out.closed) && ProcessedOf(old(inCh.buffer), clock) != []) ||
      (old(errCh.closed) && FailedOf(old(inCh.buffer), clock) != [])
    ensures exit != Panicked ==>
      exit == (if old(inCh.closed) then Returned else Suspended) &&
      inCh.buffer == [] &&
      out.buffer == old(out.buffer) + ProcessedOf(old(inCh.buffer), clock) &&
      errCh.buffer == old(errCh.buffer) + FailedOf(old(inCh.buffer), clock)
  {
    ghost var pending := inCh.buffer;
    var i := 0;
    ghost var vs: seq<Verdict<ProcessedRecord>> := [];
    while true
      invariant 0 <= i <= |pending|
      invariant inCh.buffer == pending[i..]
      invariant inCh.closed == old(inCh.closed) && out.closed == old(out.closed) && errCh.closed == old(errCh.closed)
      invariant vs == Transformations(pending[..i], clock)
      invariant out.buffer == old(out.buffer) + Accepted(vs)
      invariant errCh.buffer == old(errCh.buffer) + Rejected(vs)
      invariant !(out.closed && Accepted(vs) != [])
      invariant !(errCh.closed && Rejected(vs) != [])
      decreases |inCh.buffer|
    {
      var received := inCh.Receive();
      match received
      case WouldBlock =>
        assert pending[..i] == pending;
        return Suspended;
      case EndOfStream =>
        assert pending[..i] == pending;
        return Returned;
      case Item(record) =>
        TransformationsStep(pending, i, clock);
        var verdict := Transform(record, clock(i));
        RoutingSnoc(vs, verdict);
        var ok := Dispatch(verdict, out, errCh);
        vs := vs + [verdict];
        i := i + 1;
        if !ok {
          TransformationsPrefix(pending, i, clock);
          return Panicked;
        }
    }
  }

  /** Transforming the three records of the package test (50 and 90 in
      "unit_A", 75 in "INVALID_UNIT") gives two processed records, one of
      them an anomaly, and one transformation error. */
  lemma ThreeRecordScenario(a: DataRecord, b: DataRecord, c: DataRecord, clock: nat -> Time)
    requires a.Value == 50.0 && a.Unit == "unit_A"
    requires b.Value == 90.0 && b.Unit == "unit_A"
    requires c.Value == 75.0 && c.Unit == InvalidUnit
    ensures |ProcessedOf([a, b, c], clock)| == 2 && |FailedOf([a, b, c], clock)| == 1
    ensures forall k :: 0 <= k < 2 ==> ProcessedOf([a, b, c], clock)[k].AnomalyScore > 0.0
    ensures !ProcessedOf([a, b, c], clock)[0].IsAnomaly && ProcessedOf([a, b, c], clock)[1].IsAnomaly
  {
    var v0, v1, v2 := Transform(a, clock(0)), Transform(b, clock(1)), Transform(c, clock(2));
    assert Transformations([a, b, c], clock) == [v0, v1, v2];
    assert v0.Accept? && v1.Accept? && v2.Reject?;
    var p0 := [v0];
    var p1 := p0 + [v1];
    RoutingSnoc([], v0);
    assert [] + [v0] == p0;
    RoutingSnoc(p0, v1);
    RoutingSnoc(p1, v2);
    assert p1 + [v2] == [v0, v1, v2];
  }
}
