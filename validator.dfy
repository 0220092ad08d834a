// The validator stage (pkg/pipeline/validator.go): an inclusive range check
// on Value, and the loop that drains the input channel and sends each record
// to exactly one of the valid and error channels.

module Validation {
  import opened Types
  import opened Routing
  import opened Channels

  const MinValue: real := 0.0
  const MaxValue: real := 1000.0
  const RangeError := "Value out of expected range (0-1000)"

  /** The per-record rule: a value outside [0, 1000] is rejected with status
      "invalid" and an explanation; anything else passes untouched. */
  function Validate(r: DataRecord): (v: Verdict<DataRecord>)
    ensures v.Accept? <==> MinValue <= r.Value <= MaxValue
    ensures v.Accept? ==> v.out == r
    ensures v.Reject? ==> v.failed.Status == StatusInvalid && v.failed.Error == RangeError
    ensures v.Reject? ==> v.failed.(Status := r.Status, Error := r.Error) == r
  {
    if r.Value < 0.0 || r.Value > 1000.0 then
      Reject(r.(Status := StatusInvalid, Error := RangeError))
    else
      Accept(r)
  }

  /** The rule applied to a run of records, one verdict per record. */
  function Validations(s: seq<DataRecord>): (vs: seq<Verdict<DataRecord>>)
    ensures |vs| == |s|
    ensures forall i :: 0 <= i < |s| ==> vs[i] == Validate(s[i])
  {
    seq(|s|, i requires 0 <= i < |s| => Validate(s[i]))
  }

  /** What the validator sends on validCh for a run of input records. */
  function ValidOf(s: seq<DataRecord>): seq<DataRecord> {
    Accepted(Validations(s))
  }

  /** What the validator sends on errorCh for a run of input records. */
  function InvalidOf(s: seq<DataRecord>): seq<DataRecord> {
    Rejected(Validations(s))
  }

  lemma ValidationsAppend(a: seq<DataRecord>, b: seq<DataRecord>)
    ensures Validations(a + b) == Validations(a) + Validations(b)
  {
  }

  /** One more record drawn: its verdict is appended, and anything already
      routed stays routed in the whole run. */
  lemma ValidationsStep(p: seq<DataRecord>, i: nat)
    requires i < |p|
    ensures Validations(p[..i + 1]) == Validations(p[..i]) + [Validate(p[i])]
  {
    assert p[..i + 1] == p[..i] + [p[i]];
    ValidationsAppend(p[..i], [p[i]]);
  }

  /** Whatever a prefix routes, the whole run routes too: each output of a
      prefix is a prefix of the output of the whole run. */
  lemma ValidationsPrefix(p: seq<DataRecord>, i: nat)
    requires i <= |p|
    ensures Accepted(Validations(p[..i])) <= Accepted(Validations(p))
    ensures Rejected(Validations(p[..i])) <= Rejected(Validations(p))
  {
    assert p[..i] + p[i..] == p;
    ValidationsAppend(p[..i], p[i..]);
    RoutingAppend(Validations(p[..i]), Validations(p[i..]));
  }

  /** Validating what the validator emitted reproduces the same verdict: an
      accepted record passes again and a rejected one fails again, unchanged. */
  lemma ValidateIdempotent(r: DataRecord)
    ensures match Validate(r)
            case Accept(x) => Validate(x) == Accept(x)
            case Reject(e) => Validate(e) == Reject(e)
  {
  }

  /** for record := range in { ... }. Each record drawn from `inCh` is sent to
      exactly one of validCh and errorCh; the outputs are never closed here.
      The loop ends when `inCh` is closed and drained (Returned) or empty but
      open (Suspended: the goroutine would block there); a send on a closed
      output panics. */
  method Validator(inCh: Channel<DataRecord>, validCh: Channel<DataRecord>, errorCh: Channel<DataRecord>)
    returns (exit: Exit)
    requires inCh != validCh && inCh != errorCh && validCh != errorCh
    modifies inCh, validCh, errorCh
    ensures inCh.closed == old(inCh.closed) && validCh.closed == old(validCh.closed) && errorCh.closed == old(errorCh.closed)
    ensures exit == Panicked <==>
      (old(validCh.closed) && ValidOf(old(inCh.buffer)) != []) ||
      (old(errorCh.closed) && InvalidOf(old(inCh.buffer)) != [])
    ensures exit != Panicked ==>
      exit == (if old(inCh.closed) then Returned else Suspended) &&
      inCh.buffer == [] &&
      validCh.buffer == old(validCh.buffer) + ValidOf(old(inCh.buffer)) &&
      errorCh.buffer == old(errorCh.buffer) + InvalidOf(old(inCh.buffer))
  {
    ghost var pending := inCh.buffer;
    ghost var i := 0;
    ghost var vs: seq<Verdict<DataRecord>> := [];
    while true
      invariant 0 <= i <= |pending|
      invariant inCh.buffer == pending[i..]
      invariant inCh.closed == old(inCh.closed) && validCh.closed == old(validCh.closed) && errorCh.closed == old(errorCh.closed)
      invariant vs == Validations(pending[..i])
      invariant validCh.buffer == old(validCh.buffer) + Accepted(vs)
      invariant errorCh.buffer == old(errorCh.buffer) + Rejected(vs)
      invariant !(validCh.closed && Accepted(vs) != [])
      invariant !(errorCh.closed && Rejected(vs) != [])
      decreases |inCh.buffer|
    {
      var received := inCh.Receive();
      match received
      case WouldBlock =>
        assert pending[..i] == pending;
        return Suspended;
      case EndOfStream =>
        assert pending[..i] == pending;
        return Returned;
      case Item(record) =>
        ValidationsStep(pending, i);
        var verdict := Validate(record);
        RoutingSnoc(vs, verdict);
        var ok := Dispatch(verdict, validCh, errorCh);
        vs := vs + [verdict];
        i := i + 1;
        if !ok {
          ValidationsPrefix(pending, i);
          return Panicked;
        }
    }
  }

  /** Validating the three records of the package test (values 50, -5 and
      1001) gives one valid record and two errors, each carrying an error
      message. */
  lemma ThreeRecordScenario(a: DataRecord, b: DataRecord, c: DataRecord)
    requires a.Value == 50.0 && b.Value == -5.0 && c.Value == 1001.0
    ensures ValidOf([a, b, c]) == [a]
    ensures |InvalidOf([a, b, c])| == 2
    ensures forall k :: 0 <= k < 2 ==> InvalidOf([a, b, c])[k].Error != ""
  {
    var v0, v1, v2 := Validate(a), Validate(b), Validate(c);
    assert Validations([a, b, c]) == [v0, v1, v2];
    var p0 := [v0];
    var p1 := p0 + [v1];
    RoutingSnoc([], v0);
    assert [] + [v0] == p0;
    RoutingSnoc(p0, v1);
    RoutingSnoc(p1, v2);
    assert p1 + [v2] == [v0, v1, v2];
  }
}
