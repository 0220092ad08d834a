// What a two-output stage does with a run of records: each record gets a
// verdict, accepted ones go to the stage's main output and rejected ones to
// the shared error channel, each output keeping input order
// (pkg/pipeline/validator.go, pkg/pipeline/transformer.go).

module Routing {
  import opened Types
  import opened Channels

  /** The outcome of one per-record rule: forward a value on the main output,
      or send the (annotated) record to the error channel. */
  datatype Verdict<T> = Accept(out: T) | Reject(failed: DataRecord)

  /** What reaches the main output, in input order. */
  function Accepted<T>(vs: seq<Verdict<T>>): seq<T> {
    if vs == [] then []
    else Accepted(vs[..|vs| - 1]) + (match vs[|vs| - 1] case Accept(x) => [x] case Reject(_) => [])
  }

  /** What reaches the error channel, in input order. */
  function Rejected<T>(vs: seq<Verdict<T>>): seq<DataRecord> {
    if vs == [] then []
    else Rejected(vs[..|vs| - 1]) + (match vs[|vs| - 1] case Accept(_) => [] case Reject(e) => [e])
  }

  /** Positions of the accepted verdicts, in increasing order. */
  function AcceptedAt<T>(vs: seq<Verdict<T>>): seq<nat> {
    if vs == [] then []
    else AcceptedAt(vs[..|vs| - 1]) + (if vs[|vs| - 1].Accept? then [|vs| - 1] else [])
  }

  /** Positions of the rejected verdicts, in increasing order. */
  function RejectedAt<T>(vs: seq<Verdict<T>>): seq<nat> {
    if vs == [] then []
    else RejectedAt(vs[..|vs| - 1]) + (if vs[|vs| - 1].Reject? then [|vs| - 1] else [])
  }

  ghost predicate Increasing(idx: seq<nat>) {
    forall a, b :: 0 <= a < b < |idx| ==> idx[a] < idx[b]
  }

  /** Every record goes to exactly one of the two outputs, so nothing is lost
      or duplicated. */
  lemma {:induction false} RoutingConserves<T>(vs: seq<Verdict<T>>)
    ensures |Accepted(vs)| + |Rejected(vs)| == |vs|
  {
    if vs != [] {
      RoutingConserves(vs[..|vs| - 1]);
    }
  }

  /** The main output is the accepted inputs taken in input order: its k-th
      item is the value of the k-th accepted verdict, and the positions of
      accepted verdicts increase. */
  lemma {:induction false} AcceptedInOrder<T>(vs: seq<Verdict<T>>)
    ensures |AcceptedAt(vs)| == |Accepted(vs)| && Increasing(AcceptedAt(vs))
    ensures forall k :: 0 <= k < |AcceptedAt(vs)| ==>
      AcceptedAt(vs)[k] < |vs| && vs[AcceptedAt(vs)[k]] == Accept(Accepted(vs)[k])
    ensures forall i :: 0 <= i < |vs| ==> (vs[i].Accept? <==> i in AcceptedAt(vs))
  {
    if vs != [] {
      var init := vs[..|vs| - 1];
      AcceptedInOrder(init);
      assert forall i :: 0 <= i < |init| ==> vs[i] == init[i];
    }
  }

  /** The same for the error output. */
  lemma {:induction false} RejectedInOrder<T>(vs: seq<Verdict<T>>)
    ensures |RejectedAt(vs)| == |Rejected(vs)| && Increasing(RejectedAt(vs))
    ensures forall k :: 0 <= k < |RejectedAt(vs)| ==>
      RejectedAt(vs)[k] < |vs| && vs[RejectedAt(vs)[k]] == Reject(Rejected(vs)[k])
    ensures forall i :: 0 <= i < |vs| ==> (vs[i].Reject? <==> i in RejectedAt(vs))
  {
    if vs != [] {
      var init := vs[..|vs| - 1];
      RejectedInOrder(init);
      assert forall i :: 0 <= i < |init| ==> vs[i] == init[i];
    }
  }

  /** One more verdict: its record joins exactly one output. */
  /** An accepted verdict's value sits at some position of the accepted stream. */
  lemma AcceptedIndex<T>(vs: seq<Verdict<T>>, i: nat) returns (k: nat)
    requires i < |vs| && vs[i].Accept?
    ensures k < |Accepted(vs)| && vs[i] == Accept(Accepted(vs)[k])
  {
    AcceptedInOrder(vs);
    k :| 0 <= k < |AcceptedAt(vs)| && AcceptedAt(vs)[k] == i;
  }

  /** A rejected verdict's value sits at some position of the rejected stream. */
  lemma RejectedIndex<T>(vs: seq<Verdict<T>>, i: nat) returns (k: nat)
    requires i < |vs| && vs[i].Reject?
    ensures k < |Rejected(vs)| && vs[i] == Reject(Rejected(vs)[k])
  {
    RejectedInOrder(vs);
    k :| 0 <= k < |RejectedAt(vs)| && RejectedAt(vs)[k] == i;
  }

  lemma RoutingSnoc<T>(vs: seq<Verdict<T>>, v: Verdict<T>)
    ensures Accepted(vs + [v]) == Accepted(vs) + (if v.Accept? then [v.out] else [])
    ensures Rejected(vs + [v]) == Rejected(vs) + (if v.Reject? then [v.failed] else [])
  {
    assert (vs + [v])[..|vs|] == vs;
  }

  /** Routing a longer run routes the earlier part the same way. */
  lemma {:induction false} RoutingAppend<T>(vs: seq<Verdict<T>>, ws: seq<Verdict<T>>)
    ensures Accepted(vs + ws) == Accepted(vs) + Accepted(ws)
    ensures Rejected(vs + ws) == Rejected(vs) + Rejected(ws)
  {
    if ws == [] {
      assert vs + ws == vs;
    } else {
      var init := ws[..|ws| - 1];
      assert (vs + ws)[..|vs + ws| - 1] == vs + init;
      RoutingAppend(vs, init);
    }
  }

  /** Sends a verdict's value to the channel it names: the stage's main
      output or the shared error channel. */
  method Dispatch<T>(v: Verdict<T>, outCh: Channel<T>, errorCh: Channel<DataRecord>) returns (ok: bool)
    requires outCh as object != errorCh
    modifies outCh, errorCh
    ensures ok <==> !(if v.Accept? then old(outCh.closed) else old(errorCh.closed))
    ensures outCh.buffer == old(outCh.buffer) + (if ok && v.Accept? then [v.out] else [])
    ensures errorCh.buffer == old(errorCh.buffer) + (if ok && v.Reject? then [v.failed] else [])
    ensures outCh.closed == old(outCh.closed) && errorCh.closed == old(errorCh.closed)
  {
    if v.Accept? {
      ok := outCh.Send(v.out);
    } else {
      ok := errorCh.Send(v.failed);
    }
  }
}
