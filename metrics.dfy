// The metrics collector (pkg/pipeline/metricsCollector.go): a select loop
// over the processed and error streams that counts what it receives and
// stops once both streams are closed. The order in which select delivers is
// an event sequence; the final counts depend only on the two streams.

module MetricsCollection {
  import opened Types

  /** One thing select can deliver: an item from either stream, or the
      notice that a stream was closed. */
  datatype Event = P(processed: ProcessedRecord) | E(failed: DataRecord) | CloseP | CloseE

  /** The update one event makes to the counters. */
  function Step(m: Metrics, e: Event): (n: Metrics)
    ensures n.ProcessedCount == m.ProcessedCount + (if e.P? then 1 else 0)
    ensures n.ErrorCount == m.ErrorCount + (if e.E? then 1 else 0)
    ensures n.AnomalyCount == m.AnomalyCount + (if e.P? && e.processed.IsAnomaly then 1 else 0)
    ensures n.TotalValue == m.TotalValue + (if e.P? then e.processed.Value() else 0.0)
  {
    match e
    case P(r) =>
      m.(ProcessedCount := m.ProcessedCount + 1,
         TotalValue := m.TotalValue + r.Value(),
         AnomalyCount := if r.IsAnomaly then m.AnomalyCount + 1 else m.AnomalyCount)
    case E(_) => m.(ErrorCount := m.ErrorCount + 1)
    case CloseP => m
    case CloseE => m
  }

  /** The counters after a run of events, starting from zero. */
  function Fold(s: seq<Event>): Metrics {
    if s == [] then ZeroMetrics else Step(Fold(s[..|s| - 1]), s[|s| - 1])
  }

  /** The processed items among the events, in delivery order. */
  function Procs(s: seq<Event>): seq<ProcessedRecord> {
    if s == [] then [] else Procs(s[..|s| - 1]) + (if s[|s| - 1].P? then [s[|s| - 1].processed] else [])
  }

  /** The error items among the events, in delivery order. */
  function Errs(s: seq<Event>): seq<DataRecord> {
    if s == [] then [] else Errs(s[..|s| - 1]) + (if s[|s| - 1].E? then [s[|s| - 1].failed] else [])
  }

  function Anomalies(ps: seq<ProcessedRecord>): nat {
    if ps == [] then 0 else Anomalies(ps[..|ps| - 1]) + (if ps[|ps| - 1].IsAnomaly then 1 else 0)
  }

  function Sum(ps: seq<ProcessedRecord>): real {
    if ps == [] then 0.0 else Sum(ps[..|ps| - 1]) + ps[|ps| - 1].Value()
  }

  /** The counters as a function of the two streams alone. */
  function Tally(ps: seq<ProcessedRecord>, es: seq<DataRecord>): Metrics {
    Metrics(|ps|, |es|, Anomalies(ps), Sum(ps))
  }

  /** What the fold computes is the closed form: ProcessedCount = |P|,
      ErrorCount = |E|, AnomalyCount = the flagged items of P and
      TotalValue = the sum of P's values. */
  lemma {:induction false} FoldClosedForm(s: seq<Event>)
    ensures Fold(s) == Tally(Procs(s), Errs(s))
  {
    if s != [] {
      var init, x := s[..|s| - 1], s[|s| - 1];
      FoldClosedForm(init);
      var ps, es := Procs(init), Errs(init);
      var ps', es' := Procs(s), Errs(s);
      assert ps' == ps + (if x.P? then [x.processed] else []);
      assert |ps'| == |ps| + (if x.P? then 1 else 0);
      assert |es'| == |es| + (if x.E? then 1 else 0);
      if x.P? {
        assert ps'[..|ps'| - 1] == ps;
      } else {
        assert ps' == ps;
      }
      assert Anomalies(ps') == Anomalies(ps) + (if x.P? && x.processed.IsAnomaly then 1 else 0);
      assert Sum(ps') == Sum(ps) + (if x.P? then x.processed.Value() else 0.0);
    }
  }

  /** Two deliveries of the same two streams, interleaved in any way, leave
      the same counters. */
  lemma CollectorIgnoresInterleaving(s: seq<Event>, t: seq<Event>)
    requires Procs(s) == Procs(t) && Errs(s) == Errs(t)
    ensures Fold(s) == Fold(t)
  {
    FoldClosedForm(s);
    FoldClosedForm(t);
  }

  /** No counter ever decreases, and no more anomalies are counted than
      processed items; the total never decreases either while no processed
      value is negative. */
  lemma {:induction false} FoldMonotone(s: seq<Event>, i: nat)
    requires i <= |s|
    ensures Fold(s[..i]).ProcessedCount <= Fold(s).ProcessedCount
    ensures Fold(s[..i]).ErrorCount <= Fold(s).ErrorCount
    ensures Fold(s[..i]).AnomalyCount <= Fold(s).AnomalyCount
    ensures 0 <= Fold(s).AnomalyCount <= Fold(s).ProcessedCount && 0 <= Fold(s).ErrorCount
    ensures (forall k :: 0 <= k < |s| && s[k].P? ==> s[k].processed.Value() >= 0.0) ==>
      Fold(s[..i]).TotalValue <= Fold(s).TotalValue
  {
    if i < |s| {
      var init := s[..|s| - 1];
      assert s[..i] == init[..i];
      FoldMonotone(init, i);
    } else {
      assert s[..i] == s;
      if s != [] {
        FoldMonotone(s[..|s| - 1], |s| - 1);
      }
    }
  }

  /** What select may deliver after the events `before`: once a stream is
      closed it delivers neither items nor another close, so only the other
      stream's events can follow. */
  predicate Allowed(before: seq<Event>, e: Event) {
    (CloseP in before ==> e.E? || e.CloseE?) && (CloseE in before ==> e.P? || e.CloseP?)
  }

  /** The deliveries Go allows. */
  ghost predicate Feasible(s: seq<Event>) {
    forall j :: 0 <= j < |s| ==> Allowed(s[..j], s[j])
  }

  /** The loop `for processedCh != nil || errorCh != nil { select ... }`:
      a closed stream is set to nil and never selected again. The events are
      consumed in order while a stream is still open; the result says
      whether the loop ended, which it does exactly when both streams were
      closed. (If it has not ended, the goroutine waits for more events.) */
  method MetricsCollector(schedule: seq<Event>) returns (m: Metrics, finished: bool)
    requires Feasible(schedule)
    ensures finished <==> CloseP in schedule && CloseE in schedule
    ensures m == Tally(Procs(schedule), Errs(schedule))
  {
    m := Metrics(0, 0, 0, 0.0);
    var processedOpen, errorOpen := true, true;
    var i := 0;
    while (processedOpen || errorOpen) && i < |schedule|
      invariant 0 <= i <= |schedule|
      invariant m == Fold(schedule[..i])
      invariant processedOpen <==> CloseP !in schedule[..i]
      invariant errorOpen <==> CloseE !in schedule[..i]
      decreases |schedule| - i
    {
      assert schedule[..i + 1] == schedule[..i] + [schedule[i]];
      assert schedule[..i + 1][..i] == schedule[..i];
      match schedule[i] {
      case P(record) =>
        m := m.(ProcessedCount := m.ProcessedCount + 1);
        m := m.(TotalValue := m.TotalValue + record.Value());
        if record.IsAnomaly {
          m := m.(AnomalyCount := m.AnomalyCount + 1);
        }
      case E(_) =>
        m := m.(ErrorCount := m.ErrorCount + 1);
      case CloseP =>
        processedOpen := false;
      case CloseE =>
        errorOpen := false;
      }
      i := i + 1;
    }
    // Once both streams are closed Go delivers nothing more.
    assert i == |schedule|;
    assert schedule[..i] == schedule;
    finished := !processedOpen && !errorOpen;
    FoldClosedForm(schedule);
  }

  /** One delivery order: every processed item, the processed stream's
      close, every error item, the error stream's close. */
  function StreamsInTurn(ps: seq<ProcessedRecord>, es: seq<DataRecord>): seq<Event> {
    seq(|ps|, i requires 0 <= i < |ps| => P(ps[i])) + [CloseP]
    + seq(|es|, i requires 0 <= i < |es| => E(es[i])) + [CloseE]
  }

  lemma {:induction false} ProcsAppend(a: seq<Event>, b: seq<Event>)
    ensures Procs(a + b) == Procs(a) + Procs(b) && Errs(a + b) == Errs(a) + Errs(b)
  {
    if b == [] {
      assert a + b == a;
    } else {
      var init := b[..|b| - 1];
      assert (a + b)[..|a + b| - 1] == a + init;
      ProcsAppend(a, init);
    }
  }

  lemma {:induction false} OnlyProcessed(ps: seq<ProcessedRecord>)
    ensures Procs(seq(|ps|, i requires 0 <= i < |ps| => P(ps[i]))) == ps
    ensures Errs(seq(|ps|, i requires 0 <= i < |ps| => P(ps[i]))) == []
  {
    if ps != [] {
      var s := seq(|ps|, i requires 0 <= i < |ps| => P(ps[i]));
      var init := ps[..|ps| - 1];
      OnlyProcessed(init);
      assert s[..|s| - 1] == seq(|init|, i requires 0 <= i < |init| => P(init[i]));
      assert ps == init + [ps[|ps| - 1]];
    }
  }

  lemma {:induction false} OnlyErrors(es: seq<DataRecord>)
    ensures Procs(seq(|es|, i requires 0 <= i < |es| => E(es[i]))) == []
    ensures Errs(seq(|es|, i requires 0 <= i < |es| => E(es[i]))) == es
  {
    if es != [] {
      var s := seq(|es|, i requires 0 <= i < |es| => E(es[i]));
      var init := es[..|es| - 1];
      OnlyErrors(init);
      assert s[..|s| - 1] == seq(|init|, i requires 0 <= i < |init| => E(init[i]));
      assert es == init + [es[|es| - 1]];
    }
  }

  /** Where each event of that order sits. */
  lemma StreamsInTurnAt(ps: seq<ProcessedRecord>, es: seq<DataRecord>, k: nat)
    requires k < |StreamsInTurn(ps, es)|
    ensures |StreamsInTurn(ps, es)| == |ps| + |es| + 2
    ensures k < |ps| ==> StreamsInTurn(ps, es)[k] == P(ps[k])
    ensures k == |ps| ==> StreamsInTurn(ps, es)[k] == CloseP
    ensures |ps| < k < |ps| + 1 + |es| ==> StreamsInTurn(ps, es)[k] == E(es[k - |ps| - 1])
    ensures k == |ps| + 1 + |es| ==> StreamsInTurn(ps, es)[k] == CloseE
  {
  }

  /** That order is one Go allows. */
  lemma StreamsInTurnFeasible(ps: seq<ProcessedRecord>, es: seq<DataRecord>)
    ensures Feasible(StreamsInTurn(ps, es))
  {
    var s := StreamsInTurn(ps, es);
    forall j | 0 <= j < |s| ensures Allowed(s[..j], s[j]) {
      StreamsInTurnAt(ps, es, j);
      forall k | 0 <= k < j ensures s[..j][k] != CloseE && (j <= |ps| ==> s[..j][k] != CloseP) {
        StreamsInTurnAt(ps, es, k);
      }
    }
  }

  /** It delivers exactly the two streams and closes both. */
  lemma StreamsInTurnDelivers(ps: seq<ProcessedRecord>, es: seq<DataRecord>)
    ensures Procs(StreamsInTurn(ps, es)) == ps && Errs(StreamsInTurn(ps, es)) == es
    ensures CloseP in StreamsInTurn(ps, es) && CloseE in StreamsInTurn(ps, es)
  {
    var a := seq(|ps|, i requires 0 <= i < |ps| => P(ps[i]));
    var b := seq(|es|, i requires 0 <= i < |es| => E(es[i]));
    var s := StreamsInTurn(ps, es);
    OnlyProcessed(ps);
    OnlyErrors(es);
    ProcsAppend(a, [CloseP]);
    ProcsAppend(a + [CloseP], b);
    ProcsAppend(a + [CloseP] + b, [CloseE]);
    StreamsInTurnAt(ps, es, |ps|);
    StreamsInTurnAt(ps, es, |s| - 1);
  }

  /** The package test: five processed items (values 0, 20, 40, 60, 80, the
      last two flagged), the close of their stream, then three errors and
      the close of theirs, give 5, 3, 2 and 200. */
  lemma FiveAndThree(ps: seq<ProcessedRecord>, es: seq<DataRecord>)
    requires |ps| == 5 && |es| == 3
    requires forall k :: 0 <= k < 5 ==> ps[k].Value() == 20.0 * k as real && (ps[k].IsAnomaly <==> k >= 3)
    ensures Fold(StreamsInTurn(ps, es)) == Metrics(5, 3, 2, 200.0)
  {
    StreamsInTurnDelivers(ps, es);
    FoldClosedForm(StreamsInTurn(ps, es));
    var k := 0;
    while k < 5
      invariant 0 <= k <= 5
      invariant Anomalies(ps[..k]) == (if k > 3 then k - 3 else 0)
      invariant Sum(ps[..k]) == 10.0 * (k * (k - 1)) as real
    {
      assert ps[..k + 1][..k] == ps[..k];
      k := k + 1;
    }
    assert ps[..5] == ps;
  }
}
