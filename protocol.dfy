// The close-at-zero protocol of pkg/pipeline/run.go, for every schedule.
// A channel with several writer goroutines is closed by a separate closer
// goroutine that waits on a WaitGroup: the launching goroutine calls Add(1)
// before starting each writer, each writer calls Done() as it returns, and
// the closer is started only after every writer has been launched. The
// state machine below admits every order in which these steps can happen;
// the lemmas show that no order sends on the channel after its close,
// closes it twice, or drives the counter below zero.

module CloseProtocol {

  /** What the closer goroutine is doing. */
  datatype Closer = NotStarted | Waiting | Exited

  /** The shared state: one flag per launched writer (true once it has
      returned), the WaitGroup counter, the closer and the channel's flag. */
  datatype Guard = Guard(finished: seq<bool>, counter: int, closer: Closer, closed: bool)

  /** The steps of the goroutines involved. */
  datatype Action =
    | Launch          // wg.Add(1); go writer()
    | Send(k: nat)    // writer k sends on the channel
    | Finish(k: nat)  // writer k returns: defer wg.Done()
    | StartCloser     // go func() { wg.Wait(); close(ch) }()
    | CloseNow        // the closer's Wait returns and it closes the channel

  const Initial := Guard([], 0, NotStarted, false)

  /** The number of launched writers that have not returned. */
  function Running(finished: seq<bool>): (n: nat)
    ensures n <= |finished|
  {
    if finished == [] then 0
    else Running(finished[..|finished| - 1]) + (if finished[|finished| - 1] then 0 else 1)
  }

  /** Whether the goroutines can take the step: a writer acts only while it
      runs, writers are all launched before the closer starts, and Wait
      returns only at zero. */
  predicate Enabled(g: Guard, a: Action) {
    match a
    case Launch => g.closer == NotStarted
    case Send(k) => k < |g.finished| && !g.finished[k]
    case Finish(k) => k < |g.finished| && !g.finished[k]
    case StartCloser => g.closer == NotStarted
    case CloseNow => g.closer == Waiting && g.counter == 0
  }

  /** Steps Go answers with a panic. */
  predicate Panics(g: Guard, a: Action) {
    match a
    case Send(_) => g.closed
    case Finish(_) => g.counter < 1
    case CloseNow => g.closed
    case _ => false
  }

  function Apply(g: Guard, a: Action): Guard
    requires Enabled(g, a)
  {
    match a
    case Launch => g.(finished := g.finished + [false], counter := g.counter + 1)
    case Send(_) => g
    case Finish(k) => g.(finished := g.finished[k := true], counter := g.counter - 1)
    case StartCloser => g.(closer := Waiting)
    case CloseNow => g.(closer := Exited, closed := true)
  }

  /** The counter equals the number of running writers; the channel is
      closed exactly when the closer has exited, and then every writer has
      returned. */
  ghost predicate Inv(g: Guard) {
    g.counter == Running(g.finished) &&
    (g.closed <==> g.closer == Exited) &&
    (g.closed ==> Running(g.finished) == 0)
  }

  lemma {:induction false} RunningSnoc(fs: seq<bool>, b: bool)
    ensures Running(fs + [b]) == Running(fs) + (if b then 0 else 1)
  {
    assert (fs + [b])[..|fs|] == fs;
  }

  /** Marking a running writer as returned lowers the count by one. */
  lemma {:induction false} RunningFinish(fs: seq<bool>, k: nat)
    requires k < |fs| && !fs[k]
    ensures Running(fs[k := true]) == Running(fs) - 1
  {
    var last := |fs| - 1;
    var gs := fs[k := true];
    if k == last {
      assert gs[..last] == fs[..last];
    } else {
      assert gs[..last] == fs[..last][k := true];
      RunningFinish(fs[..last], k);
    }
  }

  /** With no writer running, every launched writer has returned. */
  lemma {:induction false} NoneRunning(fs: seq<bool>, k: nat)
    requires Running(fs) == 0 && k < |fs|
    ensures fs[k]
  {
    var last := |fs| - 1;
    if k < last {
      NoneRunning(fs[..last], k);
    }
  }

  /** One enabled step never panics and keeps the invariant. */
  lemma StepSafe(g: Guard, a: Action)
    requires Inv(g) && Enabled(g, a)
    ensures !Panics(g, a) && Inv(Apply(g, a))
  {
    match a
    case Launch =>
      RunningSnoc(g.finished, false);
    case Send(k) =>
      if g.closed {
        NoneRunning(g.finished, k);
      }
    case Finish(k) =>
      RunningFinish(g.finished, k);
      if g.closed {
        NoneRunning(g.finished, k);
      }
    case StartCloser =>
    case CloseNow =>
  }

  /** A schedule every step of which is enabled when it is taken. */
  ghost predicate Executable(g: Guard, t: seq<Action>)
    decreases |t|
  {
    t == [] || (Enabled(g, t[0]) && Executable(Apply(g, t[0]), t[1..]))
  }

  /** Where a schedule leads. */
  function After(g: Guard, t: seq<Action>): Guard
    requires Executable(g, t)
    decreases |t|
  {
    if t == [] then g else After(Apply(g, t[0]), t[1..])
  }

  /** No step of the schedule panics. */
  ghost predicate NoPanic(g: Guard, t: seq<Action>)
    requires Executable(g, t)
    decreases |t|
  {
    t == [] || (!Panics(g, t[0]) && NoPanic(Apply(g, t[0]), t[1..]))
  }

  /** Every schedule the goroutines can follow from the start is free of
      send-after-close, double close and a negative counter, and whenever the
      channel is closed every writer has returned. */
  lemma {:induction false} EveryScheduleSafe(g: Guard, t: seq<Action>)
    requires Inv(g) && Executable(g, t)
    ensures NoPanic(g, t) && Inv(After(g, t))
    ensures After(g, t).closed ==> forall k :: 0 <= k < |After(g, t).finished| ==> After(g, t).finished[k]
    decreases |t|
  {
    if t != [] {
      StepSafe(g, t[0]);
      EveryScheduleSafe(Apply(g, t[0]), t[1..]);
    }
    var h := After(g, t);
    if h.closed {
      forall k | 0 <= k < |h.finished| ensures h.finished[k] {
        NoneRunning(h.finished, k);
      }
    }
  }

  /** The closer is never stuck for good: once it waits and every writer has
      returned, its Wait returns and it can close the channel. */
  lemma CloserProceeds(g: Guard)
    requires Inv(g) && g.closer == Waiting
    requires forall k :: 0 <= k < |g.finished| ==> g.finished[k]
    ensures Enabled(g, CloseNow) && !Panics(g, CloseNow)
  {
    AllFinished(g.finished);
  }

  lemma {:induction false} AllFinished(fs: seq<bool>)
    requires forall k :: 0 <= k < |fs| ==> fs[k]
    ensures Running(fs) == 0
  {
    if fs != [] {
      AllFinished(fs[..|fs| - 1]);
    }
  }

  /** A schedule that exercises the interleaving the protocol is built
      for: two writers are launched, the closer starts while one of them is
      still sending, and the close comes only after both have returned. */
  lemma TwoWritersSchedule()
    ensures Executable(Initial, [Launch, Launch, Send(0), Send(1), Finish(1), StartCloser, Send(0), Finish(0), CloseNow])
    ensures After(Initial, [Launch, Launch, Send(0), Send(1), Finish(1), StartCloser, Send(0), Finish(0), CloseNow]).closed
    ensures !Executable(Initial, [Launch, StartCloser, CloseNow])
  {
  }
}
