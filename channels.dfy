// The two concurrency primitives the pipeline is built from, with blocking
// abstracted away: a Go channel (a FIFO buffer with a one-shot close flag)
// and a sync.WaitGroup (a counter driven by Add and Done).

module Channels {

  /** What one receive observes. A receive on an empty, open channel would
      suspend the goroutine; the model reports that instead of waiting. */
  datatype Received<T> = Item(value: T) | EndOfStream | WouldBlock

  /** How a stage goroutine ends a run of the model: it has returned, it is
      suspended on an empty open input, or it hit a send or close on a closed
      channel, which makes Go panic. */
  datatype Exit = Returned | Suspended | Panicked

  class Channel<T> {
    /** Items sent and not yet received, oldest first. */
    var buffer: seq<T>
    /** Set once by close(). */
    var closed: bool

    /** make(chan T, n): capacity and back-pressure are not modelled. */
    constructor ()
      ensures buffer == [] && !closed
    {
      buffer, closed := [], false;
    }

    /** ch <- x. Sending on a closed channel panics: ok is false and nothing changes. */
    method Send(x: T) returns (ok: bool)
      modifies this
      ensures ok <==> !old(closed)
      ensures buffer == if ok then old(buffer) + [x] else old(buffer)
      ensures closed == old(closed)
    {
      ok := !closed;
      if ok {
        buffer := buffer + [x];
      }
    }

    /** close(ch). Closing twice panics: ok is false on the second call. */
    method Close() returns (ok: bool)
      modifies this
      ensures ok <==> !old(closed)
      ensures closed
      ensures buffer == old(buffer)
    {
      ok := !closed;
      closed := true;
    }

    /** x, ok := <-ch. Buffered items come out first, in FIFO order, even
        after close; only a drained closed channel reports end of stream. */
    method Receive() returns (r: Received<T>)
      modifies this
      ensures old(buffer) != [] ==> r == Item(old(buffer)[0]) && buffer == old(buffer)[1..]
      ensures old(buffer) == [] ==> r == (if old(closed) then EndOfStream else WouldBlock) && buffer == []
      ensures closed == old(closed)
    {
      if buffer != [] {
        r := Item(buffer[0]);
        buffer := buffer[1..];
      } else if closed {
        r := EndOfStream;
      } else {
        r := WouldBlock;
      }
    }
  }

  class WaitGroup {
    var counter: int

    constructor ()
      ensures counter == 0
    {
      counter := 0;
    }

    /** wg.Add(delta). A counter driven below zero panics: ok is false and
        the counter is left as it was. */
    method Add(delta: int) returns (ok: bool)
      modifies this
      ensures ok <==> old(counter) + delta >= 0
      ensures counter == if ok then old(counter) + delta else old(counter)
    {
      ok := counter + delta >= 0;
      if ok {
        counter := counter + delta;
      }
    }

    /** wg.Done() is wg.Add(-1). */
    method Done() returns (ok: bool)
      modifies this
      ensures ok <==> old(counter) >= 1
      ensures counter == if ok then old(counter) - 1 else old(counter)
    {
      ok := Add(-1);
    }

    /** wg.Wait() returns exactly when the counter is zero. */
    predicate Released()
      reads this
    {
      counter == 0
    }
  }
}
