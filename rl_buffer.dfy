/**
  `RLBuffer` from rate_limited_buffer.go as an object whose state changes in
  place. The buffered channel `r.buffer` is a fixed-size array used as a ring
  buffer; the `deliveries` channel is the log `delivered` of everything handed
  to the consumer; `closed` says that shutdown has closed the intake and the
  output. Each method is one arm of the `select` in `pipe` (or `flush`), and
  is proved to move the relay exactly as the matching function of module
  Relay does, so every property proved there holds of this object too.
 */
module RateLimitedBuffer {
  import opened Relay

  class RLBuffer<T(0)> {
    const size: nat            // `bufferSize`, the capacity of `r.buffer`
    const buffer: array<T>     // storage of the buffered channel
    var start: nat             // index of the oldest staged event
    var len: nat               // len(r.buffer)
    var delivered: seq<T>      // what the consumer has received, in order
    var closed: bool

    ghost var queue: seq<T>    // the staged events, front first
    ghost var accepted: seq<T> // every event taken from the intake
    ghost var ticks: nat       // ticker events consumed by the loop

    /** The ring buffer holds exactly `queue`, oldest at `start`. */
    ghost predicate ChannelValid()
      reads this`start, this`len, this`queue, buffer
    {
      && 1 <= size
      && buffer.Length == size
      && start < size
      && len <= size
      && |queue| == len
      && forall i :: 0 <= i < len ==> queue[i] == buffer[Slot(start + i)]
    }

    /** The array index of position `k` of the ring. */
    function Slot(k: nat): (r: nat)
      requires k < 2 * size
      ensures r < size
    {
      if k < size then k else k - size
    }

    /** The abstract state of the relay. */
    ghost function State(): RelayState<T>
      reads this
    {
      RelayState(size, queue, delivered, accepted, closed, ticks)
    }

    ghost predicate Valid()
      reads this, buffer
    {
      ChannelValid() && Relay.Valid(State())
    }

    /** `New(bufferSize)`; a size below 1 would block or panic in Go. */
    constructor (bufferSize: int)
      requires bufferSize >= 1
      ensures Valid() && fresh(buffer)
      ensures State() == Init(bufferSize)
    {
      size := bufferSize;
      buffer := new T[bufferSize];
      start, len := 0, 0;
      delivered, closed := [], false;
      queue, accepted, ticks := [], [], 0;
    }

    /**
      `r.buffer <- event` on a channel with room. The loop is the only
      reader of `r.buffer`, so a send on a full channel would block it
      forever; the precondition says this never happens.
     */
    method Send(e: T)
      requires ChannelValid() && len < size
      modifies buffer, this`len, this`queue
      ensures ChannelValid()
      ensures queue == old(queue) + [e]
    {
      buffer[Slot(start + len)] := e;
      len := len + 1;
      queue := queue + [e];
    }

    /**
      `r.deliveries <- <-r.buffer`: takes the oldest staged event off the
      channel and hands it to the consumer.
     */
    method Forward()
      requires ChannelValid() && len > 0
      modifies this`start, this`len, this`queue, this`delivered
      ensures ChannelValid()
      ensures delivered == old(delivered) + [old(queue)[0]]
      ensures queue == old(queue)[1..]
    {
      var e := buffer[start];
      start := Slot(start + 1);
      len := len - 1;
      queue := queue[1..];
      delivered := delivered + [e];
    }

    /** `flush`: drains the channel one event at a time onto the output. */
    method Flush()
      requires ChannelValid()
      modifies this`start, this`len, this`queue, this`delivered
      ensures ChannelValid()
      ensures State() == Relay.Flush(old(State()))
    {
      if len == 0 {
        return;
      }
      while len > 0
        invariant ChannelValid()
        invariant delivered + queue == old(delivered) + old(queue)
        decreases len
      {
        ghost var staged := queue;
        Forward();
        assert staged == [staged[0]] + queue;
      }
    }

    /**
      `Push(event)` together with the intake arm that receives it (the
      intake channel is unbuffered, so the two happen as one handoff).
      Pushing after shutdown sends on a closed channel, which panics.
     */
    method Push(e: T)
      requires Valid() && !closed
      modifies this, buffer
      ensures State() == OnPush(old(State()), e)
      ensures Valid()
    {
      accepted := accepted + [e];
      if len < size - 1 {
        Send(e);
        return;
      }
      ticks := ticks + 1;  // wait for the next tick
      Send(e);             // the reserved slot
      Flush();
    }

    /** The ticker arm; once closed the ticker is stopped and nothing happens. */
    method Tick()
      requires Valid()
      modifies this`start, this`len, this`queue, this`delivered, this`ticks
      ensures Valid()
      ensures State() == Step(old(State()), Signal.Tick)
    {
      if closed {
        return;
      }
      ticks := ticks + 1;
      Flush();
    }

    /**
      `Stop()` together with the shutdown arm: close the intake, final flush,
      close the output. Stopping again only cancels a cancelled context.
     */
    method Stop()
      requires Valid()
      modifies this`start, this`len, this`queue, this`delivered, this`closed
      ensures Valid()
      ensures State() == Step(old(State()), Signal.Stop)
      ensures closed && queue == [] && delivered == accepted
    {
      if closed {
        return;
      }
      Flush();
      closed := true;
    }
  }
}
