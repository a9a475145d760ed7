/**
  The coordination loop of the rate-limited buffer (`pipe` and `flush` in
  rate_limited_buffer.go), as a sequential state machine over values.

  With the goroutine and the `select` stripped away, the loop owns one
  bounded FIFO (the buffered channel `r.buffer`, capacity `bufferSize`) and
  writes to one output stream (the `deliveries` channel). Each arm of the
  `select` becomes one step the environment chooses: an event arrives on the
  intake, the ticker fires, or shutdown is requested. The output stream is
  modelled as the log of everything handed to the consumer so far.

  Two history fields exist only to state properties: `accepted` is every
  event the loop took from the intake, in arrival order, and `ticks` counts
  the ticker events the loop has consumed (including the one the forced
  intake path waits for).
 */
module Relay {

  /** What the environment can make the loop do next: one arm of its `select`. */
  datatype Signal<T> = Push(event: T) | Tick | Stop

  datatype RelayState<T> = RelayState(
    capacity: nat,        // cap(r.buffer), fixed at construction
    queue: seq<T>,        // staged events, front first
    delivered: seq<T>,    // everything sent on `deliveries`, in order
    accepted: seq<T>,     // history: every event taken from the intake
    closed: bool,         // intake and `deliveries` closed, loop exited
    ticks: nat            // history: ticker events consumed by the loop
  )

  /**
    The invariant that holds between loop iterations: the queue keeps one
    slot of headroom, nothing accepted is lost, duplicated or reordered, and
    a closed relay holds nothing back.
   */
  ghost predicate Valid<T>(s: RelayState<T>) {
    && 1 <= s.capacity
    && |s.queue| <= s.capacity - 1
    && s.delivered + s.queue == s.accepted
    && (s.closed ==> s.queue == [])
  }

  /** `New(bufferSize)`: an empty, running relay. */
  function Init<T>(capacity: int): (r: RelayState<T>)
    requires capacity >= 1
    ensures Valid(r) && r.capacity == capacity && !r.closed
    ensures r.queue == [] && r.accepted == [] && r.ticks == 0
  {
    RelayState(capacity, [], [], [], false, 0)
  }

  /**
    `flush`: hands every staged event to the consumer, front first. It is
    also called with a full queue (on the forced intake path), so it asks
    for no invariant.
   */
  function Flush<T>(s: RelayState<T>): (r: RelayState<T>)
    ensures r.queue == []
    ensures r.delivered + r.queue == s.delivered + s.queue
    ensures s.delivered <= r.delivered
    ensures r.capacity == s.capacity && r.accepted == s.accepted
    ensures r.closed == s.closed && r.ticks == s.ticks
    ensures s.queue == [] ==> r == s
  {
    if |s.queue| == 0 then s
    else s.(queue := [], delivered := s.delivered + s.queue)
  }

  /**
    The intake arm. Below the headroom mark the event is staged. Otherwise
    the loop waits for one tick, stages the event into the reserved slot and
    flushes, so the `capacity - 1` staged events and the new one leave as a
    single batch of exactly `capacity` events.
   */
  function OnPush<T>(s: RelayState<T>, e: T): (r: RelayState<T>)
    requires Valid(s) && !s.closed
    ensures Valid(r) && !r.closed && r.capacity == s.capacity
    ensures r.accepted == s.accepted + [e]
    ensures |s.queue| < s.capacity - 1 ==>
      r.queue == s.queue + [e] && r.delivered == s.delivered && r.ticks == s.ticks
    ensures |s.queue| >= s.capacity - 1 ==>
      && |s.queue| + 1 == s.capacity
      && r.queue == []
      && r.delivered == s.delivered + s.queue + [e]
      && r.ticks == s.ticks + 1
  {
    if |s.queue| < s.capacity - 1 then
      s.(queue := s.queue + [e], accepted := s.accepted + [e])
    else
      var waited := s.(ticks := s.ticks + 1);
      var staged := waited.(queue := waited.queue + [e], accepted := waited.accepted + [e]);
      Flush(staged)
  }

  /** The ticker arm: one tick consumed, everything staged is delivered. */
  function OnTick<T>(s: RelayState<T>): (r: RelayState<T>)
    requires Valid(s) && !s.closed
    ensures Valid(r) && !r.closed && r.capacity == s.capacity
    ensures r.queue == [] && r.delivered == s.accepted && r.accepted == s.accepted
    ensures r.ticks == s.ticks + 1
  {
    Flush(s).(ticks := s.ticks + 1)
  }

  /** The shutdown arm: close the intake, final flush, close `deliveries`. */
  function OnStop<T>(s: RelayState<T>): (r: RelayState<T>)
    requires Valid(s) && !s.closed
    ensures Valid(r) && r.closed && r.capacity == s.capacity
    ensures r.queue == [] && r.delivered == s.accepted && r.accepted == s.accepted
    ensures r.ticks == s.ticks
  {
    Flush(s).(closed := true)
  }

  /**
    Pushing is only allowed while the relay is running: after shutdown the
    intake channel is closed and a send on it is a fault.
   */
  ghost predicate CanStep<T>(s: RelayState<T>, sig: Signal<T>) {
    Valid(s) && (sig.Push? ==> !s.closed)
  }

  /**
    One iteration of the loop. Once closed the loop has exited and the
    ticker is stopped; a second `Stop` only cancels an already cancelled
    context. So ticks and stops leave a closed relay as it is.
   */
  function Step<T>(s: RelayState<T>, sig: Signal<T>): (r: RelayState<T>)
    requires CanStep(s, sig)
    ensures Valid(r) && r.capacity == s.capacity
    ensures r.accepted == s.accepted + Pushes([sig])
    ensures s.delivered <= r.delivered
    ensures r.closed == (s.closed || sig.Stop?)
    ensures s.closed ==> r == s
    // the rate limit: each tick consumed pays for at most one batch of at
    // most `capacity` events; only the shutdown flush comes without a tick
    ensures s.ticks <= r.ticks <= s.ticks + 1
    ensures |r.delivered| - |s.delivered| <=
      if r.ticks > s.ticks then s.capacity
      else if r.closed && !s.closed then s.capacity - 1
      else 0
  {
    if s.closed then s
    else
      match sig
      case Push(e) => OnPush(s, e)
      case Tick => OnTick(s)
      case Stop => OnStop(s)
  }

  /** The events a trace of signals pushes, in order. */
  function Pushes<T>(t: seq<Signal<T>>): seq<T> {
    if t == [] then []
    else (if t[0].Push? then [t[0].event] else []) + Pushes(t[1..])
  }

  /** Whether a trace contains a shutdown request. */
  predicate HasStop<T>(t: seq<Signal<T>>) {
    exists i :: 0 <= i < |t| && t[i].Stop?
  }

  /**
    Whether every push in `t` happens before the relay is closed, given
    whether it is closed at the start: no push after a `Stop`.
   */
  predicate PushesWhileOpen<T>(closed: bool, t: seq<Signal<T>>)
    decreases |t|
  {
    if t == [] then true
    else if t[0].Push? then !closed && PushesWhileOpen(closed, t[1..])
    else PushesWhileOpen(closed || t[0].Stop?, t[1..])
  }

  /** The loop run over a whole trace of signals. */
  function Run<T>(s: RelayState<T>, t: seq<Signal<T>>): (r: RelayState<T>)
    requires Valid(s) && PushesWhileOpen(s.closed, t)
    ensures Valid(r) && r.capacity == s.capacity
    ensures s.delivered <= r.delivered
    ensures r.closed == (s.closed || HasStop(t))
    ensures s.ticks <= r.ticks
    decreases |t|
  {
    if t == [] then s
    else
      var next := Step(s, t[0]);
      var r := Run(next, t[1..]);
      assert HasStop(t) <==> t[0].Stop? || HasStop(t[1..]) by {
        if HasStop(t[1..]) {
          var i :| 0 <= i < |t[1..]| && t[1..][i].Stop?;
          assert t[i + 1].Stop?;
        }
        if HasStop(t) && !t[0].Stop? {
          var i :| 0 <= i < |t| && t[i].Stop?;
          assert t[1..][i - 1].Stop?;
        }
      }
      r
  }
}
