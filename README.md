# RLBuffer: a verified model of a tick-batched, rate-limited event relay

`RLBuffer` (package `rlbuffer`) relays opaque events from producers to one
consumer. Events are staged in a bounded buffered channel of capacity
`bufferSize`. A coordination loop (`pipe`) waits on three things: a new event
on the intake, a ticker tick, and cancellation. While the buffer has more than
one free slot, an incoming event is just staged. When only the reserved slot
is left, the loop waits for the next tick, stages the event in that slot and
flushes the whole buffer as one batch. Every tick flushes the buffer.
Cancellation closes the intake, flushes one last time and closes the output.

The model has three parts:

- `relay.dfy`, module `Relay`: the loop as a state machine over values. The
  state holds the capacity, the staged queue, the log of delivered events
  and the closed flag. It also holds two history fields, `accepted` (every
  event taken from the intake, in order) and `ticks` (ticker events the loop
  consumed). `Valid` is the invariant between iterations:
  - the queue keeps one slot of headroom;
  - `delivered + queue == accepted`;
  - a closed relay stages nothing.
- `relay_properties.dfy`, module `RelayProperties`: what holds over whole
  runs (traces of `Push`, `Tick` and `Stop` signals). This covers
  conservation and order, the drain on shutdown, silence once closed,
  staleness bounded by one tick, and the rate limit (at most `capacity`
  events reach the consumer per tick consumed).
- `rl_buffer.dfy`, module `RateLimitedBuffer`: class `RLBuffer` with the
  buffered channel as an array ring buffer. Its methods `Push`, `Tick`,
  `Stop` and `Flush` change the object in place. Each is proved to move its
  abstract `State()` exactly as the matching `Relay` function does, so every
  property above holds of the object too. `Flush` is the source's draining
  loop, with its invariants.

`New` in the source does not clamp `bufferSize`. A size of 0 makes an
unbuffered channel, and the loop's send into its own buffer on the forced
path then blocks forever. A negative size panics in `make`. The model
requires `bufferSize >= 1`.

The comment on `RLBuffer` (rate_limited_buffer.go:8) promises at most `size`
events every second. The code keeps that budget per tick, but only up to
shutdown: the final flush consumes no tick, so it can deliver up to `size-1`
more events right after a forced batch of `size`. `RateFromStart` and
`WindowRate` state the bound the code actually keeps.

## Model

| member | source | states |
|---|---|---|
| `Relay.Init` | rate_limited_buffer.go:19-29 | a new relay is running, satisfies the invariant, and has an empty buffer, no deliveries and no history |
| `Relay.Flush` | rate_limited_buffer.go:81-88 | flushing empties the queue and appends its old contents to the output, front first; an empty queue changes nothing; the history, capacity and lifecycle are untouched |
| `Relay.OnPush` | rate_limited_buffer.go:57-65 | the event is accepted. Fast path (`len < cap-1`): appended to the queue, nothing delivered, no tick consumed. Forced path: the queue held exactly `cap-1`, so the batch is exactly `cap` events (no overflow); one tick is consumed; the output gains old queue + event in that order; the queue is empty. The invariant is kept |
| `Relay.OnTick` | rate_limited_buffer.go:67-68 | a tick consumes one ticker event, empties the queue and leaves everything accepted delivered |
| `Relay.OnStop` | rate_limited_buffer.go:69-75 | shutdown leaves the relay closed with an empty queue and everything accepted delivered |
| `Relay.Step` | rate_limited_buffer.go:54-78 | every loop iteration keeps the invariant (queue length at most `cap-1`, conservation), only extends the output, closes exactly on `Stop`, changes nothing once closed, and delivers at most `cap` events per tick consumed (at most `cap-1` on the shutdown flush) |
| `Relay.Run` | rate_limited_buffer.go:51-79 | any run of the loop keeps the invariant, only extends the output, never consumes ticks backwards, and is closed exactly when a `Stop` occurred |
| `RelayProperties.RunConserves` | rate_limited_buffer.go:57-88 | over any run, delivered + staged equals what was delivered and staged before followed by the pushed events in push order: nothing is lost, duplicated or reordered |
| `RelayProperties.DeliveredIsPrefixOfPushes` | rate_limited_buffer.go:42-88 | from `New`, the consumer has seen a prefix of the pushed events in push order, and the rest is staged |
| `RelayProperties.StopDeliversEverything` | rate_limited_buffer.go:69-75 | after any run containing a `Stop`, the relay is closed, the queue is empty, and every event ever pushed has been delivered in order |
| `RelayProperties.ClosedIsTerminal` | rate_limited_buffer.go:71-75 | once closed, no sequence of ticks or stops changes the relay, so nothing more is delivered |
| `RelayProperties.TickDeliversStaged` | rate_limited_buffer.go:67-68 | a tick at the end of any run has delivered everything pushed before it: no event stays staged across a tick |
| `RelayProperties.WindowRate` | rate_limited_buffer.go:56-75 | over any stretch of a run, the output grows by at most `cap` events per tick consumed, plus at most `cap-1` if the relay closed during that stretch |
| `RelayProperties.RateFromStart` | rate_limited_buffer.go:8 | from `New`, at most `size` events per tick consumed reach the consumer, plus at most `size-1` from the final flush |
| `RelayProperties.RunAppend` | rate_limited_buffer.go:54-78 | running two traces one after the other is the same as running their concatenation |
| `RelayProperties.PushesAppend` | rate_limited_buffer.go:42-44 | the events pushed by two concatenated traces are those of the first followed by those of the second |
| `RelayProperties.ExampleHeadroomForcing` | rate_limited_buffer.go:57-65 | with capacity 3, two pushes are staged without delivery; the third consumes one tick and delivers all three in order |
| `RelayProperties.ExampleStopDrains` | rate_limited_buffer.go:69-75 | with two events staged, shutdown delivers both in order and closes |
| `RateLimitedBuffer.RLBuffer.constructor` | rate_limited_buffer.go:19-29 | a fresh buffer array of `bufferSize` slots; the abstract state is `Relay.Init(bufferSize)` |
| `RateLimitedBuffer.RLBuffer.Send` | rate_limited_buffer.go:64 | a send into a channel with room appends the event to the staged queue and keeps the ring buffer consistent |
| `RateLimitedBuffer.RLBuffer.Forward` | rate_limited_buffer.go:86 | one receive-and-send of the draining loop removes the oldest staged event and appends exactly it to `delivered`; the ring buffer stays consistent |
| `RateLimitedBuffer.RLBuffer.Flush` | rate_limited_buffer.go:81-88 | the draining loop moves the queue onto `delivered` front first and leaves it empty, exactly as `Relay.Flush` |
| `RateLimitedBuffer.RLBuffer.Push` | rate_limited_buffer.go:57-65 | intake (requires not closed): the new state is `Relay.OnPush` of the old one; the forced-path send is proved to fit in the array |
| `RateLimitedBuffer.RLBuffer.Tick` | rate_limited_buffer.go:67-68 | a tick moves the state as `Relay.Step` with `Tick`: a flush while running, nothing once closed |
| `RateLimitedBuffer.RLBuffer.Stop` | rate_limited_buffer.go:69-75 | shutdown moves the state as `Relay.Step` with `Stop`: closed, queue empty, delivered equals accepted |

## Left out

- Goroutines and the choice between `select` arms: each arm is a step the
  caller picks (`Step`, or a method of `RLBuffer`). Which arm Go would pick
  when several are ready is not modelled.
- `Start` only launches the loop in a goroutine, so it is not a step of the
  model. A push before `Start` simply blocks until the loop runs.
- `Push` and the intake arm that receives its event happen as one step,
  because the intake channel is unbuffered. Likewise `Stop` (cancelling the
  context) and the shutdown arm that observes it are one step. Races between
  a `Push` and a concurrent `Stop` are not modelled.
- Blocking and backpressure are not modelled. This covers the unbuffered
  intake and `deliveries` channels and a consumer that is slow to receive.
  Handing an event to the consumer is an append to `delivered`.
- `Deliveries()` only returns the output channel. In the model that channel
  is the `delivered` field, and closing it is part of `closed`.
- Wall-clock time is not modelled: `time.NewTicker`, the one-second period,
  `ticker.Stop`, and ticks the Go ticker drops when nobody reads them. Ticks
  are abstract events. The rate bound is stated per tick consumed, not per
  second.
- `context.WithCancel` is reduced to a call to `Stop`. A second `Stop` after
  shutdown changes nothing.
- A push after shutdown sends on a closed channel and panics. This is a
  precondition (`!closed` on `RLBuffer.Push`, `PushesWhileOpen` on traces),
  not modelled behaviour.
- `bufferSize < 1` is excluded by a precondition, since Go blocks forever or
  panics there.
- pkg/rate_limited_buffer.go is not part of this model. It is a second,
  unused relay that only forwards from one channel to another and builds a
  `rate.Limiter` it never consults.
- cmd/main.go is not part of this model. It is demo code: signal handling,
  printing, and producer and consumer goroutines.
