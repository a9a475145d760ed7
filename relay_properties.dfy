/**
  What the coordination loop promises over whole runs: conservation and
  order of events, the drain on shutdown, silence after closing, bounded
  staleness, and the rate at which batches reach the consumer.
 */
module RelayProperties {
  import opened Relay

  /** The events pushed by a concatenation of traces, in order. */
  lemma {:induction false} PushesAppend<T>(a: seq<Signal<T>>, b: seq<Signal<T>>)
    ensures Pushes(a + b) == Pushes(a) + Pushes(b)
    decreases |a|
  {
    if a == [] {
      assert a + b == b;
    } else {
      assert (a + b)[0] == a[0];
      assert (a + b)[1..] == a[1..] + b;
      PushesAppend(a[1..], b);
      var head := if a[0].Push? then [a[0].event] else [];
      calc {
        Pushes(a + b);
        head + Pushes(a[1..] + b);
        head + (Pushes(a[1..]) + Pushes(b));
        (head + Pushes(a[1..])) + Pushes(b);
        Pushes(a) + Pushes(b);
      }
    }
  }

  /** Running two traces one after the other is running their concatenation. */
  lemma {:induction false} RunAppend<T>(s: RelayState<T>, a: seq<Signal<T>>, b: seq<Signal<T>>)
    requires Valid(s) && PushesWhileOpen(s.closed, a + b)
    ensures PushesWhileOpen(s.closed, a)
    ensures PushesWhileOpen(Run(s, a).closed, b)
    ensures Run(s, a + b) == Run(Run(s, a), b)
    decreases |a|
  {
    if a == [] {
      assert a + b == b;
    } else {
      assert (a + b)[0] == a[0];
      assert (a + b)[1..] == a[1..] + b;
      RunAppend(Step(s, a[0]), a[1..], b);
    }
  }

  /**
    Conservation and order: every pushed event is either delivered or still
    staged, in push order; nothing is lost, duplicated or reordered.
   */
  lemma {:induction false} RunConserves<T>(s: RelayState<T>, t: seq<Signal<T>>)
    requires Valid(s) && PushesWhileOpen(s.closed, t)
    ensures Run(s, t).accepted == s.accepted + Pushes(t)
    ensures Run(s, t).delivered + Run(s, t).queue == s.delivered + s.queue + Pushes(t)
    decreases |t|
  {
    if t != [] {
      RunConserves(Step(s, t[0]), t[1..]);
      assert [t[0]] + t[1..] == t;
      PushesAppend([t[0]], t[1..]);
    }
  }

  /**
    From a freshly created relay, the consumer sees a prefix of the pushed
    events, in push order, and the rest is staged.
   */
  lemma DeliveredIsPrefixOfPushes<T>(capacity: int, t: seq<Signal<T>>)
    requires capacity >= 1 && PushesWhileOpen(false, t)
    ensures Run(Init(capacity), t).delivered + Run(Init(capacity), t).queue == Pushes(t)
    ensures Run(Init(capacity), t).delivered <= Pushes(t)
  {
    RunConserves(Init<T>(capacity), t);
  }

  /**
    Graceful shutdown: once a stop has been handled, the queue is empty,
    everything ever pushed has been delivered in order, and the relay is
    closed.
   */
  lemma StopDeliversEverything<T>(s: RelayState<T>, t: seq<Signal<T>>)
    requires Valid(s) && PushesWhileOpen(s.closed, t) && HasStop(t)
    ensures Run(s, t).closed && Run(s, t).queue == []
    ensures Run(s, t).delivered == s.accepted + Pushes(t)
  {
    RunConserves(s, t);
  }

  /**
    Closed is terminal: with no pushes (which would be a fault), nothing a
    closed relay is asked to do changes it, so no further event is ever
    delivered.
   */
  lemma {:induction false} ClosedIsTerminal<T>(s: RelayState<T>, t: seq<Signal<T>>)
    requires Valid(s) && s.closed && PushesWhileOpen(true, t)
    ensures Run(s, t) == s
    decreases |t|
  {
    if t != [] {
      ClosedIsTerminal(Step(s, t[0]), t[1..]);
    }
  }

  /**
    Bounded staleness: a tick delivers everything pushed before it, so no
    event stays staged across a tick.
   */
  lemma TickDeliversStaged<T>(s: RelayState<T>, t: seq<Signal<T>>)
    requires Valid(s) && PushesWhileOpen(s.closed, t + [Tick])
    ensures Run(s, t + [Tick]).queue == []
    ensures Run(s, t + [Tick]).delivered == s.accepted + Pushes(t)
  {
    RunAppend(s, t, [Tick]);
    RunConserves(s, t);
    var mid := Run(s, t);
    assert Run(mid, [Tick]) == Run(Step(mid, Tick), []);
  }

  /**
    The rate limit over any stretch of a run: the consumer receives at most
    `capacity` events per tick the loop consumed, plus at most
    `capacity - 1` from the final flush if the relay closed meanwhile.
   */
  lemma {:induction false} WindowRate<T>(s: RelayState<T>, t: seq<Signal<T>>)
    requires Valid(s) && PushesWhileOpen(s.closed, t)
    ensures |Run(s, t).delivered| - |s.delivered| <=
      s.capacity * (Run(s, t).ticks - s.ticks)
      + (if Run(s, t).closed && !s.closed then s.capacity - 1 else 0)
    decreases |t|
  {
    if t != [] {
      var next := Step(s, t[0]);
      var r := Run(next, t[1..]);
      WindowRate(next, t[1..]);
      SplitBudget(s.capacity, s.ticks, next.ticks, r.ticks);
    }
  }

  lemma SplitBudget(c: nat, k0: nat, k1: nat, k2: nat)
    requires k0 <= k1 <= k0 + 1 && k1 <= k2
    ensures c * (k2 - k0) == c * (k2 - k1) + (if k1 > k0 then c else 0)
  {
  }

  /**
    From a freshly created relay: at most `capacity` events per consumed
    tick reach the consumer, and at most `capacity - 1` more on shutdown.
   */
  lemma RateFromStart<T>(capacity: int, t: seq<Signal<T>>)
    requires capacity >= 1 && PushesWhileOpen(false, t)
    ensures |Run(Init(capacity), t).delivered| <=
      capacity * Run(Init(capacity), t).ticks
      + (if Run(Init(capacity), t).closed then capacity - 1 else 0)
  {
    WindowRate(Init<T>(capacity), t);
  }

  /**
    Headroom forcing with capacity 3: two pushes are staged without
    delivery; the third waits for a tick and leaves with them as one batch.
   */
  lemma ExampleHeadroomForcing<T>(a: T, b: T, c: T)
    ensures Step(Step(Init(3), Push(a)), Push(b)).delivered == []
    ensures Step(Step(Init(3), Push(a)), Push(b)).queue == [a, b]
    ensures Step(Step(Step(Init(3), Push(a)), Push(b)), Push(c)).delivered == [a, b, c]
    ensures Step(Step(Step(Init(3), Push(a)), Push(b)), Push(c)).queue == []
    ensures Step(Step(Step(Init(3), Push(a)), Push(b)), Push(c)).ticks == 1
  {
  }

  /** Shutdown with two events staged delivers both, in order, and closes. */
  lemma ExampleStopDrains<T>(x: T, y: T)
    ensures Step(Step(Step(Init(3), Push(x)), Push(y)), Stop).delivered == [x, y]
    ensures Step(Step(Step(Init(3), Push(x)), Push(y)), Stop).closed
  {
  }
}
