/** The order gateway: producers submit concurrently, one thread drains, sequences and routes. */
module Gateway {
  import opened Types
  import opened Sequencer

  /** The gateway between any two atomic steps. `inFlight` holds requests whose producer has read the clock
      but not yet entered the inbox; `outgoing` is what the current flush still has to route; `submitted`,
      `routed` and `flushes` are the history. */
  datatype Gate = Gate(
    submitted: multiset<Request>, inFlight: multiset<Request>, inbox: seq<Request>, batch: seq<Request>,
    pending: seq<Request>, outgoing: seq<Request>, routed: seq<Request>, flushes: seq<seq<Request>>)

  /** `Stamp` and `Push` are the two halves of a submit, by any producer at any time. The others belong to the
      gateway's loop: swap out the inbox, move one request into the sequencer, sort (when the buffer is full
      or the batch is done), route one request. */
  datatype GateStep = Stamp(r: Request) | Push(r: Request) | Swap | Enqueue | Flush(sorted: seq<Request>) | Route

  const IDLE := Gate(multiset{}, multiset{}, [], [], [], [], [], [])

  ghost predicate CanTake(g: Gate, step: GateStep, capacity: nat) {
    match step
    case Stamp(r) => true
    case Push(r) => r in g.inFlight
    case Swap => g.inbox != [] && g.batch == [] && g.pending == [] && g.outgoing == []
    case Enqueue => g.batch != [] && g.outgoing == [] && |g.pending| < capacity
    case Flush(s) => g.outgoing == [] && g.pending != [] && (g.batch == [] || |g.pending| == capacity)
        && Sequenced(g.pending, s)
    case Route => g.outgoing != []
  }

  ghost function Take(g: Gate, step: GateStep, capacity: nat): Gate
    requires CanTake(g, step, capacity)
  {
    match step
    case Stamp(r) => g.(submitted := g.submitted + multiset{r}, inFlight := g.inFlight + multiset{r})
    case Push(r) => g.(inFlight := g.inFlight - multiset{r}, inbox := g.inbox + [r])
    case Swap => g.(batch := g.inbox, inbox := [])
    case Enqueue => g.(pending := g.pending + [g.batch[0]], batch := g.batch[1..])
    case Flush(s) => g.(outgoing := s, pending := [], flushes := g.flushes + [s])
    case Route => g.(routed := g.routed + [g.outgoing[0]], outgoing := g.outgoing[1..])
  }

  function Flat<T>(ss: seq<seq<T>>): seq<T> {
    if ss == [] then [] else Flat(ss[..|ss| - 1]) + ss[|ss| - 1]
  }

  /** Every request is in exactly one place. */
  ghost predicate NothingLost(g: Gate) {
    g.submitted
    == g.inFlight + multiset(g.inbox) + multiset(g.batch) + multiset(g.pending) + multiset(g.outgoing)
       + multiset(g.routed)
  }

  ghost predicate EachSorted(ss: seq<seq<Request>>) {
    forall k :: 0 <= k < |ss| ==> SortedByTime(ss[k])
  }

  /** What is routed is the flushes one after the other, each in receive-time order. */
  ghost predicate RoutedInFlushes(g: Gate) {
    g.routed + g.outgoing == Flat(g.flushes) && EachSorted(g.flushes)
  }

  ghost predicate GateOK(g: Gate, capacity: nat) {
    NothingLost(g) && RoutedInFlushes(g) && |g.pending| <= capacity
  }

  lemma {:induction false} HeadMoves<T>(a: seq<T>, b: seq<T>)
    requires a != []
    ensures multiset(a[1..]) + multiset{a[0]} == multiset(a)
    ensures multiset(b + [a[0]]) == multiset(b) + multiset{a[0]}
    ensures (b + [a[0]]) + a[1..] == b + a
  {
    assert a == [a[0]] + a[1..];
  }

  lemma {:induction false} Shift<T>(x: multiset<T>, a: multiset<T>, e: multiset<T>, b: multiset<T>)
    ensures x + a + (b + e) == x + (a + e) + b
  {
  }

  lemma {:induction false} PushedKept(g: Gate, r: Request)
    requires NothingLost(g) && r in g.inFlight
    ensures NothingLost(g.(inFlight := g.inFlight - multiset{r}, inbox := g.inbox + [r]))
  {
    assert multiset(g.inbox + [r]) == multiset(g.inbox) + multiset{r};
    assert (g.inFlight - multiset{r}) + (multiset(g.inbox) + multiset{r}) == g.inFlight + multiset(g.inbox);
  }

  lemma {:induction false} SwappedKept(g: Gate)
    requires NothingLost(g) && g.batch == []
    ensures NothingLost(g.(batch := g.inbox, inbox := []))
  {
    assert g.inFlight + multiset([]) + multiset(g.inbox) == g.inFlight + multiset(g.inbox) + multiset(g.batch);
  }

  lemma {:induction false} EnqueuedKept(g: Gate)
    requires NothingLost(g) && g.batch != []
    ensures NothingLost(g.(pending := g.pending + [g.batch[0]], batch := g.batch[1..]))
  {
    HeadMoves(g.batch, g.pending);
    Shift(g.inFlight + multiset(g.inbox), multiset(g.batch[1..]), multiset{g.batch[0]}, multiset(g.pending));
  }

  lemma {:induction false} FlushedKept(g: Gate, s: seq<Request>)
    requires NothingLost(g) && g.outgoing == [] && multiset(s) == multiset(g.pending)
    ensures NothingLost(g.(outgoing := s, pending := []))
  {
    var x := g.inFlight + multiset(g.inbox) + multiset(g.batch);
    assert x + multiset([]) + multiset(s) == x + multiset(g.pending) + multiset(g.outgoing);
  }

  lemma {:induction false} RoutedKept(g: Gate)
    requires NothingLost(g) && g.outgoing != []
    ensures NothingLost(g.(routed := g.routed + [g.outgoing[0]], outgoing := g.outgoing[1..]))
  {
    HeadMoves(g.outgoing, g.routed);
    Shift(g.inFlight + multiset(g.inbox) + multiset(g.batch) + multiset(g.pending), multiset(g.outgoing[1..]),
          multiset{g.outgoing[0]}, multiset(g.routed));
  }

  lemma {:induction false} NothingLostKept(g: Gate, step: GateStep, capacity: nat)
    requires NothingLost(g) && CanTake(g, step, capacity)
    ensures NothingLost(Take(g, step, capacity))
  {
    match step
    case Stamp(r) => Stamped(g, r);
    case Push(r) => PushedKept(g, r);
    case Swap => SwappedKept(g);
    case Enqueue => EnqueuedKept(g);
    case Flush(s) => FlushedKept(g, s);
    case Route => RoutedKept(g);
  }

  lemma {:induction false} Stamped(g: Gate, r: Request)
    requires NothingLost(g)
    ensures NothingLost(g.(submitted := g.submitted + multiset{r}, inFlight := g.inFlight + multiset{r}))
  {
  }

  lemma {:induction false} FlushesKept(g: Gate, step: GateStep, capacity: nat)
    requires RoutedInFlushes(g) && CanTake(g, step, capacity)
    ensures RoutedInFlushes(Take(g, step, capacity))
  {
    match step
    case Route => HeadMoves(g.outgoing, g.routed);
    case Flush(s) =>
      assert (g.flushes + [s])[..|g.flushes|] == g.flushes;
      assert g.routed + [] == g.routed;
    case _ =>
  }

  lemma {:induction false} GateKept(g: Gate, step: GateStep, capacity: nat)
    requires GateOK(g, capacity) && CanTake(g, step, capacity)
    ensures GateOK(Take(g, step, capacity), capacity)
  {
    NothingLostKept(g, step, capacity);
    FlushesKept(g, step, capacity);
  }

  ghost predicate GateRun(g: Gate, steps: seq<GateStep>, g': Gate, capacity: nat)
    decreases |steps|
  {
    if steps == [] then g == g'
    else CanTake(g, steps[0], capacity) && GateRun(Take(g, steps[0], capacity), steps[1..], g', capacity)
  }

  lemma {:induction false} GateRunKept(g: Gate, steps: seq<GateStep>, g': Gate, capacity: nat)
    requires GateOK(g, capacity) && GateRun(g, steps, g', capacity)
    ensures GateOK(g', capacity)
    decreases |steps|
  {
    if steps != [] {
      GateKept(g, steps[0], capacity);
      GateRunKept(Take(g, steps[0], capacity), steps[1..], g', capacity);
    }
  }

  /** For every interleaving of submits with the gateway's loop: no request is lost or duplicated, the buffer
      never overflows, and what is routed is a sequence of flushes each in receive-time order. */
  lemma {:induction false} GatewaySafe(steps: seq<GateStep>, g: Gate, capacity: nat)
    requires GateRun(IDLE, steps, g, capacity)
    ensures NothingLost(g) && RoutedInFlushes(g) && |g.pending| <= capacity
  {
    GateRunKept(IDLE, steps, g, capacity);
  }

  // ---------------------------------------------------------------- order across flushes

  /** No flush holds a request received before one of an earlier flush. */
  ghost predicate Chained(ss: seq<seq<Request>>) {
    forall i, j, x: Request, y: Request :: 0 <= i < j < |ss| && x in ss[i] && y in ss[j] ==> x.recvTime <= y.recvTime
  }

  lemma {:induction false} FlatElements<T>(ss: seq<seq<T>>, x: T)
    ensures x in Flat(ss) <==> exists i :: 0 <= i < |ss| && x in ss[i]
  {
    if ss != [] {
      FlatElements(ss[..|ss| - 1], x);
      if i :| 0 <= i < |ss| && x in ss[i] {
        assert i < |ss| - 1 ==> x in ss[..|ss| - 1][i];
      }
      if x in Flat(ss[..|ss| - 1]) {
        var i :| 0 <= i < |ss| - 1 && x in ss[..|ss| - 1][i];
        assert x in ss[i];
      }
    }
  }

  ghost predicate AllBefore(a: seq<Request>, b: seq<Request>) {
    forall x, y :: x in a && y in b ==> x.recvTime <= y.recvTime
  }

  lemma {:induction false} SortedConcat(a: seq<Request>, b: seq<Request>)
    ensures SortedByTime(a + b)
        <==> SortedByTime(a) && SortedByTime(b) && AllBefore(a, b)
  {
    var c := a + b;
    if SortedByTime(c) {
      forall i, j | 0 <= i < j < |a| ensures a[i].recvTime <= a[j].recvTime { assert c[i].recvTime <= c[j].recvTime; }
      forall i, j | 0 <= i < j < |b| ensures b[i].recvTime <= b[j].recvTime {
        assert c[|a| + i].recvTime <= c[|a| + j].recvTime;
      }
      forall x: Request, y: Request | x in a && y in b ensures x.recvTime <= y.recvTime {
        var i, j :| 0 <= i < |a| && a[i] == x && 0 <= j < |b| && b[j] == y;
        assert c[i].recvTime <= c[|a| + j].recvTime;
      }
    }
    if SortedByTime(a) && SortedByTime(b) && AllBefore(a, b) {
      forall i, j | 0 <= i < j < |c| ensures c[i].recvTime <= c[j].recvTime {
        if i < |a| <= j { assert a[i] in a && b[j - |a|] in b; }
      }
    }
  }

  lemma {:induction false} ChainedInit(ss: seq<seq<Request>>)
    requires ss != [] && Chained(ss)
    ensures Chained(ss[..|ss| - 1]) && AllBefore(Flat(ss[..|ss| - 1]), ss[|ss| - 1])
  {
    var n := |ss| - 1;
    var init := ss[..n];
    forall i, j, x: Request, y: Request | 0 <= i < j < n && x in init[i]
        && y in init[j] ensures x.recvTime <= y.recvTime {
      assert x in ss[i] && y in ss[j];
    }
    forall x: Request, y: Request | x in Flat(init) && y in ss[n] ensures x.recvTime <= y.recvTime {
      FlatElements(init, x);
      var i :| 0 <= i < n && x in init[i];
      assert x in ss[i];
    }
  }

  lemma {:induction false} ChainedSnoc(ss: seq<seq<Request>>)
    requires ss != [] && Chained(ss[..|ss| - 1]) && AllBefore(Flat(ss[..|ss| - 1]), ss[|ss| - 1])
    ensures Chained(ss)
  {
    var n := |ss| - 1;
    var init := ss[..n];
    forall i, j, x: Request, y: Request | 0 <= i < j <= n && x in ss[i] && y in ss[j] ensures x.recvTime <= y.recvTime {
      assert x in init[i];
      if j == n {
        FlatElements(init, x);
      } else {
        assert y in init[j];
      }
    }
  }

  lemma {:induction false} EachSortedSnoc(ss: seq<seq<Request>>)
    requires ss != []
    ensures EachSorted(ss) <==> EachSorted(ss[..|ss| - 1]) && SortedByTime(ss[|ss| - 1])
  {
    var n := |ss| - 1;
    assert forall k :: 0 <= k < n ==> ss[..n][k] == ss[k];
  }

  /** The whole routed stream is in receive-time order exactly when each flush is and no flush reaches back
      before an earlier one. */
  lemma {:induction false} SortedAcrossFlushes(ss: seq<seq<Request>>)
    ensures SortedByTime(Flat(ss)) <==> EachSorted(ss) && Chained(ss)
  {
    if ss != [] {
      var init, last := ss[..|ss| - 1], ss[|ss| - 1];
      SortedAcrossFlushes(init);
      SortedConcat(Flat(init), last);
      EachSortedSnoc(ss);
      if Chained(ss) { ChainedInit(ss); }
      if Chained(init) && AllBefore(Flat(init), last) { ChainedSnoc(ss); }
    }
  }

  /** After every interleaving, with no flush under way, the stream routed so far is in receive-time order if
      and only if no flush reaches back before an earlier one. */
  lemma {:induction false} RoutedOrder(steps: seq<GateStep>, g: Gate, capacity: nat)
    requires GateRun(IDLE, steps, g, capacity) && g.outgoing == []
    ensures SortedByTime(g.routed) <==> Chained(g.flushes)
  {
    GatewaySafe(steps, g, capacity);
    assert g.routed + [] == g.routed;
    SortedAcrossFlushes(g.flushes);
  }

  lemma {:induction false} RunBack(g: Gate, step: GateStep, g1: Gate, steps: seq<GateStep>, g': Gate, capacity: nat)
    requires CanTake(g, step, capacity) && Take(g, step, capacity) == g1 && GateRun(g1, steps, g', capacity)
    ensures GateRun(g, [step] + steps, g', capacity)
  {
    assert ([step] + steps)[1..] == steps;
  }
}
