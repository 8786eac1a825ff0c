/** What the order of the producers' steps decides about the routed stream. */
module Schedules {
  import opened Types
  import opened Seal
  import opened Matching
  import opened Sequencer
  import opened Gateway
  import opened Routing

  function StampedBy(step: GateStep): seq<Request> {
    if step.Stamp? then [step.r] else []
  }

  function PushedBy(step: GateStep): seq<Request> {
    if step.Push? then [step.r] else []
  }

  /** The requests in the order their producers read the clock. */
  function Stamps(steps: seq<GateStep>): seq<Request> {
    if steps == [] then [] else StampedBy(steps[0]) + Stamps(steps[1..])
  }

  /** The requests in the order they entered the inbox. */
  function Pushes(steps: seq<GateStep>): seq<Request> {
    if steps == [] then [] else PushedBy(steps[0]) + Pushes(steps[1..])
  }

  /** The clock never goes back: receive times are in the order of the clock readings. */
  ghost predicate Clocked(steps: seq<GateStep>) {
    SortedByTime(Stamps(steps))
  }

  /** In addition producers enter the inbox in the order they read the clock. */
  ghost predicate Orderly(steps: seq<GateStep>) {
    Clocked(steps) && Pushes(steps) <= Stamps(steps)
  }

  lemma {:induction false} OrderlyPushes(steps: seq<GateStep>)
    requires Orderly(steps)
    ensures SortedByTime(Pushes(steps))
  {
    var ps, st := Pushes(steps), Stamps(steps);
    forall i, j | 0 <= i < j < |ps| ensures ps[i].recvTime <= ps[j].recvTime {
      assert ps[i] == st[i] && ps[j] == st[j];
    }
  }

  // ---------------------------------------------------------------- pushes in order route in order

  ghost predicate Within(a: seq<Request>, b: seq<Request>) {
    forall x :: x in a ==> x in b
  }

  /** Of the requests `pushed` so far: those a flush has sorted, those in the buffer, those on their way there. */
  ghost predicate Staged(done: seq<Request>, pending: seq<Request>, todo: seq<Request>, pushed: seq<Request>) {
    && SortedByTime(done) && SortedByTime(todo)
    && AllBefore(done, pending) && AllBefore(done, todo) && AllBefore(pending, todo)
    && Within(done, pushed) && Within(pending, pushed) && Within(todo, pushed)
  }

  ghost predicate InOrder(g: Gate, pushed: seq<Request>) {
    Staged(g.routed + g.outgoing, g.pending, g.batch + g.inbox, pushed)
  }

  lemma {:induction false} PushStaged(done: seq<Request>, pending: seq<Request>, todo: seq<Request>,
                                      pushed: seq<Request>, r: Request)
    requires Staged(done, pending, todo, pushed) && SortedByTime(pushed + [r])
    ensures Staged(done, pending, todo + [r], pushed + [r])
  {
    SortedConcat(pushed, [r]);
    SortedConcat(todo, [r]);
    assert AllBefore(pushed, [r]) && r in [r];
  }

  lemma {:induction false} EnqueueStaged(done: seq<Request>, pending: seq<Request>, todo: seq<Request>,
                                         pushed: seq<Request>)
    requires Staged(done, pending, todo, pushed) && todo != []
    ensures Staged(done, pending + [todo[0]], todo[1..], pushed)
  {
    assert todo == [todo[0]] + todo[1..];
    SortedConcat([todo[0]], todo[1..]);
    assert todo[0] in todo && todo[0] in [todo[0]];
  }

  lemma {:induction false} FlushStaged(done: seq<Request>, pending: seq<Request>, todo: seq<Request>,
                                       pushed: seq<Request>,
                                       sorted: seq<Request>)
    requires Staged(done, pending, todo, pushed) && Sequenced(pending, sorted)
    ensures Staged(done + sorted, [], todo, pushed)
  {
    forall x: Request ensures x in sorted <==> x in pending { SameElements(sorted, pending, x); }
    SortedConcat(done, sorted);
  }

  lemma {:induction false} StepInOrder(g: Gate, step: GateStep, pushed: seq<Request>, capacity: nat)
    requires InOrder(g, pushed) && CanTake(g, step, capacity) && SortedByTime(pushed + PushedBy(step))
    ensures InOrder(Take(g, step, capacity), pushed + PushedBy(step))
  {
    var done, todo := g.routed + g.outgoing, g.batch + g.inbox;
    assert pushed + [] == pushed;
    match step
    case Stamp(r) =>
    case Push(r) =>
      PushStaged(done, g.pending, todo, pushed, r);
      assert todo + [r] == g.batch + (g.inbox + [r]);
    case Swap => assert g.inbox + [] == todo;
    case Enqueue =>
      EnqueueStaged(done, g.pending, todo, pushed);
      assert todo[1..] == g.batch[1..] + g.inbox;
    case Flush(sorted) =>
      FlushStaged(done, g.pending, todo, pushed, sorted);
      assert done == g.routed;
    case Route => HeadMoves(g.outgoing, g.routed);
  }

  lemma {:induction false} RunInOrder(g: Gate, steps: seq<GateStep>, g': Gate, pushed: seq<Request>, capacity: nat)
    requires InOrder(g, pushed) && GateRun(g, steps, g', capacity) && SortedByTime(pushed + Pushes(steps))
    ensures InOrder(g', pushed + Pushes(steps))
    decreases |steps|
  {
    if steps == [] {
      assert pushed + [] == pushed;
    } else {
      var head, tail := PushedBy(steps[0]), Pushes(steps[1..]);
      Assoc(pushed, head, tail);
      SortedConcat(pushed + head, tail);
      StepInOrder(g, steps[0], pushed, capacity);
      RunInOrder(Take(g, steps[0], capacity), steps[1..], g', pushed + head, capacity);
    }
  }

  /** Requests that enter the inbox in receive-time order are routed in receive-time order, wherever the drains
      and the flushes of a full buffer cut the stream. */
  lemma {:induction false} SortedPushesRouteSorted(steps: seq<GateStep>, g: Gate, capacity: nat)
    requires GateRun(IDLE, steps, g, capacity) && SortedByTime(Pushes(steps))
    ensures SortedByTime(g.routed + g.outgoing)
  {
    assert [] + Pushes(steps) == Pushes(steps);
    RunInOrder(IDLE, steps, g, [], capacity);
  }

  // ---------------------------------------------------------------- one request at a time

  ghost predicate Quiet(g: Gate) {
    g.inbox == [] && g.batch == [] && g.pending == [] && g.outgoing == []
  }

  /** Nothing under way and nobody about to enter the inbox. */
  ghost predicate Drained(g: Gate) {
    Quiet(g) && g.inFlight == multiset{}
  }

  /** A quiet gate after request `r` alone has gone through it. */
  ghost function Passed(g: Gate, r: Request): Gate {
    g.(inFlight := g.inFlight - multiset{r}, routed := g.routed + [r], flushes := g.flushes + [[r]])
  }

  /** Some run leads from `g` to `g'`, with these clock readings and these pushes. */
  ghost predicate Way(g: Gate, g': Gate, st: seq<Request>, ps: seq<Request>, capacity: nat) {
    forall key {:trigger Look(key)} :: key == Paths ==>
      exists steps :: GateRun(g, steps, g', capacity) && Stamps(steps) == st && Pushes(steps) == ps
  }

  lemma {:induction false} WayEnds(g: Gate, capacity: nat)
    ensures Way(g, g, [], [], capacity)
  {
    assert GateRun(g, [], g, capacity) && Stamps([]) == [] && Pushes([]) == [];
  }

  lemma {:induction false} WayTaken(g: Gate, g': Gate, st: seq<Request>, ps: seq<Request>, capacity: nat)
    returns (steps: seq<GateStep>)
    requires Way(g, g', st, ps, capacity)
    ensures GateRun(g, steps, g', capacity) && Stamps(steps) == st && Pushes(steps) == ps
  {
    assert Look(Paths);
    steps :| GateRun(g, steps, g', capacity) && Stamps(steps) == st && Pushes(steps) == ps;
  }

  lemma {:induction false} WayFrom(g: Gate, step: GateStep, g1: Gate, g': Gate, st: seq<Request>, ps: seq<Request>,
                                   capacity: nat)
    requires CanTake(g, step, capacity) && Take(g, step, capacity) == g1 && Way(g1, g', st, ps, capacity)
    ensures Way(g, g', StampedBy(step) + st, PushedBy(step) + ps, capacity)
  {
    var steps := WayTaken(g1, g', st, ps, capacity);
    RunBack(g, step, g1, steps, g', capacity);
    var all := [step] + steps;
    assert all[1..] == steps;
    assert Stamps(all) == StampedBy(step) + st && Pushes(all) == PushedBy(step) + ps;
  }

  /** The same for a step of the gateway's own. */
  lemma {:induction false} WayOn(g: Gate, step: GateStep, g1: Gate, g': Gate, st: seq<Request>, ps: seq<Request>,
                                 capacity: nat)
    requires CanTake(g, step, capacity) && !step.Stamp? && !step.Push?
    requires Take(g, step, capacity) == g1 && Way(g1, g', st, ps, capacity)
    ensures Way(g, g', st, ps, capacity)
  {
    WayFrom(g, step, g1, g', st, ps, capacity);
    assert [] + st == st && [] + ps == ps;
  }

  lemma {:induction false} DrainOne(g: Gate, r: Request, g': Gate, ps: seq<Request>, capacity: nat)
    requires 0 < capacity && Quiet(g)
    requires Way(g.(routed := g.routed + [r], flushes := g.flushes + [[r]]), g', [], ps, capacity)
    ensures Way(g.(inbox := [r]), g', [], ps, capacity)
  {
    var g2 := g.(batch := [r]);
    var g3 := g.(pending := [r]);
    var g4 := g.(outgoing := [r], flushes := g.flushes + [[r]]);
    WayOn(g4, Route, g.(routed := g.routed + [r], flushes := g.flushes + [[r]]), g', [], ps, capacity);
    WayOn(g3, Flush([r]), g4, g', [], ps, capacity);
    WayOn(g2, Enqueue, g3, g', [], ps, capacity);
    WayOn(g.(inbox := [r]), Swap, g2, g', [], ps, capacity);
  }

  lemma {:induction false} PassOne(g: Gate, r: Request, g': Gate, ps: seq<Request>, capacity: nat)
    requires 0 < capacity && Quiet(g) && r in g.inFlight && Way(Passed(g, r), g', [], ps, capacity)
    ensures Way(g, g', [], [r] + ps, capacity)
  {
    var g1 := g.(inFlight := g.inFlight - multiset{r});
    DrainOne(g1, r, g', ps, capacity);
    WayFrom(g, Push(r), g1.(inbox := [r]), g', [], ps, capacity);
    assert StampedBy(Push(r)) + [] == [];
  }

  /** The requests in flight enter the inbox in the order `ps`, each drained before the next. */
  lemma {:induction false} PassAll(g: Gate, ps: seq<Request>, capacity: nat) returns (g': Gate)
    requires 0 < capacity && Quiet(g) && g.inFlight == multiset(ps)
    ensures Way(g, g', [], ps, capacity)
    ensures Drained(g') && g'.routed == g.routed + ps && g'.submitted == g.submitted
    decreases |ps|
  {
    if ps == [] {
      g' := g;
      WayEnds(g, capacity);
    } else {
      TailMultiset(ps);
      g' := PassAll(Passed(g, ps[0]), ps[1..], capacity);
      PassOne(g, ps[0], g', ps[1..], capacity);
      assert ps == [ps[0]] + ps[1..];
    }
  }

  ghost function Stamped(g: Gate, st: seq<Request>): Gate {
    g.(submitted := g.submitted + multiset(st), inFlight := g.inFlight + multiset(st))
  }

  lemma {:induction false} StampedMore(g: Gate, st: seq<Request>)
    requires st != []
    ensures Stamped(Stamped(g, [st[0]]), st[1..]) == Stamped(g, st)
  {
    assert st == [st[0]] + st[1..];
    Shuffle(g.submitted, multiset([st[0]]), multiset(st[1..]));
    Shuffle(g.inFlight, multiset([st[0]]), multiset(st[1..]));
  }

  lemma {:induction false} Shuffle<T>(a: multiset<T>, b: multiset<T>, c: multiset<T>)
    ensures (a + b) + c == a + (b + c)
  {
  }

  lemma {:induction false} StampAll(g: Gate, st: seq<Request>, g': Gate, ps: seq<Request>, capacity: nat)
    requires Way(Stamped(g, st), g', [], ps, capacity)
    ensures Way(g, g', st, ps, capacity)
    decreases |st|
  {
    assert Look(Paths);
    if st == [] {
      assert Stamped(g, st) == g;
    } else {
      var g1 := Stamped(g, [st[0]]);
      StampedMore(g, st);
      StampAll(g1, st[1..], g', ps, capacity);
      WayFrom(g, Stamp(st[0]), g1, g', st[1..], ps, capacity);
      assert st == [st[0]] + st[1..];
    }
  }

  /** Whatever order the clock was read in, every order of entering the inbox can come about and be routed as
      it is. */
  lemma {:induction false} Singly(st: seq<Request>, ps: seq<Request>, capacity: nat)
    returns (steps: seq<GateStep>, g: Gate)
    requires 0 < capacity && multiset(st) == multiset(ps)
    ensures GateRun(IDLE, steps, g, capacity) && Stamps(steps) == st && Pushes(steps) == ps
    ensures Drained(g) && g.routed == ps && g.submitted == multiset(ps)
  {
    g := PassAll(Stamped(IDLE, st), ps, capacity);
    StampAll(IDLE, st, g, ps, capacity);
    steps := WayTaken(IDLE, g, st, ps, capacity);
  }

  /** Even with a clock that never goes back, requests can be routed in every order whatsoever. */
  lemma {:induction false} AnyOrder(ps: seq<Request>, capacity: nat) returns (steps: seq<GateStep>, g: Gate)
    requires 0 < capacity
    ensures GateRun(IDLE, steps, g, capacity) && Clocked(steps) && Pushes(steps) == ps
    ensures Drained(g) && g.routed == ps && g.submitted == multiset(ps)
  {
    SortSequences(ps);
    steps, g := Singly(SortByTime(ps), ps, capacity);
  }

  // ---------------------------------------------------------------- when the routed stream is in order

  /** The gateway routes in receive-time order, however its drains, flushes and the clock readings interleave
      with the pushes, if and only if the requests enter the inbox in that order. */
  lemma {:induction false} RoutesInOrderWhen(ps: seq<Request>, capacity: nat)
    requires 0 < capacity
    ensures (forall steps, g :: GateRun(IDLE, steps, g, capacity) && Clocked(steps) && Pushes(steps) == ps
                                ==> SortedByTime(g.routed + g.outgoing))
            <==> SortedByTime(ps)
  {
    if SortedByTime(ps) {
      forall steps, g | GateRun(IDLE, steps, g, capacity) && Clocked(steps) && Pushes(steps) == ps
        ensures SortedByTime(g.routed + g.outgoing)
      {
        SortedPushesRouteSorted(steps, g, capacity);
      }
    } else {
      var steps, g := AnyOrder(ps, capacity);
      assert ps + [] == ps;
    }
  }

  /** Strict receive-time order can fail, for any two requests: a producer that has read the clock but not yet
      reached the inbox is overtaken by a later one, whose request is flushed first. */
  lemma {:induction false} OvertakenInFlight(early: Request, late: Request, capacity: nat)
    returns (steps: seq<GateStep>, g: Gate)
    requires 0 < capacity && early.recvTime < late.recvTime
    ensures GateRun(IDLE, steps, g, capacity) && Clocked(steps)
    ensures g.routed == [late, early] && !SortedByTime(g.routed)
  {
    var ps := [late, early];
    assert ps[0].recvTime > ps[1].recvTime;
    steps, g := AnyOrder(ps, capacity);
  }

  // ---------------------------------------------------------------- when the routed stream is determined

  /** Some orderly run submits exactly `m`, drains everything and routes `rs`. */
  ghost predicate CanRoute(m: multiset<Request>, rs: seq<Request>, capacity: nat) {
    exists steps, g :: GateRun(IDLE, steps, g, capacity) && Orderly(steps) && Drained(g) && g.submitted == m
        && g.routed == rs
  }

  lemma {:induction false} DrainedRouted(steps: seq<GateStep>, g: Gate, capacity: nat)
    requires GateRun(IDLE, steps, g, capacity) && Drained(g)
    ensures multiset(g.routed) == g.submitted
  {
    GatewaySafe(steps, g, capacity);
  }

  /** Orderly runs route the sorted arrangements of what was submitted, all of them and no others. */
  lemma {:induction false} RoutesExactly(m: multiset<Request>, rs: seq<Request>, capacity: nat)
    requires 0 < capacity
    ensures CanRoute(m, rs, capacity) <==> SortedByTime(rs) && multiset(rs) == m
  {
    if CanRoute(m, rs, capacity) {
      var steps, g :| GateRun(IDLE, steps, g, capacity) && Orderly(steps) && Drained(g) && g.submitted == m
          && g.routed == rs;
      DrainedRouted(steps, g, capacity);
      OrderlyPushes(steps);
      SortedPushesRouteSorted(steps, g, capacity);
      assert g.routed + g.outgoing == rs;
    }
    if SortedByTime(rs) && multiset(rs) == m {
      var steps, g := Singly(rs, rs, capacity);
      assert Orderly(steps);
    }
  }

  /** Different requests for the symbol have different receive times. */
  ghost predicate SeparateFor(m: multiset<Request>, symbol: Symbol) {
    forall x, y :: x in m && y in m && x.symbol == symbol && y.symbol == symbol && x.recvTime == y.recvTime ==> x == y
  }

  lemma {:induction false} SeparateInStream(rs: seq<Request>, symbol: Symbol)
    ensures TimesSeparate(OfSymbol(rs, symbol)) <==> SeparateFor(multiset(rs), symbol)
  {
    var q := OfSymbol(rs, symbol);
    forall x: Request ensures x in q <==> x in multiset(rs) && x.symbol == symbol { OfSymbolElements(rs, symbol, x); }
    if TimesSeparate(q) {
      forall x, y | x in q && y in q && x.recvTime == y.recvTime ensures x == y {
        var i :| 0 <= i < |q| && q[i] == x;
        var j :| 0 <= j < |q| && q[j] == y;
      }
    } else {
      var i, j :| 0 <= i < |q| && 0 <= j < |q| && q[i].recvTime == q[j].recvTime && q[i] != q[j];
      assert q[i] in q && q[j] in q;
    }
  }

  lemma {:induction false} Enumerate<T>(m: multiset<T>) returns (s: seq<T>)
    ensures multiset(s) == m
    decreases |m|
  {
    if m == multiset{} {
      s := [];
    } else {
      var x :| x in m;
      s := Enumerate(m - multiset{x});
      s := s + [x];
    }
  }

  /** What a symbol is sent is a function of the requests submitted, over all orderly runs, if and only if
      receive times separate that symbol's requests. */
  lemma {:induction false} StreamDetermined(m: multiset<Request>, symbol: Symbol, capacity: nat)
    requires 0 < capacity
    ensures (forall a, b :: CanRoute(m, a, capacity) && CanRoute(m, b, capacity)
                            ==> OfSymbol(a, symbol) == OfSymbol(b, symbol))
            <==> SeparateFor(m, symbol)
  {
    var s := Enumerate(m);
    SeparateInStream(s, symbol);
    SymbolOrderDetermined(s, symbol);
    forall rs ensures CanRoute(m, rs, capacity) <==> Sequenced(s, rs) { RoutesExactly(m, rs, capacity); }
  }
}
