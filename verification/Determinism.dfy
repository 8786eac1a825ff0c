/** Replaying the same requests: when the trades of a symbol are determined, and that they need not be. */
module Determinism {
  import opened Types
  import opened Book
  import opened Matching
  import opened Priority
  import opened Mirror
  import opened Sequencer
  import opened Gateway
  import opened Routing
  import opened Schedules
  import opened Pipeline

  /** The gateway's part of a run of the whole exchange. */
  function GateSteps(actions: seq<Action>): seq<GateStep> {
    if actions == [] then []
    else (if actions[0].AtGateway? then [actions[0].step] else []) + GateSteps(actions[1..])
  }

  lemma {:induction false} GateProjection(s: System, actions: seq<Action>, s': System, capacity: nat)
    requires Runs(s, actions, s', capacity)
    ensures GateRun(s.gate, GateSteps(actions), s'.gate, capacity)
    decreases |actions|
  {
    if actions != [] {
      var s1 := Next(s, actions[0], capacity);
      GateProjection(s1, actions[1..], s', capacity);
      if actions[0].AtGateway? {
        RunBack(s.gate, actions[0].step, s1.gate, GateSteps(actions[1..]), s'.gate, capacity);
      } else {
        assert [] + GateSteps(actions[1..]) == GateSteps(actions[1..]);
      }
    }
  }

  /** A run in which exactly `m` was submitted under a clock that never goes back, all of it routed. */
  ghost predicate Plays(symbols: set<Symbol>, m: multiset<Request>, s: System, capacity: nat) {
    exists actions :: Runs(Opening(symbols), actions, s, capacity) && Clocked(GateSteps(actions)) && Drained(s.gate)
        && s.gate.submitted == m
  }

  /** The same, with producers entering the inbox in the order they read the clock. */
  ghost predicate PlaysOrderly(symbols: set<Symbol>, m: multiset<Request>, s: System, capacity: nat) {
    exists actions :: Runs(Opening(symbols), actions, s, capacity) && Orderly(GateSteps(actions)) && Drained(s.gate)
        && s.gate.submitted == m
  }

  ghost predicate Idle(s: System, symbol: Symbol) {
    symbol in s.contexts && s.contexts[symbol].queue == []
  }

  // ---------------------------------------------------------------- what is determined

  lemma {:induction false} PlaysRoutes(symbols: set<Symbol>, m: multiset<Request>, s: System, capacity: nat)
    requires PlaysOrderly(symbols, m, s, capacity)
    ensures Reachable(s, symbols, capacity) && CanRoute(m, s.gate.routed, capacity)
    ensures s.gate.outgoing == [] && (SortedByTime(s.gate.routed) <==> Chained(s.gate.flushes))
  {
    var actions :| Runs(Opening(symbols), actions, s, capacity) && Orderly(GateSteps(actions))
                   && Drained(s.gate) && s.gate.submitted == m;
    GateProjection(Opening(symbols), actions, s, capacity);
    RoutedOrder(GateSteps(actions), s.gate, capacity);
  }

  /** Once a symbol is idle, it has processed exactly what was routed to it. */
  lemma {:induction false} IdleProcessed(s: System, symbols: set<Symbol>, capacity: nat, symbol: Symbol)
    requires Reachable(s, symbols, capacity) && symbol in symbols && Idle(s, symbol)
    ensures Requests(s.contexts[symbol].done) == OfSymbol(s.gate.routed, symbol)
  {
    NothingLostEndToEnd(s, symbols, capacity);
    assert Requests(s.contexts[symbol].done) + [] == Requests(s.contexts[symbol].done);
  }

  /** Replaying the same requests gives the same trades: over all orderly runs that submit the same requests
      and route them all, whatever the batches, the ties between symbols, the clocks' readings while matching
      and the threads' timing, an idle symbol whose requests receive times separate has emitted the same
      responses and updates and holds the same book. */
  lemma {:induction false} ReplayDetermined(symbols: set<Symbol>, symbols': set<Symbol>, m: multiset<Request>,
                                            s: System, s': System,
                                            capacity: nat, capacity': nat, symbol: Symbol)
    requires 0 < capacity && 0 < capacity' && symbol in symbols && symbol in symbols'
    requires PlaysOrderly(symbols, m, s, capacity) && PlaysOrderly(symbols', m, s', capacity')
    requires Idle(s, symbol) && Idle(s', symbol) && SeparateFor(m, symbol)
    ensures Requests(s.contexts[symbol].done) == Requests(s'.contexts[symbol].done)
    ensures s.contexts[symbol].responses == s'.contexts[symbol].responses
    ensures s.contexts[symbol].updates == s'.contexts[symbol].updates
    ensures EraseBook(s.contexts[symbol].book) == EraseBook(s'.contexts[symbol].book)
  {
    var a, b := s.gate.routed, s'.gate.routed;
    PlaysRoutes(symbols, m, s, capacity);
    PlaysRoutes(symbols', m, s', capacity');
    RoutesExactly(m, a, capacity);
    RoutesExactly(m, b, capacity');
    SeparateInStream(a, symbol);
    SortedStreamsAgree(a, b, symbol);
    DeterministicAcrossBatches(s, s', symbols, symbols', capacity, capacity', symbol);
    IdleProcessed(s, symbols, capacity, symbol);
    IdleProcessed(s', symbols', capacity', symbol);
  }

  // ---------------------------------------------------------------- runs that exist

  lemma {:induction false} RunsConcat(s: System, a: seq<Action>, s1: System, b: seq<Action>, s2: System, capacity: nat)
    requires Runs(s, a, s1, capacity) && Runs(s1, b, s2, capacity)
    ensures Runs(s, a + b, s2, capacity) && GateSteps(a + b) == GateSteps(a) + GateSteps(b)
    decreases |a|
  {
    if a == [] {
      assert a + b == b;
    } else {
      RunsConcat(Next(s, a[0], capacity), a[1..], s1, b, s2, capacity);
      assert (a + b)[1..] == a[1..] + b;
      Assoc(if a[0].AtGateway? then [a[0].step] else [], GateSteps(a[1..]), GateSteps(b));
    }
  }

  lemma {:induction false} GateKeepsSymbols(s: System, step: GateStep, capacity: nat)
    requires CanTake(s.gate, step, capacity)
    ensures Next(s, AtGateway(step), capacity).contexts.Keys == s.contexts.Keys
    ensures Next(s, AtGateway(step), capacity).gate == Take(s.gate, step, capacity)
  {
  }

  /** Every run of the gateway is the gateway's part of a run of the exchange. */
  lemma {:induction false} LiftGate(s: System, steps: seq<GateStep>, g: Gate, capacity: nat)
    returns (actions: seq<Action>, s': System)
    requires GateRun(s.gate, steps, g, capacity)
    ensures Runs(s, actions, s', capacity) && GateSteps(actions) == steps && s'.gate == g
    ensures s'.contexts.Keys == s.contexts.Keys
    decreases |steps|
  {
    if steps == [] {
      actions, s' := [], s;
    } else {
      var s1 := Next(s, AtGateway(steps[0]), capacity);
      GateKeepsSymbols(s, steps[0], capacity);
      actions, s' := LiftGate(s1, steps[1..], g, capacity);
      Prepend(s, AtGateway(steps[0]), actions, s', capacity);
      actions := [AtGateway(steps[0])] + actions;
    }
  }

  lemma {:induction false} Prepend(s: System, a: Action, actions: seq<Action>, s': System, capacity: nat)
    requires Enabled(s, a, capacity) && Runs(Next(s, a, capacity), actions, s', capacity)
    ensures Runs(s, [a] + actions, s', capacity)
    ensures GateSteps([a] + actions) == (if a.AtGateway? then [a.step] else []) + GateSteps(actions)
  {
    assert ([a] + actions)[1..] == actions;
  }

  /** A symbol's thread can always catch up. */
  lemma {:induction false} CatchUp(s: System, symbol: Symbol, capacity: nat) returns (actions: seq<Action>, s': System)
    requires symbol in s.contexts
    ensures Runs(s, actions, s', capacity) && GateSteps(actions) == [] && s'.gate == s.gate && Idle(s', symbol)
    decreases |s.contexts[symbol].queue|
  {
    if s.contexts[symbol].queue == [] {
      actions, s' := [], s;
    } else {
      actions, s' := CatchUp(Next(s, Process(symbol, 0), capacity), symbol, capacity);
      Prepend(s, Process(symbol, 0), actions, s', capacity);
      actions := [Process(symbol, 0)] + actions;
    }
  }

  lemma {:induction false} Realise(symbols: set<Symbol>, symbol: Symbol, steps: seq<GateStep>, g: Gate, capacity: nat)
    returns (actions: seq<Action>, s: System)
    requires symbol in symbols && GateRun(IDLE, steps, g, capacity)
    ensures Runs(Opening(symbols), actions, s, capacity) && GateSteps(actions) == steps && s.gate == g
    ensures Idle(s, symbol)
  {
    var a, s1 := LiftGate(Opening(symbols), steps, g, capacity);
    var b, s2 := CatchUp(s1, symbol, capacity);
    RunsConcat(Opening(symbols), a, s1, b, s2, capacity);
    assert steps + [] == steps;
    actions, s := a + b, s2;
  }

  lemma {:induction false} RealiseRoute(symbols: set<Symbol>, symbol: Symbol, m: multiset<Request>, rs: seq<Request>,
                                        capacity: nat)
    returns (s: System)
    requires symbol in symbols && CanRoute(m, rs, capacity)
    ensures PlaysOrderly(symbols, m, s, capacity) && Idle(s, symbol) && s.gate.routed == rs
  {
    var steps, g :| GateRun(IDLE, steps, g, capacity) && Orderly(steps) && Drained(g) && g.submitted == m
        && g.routed == rs;
    var actions;
    actions, s := Realise(symbols, symbol, steps, g, capacity);
  }

  // ---------------------------------------------------------------- exactly when

  /** The requests an idle symbol has processed are a function of what was submitted, over all orderly runs, if
      and only if receive times separate that symbol's requests. */
  lemma {:induction false} ReplayDeterminedWhen(symbols: set<Symbol>, m: multiset<Request>, symbol: Symbol,
                                                capacity: nat)
    requires 0 < capacity && symbol in symbols
    ensures (forall s, s' :: PlaysOrderly(symbols, m, s, capacity) && PlaysOrderly(symbols, m, s', capacity)
                             && Idle(s, symbol) && Idle(s', symbol)
                             ==> Requests(s.contexts[symbol].done) == Requests(s'.contexts[symbol].done))
            <==> SeparateFor(m, symbol)
  {
    if SeparateFor(m, symbol) {
      forall s, s' | PlaysOrderly(symbols, m, s, capacity) && PlaysOrderly(symbols, m, s', capacity)
                     && Idle(s, symbol) && Idle(s', symbol)
        ensures Requests(s.contexts[symbol].done) == Requests(s'.contexts[symbol].done)
      {
        ReplayDetermined(symbols, symbols, m, s, s', capacity, capacity, symbol);
      }
    } else {
      var s, s' := TiesDiffer(symbols, m, symbol, capacity);
    }
  }

  lemma {:induction false} TiesDiffer(symbols: set<Symbol>, m: multiset<Request>, symbol: Symbol, capacity: nat)
    returns (s: System, s': System)
    requires 0 < capacity && symbol in symbols && !SeparateFor(m, symbol)
    ensures PlaysOrderly(symbols, m, s, capacity) && PlaysOrderly(symbols, m, s', capacity)
    ensures Idle(s, symbol) && Idle(s', symbol)
    ensures Requests(s.contexts[symbol].done) != Requests(s'.contexts[symbol].done)
  {
    StreamDetermined(m, symbol, capacity);
    var a, b :| CanRoute(m, a, capacity) && CanRoute(m, b, capacity) && OfSymbol(a, symbol) != OfSymbol(b, symbol);
    s := RealiseRoute(symbols, symbol, m, a, capacity);
    s' := RealiseRoute(symbols, symbol, m, b, capacity);
    PlaysRoutes(symbols, m, s, capacity);
    PlaysRoutes(symbols, m, s', capacity);
    IdleProcessed(s, symbols, capacity, symbol);
    IdleProcessed(s', symbols, capacity, symbol);
  }

  // ---------------------------------------------------------------- pushes out of order

  /** A bid and an offer of two clients that trade for the same size at whichever price came first. */
  ghost predicate Crossing(bid: Request, offer: Request) {
    && bid.typ.LIMIT? && offer.typ.LIMIT? && bid.side.BUY? && offer.side.SELL? && bid.symbol == offer.symbol
    && bid.client != offer.client && bid.id != offer.id
    && 0 < bid.qty == offer.qty < INVALID_QTY && 0 < offer.price < bid.price
  }

  function Rested(r: Request): Order {
    Order(r.id, r.client, LIMIT, r.side, r.price, r.qty, r.qty, 0)
  }

  lemma {:induction false} FirstRests(symbol: Symbol, x: Request)
    requires x.typ.LIMIT? && !Malformed(x)
    ensures var o := Run(symbol, [Input(x, 0)]);
            && o.book == RestIn(Empty(symbol), Rested(x))
            && o.responses == [Response(ACCEPTED, x.client, symbol, x.id, x.id, x.side, x.price, 0, x.qty)]
            && o.updates == [BookUpdate(ADD_ORDER, x.id, symbol, x.side, x.price, x.qty)]
  {
    assert [] + [Input(x, 0)] == [Input(x, 0)];
    RunSnoc(symbol, [], Input(x, 0));
  }

  lemma {:induction false} SecondTrades(b: Book, x: Request, y: Request)
    requires Crossing(x, y) || Crossing(y, x)
    requires b == RestIn(Empty(b.symbol), Rested(x))
    ensures Step(b, y, 0).updates == [BookUpdate(TRADE, x.id, b.symbol, x.side, x.price, x.qty),
                                      BookUpdate(CANCEL_ORDER, x.id, b.symbol, x.side, x.price, 0)]
  {
    var t, o := Taker(y.client, y.id, y.side, y.price, true), Rested(x);
    assert Opposite(b, y.side) == [o];
    assert [o][1..] == [];
    assert Sweep(t, [o], y.qty) == Swept([], 0, [Fill(o.(qty := 0), y.qty, 0)]);
    FillEventsOfOne(b.symbol, t, Fill(o.(qty := 0), y.qty, 0));
  }

  /** The first response is about `x`, and `x` then traded at its own price. */
  ghost predicate CameFirst(symbol: Symbol, x: Request, responses: seq<Response>, updates: seq<BookUpdate>) {
    && |responses| > 0 && responses[0].clientOrderId == x.id
    && updates == [BookUpdate(ADD_ORDER, x.id, symbol, x.side, x.price, x.qty),
                   BookUpdate(TRADE, x.id, symbol, x.side, x.price, x.qty),
                   BookUpdate(CANCEL_ORDER, x.id, symbol, x.side, x.price, 0)]
  }

  lemma {:induction false} TradesAtFirstPrice(symbol: Symbol, x: Request, y: Request)
    requires Crossing(x, y) || Crossing(y, x)
    ensures var o := Run(symbol, AtZero([x, y])); CameFirst(symbol, x, o.responses, o.updates)
  {
    FirstRests(symbol, x);
    SecondTrades(Run(symbol, [Input(x, 0)]).book, x, y);
    RunSnoc(symbol, [Input(x, 0)], Input(y, 0));
    assert AtZero([x, y]) == [Input(x, 0)] + [Input(y, 0)];
  }

  /** The requests of a symbol can be processed in every order whatsoever. */
  lemma {:induction false} PlayAny(symbol: Symbol, ps: seq<Request>, capacity: nat) returns (s: System)
    requires 0 < capacity
    ensures Plays({symbol}, multiset(ps), s, capacity) && Reachable(s, {symbol}, capacity)
    ensures Idle(s, symbol) && s.gate.routed == ps
  {
    var steps, g := AnyOrder(ps, capacity);
    var actions;
    actions, s := Realise({symbol}, symbol, steps, g, capacity);
  }

  lemma {:induction false} OfPair(x: Request, y: Request)
    requires x.symbol == y.symbol
    ensures OfSymbol([x, y], x.symbol) == [x, y]
  {
    OfSymbolSnoc([x], y, x.symbol);
    OfSymbolSnoc([], x, x.symbol);
    assert [x] + [y] == [x, y] && [] + [x] == [x];
  }

  lemma {:induction false} PlayPair(x: Request, y: Request, capacity: nat) returns (s: System)
    requires 0 < capacity && (Crossing(x, y) || Crossing(y, x))
    ensures Plays({x.symbol}, multiset([x, y]), s, capacity) && Idle(s, x.symbol)
    ensures CameFirst(x.symbol, x, s.contexts[x.symbol].responses, s.contexts[x.symbol].updates)
  {
    s := PlayAny(x.symbol, [x, y], capacity);
    OfPair(x, y);
    IdleEvents(s, {x.symbol}, capacity, x.symbol);
    TradesAtFirstPrice(x.symbol, x, y);
  }

  /** Without that order in the inbox the claim fails: for any crossing bid and offer, even with different
      receive times and a clock that never goes back, two runs that submit just these two and process them both
      trade at different prices. */
  lemma {:induction false} ReplayDiffers(bid: Request, offer: Request, capacity: nat) returns (s: System, s': System)
    requires 0 < capacity && Crossing(bid, offer) && bid.recvTime != offer.recvTime
    ensures var m, symbol := multiset([bid, offer]), bid.symbol;
            && SeparateFor(m, symbol)
            && Plays({symbol}, m, s, capacity) && Plays({symbol}, m, s', capacity)
            && Idle(s, symbol) && Idle(s', symbol)
            && CameFirst(symbol, bid, s.contexts[symbol].responses, s.contexts[symbol].updates)
            && CameFirst(symbol, offer, s'.contexts[symbol].responses, s'.contexts[symbol].updates)
            && s.contexts[symbol].responses != s'.contexts[symbol].responses
            && s.contexts[symbol].updates != s'.contexts[symbol].updates
  {
    s := PlayPair(bid, offer, capacity);
    s' := PlayPair(offer, bid, capacity);
    assert multiset([offer, bid]) == multiset([bid, offer]);
    DifferentFirst(bid.symbol, bid, offer, s.contexts[bid.symbol], s'.contexts[bid.symbol]);
  }

  lemma {:induction false} DifferentFirst(symbol: Symbol, x: Request, y: Request, c: Context, c': Context)
    requires CameFirst(symbol, x, c.responses, c.updates) && CameFirst(symbol, y, c'.responses, c'.updates)
    requires x.id != y.id
    ensures c.responses != c'.responses && c.updates != c'.updates
  {
    assert c.updates[0].id != c'.updates[0].id;
  }
}
