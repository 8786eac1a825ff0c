/** The exchange with its request queues as the rings they are: gateway and matching threads take the rings'
    atomic steps, in any interleaving, and the result is still a run of the exchange with plain queues. */
module RingPipeline {
  import opened Types
  import opened Seal
  import opened Book
  import opened Priority
  import opened Mirror
  import opened Gateway
  import opened Routing
  import opened RingQueue
  import opened Pipeline

  /** One symbol: its request ring, whether the request its thread holds has been processed yet, and the history
      of what the thread processed and emitted. */
  datatype Lane = Lane(
    ring: Ring<Request>, served: bool, done: seq<Input>, book: Book, responses: seq<Response>,
    updates: seq<BookUpdate>, fed: nat, shown: nat)

  datatype RingSystem = RingSystem(
    gate: Gate, lanes: map<Symbol, Lane>, rejects: seq<Response>, feed: seq<BookUpdate>, mirror: Mirrors)

  /** A routed request fills a slot; the gateway's thread then publishes it by `Link` steps before it goes on. A
      matching thread tests the count, serves the request in the slot it holds, and releases the slot. */
  datatype RingAction =
    | GateTurn(step: GateStep)
    | Link(symbol: Symbol, move: RingStep<Request>)
    | Serve(symbol: Symbol, now: Nanos)
    | FeedOn(symbol: Symbol)
    | ShowNext

  function RingOpening(symbols: set<Symbol>, store: seq<Request>): RingSystem {
    RingSystem(IDLE, map s | s in symbols :: Lane(Start(store), false, [], Empty(s), [], [], 0, 0), [], [], map[])
  }

  ghost predicate AllReady(lanes: map<Symbol, Lane>) {
    forall symbol :: symbol in lanes ==> lanes[symbol].ring.producer.Ready?
  }

  /** The program order of each thread. Submits go on at any time; the gateway's own steps wait until it has
      published the request it routed last. */
  ghost predicate Permitted(s: RingSystem, a: RingAction, capacity: nat) {
    match a
    case GateTurn(step) =>
      && CanTake(s.gate, step, capacity)
      && (step.Stamp? || step.Push? || AllReady(s.lanes))
      && (step.Route? && s.gate.outgoing[0].symbol in s.lanes ==> InBounds(s.lanes[s.gate.outgoing[0].symbol].ring))
    case Link(symbol, move) =>
      && symbol in s.lanes && !move.FillSlot? && Allowed(s.lanes[symbol].ring, move)
      && (move.AdvanceRead? ==> s.lanes[symbol].served)
    case Serve(symbol, now) =>
      && symbol in s.lanes && InBounds(s.lanes[symbol].ring)
      && s.lanes[symbol].ring.consumer.Holding? && !s.lanes[symbol].served
    case FeedOn(symbol) => symbol in s.lanes && s.lanes[symbol].fed < |s.lanes[symbol].updates|
    case ShowNext => s.feed != []
  }

  /** The assumption the code leaves to its environment: a request is routed only while its ring has a slot free. */
  ghost predicate Roomy(s: RingSystem, a: RingAction) {
    a.GateTurn? && a.step.Route? && s.gate.outgoing != [] && s.gate.outgoing[0].symbol in s.lanes
    ==> s.lanes[s.gate.outgoing[0].symbol].ring.count < |s.lanes[s.gate.outgoing[0].symbol].ring.store|
  }

  ghost function Filled(s: RingSystem, r: Request): RingSystem
    requires r.symbol in s.lanes ==> InBounds(s.lanes[r.symbol].ring) && s.lanes[r.symbol].ring.producer.Ready?
  {
    if r.symbol in s.lanes then
      var l := s.lanes[r.symbol];
      s.(lanes := s.lanes[r.symbol := l.(ring := After(l.ring, FillSlot(r)))])
    else s.(rejects := s.rejects + [Reject(r)])
  }

  /** The matching thread processes what it finds in the slot it holds. */
  function Served(l: Lane, now: Nanos): Lane
    requires InBounds(l.ring)
  {
    var r := l.ring.store[l.ring.nextRead];
    var o := Step(l.book, r, now);
    l.(served := true, done := l.done + [Input(r, now)], book := o.book,
       responses := l.responses + o.responses, updates := l.updates + o.updates)
  }

  function Linked(l: Lane, move: RingStep<Request>): Lane
    requires Allowed(l.ring, move)
  {
    l.(ring := After(l.ring, move), served := l.served && !move.AdvanceRead?)
  }

  function AdvancedLanes(lanes: map<Symbol, Lane>, symbol: Symbol): map<Symbol, Lane>
    requires symbol in lanes
  {
    lanes[symbol := lanes[symbol].(fed := lanes[symbol].fed + 1)]
  }

  function FedOn(s: RingSystem, symbol: Symbol): RingSystem
    requires symbol in s.lanes && s.lanes[symbol].fed < |s.lanes[symbol].updates|
  {
    RingSystem(s.gate, AdvancedLanes(s.lanes, symbol), s.rejects,
               s.feed + [s.lanes[symbol].updates[s.lanes[symbol].fed]], s.mirror)
  }

  function CountedLanes(lanes: map<Symbol, Lane>, symbol: Symbol): map<Symbol, Lane> {
    if symbol in lanes then lanes[symbol := lanes[symbol].(shown := lanes[symbol].shown + 1)] else lanes
  }

  function ShownNext(s: RingSystem): RingSystem
    requires s.feed != []
  {
    RingSystem(s.gate, CountedLanes(s.lanes, s.feed[0].symbol), s.rejects, s.feed[1..], ApplyAll(s.mirror, s.feed[0]))
  }

  ghost function Then(s: RingSystem, a: RingAction, capacity: nat): RingSystem
    requires Permitted(s, a, capacity)
  {
    match a
    case GateTurn(step) =>
      var s' := s.(gate := Take(s.gate, step, capacity));
      if step.Route? then Filled(s', s.gate.outgoing[0]) else s'
    case Link(symbol, move) => s.(lanes := s.lanes[symbol := Linked(s.lanes[symbol], move)])
    case Serve(symbol, now) => s.(lanes := s.lanes[symbol := Served(s.lanes[symbol], now)])
    case FeedOn(symbol) => FedOn(s, symbol)
    case ShowNext => ShownNext(s)
  }

  ghost predicate RingRuns(s: RingSystem, actions: seq<RingAction>, s': RingSystem, capacity: nat)
    decreases |actions|
  {
    if actions == [] then s == s'
    else
      && Permitted(s, actions[0], capacity) && Roomy(s, actions[0])
      && RingRuns(Then(s, actions[0], capacity), actions[1..], s', capacity)
  }

  // ---------------------------------------------------------------- the plain queues it stands for

  /** What has been written and not yet processed. */
  function Plain(l: Lane): Context {
    Context(if |l.done| <= |l.ring.written| then l.ring.written[|l.done|..] else [],
            l.done, l.book, l.responses, l.updates, l.fed, l.shown)
  }

  function PlainLanes(lanes: map<Symbol, Lane>): (contexts: map<Symbol, Context>)
    ensures contexts.Keys == lanes.Keys && forall symbol :: symbol in lanes ==> contexts[symbol] == Plain(lanes[symbol])
  {
    map symbol | symbol in lanes :: Plain(lanes[symbol])
  }

  function Seen(s: RingSystem): System {
    System(s.gate, PlainLanes(s.lanes), s.rejects, s.feed, s.mirror)
  }

  lemma {:induction false} PlainUpdate(lanes: map<Symbol, Lane>, symbol: Symbol, l: Lane)
    ensures PlainLanes(lanes[symbol := l]) == PlainLanes(lanes)[symbol := Plain(l)]
  {
  }

  lemma {:induction false} PlainSame(lanes: map<Symbol, Lane>, symbol: Symbol, l: Lane)
    requires symbol in lanes && Plain(l) == Plain(lanes[symbol])
    ensures PlainLanes(lanes[symbol := l]) == PlainLanes(lanes)
  {
    PlainUpdate(lanes, symbol, l);
    var contexts := PlainLanes(lanes);
    assert contexts[symbol := contexts[symbol]] == contexts;
  }

  // ---------------------------------------------------------------- one lane

  /** The ring is well-formed, and the thread has processed what it has read, and the request it holds if that is
      served. */
  ghost predicate LaneOK(l: Lane) {
    forall key {:trigger Look(key)} :: key == Slots ==>
      && RingOK(l.ring) && (l.served ==> l.ring.consumer.Holding?)
      && |l.done| == |l.ring.read| + (if l.served then 1 else 0) <= |l.ring.written|
      && Requests(l.done) == l.ring.written[..|l.done|]
  }

  lemma {:induction false} StartLane(symbol: Symbol, store: seq<Request>)
    requires 0 < |store|
    ensures LaneOK(Lane(Start(store), false, [], Empty(symbol), [], [], 0, 0))
  {
    assert Look(Slots);
    StartOK(store);
  }

  lemma {:induction false} FillLane(l: Lane, r: Request)
    requires LaneOK(l) && InBounds(l.ring) && l.ring.producer.Ready? && l.ring.count < |l.ring.store|
    ensures var l' := l.(ring := After(l.ring, FillSlot(r)));
            LaneOK(l') && Plain(l') == Plain(l).(queue := Plain(l).queue + [r])
  {
    assert Look(Slots);
    RingQueue.StepOK(l.ring, FillSlot(r));
    var written := l.ring.written + [r];
    assert written[..|l.done|] == l.ring.written[..|l.done|];
    assert written[|l.done|..] == l.ring.written[|l.done|..] + [r];
  }

  lemma {:induction false} LinkLane(l: Lane, move: RingStep<Request>)
    requires LaneOK(l) && Allowed(l.ring, move) && !move.FillSlot? && (move.AdvanceRead? ==> l.served)
    ensures LaneOK(Linked(l, move)) && Plain(Linked(l, move)) == Plain(l)
  {
    assert Look(Slots);
    RingQueue.StepOK(l.ring, move);
  }

  /** The slot the thread holds contains the oldest request not yet processed. */
  lemma {:induction false} ServeLane(l: Lane, now: Nanos)
    requires LaneOK(l) && InBounds(l.ring) && l.ring.consumer.Holding? && !l.served
    ensures LaneOK(Served(l, now)) && Plain(l).queue != [] && Plain(Served(l, now)) == Processed(Plain(l), now)
  {
    assert Look(Slots);
    var k := |l.done|;
    var r := l.ring.store[l.ring.nextRead];
    assert r == l.ring.written[k];
    assert l.ring.written[..k + 1] == l.ring.written[..k] + [r];
    assert Requests(l.done + [Input(r, now)]) == Requests(l.done) + [r];
    assert l.ring.written[k..][1..] == l.ring.written[k + 1..];
  }

  // ---------------------------------------------------------------- every step

  ghost predicate AllLanesOK(lanes: map<Symbol, Lane>) {
    forall symbol :: symbol in lanes ==> LaneOK(lanes[symbol])
  }

  /** What a step is in the exchange with plain queues: moving on inside a ring call is nothing at all. */
  function Image(a: RingAction): Option<Action> {
    match a
    case GateTurn(step) => Some(AtGateway(step))
    case Link(symbol, move) => None
    case Serve(symbol, now) => Some(Process(symbol, now))
    case FeedOn(symbol) => Some(Feed(symbol))
    case ShowNext => Some(Show)
  }

  ghost predicate Simulates(s: RingSystem, a: RingAction, s': RingSystem, capacity: nat) {
    && AllLanesOK(s'.lanes)
    && match Image(a)
       case None => Seen(s') == Seen(s)
       case Some(b) => Enabled(Seen(s), b, capacity) && Next(Seen(s), b, capacity) == Seen(s')
  }

  lemma {:induction false} RouteSimulates(s: RingSystem, capacity: nat)
    requires AllLanesOK(s.lanes) && Permitted(s, GateTurn(Route), capacity) && Roomy(s, GateTurn(Route))
    ensures Simulates(s, GateTurn(Route), Then(s, GateTurn(Route), capacity), capacity)
  {
    var r := s.gate.outgoing[0];
    if r.symbol in s.lanes {
      var l := s.lanes[r.symbol];
      FillLane(l, r);
      PlainUpdate(s.lanes, r.symbol, l.(ring := After(l.ring, FillSlot(r))));
    }
  }

  lemma {:induction false} LinkSimulates(s: RingSystem, symbol: Symbol, move: RingStep<Request>, capacity: nat)
    requires AllLanesOK(s.lanes) && Permitted(s, Link(symbol, move), capacity)
    ensures Simulates(s, Link(symbol, move), Then(s, Link(symbol, move), capacity), capacity)
  {
    LinkLane(s.lanes[symbol], move);
    PlainSame(s.lanes, symbol, Linked(s.lanes[symbol], move));
  }

  lemma {:induction false} ServeSimulates(s: RingSystem, symbol: Symbol, now: Nanos, capacity: nat)
    requires AllLanesOK(s.lanes) && Permitted(s, Serve(symbol, now), capacity)
    ensures Simulates(s, Serve(symbol, now), Then(s, Serve(symbol, now), capacity), capacity)
  {
    ServeLane(s.lanes[symbol], now);
    PlainUpdate(s.lanes, symbol, Served(s.lanes[symbol], now));
  }

  lemma {:induction false} CountersLane(lanes: map<Symbol, Lane>, symbol: Symbol, l: Lane)
    requires AllLanesOK(lanes) && symbol in lanes && l == lanes[symbol].(fed := l.fed, shown := l.shown)
    ensures AllLanesOK(lanes[symbol := l]) && PlainLanes(lanes[symbol := l]) == PlainLanes(lanes)[symbol := Plain(l)]
  {
    assert LaneOK(l) by { assert LaneOK(lanes[symbol]) && Look(Slots); }
    PlainUpdate(lanes, symbol, l);
  }

  lemma {:induction false} FedLanes(lanes: map<Symbol, Lane>, symbol: Symbol)
    requires AllLanesOK(lanes) && symbol in lanes
    ensures AllLanesOK(AdvancedLanes(lanes, symbol))
    ensures PlainLanes(AdvancedLanes(lanes, symbol)) == Advanced(PlainLanes(lanes), symbol)
  {
    CountersLane(lanes, symbol, lanes[symbol].(fed := lanes[symbol].fed + 1));
  }

  lemma {:induction false} ShownLanes(lanes: map<Symbol, Lane>, symbol: Symbol)
    requires AllLanesOK(lanes)
    ensures AllLanesOK(CountedLanes(lanes, symbol))
    ensures PlainLanes(CountedLanes(lanes, symbol)) == Counted(PlainLanes(lanes), symbol)
  {
    if symbol in lanes {
      CountersLane(lanes, symbol, lanes[symbol].(shown := lanes[symbol].shown + 1));
    }
  }

  lemma {:induction false} FeedSimulates(s: RingSystem, symbol: Symbol)
    requires AllLanesOK(s.lanes) && symbol in s.lanes && s.lanes[symbol].fed < |s.lanes[symbol].updates|
    ensures AllLanesOK(FedOn(s, symbol).lanes) && Seen(FedOn(s, symbol)) == Fed(Seen(s), symbol)
  {
    FedLanes(s.lanes, symbol);
  }

  lemma {:induction false} ShowSimulates(s: RingSystem)
    requires AllLanesOK(s.lanes) && s.feed != []
    ensures AllLanesOK(ShownNext(s).lanes) && Seen(ShownNext(s)) == Shown(Seen(s))
  {
    ShownLanes(s.lanes, s.feed[0].symbol);
  }

  lemma {:induction false} StepSimulates(s: RingSystem, a: RingAction, capacity: nat)
    requires AllLanesOK(s.lanes) && Permitted(s, a, capacity) && Roomy(s, a)
    ensures Simulates(s, a, Then(s, a, capacity), capacity)
  {
    match a
    case GateTurn(step) => if step.Route? { RouteSimulates(s, capacity); }
    case Link(symbol, move) => LinkSimulates(s, symbol, move, capacity);
    case Serve(symbol, now) => ServeSimulates(s, symbol, now, capacity);
    case FeedOn(symbol) => FeedSimulates(s, symbol);
    case ShowNext => ShowSimulates(s);
  }

  // ---------------------------------------------------------------- every run

  lemma {:induction false} RunSimulates(s: RingSystem, actions: seq<RingAction>, s': RingSystem, capacity: nat)
    returns (plain: seq<Action>)
    requires AllLanesOK(s.lanes) && RingRuns(s, actions, s', capacity)
    ensures AllLanesOK(s'.lanes) && Runs(Seen(s), plain, Seen(s'), capacity)
    decreases |actions|
  {
    if actions == [] {
      plain := [];
    } else {
      var a := actions[0];
      var s1 := Then(s, a, capacity);
      StepSimulates(s, a, capacity);
      plain := RunSimulates(s1, actions[1..], s', capacity);
      if Image(a).Some? {
        assert ([Image(a).value] + plain)[1..] == plain;
        plain := [Image(a).value] + plain;
      }
    }
  }

  lemma {:induction false} OpeningSeen(symbols: set<Symbol>, store: seq<Request>)
    requires 0 < |store|
    ensures AllLanesOK(RingOpening(symbols, store).lanes) && Seen(RingOpening(symbols, store)) == Opening(symbols)
  {
    var lanes := RingOpening(symbols, store).lanes;
    forall symbol | symbol in lanes ensures LaneOK(lanes[symbol]) { StartLane(symbol, store); }
    assert PlainLanes(lanes) == Opening(symbols).contexts;
  }

  /** For every interleaving of the gateway's and the matching threads' ring steps in which each request is routed
      while its ring has a slot free, the exchange with rings is in a state that the exchange with plain queues
      reaches too. Whatever holds of every reachable state there holds here. */
  lemma {:induction false} RingsAreQueues(symbols: set<Symbol>, store: seq<Request>, actions: seq<RingAction>,
                                          s: RingSystem,
                                          capacity: nat)
    requires 0 < |store| && RingRuns(RingOpening(symbols, store), actions, s, capacity)
    ensures Reachable(Seen(s), symbols, capacity) && AllLanesOK(s.lanes) && s.lanes.Keys == symbols
  {
    OpeningSeen(symbols, store);
    var plain := RunSimulates(RingOpening(symbols, store), actions, s, capacity);
    ReachableOK(Seen(s), symbols, capacity);
  }

  /** Through the rings, each symbol's thread processes exactly the requests routed to the symbol, in order: what
      was written to the ring is what was routed, what was read is a prefix of it, and the book and both event
      streams are those of processing the requests one after the other. */
  lemma {:induction false} RingSymbolIsSequential(symbols: set<Symbol>, store: seq<Request>, actions: seq<RingAction>,
                                                  s: RingSystem,
                                                  capacity: nat, symbol: Symbol)
    requires 0 < |store| && RingRuns(RingOpening(symbols, store), actions, s, capacity) && symbol in symbols
    ensures symbol in s.lanes
    ensures var l, stream := s.lanes[symbol], OfSymbol(s.gate.routed, symbol);
            && l.ring.written == stream && l.ring.read <= stream
            && |l.ring.read| <= |l.done| <= |l.ring.read| + 1 && |l.done| <= |stream|
            && var o := Run(symbol, AtZero(stream[..|l.done|]));
               l.responses == o.responses && l.updates == o.updates && EraseBook(l.book) == o.book
  {
    RingsAreQueues(symbols, store, actions, s, capacity);
    SymbolIsSequential(Seen(s), symbols, capacity, symbol);
    NothingLostEndToEnd(Seen(s), symbols, capacity);
    LaneWritten(s.lanes[symbol]);
  }

  lemma {:induction false} LaneWritten(l: Lane)
    requires LaneOK(l)
    ensures Requests(l.done) + Plain(l).queue == l.ring.written && l.ring.read <= l.ring.written
    ensures |l.ring.read| <= |l.done| <= |l.ring.read| + 1
  {
    assert Look(Slots);
    assert l.ring.written[..|l.done|] + l.ring.written[|l.done|..] == l.ring.written;
  }
}
