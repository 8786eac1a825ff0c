/** The whole exchange: gateway, routing, one matching thread per symbol, market data feed and snapshot
    mirror, taking steps in any order. Queues are the first-in first-out sequences their rings implement. */
module Pipeline {
  import opened Types
  import opened Seal
  import opened Book
  import opened Matching
  import opened Priority
  import opened Mirror
  import opened Sequencer
  import opened Gateway
  import opened Routing

  /** One symbol: its request queue and book, and the history of what its thread processed and emitted.
      Of the updates, `fed` have been forwarded by the feed and `shown` have reached the mirror. */
  datatype Context = Context(
    queue: seq<Request>, done: seq<Input>, book: Book, responses: seq<Response>, updates: seq<BookUpdate>,
    fed: nat, shown: nat)

  datatype System = System(
    gate: Gate, contexts: map<Symbol, Context>, rejects: seq<Response>, feed: seq<BookUpdate>, mirror: Mirrors)

  datatype Action =
    | AtGateway(step: GateStep)
    | Process(symbol: Symbol, now: Nanos)
    | Feed(symbol: Symbol)
    | Show

  function Opening(symbols: set<Symbol>): System {
    System(IDLE, map s | s in symbols :: Context([], [], Empty(s), [], [], 0, 0), [], [], map[])
  }

  ghost predicate Enabled(s: System, a: Action, capacity: nat) {
    match a
    case AtGateway(step) => CanTake(s.gate, step, capacity)
    case Process(symbol, now) => symbol in s.contexts && s.contexts[symbol].queue != []
    case Feed(symbol) => symbol in s.contexts && s.contexts[symbol].fed < |s.contexts[symbol].updates|
    case Show => s.feed != []
  }

  /** Hand a routed request to its symbol's queue, or refuse it when the symbol is not listed. */
  function Deliver(s: System, r: Request): System {
    if r.symbol in s.contexts then
      var c := s.contexts[r.symbol];
      s.(contexts := s.contexts[r.symbol := c.(queue := c.queue + [r])])
    else s.(rejects := s.rejects + [Reject(r)])
  }

  function Processed(c: Context, now: Nanos): Context
    requires c.queue != []
  {
    var o := Step(c.book, c.queue[0], now);
    c.(queue := c.queue[1..], done := c.done + [Input(c.queue[0], now)], book := o.book,
       responses := c.responses + o.responses, updates := c.updates + o.updates)
  }

  function Advanced(contexts: map<Symbol, Context>, symbol: Symbol): map<Symbol, Context>
    requires symbol in contexts
  {
    contexts[symbol := contexts[symbol].(fed := contexts[symbol].fed + 1)]
  }

  /** The feed passes on the next update of one symbol. */
  function Fed(s: System, symbol: Symbol): System
    requires symbol in s.contexts && s.contexts[symbol].fed < |s.contexts[symbol].updates|
  {
    System(s.gate, Advanced(s.contexts, symbol), s.rejects,
           s.feed + [s.contexts[symbol].updates[s.contexts[symbol].fed]], s.mirror)
  }

  function Counted(contexts: map<Symbol, Context>, symbol: Symbol): map<Symbol, Context> {
    if symbol in contexts then contexts[symbol := contexts[symbol].(shown := contexts[symbol].shown + 1)] else contexts
  }

  /** The snapshot service applies the next update. */
  function Shown(s: System): System
    requires s.feed != []
  {
    System(s.gate, Counted(s.contexts, s.feed[0].symbol), s.rejects, s.feed[1..], ApplyAll(s.mirror, s.feed[0]))
  }

  ghost function Next(s: System, a: Action, capacity: nat): System
    requires Enabled(s, a, capacity)
  {
    match a
    case AtGateway(step) =>
      var s' := s.(gate := Take(s.gate, step, capacity));
      if step.Route? then Deliver(s', s.gate.outgoing[0]) else s'
    case Process(symbol, now) =>
      s.(contexts := s.contexts[symbol := Processed(s.contexts[symbol], now)])
    case Feed(symbol) => Fed(s, symbol)
    case Show => Shown(s)
  }

  ghost predicate Runs(s: System, actions: seq<Action>, s': System, capacity: nat)
    decreases |actions|
  {
    if actions == [] then s == s'
    else Enabled(s, actions[0], capacity) && Runs(Next(s, actions[0], capacity), actions[1..], s', capacity)
  }

  // ---------------------------------------------------------------- splitting streams by symbol

  function UpdatesOf(us: seq<BookUpdate>, symbol: Symbol): seq<BookUpdate> {
    if us == [] then []
    else (if us[0].symbol == symbol then [us[0]] else []) + UpdatesOf(us[1..], symbol)
  }

  function Requests(ins: seq<Input>): (rs: seq<Request>)
    ensures |rs| == |ins| && forall i :: 0 <= i < |ins| ==> rs[i] == ins[i].request
  {
    seq(|ins|, i requires 0 <= i < |ins| => ins[i].request)
  }

  lemma {:induction false} UpdatesOfSnoc(us: seq<BookUpdate>, u: BookUpdate, symbol: Symbol)
    ensures UpdatesOf(us + [u], symbol) == UpdatesOf(us, symbol) + if u.symbol == symbol then [u] else []
  {
    if us == [] {
      assert us + [u] == [u] && [u][1..] == [];
    } else {
      UpdatesOfSnoc(us[1..], u, symbol);
      assert (us + [u])[1..] == us[1..] + [u];
      Assoc(if us[0].symbol == symbol then [us[0]] else [], UpdatesOf(us[1..], symbol), if u.symbol
          == symbol then [u] else []);
    }
  }

  // ---------------------------------------------------------------- updates carry their symbol

  ghost predicate Tagged(us: seq<BookUpdate>, symbol: Symbol) {
    forall i :: 0 <= i < |us| ==> us[i].symbol == symbol
  }

  lemma {:induction false} FillsTagged(symbol: Symbol, fs: seq<Fill>)
    ensures Tagged(AllFillUpdates(symbol, fs), symbol)
  {
    if fs != [] { FillsTagged(symbol, fs[1..]); }
  }

  ghost predicate Labelled(o: Outcome, symbol: Symbol) {
    o.book.symbol == symbol && Tagged(o.updates, symbol)
  }

  lemma {:induction false} MatchLabelled(b: Book, t: Taker, qty: Qty)
    ensures Labelled(Match(b, t, qty).0, b.symbol)
  {
    FillsTagged(b.symbol, Sweep(t, Opposite(b, t.side), qty).fills);
  }

  lemma {:induction false} MatchAndRestLabelled(b: Book, t: Taker, typ: OrderType, qty: Qty, now: Nanos)
    ensures Labelled(MatchAndRest(b, t, typ, qty, now), b.symbol)
  {
    MatchLabelled(b, t, qty);
  }

  lemma {:induction false} ModifyLabelled(b: Book, client: ClientId, id: OrderId, price: Price, qty: Qty, now: Nanos)
    ensures Labelled(Modify(b, client, id, price, qty, now), b.symbol)
  {
    if Owns(b, client, id) {
      var o := Find(b, id).value;
      MatchAndRestLabelled(RemoveFrom(b, id), Taker(client, id, o.side, price, true), o.typ, qty, now);
    }
  }

  lemma {:induction false} TransientLabelled(b: Book, t: Taker, price: Price, qty: Qty)
    ensures Labelled(AddTransient(b, t, price, qty), b.symbol)
  {
    MatchLabelled(b, t, qty);
  }

  lemma {:induction false} LimitLabelled(b: Book, client: ClientId, id: OrderId, side: Side, price: Price, qty: Qty,
                                         now: Nanos)
    ensures Labelled(AddLimit(b, client, id, side, price, qty, now), b.symbol)
  {
    MatchAndRestLabelled(b, Taker(client, id, side, price, true), LIMIT, qty, now);
  }

  lemma {:induction false} StepTagged(b: Book, r: Request, now: Nanos)
    ensures Labelled(Step(b, r, now), b.symbol)
  {
    match r.typ
    case LIMIT => LimitLabelled(b, r.client, r.id, r.side, r.price, r.qty, now);
    case MARKET => TransientLabelled(b, Taker(r.client, r.id, r.side, INVALID_PRICE, false), INVALID_PRICE, r.qty);
    case IOC => TransientLabelled(b, Taker(r.client, r.id, r.side, r.price, true), r.price, r.qty);
    case MODIFY => ModifyLabelled(b, r.client, r.id, r.price, r.qty, now);
    case _ =>
  }

  lemma {:induction false} RunTagged(symbol: Symbol, ins: seq<Input>)
    ensures Labelled(Run(symbol, ins), symbol)
  {
    if ins != [] {
      var before, last := ins[..|ins| - 1], ins[|ins| - 1];
      RunTagged(symbol, before);
      StepTagged(Run(symbol, before).book, last.request, last.now);
    }
  }

  // ---------------------------------------------------------------- the invariant

  /** A symbol's thread has processed a prefix of what was routed to the symbol, exactly as a run of the flat
      book from empty would. */
  ghost predicate Sequential(symbol: Symbol, c: Context, routed: seq<Request>) {
    forall key {:trigger Look(key)} :: key == Streams ==>
      && OfSymbol(routed, symbol) == Requests(c.done) + c.queue
      && Run(symbol, c.done) == Outcome(c.book, c.responses, c.updates)
  }

  /** What the mirror shows of a symbol, and what is on its way there, are consecutive pieces of the symbol's
      update stream. */
  ghost predicate Following(symbol: Symbol, c: Context, feed: seq<BookUpdate>, mirror: Mirrors) {
    forall key {:trigger Look(key)} :: key == Streams ==>
      && c.shown <= c.fed <= |c.updates|
      && UpdatesOf(feed, symbol) == c.updates[c.shown..c.fed]
      && CopyFor(mirror, symbol) == Replay(map[], c.updates[..c.shown])
  }

  function Refused(rs: seq<Request>, symbols: set<Symbol>): seq<Response> {
    if rs == [] then []
    else Refused(rs[..|rs| - 1], symbols) + if rs[|rs| - 1].symbol in symbols then [] else [Reject(rs[|rs| - 1])]
  }

  ghost predicate SystemOK(s: System, capacity: nat) {
    && GateOK(s.gate, capacity)
    && s.rejects == Refused(s.gate.routed, s.contexts.Keys)
    && AllSequential(s.contexts, s.gate.routed)
    && AllFollowing(s.contexts, s.feed, s.mirror)
  }

  ghost predicate AllSequential(contexts: map<Symbol, Context>, routed: seq<Request>) {
    forall symbol :: symbol in contexts ==> Sequential(symbol, contexts[symbol], routed)
  }

  ghost predicate AllFollowing(contexts: map<Symbol, Context>, feed: seq<BookUpdate>, mirror: Mirrors) {
    && (forall symbol :: symbol in contexts ==> Following(symbol, contexts[symbol], feed, mirror))
    && forall i :: 0 <= i < |feed| ==> feed[i].symbol in contexts
  }

  lemma {:induction false} OpeningOK(symbols: set<Symbol>, capacity: nat)
    ensures SystemOK(Opening(symbols), capacity)
  {
    assert Look(Streams);
    var s := Opening(symbols);
    forall symbol | symbol in s.contexts
      ensures Sequential(symbol, s.contexts[symbol], [])
    {
      assert Requests([]) + [] == [];
    }
  }

  lemma {:induction false} DeliverSequential(symbol: Symbol, c: Context, routed: seq<Request>, r: Request)
    requires Sequential(symbol, c, routed)
    ensures Sequential(symbol, if r.symbol == symbol then c.(queue := c.queue + [r]) else c, routed + [r])
  {
    assert Look(Streams);
    OfSymbolSnoc(routed, r, symbol);
    Assoc(Requests(c.done), c.queue, [r]);
    var rest := OfSymbol(routed, symbol);
    assert rest + [] == rest;
  }

  lemma {:induction false} ProcessSequential(symbol: Symbol, c: Context, routed: seq<Request>, now: Nanos)
    requires Sequential(symbol, c, routed) && c.queue != []
    ensures Sequential(symbol, Processed(c, now), routed)
  {
    assert Look(Streams);
    var i := Input(c.queue[0], now);
    RunSnoc(symbol, c.done, i);
    assert Requests(c.done + [i]) == Requests(c.done) + [c.queue[0]];
    Assoc(Requests(c.done), [c.queue[0]], c.queue[1..]);
    assert c.queue == [c.queue[0]] + c.queue[1..];
  }

  lemma {:induction false} ProcessFollowing(symbol: Symbol, c: Context, feed: seq<BookUpdate>, mirror: Mirrors,
                                            now: Nanos)
    requires Following(symbol, c, feed, mirror) && c.queue != []
    ensures Following(symbol, Processed(c, now), feed, mirror)
  {
    assert Look(Streams);
    var us := Processed(c, now).updates;
    assert us[c.shown..c.fed] == c.updates[c.shown..c.fed] && us[..c.shown] == c.updates[..c.shown];
  }

  lemma {:induction false} FeedFollowing(symbol: Symbol, c: Context, feed: seq<BookUpdate>, mirror: Mirrors)
    requires Following(symbol, c, feed, mirror) && c.fed < |c.updates| && c.updates[c.fed].symbol == symbol
    ensures Following(symbol, c.(fed := c.fed + 1), feed + [c.updates[c.fed]], mirror)
  {
    assert Look(Streams);
    UpdatesOfSnoc(feed, c.updates[c.fed], symbol);
    assert c.updates[c.shown..c.fed + 1] == c.updates[c.shown..c.fed] + [c.updates[c.fed]];
  }

  lemma {:induction false} OtherFollowing(symbol: Symbol, c: Context, feed: seq<BookUpdate>, mirror: Mirrors,
                                          u: BookUpdate)
    requires Following(symbol, c, feed, mirror) && u.symbol != symbol
    ensures Following(symbol, c, feed + [u], mirror)
    ensures feed != [] && feed[0] == u ==> Following(symbol, c, feed[1..], ApplyAll(mirror, u))
  {
    assert Look(Streams);
    UpdatesOfSnoc(feed, u, symbol);
    var us := UpdatesOf(feed, symbol);
    assert us + [] == us;
    if feed != [] && feed[0] == u {
      var rest := UpdatesOf(feed[1..], symbol);
      assert [] + rest == rest;
    }
  }

  lemma {:induction false} ShowFollowing(symbol: Symbol, c: Context, feed: seq<BookUpdate>, mirror: Mirrors)
    requires Following(symbol, c, feed, mirror) && feed != [] && feed[0].symbol == symbol
    ensures Following(symbol, c.(shown := c.shown + 1), feed[1..], ApplyAll(mirror, feed[0]))
  {
    assert Look(Streams);
    var u := feed[0];
    var rest := UpdatesOf(feed[1..], symbol);
    assert c.updates[c.shown..c.fed] == [u] + rest;
    assert c.shown < c.fed && c.updates[c.shown] == u && c.updates[c.shown + 1..c.fed] == rest;
    var us := c.updates[..c.shown + 1];
    assert us[..|us| - 1] == c.updates[..c.shown] && us[|us| - 1] == u;
  }

  // Each step, seen by all symbols at once.

  lemma {:induction false} DeliverAll(contexts: map<Symbol, Context>, routed: seq<Request>, r: Request)
    requires AllSequential(contexts, routed)
    ensures r.symbol in contexts ==>
      AllSequential(contexts[r.symbol := contexts[r.symbol].(queue := contexts[r.symbol].queue + [r])], routed + [r])
    ensures r.symbol !in contexts ==> AllSequential(contexts, routed + [r])
  {
    forall symbol | symbol in contexts
      ensures Sequential(symbol, if r.symbol == symbol then contexts[symbol].(queue := contexts[symbol].queue + [r])
                                 else contexts[symbol], routed + [r])
    {
      DeliverSequential(symbol, contexts[symbol], routed, r);
    }
  }

  lemma {:induction false} QueueFollowing(contexts: map<Symbol, Context>, feed: seq<BookUpdate>, mirror: Mirrors,
                                          symbol: Symbol, queue: seq<Request>)
    requires AllFollowing(contexts, feed, mirror) && symbol in contexts
    ensures AllFollowing(contexts[symbol := contexts[symbol].(queue := queue)], feed, mirror)
  {
    assert Look(Streams);
    assert Following(symbol, contexts[symbol], feed, mirror);
    assert Following(symbol, contexts[symbol].(queue := queue), feed, mirror);
  }

  lemma {:induction false} CountersSequential(contexts: map<Symbol, Context>, routed: seq<Request>, symbol: Symbol)
    requires AllSequential(contexts, routed) && symbol in contexts
    ensures AllSequential(Advanced(contexts, symbol), routed) && AllSequential(Counted(contexts, symbol), routed)
  {
    var c := contexts[symbol];
    assert Sequential(symbol, c, routed);
    assert Sequential(symbol, c.(fed := c.fed + 1), routed) by { assert Look(Streams); }
    assert Sequential(symbol, c.(shown := c.shown + 1), routed) by { assert Look(Streams); }
  }

  lemma {:induction false} FeedAll(contexts: map<Symbol, Context>, feed: seq<BookUpdate>, mirror: Mirrors,
                                   symbol: Symbol)
    requires AllFollowing(contexts, feed, mirror) && symbol in contexts
    requires contexts[symbol].fed < |contexts[symbol].updates|
    requires contexts[symbol].updates[contexts[symbol].fed].symbol == symbol
    ensures AllFollowing(Advanced(contexts, symbol), feed + [contexts[symbol].updates[contexts[symbol].fed]], mirror)
  {
    var c := contexts[symbol];
    var u := c.updates[c.fed];
    FeedFollowing(symbol, c, feed, mirror);
    forall other | other in contexts && other != symbol
      ensures Following(other, contexts[other], feed + [u], mirror)
    {
      OtherFollowing(other, contexts[other], feed, mirror, u);
    }
  }

  lemma {:induction false} ShowAll(contexts: map<Symbol, Context>, feed: seq<BookUpdate>, mirror: Mirrors)
    requires AllFollowing(contexts, feed, mirror) && feed != []
    ensures feed[0].symbol in contexts
    ensures AllFollowing(Counted(contexts, feed[0].symbol), feed[1..], ApplyAll(mirror, feed[0]))
  {
    var u := feed[0];
    ShowFollowing(u.symbol, contexts[u.symbol], feed, mirror);
    forall other | other in contexts && other != u.symbol
      ensures Following(other, contexts[other], feed[1..], ApplyAll(mirror, u))
    {
      OtherFollowing(other, contexts[other], feed, mirror, u);
    }
  }

  lemma {:induction false} RefusedSnoc(rs: seq<Request>, r: Request, symbols: set<Symbol>)
    ensures Refused(rs + [r], symbols) == Refused(rs, symbols) + if r.symbol in symbols then [] else [Reject(r)]
  {
    assert (rs + [r])[..|rs|] == rs;
  }

  lemma {:induction false} QueueBoth(contexts: map<Symbol, Context>, routed: seq<Request>, feed: seq<BookUpdate>,
                                     mirror: Mirrors,
                                     r: Request)
    requires AllSequential(contexts, routed) && AllFollowing(contexts, feed, mirror) && r.symbol in contexts
    ensures var contexts' := contexts[r.symbol := contexts[r.symbol].(queue := contexts[r.symbol].queue + [r])];
            && AllSequential(contexts', routed + [r]) && AllFollowing(contexts', feed, mirror)
            && contexts'.Keys == contexts.Keys
  {
    DeliverAll(contexts, routed, r);
    QueueFollowing(contexts, feed, mirror, r.symbol, contexts[r.symbol].queue + [r]);
  }

  lemma {:induction false} RouteKept(s: System, capacity: nat)
    requires SystemOK(s, capacity) && CanTake(s.gate, Route, capacity)
    ensures SystemOK(Next(s, AtGateway(Route), capacity), capacity)
    ensures Next(s, AtGateway(Route), capacity).contexts.Keys == s.contexts.Keys
  {
    var r := s.gate.outgoing[0];
    GateKept(s.gate, Route, capacity);
    RefusedSnoc(s.gate.routed, r, s.contexts.Keys);
    assert s.rejects + [] == s.rejects;
    if r.symbol in s.contexts {
      QueueBoth(s.contexts, s.gate.routed, s.feed, s.mirror, r);
    } else {
      DeliverAll(s.contexts, s.gate.routed, r);
    }
  }

  lemma {:induction false} ProcessKept(s: System, symbol: Symbol, now: Nanos, capacity: nat)
    requires SystemOK(s, capacity) && Enabled(s, Process(symbol, now), capacity)
    ensures SystemOK(Next(s, Process(symbol, now), capacity), capacity)
    ensures Next(s, Process(symbol, now), capacity).contexts.Keys == s.contexts.Keys
  {
    var s' := Next(s, Process(symbol, now), capacity);
    ProcessSequential(symbol, s.contexts[symbol], s.gate.routed, now);
    ProcessFollowing(symbol, s.contexts[symbol], s.feed, s.mirror, now);
    assert s'.contexts.Keys == s.contexts.Keys;
  }

  lemma {:induction false} UpdateTagged(symbol: Symbol, c: Context, routed: seq<Request>)
    requires Sequential(symbol, c, routed)
    ensures Tagged(c.updates, symbol)
  {
    assert Look(Streams);
    RunTagged(symbol, c.done);
  }

  lemma {:induction false} FeedBoth(contexts: map<Symbol, Context>, routed: seq<Request>, feed: seq<BookUpdate>,
                                    mirror: Mirrors,
                                    symbol: Symbol)
    requires AllSequential(contexts, routed) && AllFollowing(contexts, feed, mirror)
    requires symbol in contexts && contexts[symbol].fed < |contexts[symbol].updates|
    ensures var c, contexts' := contexts[symbol], Advanced(contexts, symbol);
            && AllSequential(contexts', routed) && AllFollowing(contexts', feed + [c.updates[c.fed]], mirror)
            && contexts'.Keys == contexts.Keys
  {
    UpdateTagged(symbol, contexts[symbol], routed);
    FeedAll(contexts, feed, mirror, symbol);
    CountersSequential(contexts, routed, symbol);
  }

  lemma {:induction false} FeedKept(s: System, symbol: Symbol, capacity: nat)
    requires SystemOK(s, capacity) && Enabled(s, Feed(symbol), capacity)
    ensures SystemOK(Next(s, Feed(symbol), capacity), capacity)
    ensures Next(s, Feed(symbol), capacity).contexts.Keys == s.contexts.Keys
  {
    FeedBoth(s.contexts, s.gate.routed, s.feed, s.mirror, symbol);
  }

  lemma {:induction false} ShowBoth(contexts: map<Symbol, Context>, routed: seq<Request>, feed: seq<BookUpdate>,
                                    mirror: Mirrors)
    requires AllSequential(contexts, routed) && AllFollowing(contexts, feed, mirror) && feed != []
    ensures feed[0].symbol in contexts
    ensures var contexts' := Counted(contexts, feed[0].symbol);
            && AllSequential(contexts', routed) && AllFollowing(contexts', feed[1..], ApplyAll(mirror, feed[0]))
            && contexts'.Keys == contexts.Keys
  {
    ShowAll(contexts, feed, mirror);
    CountersSequential(contexts, routed, feed[0].symbol);
  }

  lemma {:induction false} ShowKept(s: System, capacity: nat)
    requires SystemOK(s, capacity) && Enabled(s, Show, capacity)
    ensures SystemOK(Next(s, Show, capacity), capacity)
    ensures Next(s, Show, capacity).contexts.Keys == s.contexts.Keys
  {
    ShowBoth(s.contexts, s.gate.routed, s.feed, s.mirror);
  }

  lemma {:induction false} NextOK(s: System, a: Action, capacity: nat)
    requires SystemOK(s, capacity) && Enabled(s, a, capacity)
    ensures SystemOK(Next(s, a, capacity), capacity)
    ensures Next(s, a, capacity).contexts.Keys == s.contexts.Keys
  {
    match a
    case AtGateway(step) =>
      if step.Route? { RouteKept(s, capacity); } else { GateKept(s.gate, step, capacity); }
    case Process(symbol, now) => ProcessKept(s, symbol, now, capacity);
    case Feed(symbol) => FeedKept(s, symbol, capacity);
    case Show => ShowKept(s, capacity);
  }

  lemma {:induction false} RunsOK(s: System, actions: seq<Action>, s': System, capacity: nat)
    requires SystemOK(s, capacity) && Runs(s, actions, s', capacity)
    ensures SystemOK(s', capacity) && s'.contexts.Keys == s.contexts.Keys
    decreases |actions|
  {
    if actions != [] {
      NextOK(s, actions[0], capacity);
      RunsOK(Next(s, actions[0], capacity), actions[1..], s', capacity);
    }
  }

  ghost predicate Reachable(s: System, symbols: set<Symbol>, capacity: nat) {
    exists actions :: Runs(Opening(symbols), actions, s, capacity)
  }

  lemma {:induction false} ReachableOK(s: System, symbols: set<Symbol>, capacity: nat)
    requires Reachable(s, symbols, capacity)
    ensures SystemOK(s, capacity) && s.contexts.Keys == symbols
  {
    var actions :| Runs(Opening(symbols), actions, s, capacity);
    OpeningOK(symbols, capacity);
    RunsOK(Opening(symbols), actions, s, capacity);
  }

  // ---------------------------------------------------------------- what follows

  /** Requests with every clock reading set to zero. */
  function AtZero(rs: seq<Request>): (ins: seq<Input>)
    ensures |ins| == |rs| && forall i :: 0 <= i < |rs| ==> ins[i] == Input(rs[i], 0)
  {
    seq(|rs|, i requires 0 <= i < |rs| => Input(rs[i], 0))
  }

  /** Whatever the interleaving of threads and whatever the clocks read, each symbol has answered a prefix of
      the requests routed to it, with exactly the responses and updates, and exactly the book up to time
      stamps, of processing that prefix one request after the other on an empty book. */
  lemma {:induction false} SymbolIsSequential(s: System, symbols: set<Symbol>, capacity: nat, symbol: Symbol)
    requires Reachable(s, symbols, capacity) && symbol in symbols
    ensures symbol in s.contexts
    ensures var c := s.contexts[symbol];
            var stream := OfSymbol(s.gate.routed, symbol);
            && |c.done| <= |stream| && c.queue == stream[|c.done|..]
            && var o := Run(symbol, AtZero(stream[..|c.done|]));
               c.responses == o.responses && c.updates == o.updates && EraseBook(c.book) == o.book
  {
    ReachableOK(s, symbols, capacity);
    SequentialMeans(symbol, s.contexts[symbol], s.gate.routed);
  }

  lemma {:induction false} SequentialMeans(symbol: Symbol, c: Context, routed: seq<Request>)
    requires Sequential(symbol, c, routed)
    ensures var stream := OfSymbol(routed, symbol);
            && |c.done| <= |stream| && c.queue == stream[|c.done|..]
            && var o := Run(symbol, AtZero(stream[..|c.done|]));
               c.responses == o.responses && c.updates == o.updates && EraseBook(c.book) == o.book
  {
    assert Look(Streams);
    var stream := OfSymbol(routed, symbol);
    assert stream[..|c.done|] == Requests(c.done);
    assert AtZero(Requests(c.done)) == Unclocked(c.done);
    EraseRun(symbol, c.done);
  }

  /** Cross-symbol scheduling, clocks and timing cannot change a symbol's result: two systems that routed the
      same requests to a symbol and have processed them all agree on everything the symbol emitted. */
  lemma {:induction false} SchedulingIrrelevant(s: System, s': System, symbols: set<Symbol>, symbols': set<Symbol>,
                                                capacity: nat, capacity': nat, symbol: Symbol)
    requires Reachable(s, symbols, capacity) && Reachable(s', symbols', capacity')
    requires symbol in symbols && symbol in symbols' && symbol in s.contexts && symbol in s'.contexts
    requires OfSymbol(s.gate.routed, symbol) == OfSymbol(s'.gate.routed, symbol)
    requires s.contexts[symbol].queue == [] && s'.contexts[symbol].queue == []
    ensures s.contexts[symbol].responses == s'.contexts[symbol].responses
    ensures s.contexts[symbol].updates == s'.contexts[symbol].updates
    ensures EraseBook(s.contexts[symbol].book) == EraseBook(s'.contexts[symbol].book)
  {
    IdleEvents(s, symbols, capacity, symbol);
    IdleEvents(s', symbols', capacity', symbol);
  }

  /** An idle symbol has answered everything routed to it. */
  lemma {:induction false} IdleEvents(s: System, symbols: set<Symbol>, capacity: nat, symbol: Symbol)
    requires Reachable(s, symbols, capacity) && symbol in symbols && symbol in s.contexts
    requires s.contexts[symbol].queue == []
    ensures var c, o := s.contexts[symbol], Run(symbol, AtZero(OfSymbol(s.gate.routed, symbol)));
            c.responses == o.responses && c.updates == o.updates && EraseBook(c.book) == o.book
  {
    SymbolIsSequential(s, symbols, capacity, symbol);
    var stream := OfSymbol(s.gate.routed, symbol);
    assert stream[..|stream|] == stream;
  }

  /** Even when requests enter the inbox out of order: if two systems flushed the same requests flush by flush, no
      two of them for this symbol with the same receive time, then once the symbol is idle its responses,
      updates and book agree, however ties between symbols were broken and whatever the threads' timing. */
  lemma {:induction false} Deterministic(s: System, s': System, symbols: set<Symbol>, symbols': set<Symbol>,
                                         capacity: nat, capacity': nat, symbol: Symbol)
    requires Reachable(s, symbols, capacity) && Reachable(s', symbols', capacity')
    requires symbol in symbols && symbol in symbols' && symbol in s.contexts && symbol in s'.contexts
    requires s.gate.outgoing == [] && s'.gate.outgoing == [] && SameFlushes(s.gate.flushes, s'.gate.flushes, symbol)
    requires s.contexts[symbol].queue == [] && s'.contexts[symbol].queue == []
    ensures s.contexts[symbol].responses == s'.contexts[symbol].responses
    ensures s.contexts[symbol].updates == s'.contexts[symbol].updates
    ensures EraseBook(s.contexts[symbol].book) == EraseBook(s'.contexts[symbol].book)
  {
    ReachableOK(s, symbols, capacity);
    ReachableOK(s', symbols', capacity');
    assert s.gate.routed + [] == s.gate.routed && s'.gate.routed + [] == s'.gate.routed;
    SameFlushesSameStream(s.gate.flushes, s'.gate.flushes, symbol);
    SchedulingIrrelevant(s, s', symbols, symbols', capacity, capacity', symbol);
  }

  /** The same holds for different batches of the same requests, as long as no flush reaches back before an
      earlier one. */
  lemma {:induction false} DeterministicAcrossBatches(s: System, s': System, symbols: set<Symbol>,
                                                      symbols': set<Symbol>,
                                                      capacity: nat, capacity': nat, symbol: Symbol)
    requires Reachable(s, symbols, capacity) && Reachable(s', symbols', capacity')
    requires symbol in symbols && symbol in symbols' && symbol in s.contexts && symbol in s'.contexts
    requires s.gate.outgoing == [] && s'.gate.outgoing == [] && Chained(s.gate.flushes) && Chained(s'.gate.flushes)
    requires multiset(s.gate.routed) == multiset(s'.gate.routed) && TimesSeparate(OfSymbol(s.gate.routed, symbol))
    requires s.contexts[symbol].queue == [] && s'.contexts[symbol].queue == []
    ensures s.contexts[symbol].responses == s'.contexts[symbol].responses
    ensures s.contexts[symbol].updates == s'.contexts[symbol].updates
    ensures EraseBook(s.contexts[symbol].book) == EraseBook(s'.contexts[symbol].book)
  {
    ReachableOK(s, symbols, capacity);
    ReachableOK(s', symbols', capacity');
    assert s.gate.routed + [] == s.gate.routed && s'.gate.routed + [] == s'.gate.routed;
    SortedAcrossFlushes(s.gate.flushes);
    SortedAcrossFlushes(s'.gate.flushes);
    SortedStreamsAgree(s.gate.routed, s'.gate.routed, symbol);
    SchedulingIrrelevant(s, s', symbols, symbols', capacity, capacity', symbol);
  }

  /** Once a symbol's updates have all reached the mirror, the mirror shows exactly the symbol's live orders
      and the phantoms of re-pricings that filled completely, whatever the other symbols did meanwhile. */
  lemma {:induction false} MirrorCatchesUp(s: System, symbols: set<Symbol>, capacity: nat, symbol: Symbol)
    requires Reachable(s, symbols, capacity) && symbol in symbols && symbol in s.contexts
    requires s.contexts[symbol].fed == |s.contexts[symbol].updates| && UpdatesOf(s.feed, symbol) == []
    ensures Agrees(CopyFor(s.mirror, symbol), s.contexts[symbol].book, Phantoms(symbol, s.contexts[symbol].done))
  {
    ReachableOK(s, symbols, capacity);
    CaughtUp(symbol, s.contexts[symbol], s.gate.routed, s.feed, s.mirror);
  }

  lemma {:induction false} CaughtUp(symbol: Symbol, c: Context, routed: seq<Request>, feed: seq<BookUpdate>,
                                    mirror: Mirrors)
    requires Sequential(symbol, c, routed) && Following(symbol, c, feed, mirror)
    requires c.fed == |c.updates| && UpdatesOf(feed, symbol) == []
    ensures Agrees(CopyFor(mirror, symbol), c.book, Phantoms(symbol, c.done))
  {
    assert Look(Streams);
    assert c.shown == c.fed;
    assert c.updates[..c.shown] == c.updates;
    MirrorAgrees(symbol, c.done);
  }

  /** No request is lost on the way: every submitted request is still on its way through the gateway, waiting
      in its symbol's queue, processed by its symbol, or refused for naming an unknown symbol. */
  lemma {:induction false} NothingLostEndToEnd(s: System, symbols: set<Symbol>, capacity: nat)
    requires Reachable(s, symbols, capacity)
    ensures NothingLost(s.gate)
    ensures s.rejects == Refused(s.gate.routed, symbols)
    ensures forall symbol :: symbol in symbols ==>
      symbol in s.contexts && OfSymbol(s.gate.routed, symbol)
          == Requests(s.contexts[symbol].done) + s.contexts[symbol].queue
  {
    assert Look(Streams);
    ReachableOK(s, symbols, capacity);
    forall symbol | symbol in symbols
      ensures OfSymbol(s.gate.routed, symbol) == Requests(s.contexts[symbol].done) + s.contexts[symbol].queue
    {
      assert Sequential(symbol, s.contexts[symbol], s.gate.routed);
    }
  }
}
