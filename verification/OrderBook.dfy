/** The order book as the engine stores it, updated in place: price maps, linked lists through pool blocks,
    an id index and two pools. Every operation is tied to the flat book it represents. */
module OrderBook {
  import opened Types
  import opened Book
  import opened Matching
  import opened MemPool
  import opened Links
  import opened LinkedBook
  import opened Progress
  import opened Seal

  const MAX_RESTING_ORDERS: nat := 131072
  const MAX_PRICE_LEVELS: nat := 8192

  class SymbolOrderBook {
    const symbol: Symbol
    var responses: seq<Response>
    var updates: seq<BookUpdate>
    var bids: map<Price, nat>
    var asks: map<Price, nat>
    var index: map<OrderId, nat>
    const orderPool: MemPool<BookOrder>
    const levelPool: MemPool<PriceLevel>

    // Each side's blocks and orders in priority order.
    ghost var bid: Ladder
    ghost var ask: Ladder

    ghost function Repr(): set<object> {
      {this, orderPool, orderPool.store, levelPool, levelPool.store}
    }

    ghost function OrderBlocks(): Orders
      reads orderPool.store
    {
      orderPool.store[..]
    }

    ghost function LevelBlocks(): Levels
      reads levelPool.store
    {
      levelPool.store[..]
    }

    ghost function Rungs(buy: bool): Ladder
      reads `bid, `ask
    {
      if buy then bid else ask
    }

    /** The flat book this object stands for. */
    ghost function Contents(): Book
      reads `bid, `ask
    {
      Book(symbol, bid.queue, ask.queue)
    }

    ghost predicate PoolsOK()
      reads orderPool, orderPool.store, levelPool, levelPool.store
    {
      orderPool.Valid() && levelPool.Valid() && orderPool.store as object != levelPool.store
    }

    ghost predicate Valid()
      reads `bids, `asks, `index, `bid, `ask, orderPool, orderPool.store, levelPool, levelPool.store
    {
      && PoolsOK() && bid.lv == bids && ask.lv == asks
      && |bid.queue| == |bid.nodes| && |ask.queue| == |ask.nodes|
      && Sound(bid, ask, OrderBlocks(), LevelBlocks(), index, true)
    }

    constructor (symbol: Symbol)
      ensures Valid() && Contents() == Empty(symbol) && responses == [] && updates == []
      ensures fresh(Repr())
      ensures orderPool.store.Length == 128 * 1024 && levelPool.store.Length == 8 * 1024
    {
      this.symbol := symbol;
      responses, updates := [], [];
      bids, asks, index := map[], map[], map[];
      orderPool := new MemPool(MAX_RESTING_ORDERS, BookOrder(Order(0, 0, INVALID_TYPE, Side.INVALID, 0, 0, 0, 0), Null,
          Null));
      levelPool := new MemPool(MAX_PRICE_LEVELS, PriceLevel(INVALID_PRICE, Null, Null, 0));
      bid, ask := Ladder([], [], map[]), Ladder([], [], map[]);
      assert Look(Structure);
    }

    // -------------------------------------------------------------- outgoing events

    method SendResponse(r: Response)
      modifies `responses
      ensures responses == old(responses) + [r] && (old(Valid()) ==> Valid())
    {
      responses := responses + [r];
    }

    method SendBookUpdate(u: BookUpdate)
      modifies `updates
      ensures updates == old(updates) + [u] && (old(Valid()) ==> Valid())
    {
      updates := updates + [u];
    }

    // -------------------------------------------------------------- book maintenance

    /** Let the neighbours of block `n`, or the ends of its level `lp`, point past it. */
    method Relink(n: nat, lp: nat)
      requires PoolsOK() && n < orderPool.store.Length && lp < levelPool.store.Length
      requires RefOK(OrderBlocks()[n].value.prev, |OrderBlocks()|)
      requires RefOK(OrderBlocks()[n].value.next, |OrderBlocks()|)
      modifies orderPool.store, levelPool.store
      ensures OrderBlocks() == Bypass(old(OrderBlocks()), n)
      ensures var o, b := old(OrderBlocks()[n].value), old(LevelBlocks())[lp];
              LevelBlocks() == old(LevelBlocks())[lp := b.(value := b.value.(
                head := if o.prev.At? then b.value.head else o.next, tail := if o.next.At? then b.value.tail
                    else o.prev))]
    {
      var o := orderPool.store[n].value;
      if o.prev.At? {
        orderPool.Write(o.prev.block, orderPool.store[o.prev.block].value.(next := o.next));
      } else {
        levelPool.Write(lp, levelPool.store[lp].value.(head := o.next));
      }
      if o.next.At? {
        orderPool.Write(o.next.block, orderPool.store[o.next.block].value.(prev := o.prev));
      } else {
        levelPool.Write(lp, levelPool.store[lp].value.(tail := o.prev));
      }
    }

    /** Take block `n` out of its list and its level; drop the level from its map when it empties. */
    method Unlink(n: nat, price: Price, buy: bool)
      requires PoolsOK() && n < orderPool.store.Length
      requires RefOK(OrderBlocks()[n].value.prev, |OrderBlocks()|)
      requires RefOK(OrderBlocks()[n].value.next, |OrderBlocks()|)
      requires price in (if buy then bids else asks)
      requires var lp := (if buy then bids else asks)[price];
               lp < levelPool.store.Length && 0 < LevelBlocks()[lp].value.count && !LevelBlocks()[lp].isFree
      modifies `bids, `asks, orderPool.store, levelPool.store
      ensures levelPool.Valid() && OrderBlocks() == Bypass(old(OrderBlocks()), n)
      ensures var lp := old(if buy then bids else asks)[price];
              var o, b := old(OrderBlocks()[n].value), old(LevelBlocks())[lp];
              && LevelBlocks() == old(LevelBlocks())[lp := ObjectBlock(Shrink(b.value, o.prev, o.next),
                                                             if b.value.count == 1 then true else b.isFree)]
              && (if buy then asks else bids) == old(if buy then asks else bids)
              && (if buy then bids else asks)
                 == if b.value.count == 1 then old(if buy then bids else asks) - {price}
                    else old(if buy then bids else asks)
    {
      var lp := if buy then bids[price] else asks[price];
      Relink(n, lp);
      var level := levelPool.store[lp].value;
      levelPool.Write(lp, level.(count := level.count - 1));
      if level.count - 1 == 0 {
        if buy { bids := bids - {price}; } else { asks := asks - {price}; }
        var ok := levelPool.Deallocate(lp);
        assert ok;
      }
    }

    lemma {:induction false} SoundFor(buy: bool)
      requires Valid()
      ensures Sound(Rungs(buy), Rungs(!buy), OrderBlocks(), LevelBlocks(), index, buy)
    {
      if !buy { SoundSymmetric(bid, ask, OrderBlocks(), LevelBlocks(), index, true); }
    }

    /** Replace one side of the proof's view of the book; `buy` says which. */
    ghost method SetRungs(buy: bool, x: Ladder)
      requires PoolsOK() && x.lv == (if buy then bids else asks) && |x.queue| == |x.nodes|
      requires Rungs(!buy).lv == (if buy then asks else bids) && |Rungs(!buy).queue| == |Rungs(!buy).nodes|
      requires Sound(x, Rungs(!buy), OrderBlocks(), LevelBlocks(), index, buy)
      modifies `bid, `ask
      ensures Valid() && Rungs(buy) == x && Rungs(!buy) == old(Rungs(!buy))
    {
      if buy {
        bid := x;
      } else {
        ask := x;
        SoundSymmetric(ask, bid, OrderBlocks(), LevelBlocks(), index, false);
      }
    }

    /** Unlink, unindex and free block `n`. */
    method Discard(n: nat)
      requires PoolsOK() && n < orderPool.store.Length && !orderPool.store[n].isFree
      requires RefOK(OrderBlocks()[n].value.prev, |OrderBlocks()|)
      requires RefOK(OrderBlocks()[n].value.next, |OrderBlocks()|)
      requires Bypass(OrderBlocks(), n)[n] == OrderBlocks()[n]
      requires var o := OrderBlocks()[n].value.order;
               && o.price in (if o.side.BUY? then bids else asks)
               && var lp := (if o.side.BUY? then bids else asks)[o.price];
                  lp < levelPool.store.Length && 0 < LevelBlocks()[lp].value.count && !LevelBlocks()[lp].isFree
      modifies `bids, `asks, `index, orderPool.store, levelPool.store
      ensures PoolsOK() && OrderBlocks() == Freed(Bypass(old(OrderBlocks()), n), n)
      ensures index == old(index) - {old(OrderBlocks()[n].value.order.id)}
      ensures var o := old(OrderBlocks()[n].value);
              var lp := old(if o.order.side.BUY? then bids else asks)[o.order.price];
              var b := old(LevelBlocks())[lp];
              && LevelBlocks() == old(LevelBlocks())[lp := ObjectBlock(Shrink(b.value, o.prev, o.next),
                                                                       if b.value.count == 1 then true else b.isFree)]
              && (if o.order.side.BUY? then asks else bids) == old(if o.order.side.BUY? then asks else bids)
              && var lv := old(if o.order.side.BUY? then bids else asks);
                 (if o.order.side.BUY? then bids else asks) == if b.value.count == 1 then lv - {o.order.price} else lv
    {
      var order := orderPool.store[n].value.order;
      Unlink(n, order.price, order.side.BUY?);
      index := index - {order.id};
      var ok := orderPool.Deallocate(n);
      assert ok;
    }

    /** Remove a resting order from the book. The early returns of the defensive checks, and the pools' checks
        on what is given back, are never taken. */
    method RemoveOrder(n: nat, ghost buy: bool, ghost k: nat)
      requires Valid() && k < |Rungs(buy).nodes| && Rungs(buy).nodes[k] == n
      modifies Repr()
      ensures Valid() && Rungs(buy) == Without(old(Rungs(buy)), k) && Rungs(!buy) == old(Rungs(!buy))
      ensures index == old(index) - {old(Rungs(buy).queue[k].id)}
      ensures responses == old(responses) && updates == old(updates)
    {
      ghost var x, y, os, ls := Rungs(buy), Rungs(!buy), OrderBlocks(), LevelBlocks();
      SoundFor(buy);
      FactsOf(x, y, os, ls, index, buy, k);
      RemovedSound(x, y, os, ls, index, buy, k);
      Discard(n);
      SetRungs(buy, Without(x, k));
    }

    /** The level of `price`, created when it is missing; aborts (`!ok`) when the level pool runs out. */
    method OpenLevel(price: Price, buy: bool) returns (ok: bool, lp: nat)
      requires PoolsOK()
      requires var lv := if buy then bids else asks; price in lv ==> lv[price] < levelPool.store.Length
      modifies `bids, `asks, levelPool, levelPool.store
      ensures var lv := old(if buy then bids else asks);
              && lp < levelPool.store.Length
              && (ok <==> price in lv || |Live(old(LevelBlocks()))| + 1 < levelPool.store.Length)
              && (ok ==> levelPool.Valid() && (if buy then bids else asks) == lv[price := lp]
                         && (if buy then asks else bids) == old(if buy then asks else bids)
                         && (if price in lv then lv[price] == lp && LevelBlocks() == old(LevelBlocks())
                             else old(LevelBlocks())[lp].isFree
                                  && LevelBlocks() == Filled(old(LevelBlocks()), lp, PriceLevel(price, Null, Null, 0))))
    {
      var lv := if buy then bids else asks;
      if price in lv {
        ok, lp := true, lv[price];
      } else {
        ok, lp := levelPool.Allocate(PriceLevel(price, Null, Null, 0));
        if !ok { return; }
        lv := lv[price := lp];
      }
      if buy { bids := lv; } else { asks := lv; }
    }

    /** Append the order in block `n` at the tail of level `lp`. */
    method LinkAtTail(n: nat, lp: nat)
      requires orderPool.store as object != levelPool.store
      requires n < orderPool.store.Length && lp < levelPool.store.Length
      requires RefOK(LevelBlocks()[lp].value.tail, |OrderBlocks()|)
      requires LevelBlocks()[lp].value.tail != At(n)
      modifies orderPool.store, levelPool.store
      ensures OrderBlocks() == Append(old(OrderBlocks()), old(LevelBlocks())[lp].value, n,
              old(OrderBlocks()[n].value.order))
      ensures LevelBlocks() == Grown(old(LevelBlocks()), lp, n)
    {
      var level := levelPool.store[lp].value;
      orderPool.Write(n, orderPool.store[n].value.(prev := level.tail, next := Null));
      if level.tail.At? {
        orderPool.Write(level.tail.block, orderPool.store[level.tail.block].value.(next := At(n)));
      } else {
        level := level.(head := At(n));
      }
      levelPool.Write(lp, level.(tail := At(n), count := level.count + 1));
    }

    /** Allocate a block for `o` and find or create its level. Aborts (`!ok`) exactly when a pool is exhausted. */
    method Reserve(o: Order) returns (ok: bool, n: nat, lp: nat)
      requires PoolsOK()
      requires var lv := if o.side.BUY? then bids else asks; o.price in lv ==> lv[o.price] < levelPool.store.Length
      modifies `bids, `asks, orderPool, orderPool.store, levelPool, levelPool.store
      ensures var lv := old(if o.side.BUY? then bids else asks);
              && (ok <==> |Live(old(OrderBlocks()))| + 1 < orderPool.store.Length
                          && (o.price in lv || |Live(old(LevelBlocks()))| + 1 < levelPool.store.Length))
              && (ok ==> PoolsOK() && n < orderPool.store.Length && lp < levelPool.store.Length
                         && (if o.side.BUY? then bids else asks) == lv[o.price := lp]
                         && (if o.side.BUY? then asks else bids) == old(if o.side.BUY? then asks else bids)
                         && Available(Ladder([], [], lv), old(OrderBlocks()), old(LevelBlocks()), n, o.price, lp)
                         && OrderBlocks() == Filled(old(OrderBlocks()), n, BookOrder(o, Null, Null))
                         && LevelBlocks() == Opened(Ladder([], [], lv), old(LevelBlocks()), o.price, lp))
    {
      lp := 0;
      ok, n := orderPool.Allocate(BookOrder(o, Null, Null));
      if ok {
        ok, lp := OpenLevel(o.price, o.side.BUY?);
      }
    }

    /** Put the order in its reserved block `n` at the back of its level `lp` and into the index. `x` and `y` are the
        order's side and the other one before the reservation, `os` and `ls` the blocks. */
    method Attach(o: Order, n: nat, lp: nat, ghost x: Ladder, ghost y: Ladder, ghost os: Orders, ghost ls: Levels)
      requires PoolsOK() && o.id !in index && Sound(x, y, os, ls, index, o.side.BUY?) && Rungs(!o.side.BUY?) == y
      requires |x.queue| == |x.nodes| && |y.queue| == |y.nodes| && Available(x, os, ls, n, o.price, lp)
      requires (if o.side.BUY? then bids else asks) == x.lv[o.price := lp]
      requires (if o.side.BUY? then asks else bids) == y.lv
      requires OrderBlocks() == Filled(os, n, BookOrder(o, Null, Null)) && LevelBlocks() == Opened(x, ls, o.price, lp)
      modifies `index, `bid, `ask, orderPool.store, levelPool.store
      ensures Valid() && index == old(index)[o.id := n]
      ensures Rungs(o.side.BUY?) == With(x, InsertPos(x.queue, o.price, o.side.BUY?), n, o, lp)
      ensures Rungs(!o.side.BUY?) == y
    {
      InsertedSound(x, y, os, ls, index, o.side.BUY?, n, o, lp, BookOrder(o, Null, Null));
      LinkAtTail(n, lp);
      index := index[o.id := n];
      SetRungs(o.side.BUY?, With(x, InsertPos(x.queue, o.price, o.side.BUY?), n, o, lp));
    }

    /** Rest an order at the back of its price level. Aborts (`!ok`) exactly when a pool is exhausted. */
    method RestOrder(o: Order) returns (ok: bool)
      requires Valid() && o.id !in index
      modifies Repr()
      ensures ok <==> Room(old(Rungs(o.side.BUY?)), old(OrderBlocks()), old(LevelBlocks()), o.price)
      ensures ok ==> Valid() && Contents() == RestIn(old(Contents()), o) && index.Keys == old(index).Keys + {o.id}
      ensures responses == old(responses) && updates == old(updates)
    {
      ghost var buy := o.side.BUY?;
      ghost var x, y, os, ls := Rungs(buy), Rungs(!buy), OrderBlocks(), LevelBlocks();
      SoundFor(buy);
      LevelKnown(x, y, os, ls, index, buy, o.price);
      var n, lp;
      ok, n, lp := Reserve(o);
      if ok { Attach(o, n, lp, x, y, os, ls); }
    }

    /** There is room for an order exactly when the book with it rested fits the pools. */
    lemma {:induction false} RoomIsFit(o: Order)
      requires Valid()
      ensures Fits(Contents(), orderPool.store.Length, levelPool.store.Length)
      ensures Room(Rungs(o.side.BUY?), OrderBlocks(), LevelBlocks(), o.price)
          <==> Fits(RestIn(Contents(), o), orderPool.store.Length, levelPool.store.Length)
    {
      var buy := o.side.BUY?;
      var x := Rungs(buy);
      SoundFor(buy);
      LiveBound(OrderBlocks(), orderPool.nextFree);
      LiveBound(LevelBlocks(), levelPool.nextFree);
      RoomCounts(x, Rungs(!buy), OrderBlocks(), LevelBlocks(), index, buy, o.price);
      PricesInserted(x.queue, InsertPos(x.queue, o.price, buy), o);
    }

    /** Change a resting order's quantities in its block. */
    method ResizeOrder(n: nat, qty: Qty, originalQty: Qty, ghost buy: bool, ghost k: nat)
      requires Valid() && k < |Rungs(buy).nodes| && Rungs(buy).nodes[k] == n
      modifies Repr()
      ensures Valid() && Rungs(!buy) == old(Rungs(!buy))
      ensures var x := old(Rungs(buy));
              Rungs(buy) == x.(queue := x.queue[k := x.queue[k].(qty := qty, originalQty := originalQty)])
      ensures index == old(index) && responses == old(responses) && updates == old(updates)
    {
      ghost var x, y, os, ls := Rungs(buy), Rungs(!buy), OrderBlocks(), LevelBlocks();
      SoundFor(buy);
      FactsOf(x, y, os, ls, index, buy, k);
      var node := orderPool.store[n].value;
      var o := node.order.(qty := qty, originalQty := originalQty);
      ResizedSound(x, y, os, ls, index, buy, k, o);
      orderPool.Write(n, node.(order := o));
      SetRungs(buy, x.(queue := x.queue[k := o]));
    }

    // -------------------------------------------------------------- matching

    /** Take `size` off the order in block `n`, which leaves the book when it is used up. */
    method ReduceOrder(n: nat, size: Qty, ghost buy: bool, ghost k: nat)
      requires Valid() && k < |Rungs(buy).nodes| && Rungs(buy).nodes[k] == n && size <= Rungs(buy).queue[k].qty
      modifies Repr()
      ensures Valid() && Rungs(!buy) == old(Rungs(!buy))
      ensures Rungs(buy).queue == AfterFill(old(Rungs(buy).queue), k, size)
      ensures Rungs(buy).nodes == if size == old(Rungs(buy).queue[k].qty) then RemoveAt(old(Rungs(buy).nodes), k)
                                  else old(Rungs(buy).nodes)
      ensures responses == old(responses) && updates == old(updates)
    {
      SoundFor(buy);
      FactsOf(Rungs(buy), Rungs(!buy), OrderBlocks(), LevelBlocks(), index, buy, k);
      var o := orderPool.store[n].value.order;
      ghost var q := Rungs(buy).queue;
      ResizeOrder(n, o.qty - size, o.originalQty, buy, k);
      if o.qty - size == 0 {
        RemoveOrder(n, buy, k);
        RemovedAnyway(q, k, o.(qty := 0));
      }
    }

    lemma {:induction false} RemovedAnyway(q: seq<Order>, k: nat, o: Order)
      requires k < |q|
      ensures RemoveAt(q[k := o], k) == RemoveAt(q, k)
    {
    }

    method AnnounceFill(t: Taker, f: Fill)
      modifies `responses, `updates
      ensures responses == old(responses) + FillResponses(symbol, t, f)
      ensures updates == old(updates) + FillUpdates(symbol, f)
      ensures old(Valid()) ==> Valid()
    {
      var o := f.maker;
      SendResponse(Response(FILLED, t.client, symbol, t.id, t.id, t.side, o.price, f.qty, f.leaves));
      SendResponse(Response(FILLED, o.client, symbol, o.id, o.id, o.side, o.price, f.qty, o.qty));
      SendBookUpdate(BookUpdate(TRADE, o.id, symbol, o.side, o.price, f.qty));
      SendBookUpdate(BookUpdate(if o.qty == 0 then CANCEL_ORDER else MODIFY_ORDER, o.id, symbol, o.side, o.price,
          o.qty));
    }

    /** Trade with the order in block `n` and announce it. */
    method FillOrder(t: Taker, n: nat, leaves: Qty, ghost buy: bool, ghost k: nat) returns (left: Qty, f: Fill)
      requires Valid() && k < |Rungs(buy).nodes| && Rungs(buy).nodes[k] == n
      modifies Repr()
      ensures Valid() && Rungs(!buy) == old(Rungs(!buy))
      ensures var o := old(Rungs(buy).queue[k]);
              var size := Min(leaves, o.qty);
              && left == leaves - size && f == Fill(o.(qty := o.qty - size), size, left)
              && Rungs(buy).queue == AfterFill(old(Rungs(buy).queue), k, size)
              && Rungs(buy).nodes == if size == o.qty then RemoveAt(old(Rungs(buy).nodes), k) else old(Rungs(buy).nodes)
      ensures responses == old(responses) + FillResponses(symbol, t, f)
      ensures updates == old(updates) + FillUpdates(symbol, f)
    {
      SoundFor(buy);
      FactsOf(Rungs(buy), Rungs(!buy), OrderBlocks(), LevelBlocks(), index, buy, k);
      var o := orderPool.store[n].value.order;
      var size := Min(leaves, o.qty);
      left := leaves - size;
      f := Fill(o.(qty := o.qty - size), size, left);
      ReduceOrder(n, size, buy, k);
      AnnounceFill(t, f);
    }

    /** Where the sweep stands: position `c` of the side opposite `t`, with `leaves` still to trade. */
    ghost predicate Tracking(t: Taker, s0: Start, c: nat, leaves: Qty)
      reads this
    {
      OnTrack(symbol, t, s0, Rungs(!t.side.BUY?).queue, c, leaves, responses, updates)
    }

    lemma {:induction false} Retrack(t: Taker, s0: Start, c: nat, leaves: Qty, q: seq<Order>, rs: seq<Response>,
                                     us: seq<BookUpdate>)
      requires OnTrack(symbol, t, s0, q, c, leaves, rs, us)
      requires q == Rungs(!t.side.BUY?).queue && rs == responses && us == updates
      ensures Tracking(t, s0, c, leaves)
    {
    }

    /** Trade with the order in block `n`, at position `c0`; what stood behind it now stands at position `c`. */
    method TradeWith(t: Taker, p: Price, n: nat, from: Qty, ghost c0: nat, ghost s0: Start)
      returns (leaves: Qty, ghost c: nat)
      requires Valid() && Crosses(t, p) && Tracking(t, s0, c0, from) && from > 0
      requires var x := Rungs(!t.side.BUY?);
               && c0 < |x.queue| && x.queue[c0].price == p && x.queue[c0].client != t.client && x.nodes[c0] == n
               && Within(x.queue, c0, p, !t.side.BUY?) && SortedByPrice(x.queue, !t.side.BUY?)
      modifies Repr()
      ensures Valid() && Rungs(t.side.BUY?) == old(Rungs(t.side.BUY?)) && Tracking(t, s0, c, leaves)
      ensures var x, y := old(Rungs(!t.side.BUY?)), Rungs(!t.side.BUY?);
              && Within(y.queue, c, p, !t.side.BUY?) && |y.queue| - c == |x.queue| - c0 - 1
              && (c < |y.queue| ==> y.queue[c] == x.queue[c0 + 1] && y.nodes[c] == x.nodes[c0 + 1])
    {
      ghost var buy := !t.side.BUY?;
      ghost var x := Rungs(buy);
      ghost var size := Min(from, x.queue[c0].qty);
      var f;
      WithinFills(x.queue, c0, p, buy, size);
      leaves, f := FillOrder(t, n, from, buy, c0);
      c := NextAfterFill(x.queue, c0, size);
      TrackFills(symbol, t, s0, x.queue, c0, from, old(responses), old(updates), f);
      Retrack(t, s0, c, leaves, AfterFill(x.queue, c0, size), old(responses) + FillResponses(symbol, t, f),
              old(updates) + FillUpdates(symbol, f));
    }

    /** One turn of the inner loop: trade with the order in block `n` or pass over it, and move on. */
    method VisitOrder(t: Taker, p: Price, n: nat, from: Qty, ghost c0: nat, ghost s0: Start)
      returns (leaves: Qty, next: Ref, ghost c: nat)
      requires Valid() && Crosses(t, p) && Tracking(t, s0, c0, from)
      requires var x := Rungs(!t.side.BUY?);
               c0 < |x.queue| && x.queue[c0].price == p && x.nodes[c0] == n && Within(x.queue, c0, p, !t.side.BUY?)
      modifies Repr()
      ensures Valid() && Rungs(t.side.BUY?) == old(Rungs(t.side.BUY?)) && Tracking(t, s0, c, leaves)
      ensures var x := Rungs(!t.side.BUY?);
              && Within(x.queue, c, p, !t.side.BUY?)
              && |x.queue| - c == |old(Rungs(!t.side.BUY?).queue)| - c0 - 1
              && next == if c < |x.queue| && x.queue[c].price == p then At(x.nodes[c]) else Null
    {
      ghost var buy := !t.side.BUY?;
      ghost var x := Rungs(buy);
      leaves := from;
      SoundFor(buy);
      FactsOf(x, Rungs(!buy), OrderBlocks(), LevelBlocks(), index, buy, c0);
      SideFacts(x, Rungs(!buy), OrderBlocks(), LevelBlocks(), index, buy);
      var node := orderPool.store[n].value;
      next := node.next;
      if node.order.client != t.client && leaves > 0 {
        leaves, c := TradeWith(t, p, n, leaves, c0, s0);
      } else {
        TrackSkips(symbol, t, s0, x.queue, c0, leaves, responses, updates);
        WithinSkips(x.queue, c0, p, buy);
        c := c0 + 1;
      }
    }

    /** Go through the level of price `p`, whose first order stands at position `c0`, trading with every other
        client's order while anything is left. */
    method SweepLevel(t: Taker, p: Price, from: Qty, ghost c0: nat, ghost s0: Start) returns (leaves: Qty, ghost c: nat)
      requires Valid() && Crosses(t, p) && Tracking(t, s0, c0, from)
      requires var q := Rungs(!t.side.BUY?).queue;
               c0 < |q| && q[c0].price == p && (c0 > 0 ==> q[c0 - 1].price != p) && Within(q, c0, p, !t.side.BUY?)
      modifies Repr()
      ensures Valid() && Rungs(t.side.BUY?) == old(Rungs(t.side.BUY?)) && Tracking(t, s0, c, leaves)
      ensures var q := Rungs(!t.side.BUY?).queue;
              Cursor(q, c, Some(p), !t.side.BUY?) && |q| - c < |old(Rungs(!t.side.BUY?).queue)| - c0
    {
      ghost var buy := !t.side.BUY?;
      leaves, c := from, c0;
      SoundFor(buy);
      FactsOf(Rungs(buy), Rungs(!buy), OrderBlocks(), LevelBlocks(), index, buy, c);
      var lp := if t.side.BUY? then asks[p] else bids[p];
      var node := levelPool.store[lp].value.head;
      while node.At?
        invariant Valid() && Rungs(!buy) == old(Rungs(!buy)) && Tracking(t, s0, c, leaves)
        invariant Within(Rungs(buy).queue, c, p, buy)
        invariant node == (if c < |Rungs(buy).queue| && Rungs(buy).queue[c].price
                  == p then At(Rungs(buy).nodes[c]) else Null)
        invariant |Rungs(buy).queue| - c <= |old(Rungs(buy).queue)| - c0
        invariant node.Null? ==> |Rungs(buy).queue| - c < |old(Rungs(buy).queue)| - c0
        decreases |Rungs(buy).queue| - c
      {
        leaves, node, c := VisitOrder(t, p, node.block, leaves, c, s0);
      }
      LeavesLevel(Rungs(buy).queue, c, p, buy);
    }

    /** The price of the best level of a side after `from`, which is the level at the cursor `c`. */
    method NextBest(buy: bool, from: Option<Price>, ghost c: nat) returns (it: Option<Price>)
      requires Valid() && Cursor(Rungs(buy).queue, c, from, buy)
      ensures it == if c < |Rungs(buy).queue| then Some(Rungs(buy).queue[c].price) else None
      ensures it.Some? ==> Within(Rungs(buy).queue, c, it.value, buy)
      ensures it.Some? && c > 0 ==> Rungs(buy).queue[c - 1].price != it.value
    {
      it := NextLevel(if buy then bids else asks, from, buy);
      SoundFor(buy);
      NextPrice(Rungs(buy), Rungs(!buy), OrderBlocks(), LevelBlocks(), index, buy, c, from, it);
      SideFacts(Rungs(buy), Rungs(!buy), OrderBlocks(), LevelBlocks(), index, buy);
      if it.Some? { EntersLevel(Rungs(buy).queue, c, from, buy); }
    }

    /** Match an incoming order against the opposite side, best level first. */
    method MatchIncoming(t: Taker, qty: Qty) returns (leaves: Qty)
      requires Valid()
      modifies Repr()
      ensures Valid()
      ensures var (m, left) := Match(old(Contents()), t, qty);
              && leaves == left && Contents() == m.book
              && responses == old(responses) + m.responses && updates == old(updates) + m.updates
    {
      ghost var buy := !t.side.BUY?;
      ghost var s0 := Start(Rungs(buy).queue, qty, responses, updates);
      ghost var c: nat := 0;
      TrackStarts(symbol, t, s0);
      leaves := qty;
      var it := NextBest(!t.side.BUY?, None, c);
      while leaves > 0 && it.Some? && Crosses(t, it.value)
        invariant Valid() && Rungs(!buy) == old(Rungs(!buy)) && Tracking(t, s0, c, leaves)
        invariant it == if c < |Rungs(buy).queue| then Some(Rungs(buy).queue[c].price) else None
        invariant it.Some? ==> Within(Rungs(buy).queue, c, it.value, buy)
        invariant it.Some? && c > 0 ==> Rungs(buy).queue[c - 1].price != it.value
        invariant c <= |Rungs(buy).queue|
        decreases |Rungs(buy).queue| - c
      {
        leaves, c := SweepLevel(t, it.value, leaves, c, s0);
        it := NextBest(!t.side.BUY?, it, c);
      }
      TrackEnds(symbol, t, s0, Rungs(buy).queue, c, leaves, responses, updates);
    }

    // -------------------------------------------------------------- order entry

    lemma {:induction false} Unknown(id: OrderId)
      requires Valid()
      ensures id in index <==> Find(Contents(), id).Some?
    {
      Locate(bid, ask, OrderBlocks(), LevelBlocks(), index, true, id);
    }

    /** Where the order found under an indexed id stands. */
    lemma {:induction false} Found(id: OrderId) returns (buy: bool, k: nat)
      requires Valid() && id in index
      ensures k < |Rungs(buy).queue| && Rungs(buy).nodes[k] == index[id] < orderPool.store.Length
      ensures Find(Contents(), id) == Some(Rungs(buy).queue[k]) && Rungs(buy).queue[k].id == id
      ensures orderPool.store[index[id]].value.order == Rungs(buy).queue[k] && Rungs(buy).queue[k].side.BUY? == buy
      ensures k == IndexOf(Rungs(buy).queue, id) && !Has(Rungs(!buy).queue, id)
    {
      Locate(bid, ask, OrderBlocks(), LevelBlocks(), index, true, id);
      buy := Has(bid.queue, id);
      k := IndexOf(Rungs(buy).queue, id);
    }

    /** Match, then rest what is left. */
    method MatchThenRest(t: Taker, typ: OrderType, qty: Qty, now: Nanos) returns (ok: bool)
      requires Valid() && t.id !in index
      modifies Repr()
      ensures var o := MatchAndRest(old(Contents()), t, typ, qty, now);
              && (ok <==> Fits(o.book, orderPool.store.Length, levelPool.store.Length))
              && (ok ==> Valid() && Contents() == o.book
                         && responses == old(responses) + o.responses && updates == old(updates) + o.updates)
    {
      Unknown(t.id);
      SweepKeepsAbsent(t, Rungs(!t.side.BUY?).queue, qty, t.id);
      var leaves := MatchIncoming(t, qty);
      ghost var m := Match(old(Contents()), t, qty).0;
      Unknown(t.id);
      var o := Order(t.id, t.client, typ, t.side, t.limit, qty, leaves, now);
      RoomIsFit(o);
      ok := true;
      if leaves > 0 {
        ok := RestOrder(o);
        var add := BookUpdate(ADD_ORDER, t.id, symbol, t.side, t.limit, leaves);
        Assoc(old(updates), m.updates, [add]);
        SendBookUpdate(add);
      }
    }

    method AddLimitOrder(client: ClientId, id: OrderId, side: Side, price: Price, qty: Qty, now: Nanos)
      returns (ok: bool)
      requires Valid()
      modifies Repr()
      ensures var o := AddLimit(old(Contents()), client, id, side, price, qty, now);
              && (ok <==> Fits(o.book, orderPool.store.Length, levelPool.store.Length))
              && (ok ==> Valid() && Contents() == o.book
                         && responses == old(responses) + o.responses && updates == old(updates) + o.updates)
    {
      Unknown(id);
      if id in index {
        SendResponse(Response(REJECTED, client, symbol, id, INVALID_ORDER_ID, side, price, 0, qty));
        RoomIsFit(Order(id, client, LIMIT, side, price, qty, qty, now));
        assert updates + [] == updates;
        return true;
      }
      var header := Response(ACCEPTED, client, symbol, id, id, side, price, 0, qty);
      var t := Taker(client, id, side, price, true);
      Assoc(responses, [header], MatchAndRest(Contents(), t, LIMIT, qty, now).responses);
      SendResponse(header);
      ok := MatchThenRest(t, LIMIT, qty, now);
    }

    /** Market and immediate-or-cancel orders: match, then cancel what is left. */
    method AddTransientOrder(t: Taker, price: Price, qty: Qty)
      requires Valid()
      modifies Repr()
      ensures var o := AddTransient(old(Contents()), t, price, qty);
              && Valid() && Contents() == o.book
              && responses == old(responses) + o.responses && updates == old(updates) + o.updates
    {
      Unknown(t.id);
      if t.id in index {
        SendResponse(Response(REJECTED, t.client, symbol, t.id, INVALID_ORDER_ID, t.side, price, 0, qty));
        assert updates + [] == updates;
        return;
      }
      var header := Response(ACCEPTED, t.client, symbol, t.id, t.id, t.side, price, 0, qty);
      ghost var m := Match(Contents(), t, qty).0;
      Assoc(responses, [header], m.responses);
      SendResponse(header);
      var leaves := MatchIncoming(t, qty);
      if leaves > 0 {
        var tail := Response(CANCELED, t.client, symbol, t.id, t.id, t.side, price, qty - leaves, leaves);
        Assoc(old(responses), [header] + m.responses, [tail]);
        Assoc([header], m.responses, [tail]);
        SendResponse(tail);
      }
    }

    method AddMarketOrder(client: ClientId, id: OrderId, side: Side, qty: Qty)
      requires Valid()
      modifies Repr()
      ensures var o := AddMarket(old(Contents()), client, id, side, qty);
              && Valid() && Contents() == o.book
              && responses == old(responses) + o.responses && updates == old(updates) + o.updates
    {
      AddTransientOrder(Taker(client, id, side, INVALID_PRICE, false), INVALID_PRICE, qty);
    }

    method AddIOCOrder(client: ClientId, id: OrderId, side: Side, price: Price, qty: Qty)
      requires Valid()
      modifies Repr()
      ensures var o := AddIoc(old(Contents()), client, id, side, price, qty);
              && Valid() && Contents() == o.book
              && responses == old(responses) + o.responses && updates == old(updates) + o.updates
    {
      AddTransientOrder(Taker(client, id, side, price, true), price, qty);
    }

    method CancelOrder(client: ClientId, id: OrderId)
      requires Valid()
      modifies Repr()
      ensures var o := Cancel(old(Contents()), client, id);
              && Valid() && Contents() == o.book
              && responses == old(responses) + o.responses && updates == old(updates) + o.updates
    {
      Unknown(id);
      ghost var buy, k := true, 0;
      if id in index { buy, k := Found(id); }
      if id !in index || orderPool.store[index[id]].value.order.client != client {
        SendResponse(Response(CANCEL_REJECTED, client, symbol, id, INVALID_ORDER_ID,
                                           Side.INVALID, INVALID_PRICE, INVALID_QTY, INVALID_QTY));
        assert updates + [] == updates;
        return;
      }
      var o := orderPool.store[index[id]].value.order;
      TakeOut(o, index[id], buy, k);
      SendResponse(Response(CANCELED, client, symbol, id, id, o.side, o.price, 0, 0));
      SendBookUpdate(BookUpdate(CANCEL_ORDER, id, symbol, o.side, o.price, o.qty));
    }

    method ModifyOrder(client: ClientId, id: OrderId, price: Price, qty: Qty, now: Nanos) returns (ok: bool)
      requires Valid()
      modifies Repr()
      ensures var o := Modify(old(Contents()), client, id, price, qty, now);
              && (ok <==> Fits(o.book, orderPool.store.Length, levelPool.store.Length))
              && (ok ==> Valid() && Contents() == o.book
                         && responses == old(responses) + o.responses && updates == old(updates) + o.updates)
    {
      Unknown(id);
      ghost var buy, k := true, 0;
      if id in index { buy, k := Found(id); }
      if id !in index || orderPool.store[index[id]].value.order.client != client
         || qty == 0 || qty == INVALID_QTY || price <= 0 {
        SendResponse(Response(MODIFY_REJECTED, client, symbol, id, INVALID_ORDER_ID,
                                           Side.INVALID, INVALID_PRICE, INVALID_QTY, INVALID_QTY));
        assert updates + [] == updates;
        RoomIsFit(Order(id, client, LIMIT, BUY, price, qty, qty, now));
        return true;
      }
      var o := orderPool.store[index[id]].value.order;
      if price != o.price {
        ok := Reprice(o, index[id], price, qty, now, buy, k);
      } else if qty < o.qty {
        ok := ShrinkInPlace(o, index[id], qty, buy, k);
      } else if qty > o.qty {
        ok := GrowToBack(o, index[id], qty, now, buy, k);
      } else {
        SendResponse(Response(MODIFIED, client, symbol, id, id, o.side, o.price, 0, o.qty));
        assert updates + [] == updates;
        RoomIsFit(o);
        ok := true;
      }
    }

    /** Remove the order found under its id. */
    method TakeOut(o: Order, n: nat, ghost buy: bool, ghost k: nat)
      requires Valid() && Standing(o, n, buy, k)
      modifies Repr()
      ensures Valid() && Contents() == RemoveFrom(old(Contents()), o.id) && o.id !in index
      ensures responses == old(responses) && updates == old(updates)
    {
      RemovedFromOne(Rungs(buy).queue, Rungs(!buy).queue, o.id);
      RemoveOrder(n, buy, k);
    }

    lemma {:induction false} RemovedFromOne(q: seq<Order>, r: seq<Order>, id: OrderId)
      requires Has(q, id) && !Has(r, id)
      ensures Remove(q, id) == RemoveAt(q, IndexOf(q, id)) && Remove(r, id) == r
    {
    }

    /** A price change gives up time priority and may cross: the order is entered afresh. */
    method Reprice(o: Order, n: nat, price: Price, qty: Qty, now: Nanos, ghost buy: bool, ghost k: nat)
      returns (ok: bool)
      requires Valid() && Standing(o, n, buy, k)
      modifies Repr()
      ensures var m := WithHeader(Response(MODIFIED, o.client, symbol, o.id, o.id, o.side, price, 0, qty),
                                  MatchAndRest(RemoveFrom(old(Contents()), o.id),
                                      Taker(o.client, o.id, o.side, price, true), o.typ, qty, now));
              && (ok <==> Fits(m.book, orderPool.store.Length, levelPool.store.Length))
              && (ok ==> Valid() && Contents() == m.book
                         && responses == old(responses) + m.responses && updates == old(updates) + m.updates)
    {
      TakeOut(o, n, buy, k);
      var done := Response(MODIFIED, o.client, symbol, o.id, o.id, o.side, price, 0, qty);
      var t := Taker(o.client, o.id, o.side, price, true);
      Assoc(responses, [done], MatchAndRest(Contents(), t, o.typ, qty, now).responses);
      SendResponse(done);
      ok := MatchThenRest(t, o.typ, qty, now);
    }

    /** A smaller size at the same price keeps its place. */
    method ShrinkInPlace(o: Order, n: nat, qty: Qty, ghost buy: bool, ghost k: nat) returns (ok: bool)
      requires Valid() && Standing(o, n, buy, k)
      modifies Repr()
      ensures var b := old(Contents());
              var b' := b.(bids := Resize(b.bids, o.id, qty), asks := Resize(b.asks, o.id, qty));
              && ok && Fits(b', orderPool.store.Length, levelPool.store.Length) && Valid() && Contents() == b'
              && responses == old(responses) + [Response(MODIFIED, o.client, symbol, o.id, o.id, o.side, o.price, 0,
                 qty)]
              && updates == old(updates) + [BookUpdate(MODIFY_ORDER, o.id, symbol, o.side, o.price, qty)]
    {
      ResizeOrder(n, qty, qty, buy, k);
      RoomIsFit(o);
      SendResponse(Response(MODIFIED, o.client, symbol, o.id, o.id, o.side, o.price, 0, qty));
      SendBookUpdate(BookUpdate(MODIFY_ORDER, o.id, symbol, o.side, o.price, qty));
      ok := true;
    }

    /** A larger size at the same price goes to the back of the level. */
    method GrowToBack(o: Order, n: nat, qty: Qty, now: Nanos, ghost buy: bool, ghost k: nat) returns (ok: bool)
      requires Valid() && Standing(o, n, buy, k)
      modifies Repr()
      ensures var b' := RestIn(RemoveFrom(old(Contents()), o.id),
              Order(o.id, o.client, o.typ, o.side, o.price, qty, qty, now));
              && (ok <==> Fits(b', orderPool.store.Length, levelPool.store.Length))
              && (ok ==> Valid() && Contents() == b'
                         && responses == old(responses) + [Response(MODIFIED, o.client, symbol, o.id, o.id, o.side,
                            o.price, 0, qty)]
                         && updates == old(updates) + [BookUpdate(MODIFY_ORDER, o.id, symbol, o.side, o.price, qty)])
    {
      TakeOut(o, n, buy, k);
      var o' := Order(o.id, o.client, o.typ, o.side, o.price, qty, qty, now);
      RoomIsFit(o');
      ok := RestOrder(o');
      SendResponse(Response(MODIFIED, o.client, symbol, o.id, o.id, o.side, o.price, 0, qty));
      SendBookUpdate(BookUpdate(MODIFY_ORDER, o.id, symbol, o.side, o.price, qty));
    }

    /** Order `o` is the one in block `n`, at position `k` of its side, and the only one with its id. */
    ghost predicate Standing(o: Order, n: nat, buy: bool, k: nat)
      reads `bid, `ask
    {
      && k < |Rungs(buy).queue| && k < |Rungs(buy).nodes| && Rungs(buy).nodes[k] == n && Rungs(buy).queue[k] == o
      && o.side.BUY? == buy && k == IndexOf(Rungs(buy).queue, o.id) && !Has(Rungs(!buy).queue, o.id)
    }

    /** Validate a request and dispatch it by type. Aborts (`!ok`) exactly when the resulting book would not
        fit the pools; otherwise the book and both event streams are what the flat book prescribes. */
    method ProcessRequest(r: Request, now: Nanos) returns (ok: bool)
      requires Valid()
      modifies Repr()
      ensures var o := Step(old(Contents()), r, now);
              && (ok <==> Fits(o.book, orderPool.store.Length, levelPool.store.Length))
              && (ok ==> Valid() && Contents() == o.book
                         && responses == old(responses) + o.responses && updates == old(updates) + o.updates)
    {
      ok := true;
      if Malformed(r) {
        SendResponse(Reject(r));
        assert updates + [] == updates;
        RoomIsFit(Order(0, 0, LIMIT, BUY, 0, 0, 0, 0));
      } else {
        match r.typ {
          case LIMIT => ok := AddLimitOrder(r.client, r.id, r.side, r.price, r.qty, now);
          case MARKET =>
            AddMarketOrder(r.client, r.id, r.side, r.qty);
            RoomIsFit(Order(0, 0, LIMIT, BUY, 0, 0, 0, 0));
          case IOC =>
            AddIOCOrder(r.client, r.id, r.side, r.price, r.qty);
            RoomIsFit(Order(0, 0, LIMIT, BUY, 0, 0, 0, 0));
          case CANCEL =>
            CancelOrder(r.client, r.id);
            RoomIsFit(Order(0, 0, LIMIT, BUY, 0, 0, 0, 0));
          case MODIFY => ok := ModifyOrder(r.client, r.id, r.price, r.qty, now);
        }
      }
    }
  }

  /** The best key of a price map after `from`, in the order the map keeps its keys. */
  method NextLevel(lv: map<Price, nat>, from: Option<Price>, buy: bool) returns (r: Option<Price>)
    ensures r.Some? ==> r.value in lv && Beyond(buy, from, r.value)
                        && forall p :: p in lv && Beyond(buy, from, p) ==> AtLeastAsGood(buy, r.value, p)
    ensures r.None? ==> forall p :: p in lv ==> !Beyond(buy, from, p)
  {
    var todo := lv.Keys;
    r := None;
    while todo != {}
      invariant todo <= lv.Keys
      invariant r.Some? ==> r.value in lv && Beyond(buy, from, r.value)
      invariant forall p :: p in lv && p !in todo && Beyond(buy, from, p) ==> r.Some? && AtLeastAsGood(buy, r.value, p)
      decreases todo
    {
      var p :| p in todo;
      todo := todo - {p};
      if Beyond(buy, from, p) && (r.None? || AtLeastAsGood(buy, p, r.value)) {
        r := Some(p);
      }
    }
  }
}
