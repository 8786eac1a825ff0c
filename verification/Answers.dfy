/** What each request is answered with, field by field, and what it leaves behind: stated from the book before the
    request by a plain allocation over the side it faces, with every condition written out. */
module Answers {
  import opened Types
  import opened Book
  import opened Matching
  import opened Invariant
  import opened Conservation

  // ---------------------------------------------------------------- who is in the book

  ghost predicate Held(b: Book, e: Order) {
    e in b.bids || e in b.asks
  }

  ghost predicate Known(b: Book, id: OrderId) {
    exists e :: Held(b, e) && e.id == id
  }

  ghost predicate Theirs(b: Book, client: ClientId, id: OrderId) {
    exists e :: Held(b, e) && e.id == id && e.client == client
  }

  lemma {:induction false} FindHeld(b: Book, id: OrderId, e: Order)
    requires BookOK(b)
    ensures Find(b, id).Some? ==> Held(b, Find(b, id).value) && Find(b, id).value.id == id
    ensures Held(b, e) && e.id == id ==> Find(b, id) == Some(e)
  {
    if e in b.bids && e.id == id {
      var i :| 0 <= i < |b.bids| && b.bids[i] == e;
    } else if e in b.asks && e.id == id {
      var i :| 0 <= i < |b.asks| && b.asks[i] == e;
    }
  }

  lemma {:induction false} FindKnown(b: Book, client: ClientId, id: OrderId)
    requires BookOK(b)
    ensures Known(b, id) <==> Find(b, id).Some?
    ensures Theirs(b, client, id) <==> Owns(b, client, id)
  {
    if Known(b, id) {
      var e :| Held(b, e) && e.id == id;
      FindHeld(b, id, e);
    }
    if Theirs(b, client, id) {
      var e :| Held(b, e) && e.id == id && e.client == client;
      FindHeld(b, id, e);
    }
    if Find(b, id).Some? { FindHeld(b, id, Find(b, id).value); }
  }

  /** The list without order `id`. */
  function Others(q: seq<Order>, id: OrderId): seq<Order> {
    if q == [] then [] else (if q[0].id == id then [] else [q[0]]) + Others(q[1..], id)
  }

  /** The list with order `id` set to a new size. */
  function Sized(q: seq<Order>, id: OrderId, qty: Qty): seq<Order> {
    if q == [] then []
    else [if q[0].id == id then q[0].(qty := qty, originalQty := qty) else q[0]] + Sized(q[1..], id, qty)
  }

  lemma {:induction false} NoneToEdit(q: seq<Order>, id: OrderId, qty: Qty)
    requires !Has(q, id)
    ensures Others(q, id) == q && Sized(q, id, qty) == q
  {
    if q != [] {
      assert !Has(q[1..], id);
      NoneToEdit(q[1..], id, qty);
      assert q == [q[0]] + q[1..];
    }
  }

  lemma {:induction false} EditsAgree(q: seq<Order>, id: OrderId, qty: Qty)
    requires DistinctIds(q)
    ensures Remove(q, id) == Others(q, id) && Resize(q, id, qty) == Sized(q, id, qty)
  {
    if q != [] {
      if q[0].id == id {
        NoneToEdit(q[1..], id, qty);
        assert RemoveAt(q, 0) == q[1..];
        assert q[0 := q[0].(qty := qty, originalQty := qty)] == [q[0].(qty := qty, originalQty := qty)] + q[1..];
      } else {
        EditsAgree(q[1..], id, qty);
        EditsBehind(q, id, qty);
      }
    }
  }

  lemma {:induction false} EditsBehind(q: seq<Order>, id: OrderId, qty: Qty)
    requires q != [] && q[0].id != id
    ensures Remove(q, id) == [q[0]] + Remove(q[1..], id) && Resize(q, id, qty) == [q[0]] + Resize(q[1..], id, qty)
  {
    var k := IndexOf(q[1..], id);
    assert IndexOf(q, id) == k + 1;
    assert q == [q[0]] + q[1..];
    if k < |q[1..]| { assert RemoveAt(q, k + 1) == [q[0]] + RemoveAt(q[1..], k); }
  }

  function Lacking(b: Book, id: OrderId): Book {
    Book(b.symbol, Others(b.bids, id), Others(b.asks, id))
  }

  function WithSize(b: Book, id: OrderId, qty: Qty): Book {
    Book(b.symbol, Sized(b.bids, id, qty), Sized(b.asks, id, qty))
  }

  lemma {:induction false} BookEdits(b: Book, id: OrderId, qty: Qty)
    requires BookOK(b)
    ensures RemoveFrom(b, id) == Lacking(b, id)
    ensures b.(bids := Resize(b.bids, id, qty), asks := Resize(b.asks, id, qty)) == WithSize(b, id, qty)
  {
    EditsAgree(b.bids, id, qty);
    EditsAgree(b.asks, id, qty);
  }

  // ---------------------------------------------------------------- the allocation

  /** What a request asks of the side it faces; a market order takes any price. */
  datatype Terms = Terms(anyPrice: bool, client: ClientId, id: OrderId, side: Side, price: Price, qty: Qty)

  function Across(b: Book, side: Side): seq<Order> {
    if side.BUY? then b.asks else b.bids
  }

  predicate Tradable(t: Terms, e: Order) {
    && e.client != t.client
    && (t.anyPrice || if t.side.BUY? then e.price <= t.price else t.price <= e.price)
  }

  /** What the tradable orders among the first `k` hold together. */
  function Supply(t: Terms, q: seq<Order>, k: nat): nat
    requires k <= |q|
  {
    if k == 0 then 0 else Supply(t, q, k - 1) + if Tradable(t, q[k - 1]) then q[k - 1].qty else 0
  }

  /** What the request still lacks when the first `k` orders have given what they can. */
  function Lack(t: Terms, q: seq<Order>, k: nat): (n: Qty)
    requires k <= |q|
    ensures n <= t.qty
  {
    if t.qty <= Supply(t, q, k) then 0 else t.qty - Supply(t, q, k)
  }

  /** What order `k` trades. */
  function Due(t: Terms, q: seq<Order>, k: nat): (n: Qty)
    requires k < |q|
    ensures n <= q[k].qty
  {
    if !Tradable(t, q[k]) then 0 else Min(q[k].qty, Lack(t, q, k))
  }

  function Survivors(t: Terms, q: seq<Order>, k: nat): seq<Order>
    requires k <= |q|
  {
    if k == 0 then []
    else Survivors(t, q, k - 1) + if Due(t, q, k - 1) == q[k - 1].qty then []
                                  else [q[k - 1].(qty := q[k - 1].qty - Due(t, q, k - 1))]
  }

  /** Both parties to every execution are told, at the resting order's price. */
  function TradeReplies(sym: Symbol, t: Terms, q: seq<Order>, k: nat): seq<Response>
    requires k <= |q|
  {
    if k == 0 then []
    else
      var e, n := q[k - 1], Due(t, q, k - 1);
      TradeReplies(sym, t, q, k - 1)
      + if n == 0 then []
        else [Response(FILLED, t.client, sym, t.id, t.id, t.side, e.price, n, Lack(t, q, k)),
              Response(FILLED, e.client, sym, e.id, e.id, e.side, e.price, n, e.qty - n)]
  }

  function TradeUpdates(sym: Symbol, t: Terms, q: seq<Order>, k: nat): seq<BookUpdate>
    requires k <= |q|
  {
    if k == 0 then []
    else
      var e, n := q[k - 1], Due(t, q, k - 1);
      TradeUpdates(sym, t, q, k - 1)
      + if n == 0 then []
        else [BookUpdate(TRADE, e.id, sym, e.side, e.price, n),
              BookUpdate(if n == e.qty then CANCEL_ORDER else MODIFY_ORDER, e.id, sym, e.side, e.price, e.qty - n)]
  }

  function Traded(b: Book, t: Terms): Book {
    var q := Across(b, t.side);
    if t.side.BUY? then Book(b.symbol, b.bids, Survivors(t, q, |q|)) else Book(b.symbol, Survivors(t, q, |q|), b.asks)
  }

  /** The book after trading, with what is lacking rested under its full original size. */
  function Entered(b: Book, t: Terms, now: Nanos): Book {
    var q := Across(b, t.side);
    if Lack(t, q, |q|) == 0 then Traded(b, t)
    else RestIn(Traded(b, t), Order(t.id, t.client, LIMIT, t.side, t.price, t.qty, Lack(t, q, |q|), now))
  }

  function Announced(b: Book, t: Terms): seq<BookUpdate> {
    var q := Across(b, t.side);
    TradeUpdates(b.symbol, t, q, |q|)
    + if Lack(t, q, |q|) == 0 then [] else [BookUpdate(ADD_ORDER, t.id, b.symbol, t.side, t.price, Lack(t, q, |q|))]
  }

  // ---------------------------------------------------------------- the walk makes this allocation

  function TakerOf(t: Terms): Taker {
    Taker(t.client, t.id, t.side, t.price, !t.anyPrice)
  }

  lemma {:induction false} SameShares(t: Terms, q: seq<Order>, k: nat)
    requires k <= |q|
    ensures Supply(t, q, k) == Ahead(TakerOf(t), q, k) && Lack(t, q, k) == Remaining(TakerOf(t), q, t.qty, k)
    ensures k < |q| ==> Due(t, q, k) == Share(TakerOf(t), q, t.qty, k)
  {
    if k > 0 { SameShares(t, q, k - 1); }
  }

  lemma {:induction false} SameSurvivors(t: Terms, q: seq<Order>, k: nat)
    requires k <= |q| && LiveQty(q)
    ensures Survivors(t, q, k) == Residue(TakerOf(t), q, t.qty, k)
  {
    if k > 0 {
      SameSurvivors(t, q, k - 1);
      SameShares(t, q, k - 1);
    }
  }

  lemma {:induction false} SameFill(sym: Symbol, t: Terms, q: seq<Order>, k: nat)
    requires 0 < k <= |q|
    ensures var tk := TakerOf(t);
            var e, n := q[k - 1], Due(t, q, k - 1);
            var f := Fill(Served(tk, q, t.qty, k - 1), n, Remaining(tk, q, t.qty, k));
            && n == Share(tk, q, t.qty, k - 1)
            && FillResponses(sym, tk, f)
               == [Response(FILLED, t.client, sym, t.id, t.id, t.side, e.price, n, Lack(t, q, k)),
                   Response(FILLED, e.client, sym, e.id, e.id, e.side, e.price, n, e.qty - n)]
            && FillUpdates(sym, f)
               == [BookUpdate(TRADE, e.id, sym, e.side, e.price, n),
                   BookUpdate(if n == e.qty then CANCEL_ORDER else MODIFY_ORDER, e.id, sym, e.side, e.price, e.qty - n)]
  {
    SameShares(t, q, k - 1);
    SameShares(t, q, k);
  }

  lemma {:induction false} SameEvents(sym: Symbol, t: Terms, q: seq<Order>, k: nat)
    requires k <= |q|
    ensures TradeReplies(sym, t, q, k) == AllFillResponses(sym, TakerOf(t), Executions(TakerOf(t), q, t.qty, k))
    ensures TradeUpdates(sym, t, q, k) == AllFillUpdates(sym, Executions(TakerOf(t), q, t.qty, k))
  {
    if k > 0 {
      var tk, n := TakerOf(t), Due(t, q, k - 1);
      var f := Fill(Served(tk, q, t.qty, k - 1), n, Remaining(tk, q, t.qty, k));
      SameEvents(sym, t, q, k - 1);
      SameFill(sym, t, q, k);
      FillEventsConcat(sym, tk, Executions(tk, q, t.qty, k - 1), if n == 0 then [] else [f]);
      FillEventsOfOne(sym, tk, f);
    }
  }

  lemma {:induction false} MatchAllocates(b: Book, t: Terms)
    requires BookOK(b)
    ensures var q := Across(b, t.side);
            Match(b, TakerOf(t), t.qty)
            == (Outcome(Traded(b, t), TradeReplies(b.symbol, t, q, |q|), TradeUpdates(b.symbol, t, q, |q|)),
                Lack(t, q, |q|))
  {
    var q := Across(b, t.side);
    SweepIsAllocation(TakerOf(t), q, t.qty);
    SameShares(t, q, |q|);
    SameSurvivors(t, q, |q|);
    SameEvents(b.symbol, t, q, |q|);
  }

  lemma {:induction false} EntryAllocates(b: Book, t: Terms, now: Nanos)
    requires BookOK(b) && !t.anyPrice
    ensures var q := Across(b, t.side);
            MatchAndRest(b, TakerOf(t), LIMIT, t.qty, now)
            == Outcome(Entered(b, t, now), TradeReplies(b.symbol, t, q, |q|), Announced(b, t))
  {
    var q := Across(b, t.side);
    MatchAllocates(b, t);
    var us := TradeUpdates(b.symbol, t, q, |q|);
    assert us + [] == us;
  }

  // ---------------------------------------------------------------- new orders

  /** A limit order under a fresh id is accepted, trades, and rests what it lacks under its full original size. */
  lemma {:induction false} LimitAnswered(b: Book, r: Request, now: Nanos)
    requires BookOK(b) && r.typ.LIMIT? && 0 < r.qty < INVALID_QTY && 0 < r.price && !Known(b, r.id)
    ensures var t, q := Terms(false, r.client, r.id, r.side, r.price, r.qty), Across(b, r.side);
            Step(b, r, now)
            == Outcome(Entered(b, t, now),
                       [Response(ACCEPTED, r.client, b.symbol, r.id, r.id, r.side, r.price, 0, r.qty)]
                       + TradeReplies(b.symbol, t, q, |q|),
                       Announced(b, t))
  {
    FindKnown(b, r.client, r.id);
    EntryAllocates(b, Terms(false, r.client, r.id, r.side, r.price, r.qty), now);
  }

  /** What a market or immediate-or-cancel order could not trade is cancelled: it reports what was executed and what
      was not, and the order never rests. */
  function Transient(b: Book, t: Terms): Outcome {
    var q := Across(b, t.side);
    Unrested(b.symbol, t, Traded(b, t), TradeReplies(b.symbol, t, q, |q|), TradeUpdates(b.symbol, t, q, |q|),
             Lack(t, q, |q|))
  }

  /** The answer of an order that traded with replies `rs` and updates `us` and lacks `left`. */
  function Unrested(sym: Symbol, t: Terms, c: Book, rs: seq<Response>, us: seq<BookUpdate>, left: Qty): Outcome
    requires left <= t.qty
  {
    Outcome(c,
            [Response(ACCEPTED, t.client, sym, t.id, t.id, t.side, t.price, 0, t.qty)]
            + (rs + if left == 0 then []
                    else [Response(CANCELED, t.client, sym, t.id, t.id, t.side, t.price, t.qty - left, left)]),
            us)
  }

  lemma {:induction false} TransientAllocates(b: Book, t: Terms)
    requires BookOK(b) && Find(b, t.id).None?
    ensures AddTransient(b, TakerOf(t), t.price, t.qty) == Transient(b, t)
  {
    var q := Across(b, t.side);
    MatchAllocates(b, t);
    TransientParts(b, t, Traded(b, t), TradeReplies(b.symbol, t, q, |q|), TradeUpdates(b.symbol, t, q, |q|),
                   Lack(t, q, |q|));
  }

  lemma {:induction false} TransientParts(b: Book, t: Terms, c: Book, rs: seq<Response>, us: seq<BookUpdate>, left: Qty)
    requires Find(b, t.id).None? && left <= t.qty && Match(b, TakerOf(t), t.qty) == (Outcome(c, rs, us), left)
    ensures AddTransient(b, TakerOf(t), t.price, t.qty) == Unrested(b.symbol, t, c, rs, us, left)
  {
    assert rs + [] == rs;
  }

  lemma {:induction false} IocAnswered(b: Book, r: Request, now: Nanos)
    requires BookOK(b) && r.typ.IOC? && 0 < r.qty < INVALID_QTY && 0 < r.price && !Known(b, r.id)
    ensures Step(b, r, now) == Transient(b, Terms(false, r.client, r.id, r.side, r.price, r.qty))
  {
    FindKnown(b, r.client, r.id);
    TransientAllocates(b, Terms(false, r.client, r.id, r.side, r.price, r.qty));
  }

  lemma {:induction false} MarketAnswered(b: Book, r: Request, now: Nanos)
    requires BookOK(b) && r.typ.MARKET? && 0 < r.qty < INVALID_QTY && !Known(b, r.id)
    ensures Step(b, r, now) == Transient(b, Terms(true, r.client, r.id, r.side, INVALID_PRICE, r.qty))
  {
    FindKnown(b, r.client, r.id);
    TransientAllocates(b, Terms(true, r.client, r.id, r.side, INVALID_PRICE, r.qty));
  }

  // ---------------------------------------------------------------- cancel

  /** A cancel is answered CANCELED if and only if an order with that id and that client rests. The answer then carries
      that order's side and price, the order is gone and every other one stays where it is. Otherwise nothing
      changes. */
  lemma {:induction false} CancelAnswered(b: Book, r: Request, now: Nanos)
    requires BookOK(b) && r.typ.CANCEL?
    ensures var o := Step(b, r, now);
            && |o.responses| == 1 && (o.responses[0].status.CANCELED? <==> Theirs(b, r.client, r.id))
            && (!Theirs(b, r.client, r.id)
                ==> o == Outcome(b, [Response(CANCEL_REJECTED, r.client, b.symbol, r.id, INVALID_ORDER_ID, Side.INVALID,
                                              INVALID_PRICE, INVALID_QTY, INVALID_QTY)], []))
            && forall e :: Held(b, e) && e.id == r.id && e.client == r.client
                 ==> o == Outcome(Lacking(b, r.id),
                                  [Response(CANCELED, r.client, b.symbol, r.id, r.id, e.side, e.price, 0, 0)],
                                  [BookUpdate(CANCEL_ORDER, r.id, b.symbol, e.side, e.price, e.qty)])
    ensures Theirs(b, r.client, r.id) ==> !Known(Step(b, r, now).book, r.id)
  {
    FindKnown(b, r.client, r.id);
    BookEdits(b, r.id, 0);
    forall e | Held(b, e) && e.id == r.id ensures Find(b, r.id) == Some(e) { FindHeld(b, r.id, e); }
    if Theirs(b, r.client, r.id) {
      RemoveOK(b, r.id);
      FindKnown(RemoveFrom(b, r.id), r.client, r.id);
    }
  }

  // ---------------------------------------------------------------- modify

  /** A well-formed modify is answered MODIFIED, and that first, if and only if an order with that id and that client
      rests. Otherwise nothing changes. */
  lemma {:induction false} ModifyAnsweredWhen(b: Book, r: Request, now: Nanos)
    requires BookOK(b) && r.typ.MODIFY? && 0 < r.qty < INVALID_QTY && 0 < r.price
    ensures var o := Step(b, r, now);
            && o.responses != [] && (o.responses[0].status.MODIFIED? <==> Theirs(b, r.client, r.id))
            && (!Theirs(b, r.client, r.id)
                ==> o == Outcome(b, [Response(MODIFY_REJECTED, r.client, b.symbol, r.id, INVALID_ORDER_ID, Side.INVALID,
                                              INVALID_PRICE, INVALID_QTY, INVALID_QTY)], []))
  {
    FindKnown(b, r.client, r.id);
  }

  /** What a modify of order `e` does: nothing when nothing is asked for, a new size in place when it shrinks, a new
      place at the back when it grows, and a fresh entry at the new price when it is re-priced. */
  lemma {:induction false} ModifyAnswered(b: Book, r: Request, now: Nanos, e: Order)
    requires BookOK(b) && r.typ.MODIFY? && 0 < r.qty < INVALID_QTY && 0 < r.price
    requires Held(b, e) && e.id == r.id && e.client == r.client
    ensures var o := Step(b, r, now);
            var done := Response(MODIFIED, r.client, b.symbol, r.id, r.id, e.side, r.price, 0, r.qty);
            var resized := BookUpdate(MODIFY_ORDER, r.id, b.symbol, e.side, r.price, r.qty);
            && (r.price == e.price && r.qty == e.qty ==> o == Outcome(b, [done], []))
            && (r.price == e.price && r.qty < e.qty
                ==> o == Outcome(WithSize(b, r.id, r.qty), [done], [resized]))
            && (r.price == e.price && r.qty > e.qty
                ==> o == Outcome(RestIn(Lacking(b, r.id),
                                        Order(r.id, r.client, LIMIT, e.side, r.price, r.qty, r.qty, now)),
                                 [done], [resized]))
            && (r.price != e.price
                ==> var t, left := Terms(false, r.client, r.id, e.side, r.price, r.qty), Lacking(b, r.id);
                    var q := Across(left, e.side);
                    o == Outcome(Entered(left, t, now), [done] + TradeReplies(b.symbol, t, q, |q|), Announced(left, t)))
  {
    FindHeld(b, r.id, e);
    FoundOK(b, r.id);
    BookEdits(b, r.id, r.qty);
    if r.price != e.price { RepriceAnswered(b, r, now, e); }
  }

  lemma {:induction false} RepriceAnswered(b: Book, r: Request, now: Nanos, e: Order)
    requires BookOK(b) && r.typ.MODIFY? && 0 < r.qty < INVALID_QTY && 0 < r.price
    requires Find(b, r.id) == Some(e) && e.client == r.client && e.typ.LIMIT? && r.price != e.price
    ensures var done := Response(MODIFIED, r.client, b.symbol, r.id, r.id, e.side, r.price, 0, r.qty);
            var t, left := Terms(false, r.client, r.id, e.side, r.price, r.qty), Lacking(b, r.id);
            var q := Across(left, e.side);
            Step(b, r, now)
            == Outcome(Entered(left, t, now), [done] + TradeReplies(b.symbol, t, q, |q|), Announced(left, t))
  {
    RepriceEnters(b, r, now, e);
    EntryAllocates(Lacking(b, r.id), Terms(false, r.client, r.id, e.side, r.price, r.qty), now);
  }

  lemma {:induction false} RepriceEnters(b: Book, r: Request, now: Nanos, e: Order)
    requires BookOK(b) && r.typ.MODIFY? && 0 < r.qty < INVALID_QTY && 0 < r.price
    requires Find(b, r.id) == Some(e) && e.client == r.client && e.typ.LIMIT? && r.price != e.price
    ensures BookOK(Lacking(b, r.id))
    ensures Step(b, r, now)
         == WithHeader(Response(MODIFIED, r.client, b.symbol, r.id, r.id, e.side, r.price, 0, r.qty),
                       MatchAndRest(Lacking(b, r.id), Taker(r.client, r.id, e.side, r.price, true), LIMIT, r.qty, now))
  {
    BookEdits(b, r.id, r.qty);
    RemoveOK(b, r.id);
    RepriceStep(b, r, now, e);
  }

  lemma {:induction false} RepriceStep(b: Book, r: Request, now: Nanos, e: Order)
    requires r.typ.MODIFY? && 0 < r.qty < INVALID_QTY && 0 < r.price
    requires Find(b, r.id) == Some(e) && e.client == r.client && r.price != e.price
    ensures Step(b, r, now)
         == WithHeader(Response(MODIFIED, r.client, b.symbol, r.id, r.id, e.side, r.price, 0, r.qty),
                       MatchAndRest(RemoveFrom(b, r.id), Taker(r.client, r.id, e.side, r.price, true), e.typ, r.qty,
                                    now))
  {
  }

  // ---------------------------------------------------------------- every accepted answer has one shape

  /** The terms request `r` trades on and the orders it faces (none when it does not trade), and what it is told and
      announces besides. */
  datatype Shape = Shape(terms: Terms, faced: seq<Order>, last: seq<Response>, more: seq<BookUpdate>)

  ghost predicate Fits(b: Book, r: Request, o: Outcome, s: Shape) {
    && s.terms.client == r.client && s.terms.id == r.id && (!r.typ.MODIFY? ==> s.terms.side == r.side)
    && (forall e :: e in s.faced ==> e in Across(b, s.terms.side))
    && o.responses != [] && !o.responses[0].status.FILLED? && !o.responses[0].status.REJECTED?
    && o.responses == [o.responses[0]] + (TradeReplies(b.symbol, s.terms, s.faced, |s.faced|) + s.last)
    && o.updates == TradeUpdates(b.symbol, s.terms, s.faced, |s.faced|) + s.more
    && |s.last| <= 1 && (s.last != [] ==> s.last[0].status.CANCELED?)
    && |s.more| <= 1 && (s.more != [] ==> !s.more[0].typ.TRADE?)
  }

  lemma {:induction false} TransientFits(b: Book, r: Request, t: Terms) returns (s: Shape)
    requires t.client == r.client && t.id == r.id && t.side == r.side
    ensures Fits(b, r, Transient(b, t), s)
  {
    var q := Across(b, t.side);
    var left := Lack(t, q, |q|);
    var us := TradeUpdates(b.symbol, t, q, |q|);
    assert us + [] == us;
    var canceled := Response(CANCELED, t.client, b.symbol, t.id, t.id, t.side, t.price, t.qty - left, left);
    s := Shape(t, q, if left == 0 then [] else [canceled], []);
  }

  lemma {:induction false} EntryFits(b: Book, r: Request, c: Book, t: Terms, now: Nanos, header: Response)
    returns (s: Shape)
    requires t.client == r.client && t.id == r.id && (!r.typ.MODIFY? ==> t.side == r.side) && c.symbol == b.symbol
    requires forall e :: e in Across(c, t.side) ==> e in Across(b, t.side)
    requires !header.status.FILLED? && !header.status.REJECTED?
    ensures var q := Across(c, t.side);
            Fits(b, r, Outcome(Entered(c, t, now), [header] + TradeReplies(b.symbol, t, q, |q|), Announced(c, t)), s)
  {
    var q := Across(c, t.side);
    var rs, left := TradeReplies(b.symbol, t, q, |q|), Lack(t, q, |q|);
    assert rs + [] == rs;
    s := Shape(t, q, [], if left == 0 then [] else [BookUpdate(ADD_ORDER, t.id, b.symbol, t.side, t.price, left)]);
  }

  lemma {:induction false} QuietFits(b: Book, r: Request, o: Outcome) returns (s: Shape)
    requires |o.responses| == 1 && !o.responses[0].status.FILLED? && !o.responses[0].status.REJECTED?
    requires |o.updates| <= 1 && (o.updates != [] ==> !o.updates[0].typ.TRADE?)
    ensures Fits(b, r, o, s)
  {
    assert [] + o.updates == o.updates;
    s := Shape(Terms(false, r.client, r.id, r.side, 0, 0), [], [], o.updates);
  }

  lemma {:induction false} OthersHeld(q: seq<Order>, id: OrderId, e: Order)
    ensures e in Others(q, id) ==> e in q
  {
    if q != [] { OthersHeld(q[1..], id, e); }
  }

  lemma {:induction false} ModifyFits(b: Book, r: Request, now: Nanos) returns (s: Shape)
    requires BookOK(b) && r.typ.MODIFY? && !IllFormed(r)
    ensures Fits(b, r, Step(b, r, now), s)
  {
    ModifyAnsweredWhen(b, r, now);
    if Theirs(b, r.client, r.id) {
      var e :| Held(b, e) && e.id == r.id && e.client == r.client;
      ModifyAnswered(b, r, now, e);
      if r.price != e.price {
        var c := Lacking(b, r.id);
        forall f | f in Across(c, e.side) ensures f in Across(b, e.side) { OthersHeld(Across(b, e.side), r.id, f); }
        s := EntryFits(b, r, c, Terms(false, r.client, r.id, e.side, r.price, r.qty), now,
                       Response(MODIFIED, r.client, b.symbol, r.id, r.id, e.side, r.price, 0, r.qty));
      } else {
        s := QuietFits(b, r, Step(b, r, now));
      }
    } else {
      s := QuietFits(b, r, Step(b, r, now));
    }
  }

  lemma {:induction false} AcceptedFits(b: Book, r: Request, now: Nanos) returns (s: Shape)
    requires BookOK(b) && !IllFormed(r) && !Duplicate(b, r)
    ensures Fits(b, r, Step(b, r, now), s)
  {
    match r.typ
    case LIMIT =>
      LimitAnswered(b, r, now);
      s := EntryFits(b, r, b, Terms(false, r.client, r.id, r.side, r.price, r.qty), now,
                     Response(ACCEPTED, r.client, b.symbol, r.id, r.id, r.side, r.price, 0, r.qty));
    case MARKET =>
      MarketAnswered(b, r, now);
      s := TransientFits(b, r, Terms(true, r.client, r.id, r.side, INVALID_PRICE, r.qty));
    case IOC =>
      IocAnswered(b, r, now);
      s := TransientFits(b, r, Terms(false, r.client, r.id, r.side, r.price, r.qty));
    case CANCEL =>
      CancelAnswered(b, r, now);
      if Theirs(b, r.client, r.id) { var e :| Held(b, e) && e.id == r.id && e.client == r.client; }
      s := QuietFits(b, r, Step(b, r, now));
    case MODIFY => s := ModifyFits(b, r, now);
  }

  lemma {:induction false} TradesFilled(sym: Symbol, t: Terms, q: seq<Order>, k: nat)
    requires k <= |q|
    ensures forall i :: 0 <= i < |TradeReplies(sym, t, q, k)| ==> TradeReplies(sym, t, q, k)[i].status.FILLED?
  {
    if k > 0 { TradesFilled(sym, t, q, k - 1); }
  }

  // ---------------------------------------------------------------- which requests are refused

  ghost predicate IllFormed(r: Request) {
    || r.typ.INVALID_TYPE?
    || ((r.typ.LIMIT? || r.typ.MARKET? || r.typ.IOC? || r.typ.MODIFY?) && (r.qty == 0 || r.qty == INVALID_QTY))
    || ((r.typ.LIMIT? || r.typ.IOC? || r.typ.MODIFY?) && r.price <= 0)
  }

  ghost predicate Duplicate(b: Book, r: Request) {
    (r.typ.LIMIT? || r.typ.MARKET? || r.typ.IOC?) && Known(b, r.id)
  }

  /** A request is answered by a REJECTED, and then by nothing else and without any effect, if and only if it is ill
      formed or a new order under an id that rests already. A cancel never is, whatever its price and size. */
  lemma {:induction false} RefusedWhen(b: Book, r: Request, now: Nanos)
    requires BookOK(b)
    ensures Refused(Step(b, r, now)) <==> IllFormed(r) || Duplicate(b, r)
    ensures IllFormed(r)
            ==> Step(b, r, now) == Outcome(b, [Response(REJECTED, r.client, r.symbol, r.id, INVALID_ORDER_ID, r.side,
                                                        r.price, 0, r.qty)], [])
    ensures !IllFormed(r) && Duplicate(b, r)
            ==> Step(b, r, now)
                == Outcome(b, [Response(REJECTED, r.client, b.symbol, r.id, INVALID_ORDER_ID, r.side,
                                        if r.typ.MARKET? then INVALID_PRICE else r.price, 0, r.qty)], [])
    ensures r.typ.CANCEL? ==> !Refused(Step(b, r, now))
  {
    if IllFormed(r) {
      assert Step(b, r, now).responses[0].status.REJECTED?;
    } else if Duplicate(b, r) {
      DuplicateRefused(b, r, now);
    } else {
      AcceptedNotRefused(b, r, now);
    }
  }

  /** Some response to the request is a REJECTED. */
  ghost predicate Refused(o: Outcome) {
    exists i :: 0 <= i < |o.responses| && o.responses[i].status.REJECTED?
  }

  lemma {:induction false} DuplicateRefused(b: Book, r: Request, now: Nanos)
    requires BookOK(b) && !IllFormed(r) && Duplicate(b, r)
    ensures Refused(Step(b, r, now))
    ensures Step(b, r, now) == Outcome(b, [Response(REJECTED, r.client, b.symbol, r.id, INVALID_ORDER_ID, r.side,
                                                    if r.typ.MARKET? then INVALID_PRICE else r.price, 0, r.qty)], [])
  {
    FindKnown(b, r.client, r.id);
    assert Step(b, r, now).responses[0].status.REJECTED?;
  }

  lemma {:induction false} AcceptedNotRefused(b: Book, r: Request, now: Nanos)
    requires BookOK(b) && !IllFormed(r) && !Duplicate(b, r)
    ensures !Refused(Step(b, r, now))
  {
    var s := AcceptedFits(b, r, now);
    TradesFilled(b.symbol, s.terms, s.faced, |s.faced|);
    ShapeNotRefused(Step(b, r, now).responses, TradeReplies(b.symbol, s.terms, s.faced, |s.faced|), s.last);
  }

  lemma {:induction false} ShapeNotRefused(rs: seq<Response>, trades: seq<Response>, last: seq<Response>)
    requires rs != [] && !rs[0].status.REJECTED? && rs == [rs[0]] + (trades + last)
    requires forall i :: 0 <= i < |trades| ==> trades[i].status.FILLED?
    requires |last| <= 1 && (last != [] ==> last[0].status.CANCELED?)
    ensures forall i :: 0 <= i < |rs| ==> !rs[i].status.REJECTED?
  {
    forall i | 0 <= i < |rs| ensures !rs[i].status.REJECTED? {
      if 0 < i <= |trades| { assert rs[i] == trades[i - 1]; }
      if i > |trades| && i > 0 { assert rs[i] == last[i - 1 - |trades|]; }
    }
  }

  // ---------------------------------------------------------------- how executions are reported

  /** Order `e` gives up `a.execQty` to request `r`: both parties are told, and the trade and what is left of `e` are
      announced, all at the price `e` rested at. */
  ghost predicate Reported(b: Book, r: Request, e: Order, a: Response, m: Response, u: BookUpdate, v: BookUpdate) {
    && e.client != r.client && 0 < a.execQty <= e.qty
    && a == Response(FILLED, r.client, b.symbol, r.id, r.id, a.side, e.price, a.execQty, a.leaves)
    && m == Response(FILLED, e.client, b.symbol, e.id, e.id, e.side, e.price, a.execQty, e.qty - a.execQty)
    && u == BookUpdate(TRADE, e.id, b.symbol, e.side, e.price, a.execQty)
    && v == BookUpdate(if a.execQty == e.qty then CANCEL_ORDER else MODIFY_ORDER, e.id, b.symbol, e.side, e.price,
                       e.qty - a.execQty)
  }

  lemma {:induction false} TradeAt(b: Book, r: Request, t: Terms, q: seq<Order>, k: nat, j: nat) returns (i: nat)
    requires k <= |q| && 2 * j < |TradeReplies(b.symbol, t, q, k)| && t.client == r.client && t.id == r.id
    ensures |TradeUpdates(b.symbol, t, q, k)| == |TradeReplies(b.symbol, t, q, k)|
    ensures i < k && 2 * j + 1 < |TradeReplies(b.symbol, t, q, k)|
    ensures var rs, us := TradeReplies(b.symbol, t, q, k), TradeUpdates(b.symbol, t, q, k);
            rs[2 * j].side == t.side && Reported(b, r, q[i], rs[2 * j], rs[2 * j + 1], us[2 * j], us[2 * j + 1])
  {
    EventsEven(b.symbol, t, q, k - 1);
    if 2 * j < |TradeReplies(b.symbol, t, q, k - 1)| {
      i := TradeAt(b, r, t, q, k - 1, j);
    } else {
      i := k - 1;
    }
  }

  lemma {:induction false} EventsEven(sym: Symbol, t: Terms, q: seq<Order>, k: nat)
    requires k <= |q|
    ensures |TradeUpdates(sym, t, q, k)| == |TradeReplies(sym, t, q, k)| && |TradeReplies(sym, t, q, k)| % 2 == 0
  {
    if k > 0 { EventsEven(sym, t, q, k - 1); }
  }

  /** The `j`-th execution among the events is with `e`, which rested across from the request before it came. */
  ghost predicate ReportedAt(b: Book, r: Request, o: Outcome, j: nat, e: Order) {
    && 2 * j + 2 < |o.responses| && 2 * j + 1 < |o.updates| && e in Across(b, o.responses[2 * j + 1].side)
    && Reported(b, r, e, o.responses[2 * j + 1], o.responses[2 * j + 2], o.updates[2 * j], o.updates[2 * j + 1])
  }

  /** The `j`-th execution a request reports is with an order that rested across from it before the request, and all
      four events carry that order's own price. */
  lemma {:induction false} ExecutionReported(b: Book, r: Request, now: Nanos, j: nat)
    requires BookOK(b) && 2 * j + 1 < |Step(b, r, now).responses|
    requires Step(b, r, now).responses[2 * j + 1].status.FILLED?
    ensures var o := Step(b, r, now);
            && 2 * j + 2 < |o.responses| && 2 * j + 1 < |o.updates|
            && (!r.typ.MODIFY? ==> o.responses[2 * j + 1].side == r.side)
            && exists e :: ReportedAt(b, r, o, j, e)
  {
    var o := Step(b, r, now);
    RefusedWhen(b, r, now);
    var s := AcceptedFits(b, r, now);
    ReportedIn(b, r, o, s, j);
  }

  lemma {:induction false} ReportedIn(b: Book, r: Request, o: Outcome, s: Shape, j: nat)
    requires Fits(b, r, o, s) && 2 * j + 1 < |o.responses| && o.responses[2 * j + 1].status.FILLED?
    ensures 2 * j + 2 < |o.responses| && 2 * j + 1 < |o.updates|
    ensures !r.typ.MODIFY? ==> o.responses[2 * j + 1].side == r.side
    ensures exists e :: ReportedAt(b, r, o, j, e)
  {
    var t, q := s.terms, s.faced;
    var rs, us := TradeReplies(b.symbol, t, q, |q|), TradeUpdates(b.symbol, t, q, |q|);
    EventsEven(b.symbol, t, q, |q|);
    assert 2 * j < |rs|;
    var i := TradeAt(b, r, t, q, |q|, j);
    assert q[i] in q;
    assert o.responses[2 * j + 1] == rs[2 * j] && o.responses[2 * j + 2] == rs[2 * j + 1];
    assert o.updates[2 * j] == us[2 * j] && o.updates[2 * j + 1] == us[2 * j + 1];
    assert ReportedAt(b, r, o, j, q[i]);
  }

  // ---------------------------------------------------------------- how much a market order trades

  /** What other clients' orders hold together, at whatever price. */
  function HeldByOthers(q: seq<Order>, client: ClientId): nat {
    if q == [] then 0 else (if q[0].client == client then 0 else q[0].qty) + HeldByOthers(q[1..], client)
  }

  lemma {:induction false} HeldSnoc(q: seq<Order>, e: Order, client: ClientId)
    ensures HeldByOthers(q + [e], client) == HeldByOthers(q, client) + if e.client == client then 0 else e.qty
  {
    if q == [] {
      assert q + [e] == [e] && [e][1..] == [];
    } else {
      HeldSnoc(q[1..], e, client);
      assert (q + [e])[1..] == q[1..] + [e];
    }
  }

  lemma {:induction false} AnyPriceSupply(t: Terms, q: seq<Order>, k: nat)
    requires t.anyPrice && k <= |q|
    ensures Supply(t, q, k) == HeldByOthers(q[..k], t.client)
  {
    if k > 0 {
      AnyPriceSupply(t, q, k - 1);
      HeldSnoc(q[..k - 1], q[k - 1], t.client);
      assert q[..k] == q[..k - 1] + [q[k - 1]];
    }
  }

  lemma {:induction false} TradedQty(sym: Symbol, t: Terms, q: seq<Order>, k: nat)
    requires k <= |q|
    ensures SumQty(TradeUpdates(sym, t, q, k), TRADE) == Min(t.qty, Supply(t, q, k))
  {
    if k > 0 {
      TradedQty(sym, t, q, k - 1);
      var e, n := q[k - 1], Due(t, q, k - 1);
      var trade := BookUpdate(TRADE, e.id, sym, e.side, e.price, n);
      var rest := BookUpdate(if n == e.qty then CANCEL_ORDER else MODIFY_ORDER, e.id, sym, e.side, e.price, e.qty - n);
      OneTrade(trade, rest);
      SumQtyConcat(TradeUpdates(sym, t, q, k - 1), if n == 0 then [] else [trade, rest], TRADE);
    }
  }

  lemma {:induction false} OneTrade(trade: BookUpdate, rest: BookUpdate)
    requires trade.typ.TRADE? && !rest.typ.TRADE?
    ensures SumQty([trade, rest], TRADE) == trade.qty
  {
    assert [trade, rest][1..] == [rest] && [rest][1..] == [];
    assert SumQty([rest], TRADE) == 0;
  }

  lemma {:induction false} OthersCleared(t: Terms, q: seq<Order>, k: nat, e: Order)
    requires t.anyPrice && k <= |q| && 0 < Lack(t, q, k) && e in Survivors(t, q, k)
    ensures e.client == t.client
  {
    assert Supply(t, q, k - 1) <= Supply(t, q, k);
    if e in Survivors(t, q, k - 1) { OthersCleared(t, q, k - 1, e); }
  }

  /** A market order knows no price: it trades all it asks for, or all that other clients' orders across from it hold,
      and in the latter case none of those is left. */
  lemma {:induction false} MarketFills(b: Book, r: Request, now: Nanos)
    requires BookOK(b) && r.typ.MARKET? && 0 < r.qty < INVALID_QTY && !Known(b, r.id)
    ensures var o, q := Step(b, r, now), Across(b, r.side);
            && SumQty(o.updates, TRADE) == Min(r.qty, HeldByOthers(q, r.client))
            && (r.qty > HeldByOthers(q, r.client) ==> forall e :: e in Across(o.book, r.side) ==> e.client == r.client)
  {
    var t, q := Terms(true, r.client, r.id, r.side, INVALID_PRICE, r.qty), Across(b, r.side);
    MarketAnswered(b, r, now);
    TradedQty(b.symbol, t, q, |q|);
    AnyPriceSupply(t, q, |q|);
    assert q[..|q|] == q;
    if r.qty > HeldByOthers(q, r.client) {
      forall e | e in Survivors(t, q, |q|) ensures e.client == r.client { OthersCleared(t, q, |q|, e); }
    }
  }
}
