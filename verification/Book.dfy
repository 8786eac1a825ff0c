/** The order book as a value: each side is one list of orders, best price first and oldest first
    within a price. `Step` says what every request does to it and which events it emits. */
module Book {
  import opened Types

  datatype Book = Book(symbol: Symbol, bids: seq<Order>, asks: seq<Order>)

  /** What one request does: the new book and the events sent, in order. */
  datatype Outcome = Outcome(book: Book, responses: seq<Response>, updates: seq<BookUpdate>)

  // ---------------------------------------------------------------- price order and list edits

  /** On the bid (`buy`) side a higher price is better, on the ask side a lower one. */
  predicate AtLeastAsGood(buy: bool, p: Price, q: Price) {
    if buy then p >= q else p <= q
  }

  /** The slot of the newest order at `price`: behind every order priced at least as well. */
  function InsertPos(q: seq<Order>, price: Price, buy: bool): (k: nat)
    ensures k <= |q|
    ensures forall i :: 0 <= i < k ==> AtLeastAsGood(buy, q[i].price, price)
    ensures k < |q| ==> !AtLeastAsGood(buy, q[k].price, price)
  {
    if q == [] || !AtLeastAsGood(buy, q[0].price, price) then 0
    else 1 + InsertPos(q[1..], price, buy)
  }

  function InsertAt<T>(q: seq<T>, k: nat, o: T): (r: seq<T>)
    requires k <= |q|
    ensures |r| == |q| + 1
    ensures forall i :: 0 <= i < |r| ==> r[i] == if i < k then q[i] else if i == k then o else q[i - 1]
  {
    q[..k] + [o] + q[k..]
  }

  function RemoveAt<T>(q: seq<T>, k: nat): (r: seq<T>)
    requires k < |q|
    ensures |r| == |q| - 1
    ensures forall i :: 0 <= i < |r| ==> r[i] == if i < k then q[i] else q[i + 1]
  {
    q[..k] + q[k + 1..]
  }

  function Insert(q: seq<Order>, o: Order, buy: bool): seq<Order> {
    InsertAt(q, InsertPos(q, o.price, buy), o)
  }

  /** Position of the order carrying `id`, or the length of the list when there is none. */
  function IndexOf(q: seq<Order>, id: OrderId): (k: nat)
    ensures k <= |q|
    ensures forall i :: 0 <= i < k ==> q[i].id != id
    ensures k < |q| ==> q[k].id == id
  {
    if q == [] || q[0].id == id then 0 else 1 + IndexOf(q[1..], id)
  }

  function Remove(q: seq<Order>, id: OrderId): seq<Order> {
    var k := IndexOf(q, id);
    if k < |q| then RemoveAt(q, k) else q
  }

  function Resize(q: seq<Order>, id: OrderId, qty: Qty): seq<Order> {
    var k := IndexOf(q, id);
    if k < |q| then q[k := q[k].(qty := qty, originalQty := qty)] else q
  }

  predicate Has(q: seq<Order>, id: OrderId) {
    IndexOf(q, id) < |q|
  }

  function Find(b: Book, id: OrderId): Option<Order> {
    if Has(b.bids, id) then Some(b.bids[IndexOf(b.bids, id)])
    else if Has(b.asks, id) then Some(b.asks[IndexOf(b.asks, id)])
    else None
  }

  function RestIn(b: Book, o: Order): Book {
    if o.side.BUY? then b.(bids := Insert(b.bids, o, true)) else b.(asks := Insert(b.asks, o, false))
  }

  function RemoveFrom(b: Book, id: OrderId): Book {
    b.(bids := Remove(b.bids, id), asks := Remove(b.asks, id))
  }

  // ---------------------------------------------------------------- matching

  /** The incoming order, as the matcher sees it. */
  datatype Taker = Taker(client: ClientId, id: OrderId, side: Side, limit: Price, hasLimit: bool)

  /** One execution: the resting order as the fill leaves it, the size, and what the taker has left. */
  datatype Fill = Fill(maker: Order, qty: Qty, leaves: Qty)

  datatype Swept = Swept(rest: seq<Order>, leaves: Qty, fills: seq<Fill>)

  predicate Crosses(t: Taker, price: Price) {
    t.hasLimit ==> AtLeastAsGood(!t.side.BUY?, price, t.limit)
  }

  predicate Stops(t: Taker, q: seq<Order>, leaves: Qty) {
    q == [] || leaves == 0 || !Crosses(t, q[0].price)
  }

  function Taken(t: Taker, o: Order, leaves: Qty): Qty {
    if o.client == t.client then 0 else Min(leaves, o.qty)
  }

  function Kept(t: Taker, o: Order, n: Qty): seq<Order>
    requires n <= o.qty
  {
    if o.client != t.client && n == o.qty then [] else [o.(qty := o.qty - n)]
  }

  function Executed(t: Taker, o: Order, n: Qty, leaves: Qty): seq<Fill>
    requires n <= o.qty
  {
    if o.client == t.client then [] else [Fill(o.(qty := o.qty - n), n, leaves)]
  }

  /** Walk the opposite side from the top of the book until the taker is done or the price is out of
      reach, passing over the taker's own orders. */
  function Sweep(t: Taker, q: seq<Order>, leaves: Qty): (s: Swept)
    ensures s.leaves <= leaves
  {
    if Stops(t, q, leaves) then Swept(q, leaves, [])
    else
      var n := Taken(t, q[0], leaves);
      var s := Sweep(t, q[1..], leaves - n);
      Swept(Kept(t, q[0], n) + s.rest, s.leaves, Executed(t, q[0], n, leaves - n) + s.fills)
  }

  function FillResponses(sym: Symbol, t: Taker, f: Fill): seq<Response> {
    [Response(FILLED, t.client, sym, t.id, t.id, t.side, f.maker.price, f.qty, f.leaves),
     Response(FILLED, f.maker.client, sym, f.maker.id, f.maker.id, f.maker.side, f.maker.price, f.qty, f.maker.qty)]
  }

  function FillUpdates(sym: Symbol, f: Fill): seq<BookUpdate> {
    [BookUpdate(TRADE, f.maker.id, sym, f.maker.side, f.maker.price, f.qty),
     BookUpdate(if f.maker.qty == 0 then CANCEL_ORDER else MODIFY_ORDER,
                f.maker.id, sym, f.maker.side, f.maker.price, f.maker.qty)]
  }

  function AllFillResponses(sym: Symbol, t: Taker, fills: seq<Fill>): seq<Response> {
    if fills == [] then [] else FillResponses(sym, t, fills[0]) + AllFillResponses(sym, t, fills[1..])
  }

  function AllFillUpdates(sym: Symbol, fills: seq<Fill>): seq<BookUpdate> {
    if fills == [] then [] else FillUpdates(sym, fills[0]) + AllFillUpdates(sym, fills[1..])
  }

  function Opposite(b: Book, side: Side): seq<Order> {
    if side.BUY? then b.asks else b.bids
  }

  function WithOpposite(b: Book, side: Side, q: seq<Order>): Book {
    if side.BUY? then b.(asks := q) else b.(bids := q)
  }

  /** The book and events after the matcher alone, and the taker's remaining quantity. */
  function Match(b: Book, t: Taker, qty: Qty): (r: (Outcome, Qty))
    ensures r.1 <= qty
  {
    var s := Sweep(t, Opposite(b, t.side), qty);
    (Outcome(WithOpposite(b, t.side, s.rest), AllFillResponses(b.symbol, t, s.fills),
        AllFillUpdates(b.symbol, s.fills)),
     s.leaves)
  }

  // ---------------------------------------------------------------- order entry

  function Reply(b: Book, r: Response): Outcome {
    Outcome(b, [r], [])
  }

  /** Match, then rest what is left: the shared tail of a new limit order and of a re-pricing. */
  function MatchAndRest(b: Book, t: Taker, typ: OrderType, qty: Qty, now: Nanos): Outcome {
    var (m, leaves) := Match(b, t, qty);
    if leaves == 0 then m
    else Outcome(RestIn(m.book, Order(t.id, t.client, typ, t.side, t.limit, qty, leaves, now)), m.responses,
                 m.updates + [BookUpdate(ADD_ORDER, t.id, b.symbol, t.side, t.limit, leaves)])
  }

  function WithHeader(r: Response, o: Outcome): Outcome {
    o.(responses := [r] + o.responses)
  }

  function AddLimit(b: Book, client: ClientId, id: OrderId, side: Side, price: Price, qty: Qty, now: Nanos): Outcome {
    if Find(b, id).Some? then Reply(b, Response(REJECTED, client, b.symbol, id, INVALID_ORDER_ID, side, price, 0, qty))
    else WithHeader(Response(ACCEPTED, client, b.symbol, id, id, side, price, 0, qty),
                    MatchAndRest(b, Taker(client, id, side, price, true), LIMIT, qty, now))
  }

  /** Match, then cancel what is left: market and immediate-or-cancel orders never rest. */
  function AddTransient(b: Book, t: Taker, price: Price, qty: Qty): Outcome {
    if Find(b, t.id).Some? then
      Reply(b, Response(REJECTED, t.client, b.symbol, t.id, INVALID_ORDER_ID, t.side, price, 0, qty))
    else
      var (m, leaves) := Match(b, t, qty);
      WithHeader(Response(ACCEPTED, t.client, b.symbol, t.id, t.id, t.side, price, 0, qty),
                 if leaves == 0 then m
                 else m.(responses := m.responses
                   + [Response(CANCELED, t.client, b.symbol, t.id, t.id, t.side, price, qty - leaves, leaves)]))
  }

  function AddMarket(b: Book, client: ClientId, id: OrderId, side: Side, qty: Qty): Outcome {
    AddTransient(b, Taker(client, id, side, INVALID_PRICE, false), INVALID_PRICE, qty)
  }

  function AddIoc(b: Book, client: ClientId, id: OrderId, side: Side, price: Price, qty: Qty): Outcome {
    AddTransient(b, Taker(client, id, side, price, true), price, qty)
  }

  function NotFound(b: Book, status: ResponseStatus, client: ClientId, id: OrderId): Outcome {
    Reply(b, Response(status, client, b.symbol, id, INVALID_ORDER_ID, Side.INVALID, INVALID_PRICE, INVALID_QTY,
        INVALID_QTY))
  }

  predicate Owns(b: Book, client: ClientId, id: OrderId) {
    Find(b, id).Some? && Find(b, id).value.client == client
  }

  function Cancel(b: Book, client: ClientId, id: OrderId): Outcome {
    if !Owns(b, client, id) then NotFound(b, CANCEL_REJECTED, client, id)
    else
      var o := Find(b, id).value;
      Outcome(RemoveFrom(b, id),
              [Response(CANCELED, client, b.symbol, id, id, o.side, o.price, 0, 0)],
              [BookUpdate(CANCEL_ORDER, id, b.symbol, o.side, o.price, o.qty)])
  }

  function Modify(b: Book, client: ClientId, id: OrderId, price: Price, qty: Qty, now: Nanos): Outcome {
    if !Owns(b, client, id) || qty == 0 || qty == INVALID_QTY || price <= 0 then
      NotFound(b, MODIFY_REJECTED, client, id)
    else
      var o := Find(b, id).value;
      var done := Response(MODIFIED, client, b.symbol, id, id, o.side, price, 0, qty);
      var resized := [BookUpdate(MODIFY_ORDER, id, b.symbol, o.side, price, qty)];
      if price != o.price then
        WithHeader(done, MatchAndRest(RemoveFrom(b, id), Taker(client, id, o.side, price, true), o.typ, qty, now))
      else if qty < o.qty then
        Outcome(b.(bids := Resize(b.bids, id, qty), asks := Resize(b.asks, id, qty)), [done], resized)
      else if qty > o.qty then
        Outcome(RestIn(RemoveFrom(b, id), Order(id, client, o.typ, o.side, price, qty, qty, now)), [done], resized)
      else
        Reply(b, done)
  }

  function Reject(r: Request): Response {
    Response(REJECTED, r.client, r.symbol, r.id, INVALID_ORDER_ID, r.side, r.price, 0, r.qty)
  }

  predicate NeedsPrice(typ: OrderType) {
    typ.LIMIT? || typ.IOC? || typ.MODIFY?
  }

  predicate Malformed(r: Request) {
    || ((NeedsPrice(r.typ) || r.typ.MARKET?) && (r.qty == 0 || r.qty == INVALID_QTY))
    || (NeedsPrice(r.typ) && r.price <= 0)
    || r.typ.INVALID_TYPE?
  }

  /** Validate one request and dispatch it; `now` is the clock reading a rested order is stamped with. */
  function Step(b: Book, r: Request, now: Nanos): Outcome {
    if Malformed(r) then Reply(b, Reject(r))
    else match r.typ
      case LIMIT => AddLimit(b, r.client, r.id, r.side, r.price, r.qty, now)
      case MARKET => AddMarket(b, r.client, r.id, r.side, r.qty)
      case IOC => AddIoc(b, r.client, r.id, r.side, r.price, r.qty)
      case CANCEL => Cancel(b, r.client, r.id)
      case MODIFY => Modify(b, r.client, r.id, r.price, r.qty, now)
  }

  /** The matching a request sets off, if any: who is trading, against which book, for how much. */
  datatype Attack = Attack(taker: Taker, book: Book, qty: Qty)

  function Incoming(b: Book, r: Request): Option<Attack> {
    if Malformed(r) then None
    else match r.typ
      case LIMIT => if Find(b, r.id).Some? then None
                    else Some(Attack(Taker(r.client, r.id, r.side, r.price, true), b, r.qty))
      case IOC => if Find(b, r.id).Some? then None
                  else Some(Attack(Taker(r.client, r.id, r.side, r.price, true), b, r.qty))
      case MARKET => if Find(b, r.id).Some? then None
                     else Some(Attack(Taker(r.client, r.id, r.side, INVALID_PRICE, false), b, r.qty))
      case CANCEL => None
      case MODIFY => if !Owns(b, r.client, r.id) || Find(b, r.id).value.price == r.price then None
                     else Some(Attack(Taker(r.client, r.id, Find(b, r.id).value.side, r.price, true),
                                      RemoveFrom(b, r.id), r.qty))
  }

  function AttackSweep(a: Attack): Swept {
    Sweep(a.taker, Opposite(a.book, a.taker.side), a.qty)
  }

  // ---------------------------------------------------------------- runs

  /** A request together with the clock reading taken while it is processed. */
  datatype Input = Input(request: Request, now: Nanos)

  function Empty(symbol: Symbol): Book {
    Book(symbol, [], [])
  }

  /** Everything that happened since an empty book. */
  function Run(symbol: Symbol, ins: seq<Input>): Outcome {
    if ins == [] then Outcome(Empty(symbol), [], [])
    else
      var before := Run(symbol, ins[..|ins| - 1]);
      var last := ins[|ins| - 1];
      var step := Step(before.book, last.request, last.now);
      Outcome(step.book, before.responses + step.responses, before.updates + step.updates)
  }
}
