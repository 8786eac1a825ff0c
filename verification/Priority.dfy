/** Price-time priority over whole runs, and the irrelevance of the clock that stamps the orders. */
module Priority {
  import opened Types
  import opened Book
  import opened Matching
  import opened Invariant

  // ---------------------------------------------------------------- arrival order

  /** The number of the request that last sent each order to the back of its level. */
  type Arrivals = map<OrderId, nat>

  function Number(m: Arrivals, id: OrderId): nat {
    if id in m then m[id] else 0
  }

  /** The requests that enter an order afresh: a new limit order, a price change, a larger size. */
  predicate Refreshes(b: Book, r: Request) {
    !Malformed(r) &&
    match r.typ
    case LIMIT => Find(b, r.id).None?
    case MODIFY => Owns(b, r.client, r.id) && (r.price != Find(b, r.id).value.price || r.qty > Find(b, r.id).value.qty)
    case _ => false
  }

  function Renumbered(b: Book, r: Request, m: Arrivals, n: nat): Arrivals {
    if Refreshes(b, r) then m[r.id := n] else m
  }

  /** The arrival numbers after a run, counting requests from one. The clock plays no part. */
  function Arrived(symbol: Symbol, ins: seq<Input>): Arrivals {
    if ins == [] then map[]
    else
      var before := ins[..|ins| - 1];
      Renumbered(Run(symbol, before).book, ins[|ins| - 1].request, Arrived(symbol, before), |ins|)
  }

  /** `o` outranks `p`: a better price, or the same price and an earlier arrival. */
  predicate Precedes(m: Arrivals, o: Order, p: Order, buy: bool) {
    if o.price == p.price then Number(m, o.id) < Number(m, p.id) else AtLeastAsGood(buy, o.price, p.price)
  }

  ghost predicate InPriority(m: Arrivals, q: seq<Order>, buy: bool) {
    forall i, j :: 0 <= i < j < |q| ==> Precedes(m, q[i], q[j], buy)
  }

  ghost predicate NumberedBelow(m: Arrivals, q: seq<Order>, n: nat) {
    forall i :: 0 <= i < |q| ==> Number(m, q[i].id) < n
  }

  ghost predicate BookInPriority(m: Arrivals, b: Book, n: nat) {
    && InPriority(m, b.bids, true) && InPriority(m, b.asks, false)
    && NumberedBelow(m, b.bids, n) && NumberedBelow(m, b.asks, n)
  }

  lemma {:induction false} ThinnedInPriority(m: Arrivals, q: seq<Order>, r: seq<Order>, at: seq<nat>, buy: bool, n: nat)
    requires Thins(q, r, at) && InPriority(m, q, buy) && NumberedBelow(m, q, n)
    ensures InPriority(m, r, buy) && NumberedBelow(m, r, n)
  {
    forall i, j | 0 <= i < j < |r|
      ensures Precedes(m, r[i], r[j], buy)
    {
      assert Precedes(m, q[at[i]], q[at[j]], buy);
    }
  }

  lemma {:induction false} InsertInPriority(m: Arrivals, q: seq<Order>, o: Order, buy: bool, n: nat)
    requires QueueOK(q, buy) && InPriority(m, q, buy) && NumberedBelow(m, q, n) && Number(m, o.id) == n
    ensures InPriority(m, Insert(q, o, buy), buy) && NumberedBelow(m, Insert(q, o, buy), n + 1)
  {
    var k := InsertPos(q, o.price, buy);
    var r := InsertAt(q, k, o);
    forall i, j | 0 <= i < j < |r|
      ensures Precedes(m, r[i], r[j], buy)
    {
      assert k < |q| && i == k < j ==> k == j - 1 || AtLeastAsGood(buy, q[k].price, q[j - 1].price);
      assert j < k ==> Precedes(m, q[i], q[j], buy);
      assert i < k < j ==> Precedes(m, q[i], q[j - 1], buy);
      assert k < i ==> Precedes(m, q[i - 1], q[j - 1], buy);
    }
  }

  lemma {:induction false} RestInPriority(m: Arrivals, b: Book, o: Order, n: nat)
    requires BookOK(b) && BookInPriority(m, b, n) && Number(m, o.id) == n
    ensures BookInPriority(m, RestIn(b, o), n + 1)
  {
    InsertInPriority(m, if o.side.BUY? then b.bids else b.asks, o, o.side.BUY?, n);
  }

  lemma {:induction false} RemoveInPriority(m: Arrivals, b: Book, id: OrderId, n: nat)
    requires BookOK(b) && BookInPriority(m, b, n)
    ensures BookInPriority(m, RemoveFrom(b, id), n)
  {
    RemoveThins(b.bids, id, true);
    RemoveThins(b.asks, id, false);
    ThinnedInPriority(m, b.bids, Remove(b.bids, id), Positions(|b.bids|, IndexOf(b.bids, id)), true, n);
    ThinnedInPriority(m, b.asks, Remove(b.asks, id), Positions(|b.asks|, IndexOf(b.asks, id)), false, n);
  }

  lemma {:induction false} ResizeInPriority(m: Arrivals, b: Book, id: OrderId, qty: Qty, n: nat)
    requires BookOK(b) && BookInPriority(m, b, n) && 0 < qty
    ensures BookInPriority(m, b.(bids := Resize(b.bids, id, qty), asks := Resize(b.asks, id, qty)), n)
  {
    ResizeThins(b.bids, id, qty, true);
    ResizeThins(b.asks, id, qty, false);
    ThinnedInPriority(m, b.bids, Resize(b.bids, id, qty), Positions(|b.bids|, |b.bids|), true, n);
    ThinnedInPriority(m, b.asks, Resize(b.asks, id, qty), Positions(|b.asks|, |b.asks|), false, n);
  }

  lemma {:induction false} MatchInPriority(m: Arrivals, b: Book, t: Taker, qty: Qty, n: nat)
    requires BookOK(b) && BookInPriority(m, b, n)
    ensures BookInPriority(m, Match(b, t, qty).0.book, n)
  {
    var q := Opposite(b, t.side);
    var at := SweepThins(t, q, qty);
    ThinnedInPriority(m, q, Sweep(t, q, qty).rest, at, !t.side.BUY?, n);
  }

  lemma {:induction false} StaysInPriority(m: Arrivals, b: Book, n: nat)
    requires BookInPriority(m, b, n)
    ensures BookInPriority(m, b, n + 1)
  {
  }

  /** Numbering an order that is not in the book moves nobody. */
  lemma {:induction false} RenumberAbsent(m: Arrivals, b: Book, id: OrderId, n: nat)
    requires BookInPriority(m, b, n) && Absent(b, id)
    ensures BookInPriority(m[id := n], b, n) && Number(m[id := n], id) == n
  {
    forall o | o in b.bids || o in b.asks
      ensures Number(m[id := n], o.id) == Number(m, o.id)
    {
    }
  }

  lemma {:induction false} MatchAndRestInPriority(m: Arrivals, b: Book, t: Taker, qty: Qty, now: Nanos, n: nat)
    requires BookOK(b) && BookInPriority(m, b, n) && Absent(b, t.id)
    ensures BookInPriority(m[t.id := n], MatchAndRest(b, t, LIMIT, qty, now).book, n + 1)
  {
    var (o, leaves) := Match(b, t, qty);
    RenumberAbsent(m, b, t.id, n);
    MatchOK(b, t, qty);
    MatchInPriority(m[t.id := n], b, t, qty, n);
    if leaves == 0 {
      StaysInPriority(m[t.id := n], o.book, n);
    } else {
      RestInPriority(m[t.id := n], o.book, Order(t.id, t.client, LIMIT, t.side, t.limit, qty, leaves, now), n);
    }
  }

  lemma {:induction false} LimitInPriority(m: Arrivals, b: Book, r: Request, now: Nanos, n: nat)
    requires BookOK(b) && BookInPriority(m, b, n) && r.typ.LIMIT? && !Malformed(r)
    ensures BookInPriority(Renumbered(b, r, m, n), Step(b, r, now).book, n + 1)
  {
    if Find(b, r.id).None? {
      MatchAndRestInPriority(m, b, Taker(r.client, r.id, r.side, r.price, true), r.qty, now, n);
    } else {
      StaysInPriority(m, b, n);
    }
  }

  lemma {:induction false} TransientInPriority(m: Arrivals, b: Book, t: Taker, price: Price, qty: Qty, n: nat)
    requires BookOK(b) && BookInPriority(m, b, n)
    ensures BookInPriority(m, AddTransient(b, t, price, qty).book, n + 1)
  {
    MatchInPriority(m, b, t, qty, n);
    StaysInPriority(m, b, n);
    StaysInPriority(m, Match(b, t, qty).0.book, n);
  }

  lemma {:induction false} RepriceInPriority(m: Arrivals, b: Book, t: Taker, qty: Qty, now: Nanos, n: nat)
    requires BookOK(b) && BookInPriority(m, b, n)
    ensures BookInPriority(m[t.id := n], MatchAndRest(RemoveFrom(b, t.id), t, LIMIT, qty, now).book, n + 1)
  {
    RemoveOK(b, t.id);
    RemoveInPriority(m, b, t.id, n);
    MatchAndRestInPriority(m, RemoveFrom(b, t.id), t, qty, now, n);
  }

  lemma {:induction false} GrowInPriority(m: Arrivals, b: Book, o: Order, n: nat)
    requires BookOK(b) && BookInPriority(m, b, n)
    ensures BookInPriority(m[o.id := n], RestIn(RemoveFrom(b, o.id), o), n + 1)
  {
    RemoveOK(b, o.id);
    RemoveInPriority(m, b, o.id, n);
    RenumberAbsent(m, RemoveFrom(b, o.id), o.id, n);
    RestInPriority(m[o.id := n], RemoveFrom(b, o.id), o, n);
  }

  lemma {:induction false} ModifyInPriority(m: Arrivals, b: Book, client: ClientId, id: OrderId, price: Price,
                                            qty: Qty, now: Nanos, n: nat)
    requires BookOK(b) && BookInPriority(m, b, n) && Owns(b, client, id) && 0 < qty < INVALID_QTY && 0 < price
    ensures var o := Find(b, id).value;
            BookInPriority(if price != o.price || qty > o.qty then m[id := n] else m,
                Modify(b, client, id, price, qty, now).book, n + 1)
  {
    var o := Find(b, id).value;
    FoundOK(b, id);
    StaysInPriority(m, b, n);
    if price != o.price {
      RepriceInPriority(m, b, Taker(client, id, o.side, price, true), qty, now, n);
    } else if qty < o.qty {
      ResizeInPriority(m, b, id, qty, n + 1);
    } else if qty > o.qty {
      GrowInPriority(m, b, Order(id, client, o.typ, o.side, price, qty, qty, now), n);
    }
  }

  lemma {:induction false} StepInPriority(m: Arrivals, b: Book, r: Request, now: Nanos, n: nat)
    requires BookOK(b) && BookInPriority(m, b, n)
    ensures BookInPriority(Renumbered(b, r, m, n), Step(b, r, now).book, n + 1)
  {
    if Malformed(r) {
      StaysInPriority(m, b, n);
    } else {
      match r.typ
      case LIMIT => LimitInPriority(m, b, r, now, n);
      case MARKET => TransientInPriority(m, b, Taker(r.client, r.id, r.side, INVALID_PRICE, false), INVALID_PRICE,
          r.qty, n);
      case IOC => TransientInPriority(m, b, Taker(r.client, r.id, r.side, r.price, true), r.price, r.qty, n);
      case CANCEL =>
        StaysInPriority(m, b, n);
        RemoveInPriority(m, b, r.id, n + 1);
      case MODIFY =>
        if Owns(b, r.client, r.id) {
          ModifyInPriority(m, b, r.client, r.id, r.price, r.qty, now, n);
        } else {
          StaysInPriority(m, b, n);
        }
    }
  }

  /** In every reachable book each side is strictly ordered by price and then arrival, where only
      resting, growing or re-pricing gives an order a new arrival number. */
  lemma {:induction false} ReachableInPriority(symbol: Symbol, ins: seq<Input>)
    ensures BookInPriority(Arrived(symbol, ins), Run(symbol, ins).book, |ins| + 1)
  {
    if ins != [] {
      var before, last := ins[..|ins| - 1], ins[|ins| - 1];
      ReachableInPriority(symbol, before);
      ReachableOK(symbol, before);
      StepInPriority(Arrived(symbol, before), Run(symbol, before).book, last.request, last.now, |ins|);
    }
  }

  // ---------------------------------------------------------------- who is served first

  /** The `j`-th execution is that of some order `k`, and the `j` before it are those of the orders before `k`. */
  lemma {:induction false} ExecutionOrigin(t: Taker, q: seq<Order>, qty: Qty, n: nat, j: nat) returns (k: nat)
    requires n <= |q| && j < |Executions(t, q, qty, n)|
    ensures k < n && 0 < Share(t, q, qty, k) && Executions(t, q, qty, n)[j].maker == Served(t, q, qty, k)
    ensures Executions(t, q, qty, k) == Executions(t, q, qty, n)[..j]
  {
    if j < |Executions(t, q, qty, n - 1)| {
      k := ExecutionOrigin(t, q, qty, n - 1, j);
    } else {
      k := n - 1;
    }
  }

  lemma {:induction false} ExecutionFor(t: Taker, q: seq<Order>, qty: Qty, n: nat, k: nat)
    requires k < n <= |q| && 0 < Share(t, q, qty, k)
    ensures Fill(Served(t, q, qty, k), Share(t, q, qty, k), Remaining(t, q, qty, k + 1)) in Executions(t, q, qty, n)
  {
    if k < n - 1 {
      ExecutionFor(t, q, qty, n - 1, k);
    }
  }

  lemma {:induction false} ResidueOrigin(t: Taker, q: seq<Order>, qty: Qty, n: nat, o: Order) returns (k: nat)
    requires n <= |q| && o in Residue(t, q, qty, n)
    ensures k < n && o == Served(t, q, qty, k) && 0 < o.qty
  {
    if o in Residue(t, q, qty, n - 1) {
      k := ResidueOrigin(t, q, qty, n - 1, o);
    } else {
      k := n - 1;
    }
  }

  /** By the time of the `j`-th execution, order `e` has been filled completely. */
  ghost predicate GoneBefore(fills: seq<Fill>, j: nat, e: Order) {
    exists i :: 0 <= i < j && i < |fills| && fills[i].maker == e.(qty := 0) && fills[i].qty == e.qty
  }

  /** No resting order trades while another client's order that outranks it, and that the taker could
      have traded with, has quantity left: an earlier execution of the sweep fills the outranking order
      completely, and it leaves the book. */
  lemma {:induction false} PriceTimePriority(symbol: Symbol, ins: seq<Input>, r: Request, e: Order, j: nat)
    requires var a := Incoming(Run(symbol, ins).book, r);
             && a.Some?
             && j < |AttackSweep(a.value).fills|
             && e in Opposite(a.value.book, a.value.taker.side)
             && Eligible(a.value.taker, e)
             && Precedes(Arrived(symbol, ins), e, AttackSweep(a.value).fills[j].maker, !a.value.taker.side.BUY?)
    ensures var s := AttackSweep(Incoming(Run(symbol, ins).book, r).value);
            GoneBefore(s.fills, j, e) && forall o :: o in s.rest ==> o.id != e.id
  {
    var b := Run(symbol, ins).book;
    ReachableOK(symbol, ins);
    ReachableInPriority(symbol, ins);
    AttackedInPriority(Arrived(symbol, ins), b, r, |ins| + 1);
    var a := Incoming(b, r).value;
    AllocationInOrder(Arrived(symbol, ins), a.taker, Opposite(a.book, a.taker.side), a.qty, e, j);
  }

  lemma {:induction false} AttackedInPriority(m: Arrivals, b: Book, r: Request, n: nat)
    requires BookOK(b) && BookInPriority(m, b, n) && Incoming(b, r).Some?
    ensures var a := Incoming(b, r).value;
            var q := Opposite(a.book, a.taker.side);
            QueueOK(q, !a.taker.side.BUY?) && InPriority(m, q, !a.taker.side.BUY?)
  {
    if r.typ.MODIFY? {
      RemoveOK(b, r.id);
      RemoveInPriority(m, b, r.id, n);
    }
  }

  lemma {:induction false} PlacedByPriority(m: Arrivals, q: seq<Order>, buy: bool, j: nat, k: nat)
    requires InPriority(m, q, buy) && j < |q| && k < |q|
    ensures k <= j ==> !Precedes(m, q[j], q[k], buy)
  {
    if k < j {
      assert Precedes(m, q[k], q[j], buy);
    }
  }

  lemma {:induction false} AllocationInOrder(m: Arrivals, t: Taker, q: seq<Order>, qty: Qty, e: Order, j: nat)
    requires QueueOK(q, !t.side.BUY?) && InPriority(m, q, !t.side.BUY?)
    requires j < |Sweep(t, q, qty).fills| && e in q && Eligible(t, e)
    requires Precedes(m, e, Sweep(t, q, qty).fills[j].maker, !t.side.BUY?)
    ensures GoneBefore(Sweep(t, q, qty).fills, j, e) && forall o :: o in Sweep(t, q, qty).rest ==> o.id != e.id
  {
    SweepIsAllocation(t, q, qty);
    var k := ExecutionOrigin(t, q, qty, |q|, j);
    var i :| 0 <= i < |q| && q[i] == e;
    PlacedByPriority(m, q, !t.side.BUY?, i, k);
    ServedInOrder(t, q, qty, i, k);
    ServedAway(t, q, qty, k, i);
  }

  /** An order given all it has is among the executions up to any later order, and not in the residue. */
  lemma {:induction false} ServedAway(t: Taker, q: seq<Order>, qty: Qty, k: nat, i: nat)
    requires i < k <= |q| && 0 < q[i].qty == Share(t, q, qty, i) && DistinctIds(q)
    ensures var fills := Executions(t, q, qty, k); GoneBefore(fills, |fills|, q[i])
    ensures forall o :: o in Residue(t, q, qty, |q|) ==> o.id != q[i].id
  {
    ExecutionFor(t, q, qty, k, i);
    assert Served(t, q, qty, i) == q[i].(qty := 0);
    forall o | o in Residue(t, q, qty, |q|)
      ensures o.id != q[i].id
    {
      var l := ResidueOrigin(t, q, qty, |q|, o);
      assert l != i;
    }
  }

  // ---------------------------------------------------------------- the clock does not matter

  function Untimed(o: Order): Order {
    o.(ts := 0)
  }

  function Erase(q: seq<Order>): (r: seq<Order>)
    ensures |r| == |q|
    ensures forall i :: 0 <= i < |q| ==> r[i] == Untimed(q[i])
  {
    seq(|q|, i requires 0 <= i < |q| => Untimed(q[i]))
  }

  function EraseFills(fs: seq<Fill>): (r: seq<Fill>)
    ensures |r| == |fs|
    ensures forall i :: 0 <= i < |fs| ==> r[i] == fs[i].(maker := Untimed(fs[i].maker))
  {
    seq(|fs|, i requires 0 <= i < |fs| => fs[i].(maker := Untimed(fs[i].maker)))
  }

  function EraseBook(b: Book): Book {
    b.(bids := Erase(b.bids), asks := Erase(b.asks))
  }

  function EraseOutcome(o: Outcome): Outcome {
    o.(book := EraseBook(o.book))
  }

  lemma {:induction false} ErasePositions(q: seq<Order>, price: Price, buy: bool, id: OrderId)
    ensures InsertPos(Erase(q), price, buy) == InsertPos(q, price, buy)
    ensures IndexOf(Erase(q), id) == IndexOf(q, id)
  {
    if q != [] {
      ErasePositions(q[1..], price, buy, id);
      assert Erase(q)[1..] == Erase(q[1..]);
    }
  }

  lemma {:induction false} EraseAt(q: seq<Order>, k: nat, o: Order)
    ensures k <= |q| ==> InsertAt(Erase(q), k, Untimed(o)) == Erase(InsertAt(q, k, o))
    ensures k < |q| ==> RemoveAt(Erase(q), k) == Erase(RemoveAt(q, k))
    ensures k < |q| ==> Erase(q)[k := Untimed(o)] == Erase(q[k := o])
  {
  }

  lemma {:induction false} EraseEdits(q: seq<Order>, o: Order, buy: bool, id: OrderId, qty: Qty)
    ensures Insert(Erase(q), Untimed(o), buy) == Erase(Insert(q, o, buy))
    ensures Remove(Erase(q), id) == Erase(Remove(q, id))
    ensures Resize(Erase(q), id, qty) == Erase(Resize(q, id, qty))
  {
    ErasePositions(q, o.price, buy, id);
    EraseAt(q, InsertPos(q, o.price, buy), o);
    var k := IndexOf(q, id);
    if k < |q| { EraseAt(q, k, q[k].(qty := qty, originalQty := qty)); }
  }

  lemma {:induction false} EraseConcat(q: seq<Order>, r: seq<Order>)
    ensures Erase(q + r) == Erase(q) + Erase(r)
  {
  }

  lemma {:induction false} EraseFillsConcat(fs: seq<Fill>, gs: seq<Fill>)
    ensures EraseFills(fs + gs) == EraseFills(fs) + EraseFills(gs)
  {
  }

  function EraseSwept(s: Swept): Swept {
    Swept(Erase(s.rest), s.leaves, EraseFills(s.fills))
  }

  function Visited(t: Taker, o: Order, n: Qty, leaves: Qty, s: Swept): Swept
    requires n <= o.qty
  {
    Swept(Kept(t, o, n) + s.rest, s.leaves, Executed(t, o, n, leaves) + s.fills)
  }

  lemma {:induction false} EraseVisit(t: Taker, o: Order, n: Qty, leaves: Qty, s: Swept)
    requires n <= o.qty
    ensures Visited(t, Untimed(o), n, leaves, EraseSwept(s)) == EraseSwept(Visited(t, o, n, leaves, s))
  {
    EraseConcat(Kept(t, o, n), s.rest);
    EraseFillsConcat(Executed(t, o, n, leaves), s.fills);
    assert Kept(t, Untimed(o), n) == Erase(Kept(t, o, n));
    assert Executed(t, Untimed(o), n, leaves) == EraseFills(Executed(t, o, n, leaves));
  }

  lemma {:induction false} EraseSweep(t: Taker, q: seq<Order>, qty: Qty)
    ensures Sweep(t, Erase(q), qty) == EraseSwept(Sweep(t, q, qty))
  {
    assert Stops(t, Erase(q), qty) == Stops(t, q, qty);
    if !Stops(t, q, qty) {
      var n := Taken(t, q[0], qty);
      EraseSweep(t, q[1..], qty - n);
      assert Erase(q)[0] == Untimed(q[0]) && Erase(q)[1..] == Erase(q[1..]);
      EraseVisit(t, q[0], n, qty - n, Sweep(t, q[1..], qty - n));
    }
  }

  lemma {:induction false} EraseEvents(sym: Symbol, t: Taker, fs: seq<Fill>)
    ensures AllFillResponses(sym, t, EraseFills(fs)) == AllFillResponses(sym, t, fs)
    ensures AllFillUpdates(sym, EraseFills(fs)) == AllFillUpdates(sym, fs)
  {
    if fs != [] {
      EraseEvents(sym, t, fs[1..]);
      assert EraseFills(fs)[1..] == EraseFills(fs[1..]);
    }
  }

  lemma {:induction false} EraseMatch(b: Book, t: Taker, qty: Qty)
    ensures Match(EraseBook(b), t, qty) == (EraseOutcome(Match(b, t, qty).0), Match(b, t, qty).1)
  {
    EraseSweep(t, Opposite(b, t.side), qty);
    EraseEvents(b.symbol, t, Sweep(t, Opposite(b, t.side), qty).fills);
  }

  lemma {:induction false} EraseRest(b: Book, o: Order)
    ensures RestIn(EraseBook(b), Untimed(o)) == EraseBook(RestIn(b, o))
  {
    EraseEdits(b.bids, o, true, 0, 0);
    EraseEdits(b.asks, o, false, 0, 0);
  }

  lemma {:induction false} EraseMatchAndRest(b: Book, t: Taker, typ: OrderType, qty: Qty, now: Nanos)
    ensures MatchAndRest(EraseBook(b), t, typ, qty, 0) == EraseOutcome(MatchAndRest(b, t, typ, qty, now))
  {
    EraseMatch(b, t, qty);
    var (m, leaves) := Match(b, t, qty);
    EraseRest(m.book, Order(t.id, t.client, typ, t.side, t.limit, qty, leaves, now));
  }

  lemma {:induction false} EraseFind(b: Book, id: OrderId)
    ensures Find(EraseBook(b), id) == if Find(b, id).Some? then Some(Untimed(Find(b, id).value)) else None
  {
    ErasePositions(b.bids, 0, true, id);
    ErasePositions(b.asks, 0, true, id);
  }

  lemma {:induction false} EraseById(b: Book, id: OrderId, qty: Qty)
    ensures RemoveFrom(EraseBook(b), id) == EraseBook(RemoveFrom(b, id))
    ensures EraseBook(b.(bids := Resize(b.bids, id, qty), asks := Resize(b.asks, id, qty)))
         == EraseBook(b).(bids := Resize(Erase(b.bids), id, qty), asks := Resize(Erase(b.asks), id, qty))
  {
    EraseEdits(b.bids, Order(0, 0, LIMIT, BUY, 0, 0, 0, 0), true, id, qty);
    EraseEdits(b.asks, Order(0, 0, LIMIT, BUY, 0, 0, 0, 0), true, id, qty);
  }

  lemma {:induction false} EraseModify(b: Book, client: ClientId, id: OrderId, price: Price, qty: Qty, now: Nanos)
    ensures Modify(EraseBook(b), client, id, price, qty, 0) == EraseOutcome(Modify(b, client, id, price, qty, now))
  {
    EraseFind(b, id);
    if Owns(b, client, id) {
      var o := Find(b, id).value;
      EraseById(b, id, qty);
      if price != o.price {
        EraseMatchAndRest(RemoveFrom(b, id), Taker(client, id, o.side, price, true), o.typ, qty, now);
      } else if qty > o.qty {
        EraseRest(RemoveFrom(b, id), Order(id, client, o.typ, o.side, price, qty, qty, now));
      }
    }
  }

  lemma {:induction false} EraseLimit(b: Book, client: ClientId, id: OrderId, side: Side, price: Price, qty: Qty,
                                      now: Nanos)
    ensures AddLimit(EraseBook(b), client, id, side, price, qty, 0)
            == EraseOutcome(AddLimit(b, client, id, side, price, qty, now))
  {
    EraseFind(b, id);
    EraseMatchAndRest(b, Taker(client, id, side, price, true), LIMIT, qty, now);
  }

  lemma {:induction false} EraseTransient(b: Book, t: Taker, price: Price, qty: Qty)
    ensures AddTransient(EraseBook(b), t, price, qty) == EraseOutcome(AddTransient(b, t, price, qty))
  {
    EraseFind(b, t.id);
    EraseMatch(b, t, qty);
  }

  lemma {:induction false} EraseCancel(b: Book, client: ClientId, id: OrderId)
    ensures Cancel(EraseBook(b), client, id) == EraseOutcome(Cancel(b, client, id))
  {
    EraseFind(b, id);
    EraseById(b, id, 0);
  }

  lemma {:induction false} EraseStep(b: Book, r: Request, now: Nanos)
    ensures Step(EraseBook(b), r, 0) == EraseOutcome(Step(b, r, now))
  {
    match r.typ
    case LIMIT => EraseLimit(b, r.client, r.id, r.side, r.price, r.qty, now);
    case MARKET => EraseTransient(b, Taker(r.client, r.id, r.side, INVALID_PRICE, false), INVALID_PRICE, r.qty);
    case IOC => EraseTransient(b, Taker(r.client, r.id, r.side, r.price, true), r.price, r.qty);
    case CANCEL => EraseCancel(b, r.client, r.id);
    case MODIFY => EraseModify(b, r.client, r.id, r.price, r.qty, now);
    case INVALID_TYPE =>
  }

  /** The requests of a run with every clock reading set to zero. */
  function Unclocked(ins: seq<Input>): (r: seq<Input>)
    ensures |r| == |ins|
    ensures forall i :: 0 <= i < |ins| ==> r[i] == Input(ins[i].request, 0)
  {
    seq(|ins|, i requires 0 <= i < |ins| => Input(ins[i].request, 0))
  }

  lemma {:induction false} EraseRun(symbol: Symbol, ins: seq<Input>)
    ensures Run(symbol, Unclocked(ins)) == EraseOutcome(Run(symbol, ins))
  {
    if ins == [] {
      assert Erase([]) == [];
    } else {
      var before, last := ins[..|ins| - 1], ins[|ins| - 1];
      EraseRun(symbol, before);
      assert Unclocked(ins)[..|ins| - 1] == Unclocked(before);
      EraseStep(Run(symbol, before).book, last.request, last.now);
    }
  }

  /** Whatever the clock says, the same requests give the same responses, the same updates and the same
      book up to the stored time stamps. */
  lemma {:induction false} ClockIrrelevant(symbol: Symbol, ins: seq<Input>, ins': seq<Input>)
    requires Unclocked(ins) == Unclocked(ins')
    ensures Run(symbol, ins).responses == Run(symbol, ins').responses
    ensures Run(symbol, ins).updates == Run(symbol, ins').updates
    ensures EraseBook(Run(symbol, ins).book) == EraseBook(Run(symbol, ins').book)
  {
    EraseRun(symbol, ins);
    EraseRun(symbol, ins');
  }
}
