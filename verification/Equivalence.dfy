/** Algebraic laws between the order operations: what one call undoes and which calls coincide. */
module Equivalence {
  import opened Types
  import opened Book
  import opened Matching
  import opened Invariant
  import opened Conservation
  import opened Priority

  // ---------------------------------------------------------------- undoing a rest

  lemma {:induction false} RemoveInserted(q: seq<Order>, o: Order, buy: bool)
    requires !Has(q, o.id)
    ensures Remove(Insert(q, o, buy), o.id) == q
    ensures Has(Insert(q, o, buy), o.id) && Insert(q, o, buy)[IndexOf(Insert(q, o, buy), o.id)] == o
  {
    var k := InsertPos(q, o.price, buy);
    var r := InsertAt(q, k, o);
    assert r[k].id == o.id;
    assert IndexOf(r, o.id) == k;
    assert RemoveAt(r, k) == q;
  }

  lemma {:induction false} RestThenCancel(b: Book, o: Order)
    requires Absent(b, o.id)
    ensures Find(RestIn(b, o), o.id) == Some(o)
    ensures RemoveFrom(RestIn(b, o), o.id) == b
  {
    RemoveInserted(if o.side.BUY? then b.bids else b.asks, o, o.side.BUY?);
  }

  /** An immediate-or-cancel order leaves the book that the same limit order followed by a cancel of its
      remainder leaves, exactly when the client does not already rest an order under that id (the limit
      order would then be refused as a duplicate and the cancel would hit the older order). */
  lemma {:induction false} IocIsLimitThenCancel(b: Book, client: ClientId, id: OrderId, side: Side, price: Price,
                                                qty: Qty, now: Nanos)
    requires BookOK(b)
    ensures AddIoc(b, client, id, side, price, qty).book
            == Cancel(AddLimit(b, client, id, side, price, qty, now).book, client, id).book
            <==> !Owns(b, client, id)
  {
    if Find(b, id).None? {
      var t := Taker(client, id, side, price, true);
      var (m, leaves) := Match(b, t, qty);
      MatchOK(b, t, qty);
      if leaves > 0 {
        RestThenCancel(m.book, Order(id, client, LIMIT, side, price, qty, leaves, now));
      }
    } else if Owns(b, client, id) {
      RemoveBalance(b, id);
      FoundOK(b, id);
    }
  }

  lemma {:induction false} NoFillNoChange(t: Taker, q: seq<Order>, qty: Qty)
    requires Sweep(t, q, qty).fills == []
    ensures Sweep(t, q, qty) == Swept(q, qty, [])
  {
    if !Stops(t, q, qty) {
      assert q[0].client == t.client;
      NoFillNoChange(t, q[1..], qty);
      assert q == [q[0]] + q[1..];
    }
  }

  lemma {:induction false} FillsArePositive(t: Taker, q: seq<Order>, qty: Qty)
    requires LiveQty(q)
    ensures forall f :: f in Sweep(t, q, qty).fills ==> 0 < f.qty
  {
    if !Stops(t, q, qty) {
      FillsArePositive(t, q[1..], qty - Taken(t, q[0], qty));
    }
  }

  /** A taker with something to trade trades with nobody exactly when no order opposite is eligible. */
  lemma {:induction false} NothingTradedWhen(t: Taker, q: seq<Order>, qty: Qty)
    requires SortedByPrice(q, !t.side.BUY?) && LiveQty(q) && 0 < qty
    ensures Sweep(t, q, qty).fills == [] <==> NoneEligible(t, q)
  {
    if NoneEligible(t, q) {
      OwnOrdersAreSkipped(t, q, qty);
    } else {
      var i :| 0 <= i < |q| && Eligible(t, q[i]);
      AheadGrows(t, q, i, |q|);
      SweepIsAllocation(t, q, qty);
      if Sweep(t, q, qty).fills == [] { NoFillNoChange(t, q, qty); }
    }
  }

  ghost predicate NoneEligible(t: Taker, q: seq<Order>) {
    forall o :: o in q ==> !Eligible(t, o)
  }

  /** A new limit order followed by its cancel restores both sides of the book exactly, if and only if it
      trades with nobody; that is, if and only if no order opposite is another client's within its price. */
  lemma {:induction false} LimitThenCancelRestores(b: Book, client: ClientId, id: OrderId, side: Side, price: Price,
                                                   qty: Qty, now: Nanos)
    requires BookOK(b) && Find(b, id).None?
    ensures Cancel(AddLimit(b, client, id, side, price, qty, now).book, client, id).book == b
            <==> Match(b, Taker(client, id, side, price, true), qty).0.updates == []
    ensures Cancel(AddLimit(b, client, id, side, price, qty, now).book, client, id).book == b
            <==> qty == 0 || NoneEligible(Taker(client, id, side, price, true), Opposite(b, side))
  {
    var t, q := Taker(client, id, side, price, true), Opposite(b, side);
    IocIsLimitThenCancel(b, client, id, side, price, qty, now);
    RestoredWhen(b, t, qty);
    if qty > 0 { NothingTradedWhen(t, q, qty); }
  }

  lemma {:induction false} RestoredWhen(b: Book, t: Taker, qty: Qty)
    requires BookOK(b)
    ensures var s := Sweep(t, Opposite(b, t.side), qty);
            && (Match(b, t, qty).0.book == b <==> s.fills == [])
            && (Match(b, t, qty).0.updates == [] <==> s.fills == [])
  {
    var q := Opposite(b, t.side);
    var s := Sweep(t, q, qty);
    if s.fills == [] {
      NoFillNoChange(t, q, qty);
    } else {
      SweepBalance(t, q, qty);
      FillsArePositive(t, q, qty);
      assert 0 < s.fills[0].qty <= FilledQty(s.fills);
      assert Total(s.rest) != Total(q);
    }
  }

  // ---------------------------------------------------------------- modify as cancel and re-entry

  lemma {:induction false} OwnOrdersAreSkipped(t: Taker, q: seq<Order>, qty: Qty)
    requires forall o :: o in q && Crosses(t, o.price) ==> o.client == t.client
    ensures Sweep(t, q, qty) == Swept(q, qty, [])
  {
    if !Stops(t, q, qty) {
      assert q[0].client == t.client;
      OwnOrdersAreSkipped(t, q[1..], qty);
      var s := Sweep(t, q[1..], qty);
      assert Sweep(t, q, qty) == Swept(Kept(t, q[0], 0) + s.rest, s.leaves, [] + s.fills);
      assert Kept(t, q[0], 0) + q[1..] == q;
    }
  }

  /** A modify that re-prices or grows an order leaves the book that cancelling it and entering a new
      limit order leaves. For the growth case the modify never consults the matcher: re-entry finds
      nothing to trade with because no two clients' orders cross. */
  lemma {:induction false} ModifyIsCancelThenLimit(b: Book, client: ClientId, id: OrderId, price: Price, qty: Qty,
                                                   now: Nanos)
    requires BookOK(b) && Owns(b, client, id) && 0 < qty < INVALID_QTY && 0 < price
    requires price != Find(b, id).value.price || qty > Find(b, id).value.qty
    ensures Modify(b, client, id, price, qty, now).book
         == AddLimit(Cancel(b, client, id).book, client, id, Find(b, id).value.side, price, qty, now).book
  {
    var o := Find(b, id).value;
    FoundOK(b, id);
    RemoveOK(b, id);
    if price == o.price {
      var t := Taker(client, id, o.side, price, true);
      OwnOrdersAreSkipped(t, Opposite(RemoveFrom(b, id), o.side), qty);
    }
  }

  lemma {:induction false} ShrinkInQueue(q: seq<Order>, k: nat, o: Order, buy: bool)
    requires QueueOK(q, buy) && k < |q| && o.id == q[k].id && o.price == q[k].price
    ensures Erase(q[k := o]) == Erase(Insert(RemoveAt(q, k), o, buy))
            <==> (k + 1 == |q| || q[k + 1].price != q[k].price)
  {
    var r := RemoveAt(q, k);
    var p := InsertPos(r, o.price, buy);
    assert forall i :: 0 <= i < k ==> r[i] == q[i] && AtLeastAsGood(buy, q[i].price, q[k].price);
    if k + 1 == |q| || q[k + 1].price != q[k].price {
      assert k < |r| ==> r[k] == q[k + 1] && AtLeastAsGood(buy, q[k].price, q[k + 1].price);
      assert p == k;
      assert q[k := o] == InsertAt(r, k, o);
    } else {
      assert r[k] == q[k + 1] && k < p;
      assert Erase(InsertAt(r, p, o))[k].id == q[k + 1].id;
      assert Erase(q[k := o])[k].id == q[k].id;
    }
  }

  function SideOf(b: Book, buy: bool): seq<Order> {
    if buy then b.bids else b.asks
  }

  function WithSide(b: Book, buy: bool, q: seq<Order>): Book {
    if buy then b.(bids := q) else b.(asks := q)
  }

  /** Where the order under an id stands. */
  lemma {:induction false} StandsAt(b: Book, id: OrderId)
    requires BookOK(b) && Find(b, id).Some?
    ensures var o := Find(b, id).value;
            var q := SideOf(b, o.side.BUY?);
            && Has(q, id) && q[IndexOf(q, id)] == o && !Has(SideOf(b, !o.side.BUY?), id)
  {
    FoundOK(b, id);
    var o := Find(b, id).value;
    var q := SideOf(b, o.side.BUY?);
    var i :| 0 <= i < |q| && q[i] == o;
  }

  lemma {:induction false} ShrunkBook(b: Book, client: ClientId, id: OrderId, qty: Qty, now: Nanos)
    requires BookOK(b) && Owns(b, client, id) && 0 < qty < Find(b, id).value.qty
    ensures var o := Find(b, id).value;
            var q := SideOf(b, o.side.BUY?);
            Has(q, id) && Modify(b, client, id, o.price, qty, now).book
                          == WithSide(b, o.side.BUY?, q[IndexOf(q, id) := o.(qty := qty, originalQty := qty)])
  {
    StandsAt(b, id);
    FoundOK(b, id);
  }

  lemma {:induction false} ReenteredBook(b: Book, client: ClientId, id: OrderId, qty: Qty, now: Nanos)
    requires BookOK(b) && Owns(b, client, id)
    ensures var o := Find(b, id).value;
            var q := SideOf(b, o.side.BUY?);
            Has(q, id) && AddLimit(Cancel(b, client, id).book, client, id, o.side, o.price, qty, now).book
                          == if qty == 0 then WithSide(b, o.side.BUY?, RemoveAt(q, IndexOf(q, id)))
                             else WithSide(b, o.side.BUY?, Insert(RemoveAt(q, IndexOf(q, id)),
                                           Order(id, client, LIMIT, o.side, o.price, qty, qty, now), o.side.BUY?))
  {
    var o := Find(b, id).value;
    StandsAt(b, id);
    FoundOK(b, id);
    RemoveOK(b, id);
    OwnOrdersAreSkipped(Taker(client, id, o.side, o.price, true), Opposite(RemoveFrom(b, id), o.side), qty);
  }

  /** Shrinking an order in place is the same as cancelling and re-entering it, up to the time stamp,
      exactly when nobody queues behind it at its price: otherwise the modify keeps a place in line that
      re-entry gives up. */
  lemma {:induction false} ShrinkKeepsPlace(b: Book, client: ClientId, id: OrderId, qty: Qty, now: Nanos)
    requires BookOK(b) && Owns(b, client, id) && 0 < qty < Find(b, id).value.qty
    ensures var o := Find(b, id).value;
            var q := SideOf(b, o.side.BUY?);
            var k := IndexOf(q, id);
            && k < |q| && q[k] == o
            && (EraseBook(Modify(b, client, id, o.price, qty, now).book)
                == EraseBook(AddLimit(Cancel(b, client, id).book, client, id, o.side, o.price, qty, now).book)
                <==> (k + 1 == |q| || q[k + 1].price != o.price))
  {
    var o := Find(b, id).value;
    var q := SideOf(b, o.side.BUY?);
    var k := IndexOf(q, id);
    StandsAt(b, id);
    ShrunkBook(b, client, id, qty, now);
    ReenteredBook(b, client, id, qty, now);
    var reentered := Order(id, client, LIMIT, o.side, o.price, qty, qty, now);
    ShrinkInQueue(q, k, reentered, o.side.BUY?);
    assert Erase(q[k := o.(qty := qty, originalQty := qty)]) == Erase(q[k := reentered]);
  }
}
