/** What every reachable book satisfies, whatever requests it has been given. */
module Invariant {
  import opened Types
  import opened Book
  import opened Matching

  ghost predicate OrderOK(o: Order, buy: bool) {
    o.side.BUY? == buy && o.typ.LIMIT? && 0 < o.qty <= o.originalQty && 0 < o.price
  }

  ghost predicate DistinctIds(q: seq<Order>) {
    forall i, j :: 0 <= i < j < |q| ==> q[i].id != q[j].id
  }

  ghost predicate QueueOK(q: seq<Order>, buy: bool) {
    && SortedByPrice(q, buy)
    && DistinctIds(q)
    && forall i :: 0 <= i < |q| ==> OrderOK(q[i], buy)
  }

  ghost predicate DisjointIds(q: seq<Order>, r: seq<Order>) {
    forall i, j :: 0 <= i < |q| && 0 <= j < |r| ==> q[i].id != r[j].id
  }

  /** A bid priced at or above an ask can only be the same client's. */
  ghost predicate NotCrossed(bids: seq<Order>, asks: seq<Order>) {
    forall i, j :: 0 <= i < |bids| && 0 <= j < |asks| && bids[i].price >= asks[j].price
      ==> bids[i].client == asks[j].client
  }

  ghost predicate BookOK(b: Book) {
    && QueueOK(b.bids, true)
    && QueueOK(b.asks, false)
    && DisjointIds(b.bids, b.asks)
    && NotCrossed(b.bids, b.asks)
  }

  // ---------------------------------------------------------------- thinning

  ghost predicate SameOrder(o: Order, p: Order) {
    && o.id == p.id && o.client == p.client && o.typ == p.typ
    && o.side == p.side && o.price == p.price && o.ts == p.ts
  }

  /** `r` is what remains of `q` after some orders left and others shrank in place; `at[i]` is where
      order `i` of `r` stood in `q`. */
  ghost predicate Thins(q: seq<Order>, r: seq<Order>, at: seq<nat>) {
    && |at| == |r|
    && (forall i :: 0 <= i < |at| ==> at[i] < |q|)
    && (forall i, j :: 0 <= i < j < |at| ==> at[i] < at[j])
    && forall i :: 0 <= i < |r| ==> SameOrder(r[i], q[at[i]]) && 0 < r[i].qty <= r[i].originalQty
  }

  lemma {:induction false} ThinnedQueueOK(q: seq<Order>, r: seq<Order>, at: seq<nat>, buy: bool)
    requires QueueOK(q, buy) && Thins(q, r, at)
    ensures QueueOK(r, buy)
  {
  }

  lemma {:induction false} ThinnedPairOK(b: Book, r: Book, bidAt: seq<nat>, askAt: seq<nat>)
    requires BookOK(b) && Thins(b.bids, r.bids, bidAt) && Thins(b.asks, r.asks, askAt)
    ensures BookOK(r)
  {
    ThinnedQueueOK(b.bids, r.bids, bidAt, true);
    ThinnedQueueOK(b.asks, r.asks, askAt, false);
  }

  lemma {:induction false} ThinnedAbsent(q: seq<Order>, r: seq<Order>, at: seq<nat>, id: OrderId)
    requires Thins(q, r, at) && !Has(q, id)
    ensures !Has(r, id)
  {
  }

  /** Positions `0..n` with `skip` left out. */
  function Positions(n: nat, skip: nat): (at: seq<nat>)
    ensures |at| == if skip < n then n - 1 else n
    ensures forall i :: 0 <= i < |at| ==> at[i] == if i < skip then i else i + 1
  {
    seq(if skip < n then n - 1 else n, i => if i < skip then i else i + 1)
  }

  lemma {:induction false} RemoveAtThins(q: seq<Order>, k: nat, buy: bool)
    requires QueueOK(q, buy) && k < |q|
    ensures Thins(q, RemoveAt(q, k), Positions(|q|, k))
    ensures forall i :: 0 <= i < |q| - 1 ==> RemoveAt(q, k)[i].id != q[k].id
  {
    var r, at := RemoveAt(q, k), Positions(|q|, k);
    forall i | 0 <= i < |r|
      ensures r[i] == q[at[i]] && SameOrder(r[i], q[at[i]]) && 0 < r[i].qty <= r[i].originalQty && r[i].id != q[k].id
    {
      assert OrderOK(q[at[i]], buy);
    }
  }

  lemma {:induction false} RemoveThins(q: seq<Order>, id: OrderId, buy: bool)
    requires QueueOK(q, buy)
    ensures Thins(q, Remove(q, id), Positions(|q|, IndexOf(q, id)))
    ensures !Has(Remove(q, id), id)
  {
    var k := IndexOf(q, id);
    if k < |q| { RemoveAtThins(q, k, buy); }
  }

  lemma {:induction false} ResizeThins(q: seq<Order>, id: OrderId, qty: Qty, buy: bool)
    requires QueueOK(q, buy) && 0 < qty
    ensures Thins(q, Resize(q, id, qty), Positions(|q|, |q|))
  {
    var r := Resize(q, id, qty);
    forall i | 0 <= i < |r|
      ensures SameOrder(r[i], q[i]) && 0 < r[i].qty <= r[i].originalQty
    {
      assert OrderOK(q[i], buy);
    }
  }

  lemma {:induction false} UntouchedThins(q: seq<Order>)
    requires forall i :: 0 <= i < |q| ==> 0 < q[i].qty <= q[i].originalQty
    ensures Thins(q, q, Positions(|q|, |q|))
  {
  }

  lemma {:induction false} ThinsCons(q: seq<Order>, r: seq<Order>, tail: seq<nat>, head: seq<Order>)
    returns (at: seq<nat>)
    requires q != [] && Thins(q[1..], r, tail)
    requires head == [] || (|head| == 1 && SameOrder(head[0], q[0]) && 0 < head[0].qty <= head[0].originalQty)
    ensures Thins(q, head + r, at)
  {
    var r' := head + r;
    at := seq(|head|, i => 0) + seq(|tail|, i requires 0 <= i < |tail| => tail[i] + 1);
    forall i | 0 <= i < |r'|
      ensures at[i] < |q| && SameOrder(r'[i], q[at[i]]) && 0 < r'[i].qty <= r'[i].originalQty
    {
      if i >= |head| { assert r'[i] == r[i - |head|] && q[at[i]] == q[1..][tail[i - |head|]]; }
    }
  }

  lemma {:induction false} SweepThins(t: Taker, q: seq<Order>, qty: Qty) returns (at: seq<nat>)
    requires forall i :: 0 <= i < |q| ==> 0 < q[i].qty <= q[i].originalQty
    ensures Thins(q, Sweep(t, q, qty).rest, at)
  {
    if Stops(t, q, qty) {
      at := Positions(|q|, |q|);
      UntouchedThins(q);
    } else {
      var n := Taken(t, q[0], qty);
      var tail := SweepThins(t, q[1..], qty - n);
      at := ThinsCons(q, Sweep(t, q[1..], qty - n).rest, tail, Kept(t, q[0], n));
    }
  }

  /** A taker left with quantity has cleared every other client's order within its limit. */
  lemma {:induction false} SweepClears(t: Taker, q: seq<Order>, qty: Qty)
    requires SortedByPrice(q, !t.side.BUY?) && LiveQty(q)
    ensures var s := Sweep(t, q, qty);
            s.leaves > 0 ==> forall o :: o in s.rest && Crosses(t, o.price) ==> o.client == t.client
  {
    if Stops(t, q, qty) {
      forall o | o in q && Crosses(t, o.price)
        ensures qty > 0 ==> o.client == t.client
      {
        var i :| 0 <= i < |q| && q[i] == o;
        assert i > 0 ==> AtLeastAsGood(!t.side.BUY?, q[0].price, q[i].price);
      }
    } else {
      var n := Taken(t, q[0], qty);
      SweepClears(t, q[1..], qty - n);
      assert Sweep(t, q, qty).leaves > 0 ==> n < qty;
    }
  }

  // ---------------------------------------------------------------- each operation keeps the invariant

  ghost predicate Absent(b: Book, id: OrderId) {
    !Has(b.bids, id) && !Has(b.asks, id)
  }

  lemma {:induction false} InsertAtElements<T>(q: seq<T>, k: nat, o: T)
    requires k <= |q|
    ensures forall p :: p in InsertAt(q, k, o) <==> p == o || p in q
  {
    assert q == q[..k] + q[k..];
  }

  lemma {:induction false} InsertOK(q: seq<Order>, o: Order, buy: bool)
    requires QueueOK(q, buy) && OrderOK(o, buy) && !Has(q, o.id)
    ensures QueueOK(Insert(q, o, buy), buy)
    ensures forall p :: p in Insert(q, o, buy) <==> p == o || p in q
  {
    InsertSorted(q, o, buy);
    InsertAtElements(q, InsertPos(q, o.price, buy), o);
  }

  /** Resting `o` is harmless when no other client's order faces it at a crossing price. */
  ghost predicate FacesOnlyOwn(b: Book, o: Order) {
    forall p :: p in Opposite(b, o.side) && AtLeastAsGood(!o.side.BUY?, p.price, o.price) ==> p.client == o.client
  }

  lemma {:induction false} RestOK(b: Book, o: Order)
    requires BookOK(b) && Absent(b, o.id) && OrderOK(o, o.side.BUY?) && FacesOnlyOwn(b, o)
    ensures BookOK(RestIn(b, o))
  {
    InsertOK(if o.side.BUY? then b.bids else b.asks, o, o.side.BUY?);
    var r := RestIn(b, o);
    forall i, j | 0 <= i < |r.bids| && 0 <= j < |r.asks|
      ensures r.bids[i].id != r.asks[j].id
      ensures r.bids[i].price >= r.asks[j].price ==> r.bids[i].client == r.asks[j].client
    {
      assert r.bids[i] in r.bids && r.asks[j] in r.asks;
    }
  }

  lemma {:induction false} RemoveOK(b: Book, id: OrderId)
    requires BookOK(b)
    ensures BookOK(RemoveFrom(b, id)) && Absent(RemoveFrom(b, id), id)
    ensures forall o :: o in RemoveFrom(b, id).bids ==> o in b.bids
    ensures forall o :: o in RemoveFrom(b, id).asks ==> o in b.asks
  {
    RemoveThins(b.bids, id, true);
    RemoveThins(b.asks, id, false);
    ThinnedPairOK(b, RemoveFrom(b, id), Positions(|b.bids|, IndexOf(b.bids, id)),
        Positions(|b.asks|, IndexOf(b.asks, id)));
  }

  lemma {:induction false} MatchOK(b: Book, t: Taker, qty: Qty)
    requires BookOK(b)
    ensures BookOK(Match(b, t, qty).0.book)
    ensures Absent(b, t.id) ==> Absent(Match(b, t, qty).0.book, t.id)
  {
    var q := Opposite(b, t.side);
    var at := SweepThins(t, q, qty);
    var r := Match(b, t, qty).0.book;
    if Absent(b, t.id) {
      ThinnedAbsent(q, Opposite(r, t.side), at, t.id);
    }
    if t.side.BUY? {
      UntouchedThins(b.bids);
      ThinnedPairOK(b, r, Positions(|b.bids|, |b.bids|), at);
    } else {
      UntouchedThins(b.asks);
      ThinnedPairOK(b, r, at, Positions(|b.asks|, |b.asks|));
    }
  }

  lemma {:induction false} MatchAndRestOK(b: Book, t: Taker, qty: Qty, now: Nanos)
    requires BookOK(b) && Absent(b, t.id) && t.hasLimit && 0 < t.limit
    ensures BookOK(MatchAndRest(b, t, LIMIT, qty, now).book)
  {
    var (m, leaves) := Match(b, t, qty);
    MatchOK(b, t, qty);
    if leaves > 0 {
      SweepClears(t, Opposite(b, t.side), qty);
      RestOK(m.book, Order(t.id, t.client, LIMIT, t.side, t.limit, qty, leaves, now));
    }
  }

  lemma {:induction false} FoundOK(b: Book, id: OrderId)
    requires BookOK(b) && Find(b, id).Some?
    ensures var o := Find(b, id).value;
            && o.id == id && OrderOK(o, o.side.BUY?)
            && o in (if o.side.BUY? then b.bids else b.asks)
            && FacesOnlyOwn(b, o)
  {
    var o := Find(b, id).value;
    forall p | p in Opposite(b, o.side) && AtLeastAsGood(!o.side.BUY?, p.price, o.price)
      ensures p.client == o.client
    {
    }
  }

  lemma {:induction false} ModifyOK(b: Book, client: ClientId, id: OrderId, price: Price, qty: Qty, now: Nanos)
    requires BookOK(b)
    ensures BookOK(Modify(b, client, id, price, qty, now).book)
  {
    if Owns(b, client, id) && 0 < qty < INVALID_QTY && price > 0 {
      var o := Find(b, id).value;
      FoundOK(b, id);
      RemoveOK(b, id);
      if price != o.price {
        MatchAndRestOK(RemoveFrom(b, id), Taker(client, id, o.side, price, true), qty, now);
      } else if qty < o.qty {
        ResizeThins(b.bids, id, qty, true);
        ResizeThins(b.asks, id, qty, false);
        ThinnedPairOK(b, b.(bids := Resize(b.bids, id, qty), asks := Resize(b.asks, id, qty)),
                      Positions(|b.bids|, |b.bids|), Positions(|b.asks|, |b.asks|));
      } else if qty > o.qty {
        RestOK(RemoveFrom(b, id), Order(id, client, o.typ, o.side, price, qty, qty, now));
      }
    }
  }

  lemma {:induction false} StepOK(b: Book, r: Request, now: Nanos)
    requires BookOK(b)
    ensures BookOK(Step(b, r, now).book)
  {
    if !Malformed(r) {
      match r.typ
      case LIMIT =>
        if Find(b, r.id).None? { MatchAndRestOK(b, Taker(r.client, r.id, r.side, r.price, true), r.qty, now); }
      case MARKET => MatchOK(b, Taker(r.client, r.id, r.side, INVALID_PRICE, false), r.qty);
      case IOC => MatchOK(b, Taker(r.client, r.id, r.side, r.price, true), r.qty);
      case CANCEL => RemoveOK(b, r.id);
      case MODIFY => ModifyOK(b, r.client, r.id, r.price, r.qty, now);
    }
  }

  /** In every reachable book both sides are sorted, ids are unique, quantities are live, and no two
      clients' orders cross, although self-trade prevention lets one client's own orders cross. */
  lemma {:induction false} ReachableOK(symbol: Symbol, ins: seq<Input>)
    ensures BookOK(Run(symbol, ins).book)
  {
    if ins != [] {
      ReachableOK(symbol, ins[..|ins| - 1]);
      var last := ins[|ins| - 1];
      StepOK(Run(symbol, ins[..|ins| - 1]).book, last.request, last.now);
    }
  }
}
