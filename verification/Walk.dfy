/** Reading the linked representation by following its pointers: what the lists spell out is the flat book,
    and nothing but the flat book. */
module Walk {
  import opened Types
  import opened Matching
  import opened Links
  import opened OrderBook
  import opened Seal

  /** The orders met by following `next` from `r`, at most `n` of them. */
  function Forward(os: Orders, r: Ref, n: nat): seq<Order>
    decreases n
  {
    if r.Null? || n == 0 || r.block >= |os| then []
    else [os[r.block].value.order] + Forward(os, os[r.block].value.next, n - 1)
  }

  /** The orders met by following `prev` from `r`, at most `n` of them, last one first. */
  function Backward(os: Orders, r: Ref, n: nat): seq<Order>
    decreases n
  {
    if r.Null? || n == 0 || r.block >= |os| then []
    else Backward(os, os[r.block].value.prev, n - 1) + [os[r.block].value.order]
  }

  /** The orders at one price, oldest first. */
  function AtPrice(q: seq<Order>, p: Price): (r: seq<Order>)
    ensures |r| == Count(q, p)
  {
    if q == [] then [] else (if q[0].price == p then [q[0]] else []) + AtPrice(q[1..], p)
  }

  lemma {:induction false} AtPriceConcat(q: seq<Order>, r: seq<Order>, p: Price)
    ensures AtPrice(q + r, p) == AtPrice(q, p) + AtPrice(r, p)
  {
    if q == [] {
      assert q + r == r;
    } else {
      AtPriceConcat(q[1..], r, p);
      assert (q + r)[1..] == q[1..] + r;
      Assoc(if q[0].price == p then [q[0]] else [], AtPrice(q[1..], p), AtPrice(r, p));
    }
  }

  lemma {:induction false} NoneAtPrice(q: seq<Order>, p: Price)
    requires forall i :: 0 <= i < |q| ==> q[i].price != p
    ensures AtPrice(q, p) == []
  {
    if q != [] { NoneAtPrice(q[1..], p); }
  }

  /** From the `i`-th order on, the list spells out the rest of its level. */
  lemma {:induction false} ForwardFrom(x: Ladder, os: Orders, buy: bool, i: nat, n: nat)
    requires ShapeOK(x, buy) && NodesOK(x, os) && i < |x.nodes| && n >= Count(x.queue[i..], x.queue[i].price)
    ensures Forward(os, At(x.nodes[i]), n) == AtPrice(x.queue[i..], x.queue[i].price)
    decreases |x.nodes| - i
  {
    var q, p := x.queue, x.queue[i].price;
    assert NodeOK(x, os, i);
    assert q[i..][1..] == q[i + 1..];
    assert n > 0;
    if i + 1 < |q| && q[i + 1].price == p {
      ForwardFrom(x, os, buy, i + 1, n - 1);
    } else {
      forall j | i < j < |q|
        ensures q[j].price != p
      {
        if q[j].price == p { SortedBetween(q, buy, i, i + 1, j); }
      }
      NoneAtPrice(q[i + 1..], p);
    }
  }

  lemma {:induction false} BackwardFrom(x: Ladder, os: Orders, buy: bool, i: nat, n: nat)
    requires ShapeOK(x, buy) && NodesOK(x, os) && i < |x.nodes| && n >= Count(x.queue[..i + 1], x.queue[i].price)
    ensures Backward(os, At(x.nodes[i]), n) == AtPrice(x.queue[..i + 1], x.queue[i].price)
    decreases i
  {
    var q, p := x.queue, x.queue[i].price;
    assert NodeOK(x, os, i);
    assert q[..i + 1] == q[..i] + [q[i]];
    AtPriceConcat(q[..i], [q[i]], p);
    assert AtPrice([q[i]], p) == [q[i]];
    assert n > 0;
    if i > 0 && q[i - 1].price == p {
      BackwardFrom(x, os, buy, i - 1, n - 1);
    } else {
      forall j | 0 <= j < i
        ensures q[j].price != p
      {
        if q[j].price == p { SortedBetween(q, buy, j, i - 1, i); }
      }
      NoneAtPrice(q[..i], p);
    }
  }

  ghost predicate FirstAt(q: seq<Order>, p: Price, i: nat) {
    i < |q| && q[i].price == p && forall j :: 0 <= j < i ==> q[j].price != p
  }

  ghost predicate LastAt(q: seq<Order>, p: Price, i: nat) {
    i < |q| && q[i].price == p && forall j :: i < j < |q| ==> q[j].price != p
  }

  lemma {:induction false} FindFirst(q: seq<Order>, p: Price, k: nat) returns (i: nat)
    requires k < |q| && q[k].price == p
    ensures FirstAt(q, p, i)
  {
    i := 0;
    while q[i].price != p
      invariant i <= k && forall j :: 0 <= j < i ==> q[j].price != p
      decreases k - i
    {
      i := i + 1;
    }
  }

  lemma {:induction false} FindLast(q: seq<Order>, p: Price, k: nat) returns (i: nat)
    requires k < |q| && q[k].price == p
    ensures LastAt(q, p, i)
  {
    i := |q| - 1;
    while q[i].price != p
      invariant k <= i < |q| && forall j :: i < j < |q| ==> q[j].price != p
      decreases i
    {
      i := i - 1;
    }
  }

  lemma {:induction false} AtPriceFrom(q: seq<Order>, p: Price, i: nat)
    requires FirstAt(q, p, i)
    ensures AtPrice(q[i..], p) == AtPrice(q, p)
  {
    NoneAtPrice(q[..i], p);
    AtPriceConcat(q[..i], q[i..], p);
    assert q[..i] + q[i..] == q;
  }

  lemma {:induction false} AtPriceUpTo(q: seq<Order>, p: Price, j: nat)
    requires LastAt(q, p, j)
    ensures AtPrice(q[..j + 1], p) == AtPrice(q, p)
  {
    NoneAtPrice(q[j + 1..], p);
    AtPriceConcat(q[..j + 1], q[j + 1..], p);
    assert q[..j + 1] + q[j + 1..] == q;
  }

  lemma {:induction false} ForwardLevel(x: Ladder, os: Orders, ls: Levels, buy: bool, p: Price, i: nat, n: nat)
    requires ShapeOK(x, buy) && NodesOK(x, os) && FirstAt(x.queue, p, i) && LevelOK(x, ls, i) && n >= Count(x.queue, p)
    ensures Forward(os, ls[x.lv[p]].value.head, n) == AtPrice(x.queue, p)
  {
    AtPriceFrom(x.queue, p, i);
    ForwardFrom(x, os, buy, i, n);
  }

  lemma {:induction false} BackwardLevel(x: Ladder, os: Orders, ls: Levels, buy: bool, p: Price, j: nat, n: nat)
    requires ShapeOK(x, buy) && NodesOK(x, os) && LastAt(x.queue, p, j) && LevelOK(x, ls, j) && n >= Count(x.queue, p)
    ensures Backward(os, ls[x.lv[p]].value.tail, n) == AtPrice(x.queue, p)
  {
    AtPriceUpTo(x.queue, p, j);
    BackwardFrom(x, os, buy, j, n);
  }

  /** A level's list, followed from its head, is exactly the orders resting at its price, oldest first, and
      then ends: allowing more hops than `order_count_` adds nothing. Followed from its tail it is the same
      list, and the count is its length. */
  lemma {:induction false} LevelSpellsOrders(x: Ladder, os: Orders, ls: Levels, buy: bool, p: Price, n: nat)
    requires SideOK(x, os, ls, buy) && p in x.lv
    ensures x.lv[p] < |ls|
    ensures var l := ls[x.lv[p]].value;
            && l.price == p && 0 < l.count == |AtPrice(x.queue, p)|
            && (n >= l.count
                ==> Forward(os, l.head, n) == AtPrice(x.queue, p) && Backward(os, l.tail, n) == AtPrice(x.queue, p))
  {
    var q := x.queue;
    var k :| 0 <= k < |q| && q[k].price == p;
    CountPositive(q, p);
    assert LevelOK(x, ls, k);
    if n >= Count(q, p) {
      var i := FindFirst(q, p, k);
      ForwardLevel(x, os, ls, buy, p, i, n);
      var j := FindLast(q, p, k);
      BackwardLevel(x, os, ls, buy, p, j, n);
    }
  }

  // ---------------------------------------------------------------- one reading only

  lemma {:induction false} AtPriceHead(q: seq<Order>)
    requires q != []
    ensures AtPrice(q, q[0].price) != [] && AtPrice(q, q[0].price)[0] == q[0]
  {
  }

  lemma {:induction false} AtPriceMember(q: seq<Order>, p: Price)
    requires AtPrice(q, p) != []
    ensures exists i :: 0 <= i < |q| && q[i].price == p
  {
    if q[0].price != p {
      AtPriceMember(q[1..], p);
      var i :| 0 <= i < |q[1..]| && q[1..][i].price == p;
      assert q[i + 1].price == p;
    }
  }

  ghost predicate SameLevels(q: seq<Order>, r: seq<Order>) {
    forall p :: AtPrice(q, p) == AtPrice(r, p)
  }

  lemma {:induction false} SameHead(q: seq<Order>, r: seq<Order>, buy: bool)
    requires SortedByPrice(q, buy) && SortedByPrice(r, buy) && SameLevels(q, r) && q != []
    ensures r != [] && q[0] == r[0]
  {
    AtPriceHead(q);
    AtPriceMember(r, q[0].price);
    var i :| 0 <= i < |r| && r[i].price == q[0].price;
    AtPriceHead(r);
    AtPriceMember(q, r[0].price);
    var j :| 0 <= j < |q| && q[j].price == r[0].price;
    assert r[0].price == q[0].price;
  }

  lemma {:induction false} SameTails(q: seq<Order>, r: seq<Order>, p: Price)
    requires q != [] && r != [] && q[0] == r[0] && AtPrice(q, p) == AtPrice(r, p)
    ensures AtPrice(q[1..], p) == AtPrice(r[1..], p)
  {
    var head := if q[0].price == p then [q[0]] else [];
    assert AtPrice(q, p)[|head|..] == AtPrice(q[1..], p);
    assert AtPrice(r, p)[|head|..] == AtPrice(r[1..], p);
  }

  /** A side is determined by its levels. */
  lemma {:induction false} LevelsDetermineSide(q: seq<Order>, r: seq<Order>, buy: bool)
    requires SortedByPrice(q, buy) && SortedByPrice(r, buy) && SameLevels(q, r)
    ensures q == r
    decreases |q|
  {
    if q == [] {
      if r != [] { SameHead(r, q, buy); }
    } else {
      SameHead(q, r, buy);
      forall p ensures AtPrice(q[1..], p) == AtPrice(r[1..], p) {
        SameTails(q, r, p);
      }
      LevelsDetermineSide(q[1..], r[1..], buy);
      assert q == [q[0]] + q[1..] && r == [r[0]] + r[1..];
    }
  }

  /** The maps, lists and pools of a well-formed side stand for one list of orders only: the flat book is not
      a choice of the proof but what the memory says. */
  lemma {:induction false} OneReading(x: Ladder, y: Ladder, os: Orders, ls: Levels, buy: bool)
    requires SideOK(x, os, ls, buy) && SideOK(y, os, ls, buy) && x.lv == y.lv
    ensures x.queue == y.queue
  {
    forall p ensures AtPrice(x.queue, p) == AtPrice(y.queue, p) {
      if p in x.lv {
        LevelSpellsOrders(x, os, ls, buy, p, 0);
        var n := ls[x.lv[p]].value.count;
        LevelSpellsOrders(x, os, ls, buy, p, n);
        LevelSpellsOrders(y, os, ls, buy, p, n);
      } else {
        NoLevelNoOrders(x, ls, p);
        NoLevelNoOrders(y, ls, p);
      }
    }
    LevelsDetermineSide(x.queue, y.queue, buy);
  }

  lemma {:induction false} NoLevelNoOrders(x: Ladder, ls: Levels, p: Price)
    requires |x.queue| == |x.nodes| && LevelsOK(x, ls) && p !in x.lv
    ensures AtPrice(x.queue, p) == []
  {
    forall i | 0 <= i < |x.queue|
      ensures x.queue[i].price != p
    {
      assert LevelOK(x, ls, i);
    }
    NoneAtPrice(x.queue, p);
  }

  /** Of a well-formed book object, the flat contents the operations speak about are what its own fields spell
      out: each mapped level, walked from head or tail, gives the orders the contents have at that price, and
      a price that is not mapped has none. */
  lemma {:induction false} ContentsSpelled(book: SymbolOrderBook, buy: bool, p: Price, n: nat)
    requires book.Valid()
    ensures var lv := if buy then book.bids else book.asks;
            var orders := AtPrice(if buy then book.Contents().bids else book.Contents().asks, p);
            && (p !in lv ==> orders == [])
            && (p in lv ==>
                && lv[p] < book.levelPool.store.Length
                && var l := book.levelPool.store[lv[p]].value;
                   && l.price == p && l.count == |orders| > 0
                   && (n >= l.count ==> Forward(book.OrderBlocks(), l.head, n) == orders
                                        && Backward(book.OrderBlocks(), l.tail, n) == orders))
  {
    var x, os, ls := book.Rungs(buy), book.OrderBlocks(), book.LevelBlocks();
    SideIsOK(book, buy);
    if p in x.lv {
      LevelSpellsOrders(x, os, ls, buy, p, n);
    } else {
      NoLevelNoOrders(x, ls, p);
    }
  }

  lemma {:induction false} SideIsOK(book: SymbolOrderBook, buy: bool)
    requires book.Valid()
    ensures SideOK(book.Rungs(buy), book.OrderBlocks(), book.LevelBlocks(), buy)
  {
    assert Look(Structure);
    book.SoundFor(buy);
  }
}
