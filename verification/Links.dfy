/** The linked representation of one side of a book: price levels in a map, the orders of a level in a
    doubly linked list threaded through pool blocks, all of it tied to the flat list it stands for. */
module Links {
  import opened Types
  import opened Seal
  import opened Book
  import opened Matching
  import opened MemPool

  /** A pointer to a pool block. */
  datatype Ref = Null | At(block: nat)

  datatype BookOrder = BookOrder(order: Order, prev: Ref, next: Ref)

  datatype PriceLevel = PriceLevel(price: Price, head: Ref, tail: Ref, count: nat)

  type Orders = seq<ObjectBlock<BookOrder>>
  type Levels = seq<ObjectBlock<PriceLevel>>

  /** One side: its price map, and (for the proof) its blocks and orders in priority order. */
  datatype Ladder = Ladder(nodes: seq<nat>, queue: seq<Order>, lv: map<Price, nat>)

  // ---------------------------------------------------------------- the invariant of a side

  function PrevRef(sd: Ladder, i: nat): Ref
    requires i < |sd.queue| == |sd.nodes|
  {
    if i > 0 && sd.queue[i - 1].price == sd.queue[i].price then At(sd.nodes[i - 1]) else Null
  }

  function NextRef(sd: Ladder, i: nat): Ref
    requires i < |sd.queue| == |sd.nodes|
  {
    if i + 1 < |sd.queue| && sd.queue[i + 1].price == sd.queue[i].price then At(sd.nodes[i + 1]) else Null
  }

  function Count(q: seq<Order>, p: Price): nat {
    if q == [] then 0 else (if q[0].price == p then 1 else 0) + Count(q[1..], p)
  }

  /** The block of the `i`-th order holds that order, linked to its neighbours at the same price. */
  ghost predicate NodeOK(sd: Ladder, os: Orders, i: nat)
    requires i < |sd.queue| == |sd.nodes|
  {
    sd.nodes[i] < |os| && os[sd.nodes[i]].value == BookOrder(sd.queue[i], PrevRef(sd, i), NextRef(sd, i))
  }

  /** The price of the `i`-th order has a level whose head and tail are the first and last order there and
      whose count is their number. */
  ghost predicate LevelOK(sd: Ladder, ls: Levels, i: nat)
    requires i < |sd.queue| == |sd.nodes|
  {
    var p := sd.queue[i].price;
    && p in sd.lv && sd.lv[p] < |ls|
    && var l := ls[sd.lv[p]].value;
       && l.price == p && l.count == Count(sd.queue, p)
       && (PrevRef(sd, i).Null? ==> l.head == At(sd.nodes[i]))
       && (NextRef(sd, i).Null? ==> l.tail == At(sd.nodes[i]))
  }

  ghost predicate Occupied(q: seq<Order>, p: Price) {
    exists i :: 0 <= i < |q| && q[i].price == p
  }

  ghost predicate Distinct(ns: seq<nat>) {
    forall i, j :: 0 <= i < j < |ns| ==> ns[i] != ns[j]
  }

  ghost predicate NodesOK(sd: Ladder, os: Orders)
    requires |sd.queue| == |sd.nodes|
  {
    forall i :: 0 <= i < |sd.nodes| ==> NodeOK(sd, os, i)
  }

  ghost predicate LevelsOK(sd: Ladder, ls: Levels)
    requires |sd.queue| == |sd.nodes|
  {
    forall i :: 0 <= i < |sd.nodes| ==> LevelOK(sd, ls, i)
  }

  ghost predicate Injective(lv: map<Price, nat>) {
    forall p, r :: p in lv && r in lv && p != r ==> lv[p] != lv[r]
  }

  /** Best price first, each block once, the right side, and no level without orders. */
  ghost predicate ShapeOK(sd: Ladder, buy: bool) {
    && |sd.queue| == |sd.nodes|
    && SortedByPrice(sd.queue, buy)
    && Distinct(sd.nodes)
    && (forall i :: 0 <= i < |sd.queue| ==> sd.queue[i].side.BUY? == buy)
    && (forall p :: p in sd.lv ==> Occupied(sd.queue, p))
    && Injective(sd.lv)
  }

  ghost predicate SideOK(sd: Ladder, os: Orders, ls: Levels, buy: bool) {
    ShapeOK(sd, buy) && NodesOK(sd, os) && LevelsOK(sd, ls)
  }

  // ---------------------------------------------------------------- counting

  lemma {:induction false} CountConcat(q: seq<Order>, r: seq<Order>, p: Price)
    ensures Count(q + r, p) == Count(q, p) + Count(r, p)
  {
    if q == [] {
      assert q + r == r;
    } else {
      CountConcat(q[1..], r, p);
      assert (q + r)[1..] == q[1..] + r;
    }
  }

  lemma {:induction false} CountInserted(q: seq<Order>, k: nat, o: Order, p: Price)
    requires k <= |q|
    ensures Count(InsertAt(q, k, o), p) == Count(q, p) + if o.price == p then 1 else 0
  {
    assert q == q[..k] + q[k..];
    CountConcat(q[..k], q[k..], p);
    CountConcat(q[..k] + [o], q[k..], p);
    CountConcat(q[..k], [o], p);
  }

  lemma {:induction false} CountRemoved(q: seq<Order>, k: nat, p: Price)
    requires k < |q|
    ensures Count(q, p) == Count(RemoveAt(q, k), p) + if q[k].price == p then 1 else 0
  {
    assert InsertAt(RemoveAt(q, k), k, q[k]) == q;
    CountInserted(RemoveAt(q, k), k, q[k], p);
  }

  lemma {:induction false} CountReplaced(q: seq<Order>, k: nat, o: Order, p: Price)
    requires k < |q| && o.price == q[k].price
    ensures Count(q[k := o], p) == Count(q, p)
  {
    CountRemoved(q, k, p);
    CountRemoved(q[k := o], k, p);
    assert RemoveAt(q[k := o], k) == RemoveAt(q, k);
  }

  lemma {:induction false} CountPositive(q: seq<Order>, p: Price)
    ensures Count(q, p) > 0 <==> Occupied(q, p)
  {
    if q != [] {
      CountPositive(q[1..], p);
      if Occupied(q[1..], p) {
        var i :| 0 <= i < |q[1..]| && q[1..][i].price == p;
        assert q[i + 1].price == p;
      }
      if Occupied(q, p) && q[0].price != p {
        var i :| 0 <= i < |q| && q[i].price == p;
        assert q[1..][i - 1].price == p;
      }
    }
  }

  // ---------------------------------------------------------------- in-place edits of blocks

  function SetNext(os: Orders, n: nat, r: Ref): Orders
    requires n < |os|
  {
    os[n := os[n].(value := os[n].value.(next := r))]
  }

  function SetPrev(os: Orders, n: nat, r: Ref): Orders
    requires n < |os|
  {
    os[n := os[n].(value := os[n].value.(prev := r))]
  }

  ghost predicate RefOK(r: Ref, n: nat) {
    r.At? ==> r.block < n
  }

  /** The order blocks after bypassing block `n` in its list. */
  function Bypass(os: Orders, n: nat): (r: Orders)
    requires n < |os| && RefOK(os[n].value.prev, |os|) && RefOK(os[n].value.next, |os|)
    ensures |r| == |os|
  {
    var o := os[n].value;
    var os1 := if o.prev.At? then SetNext(os, o.prev.block, o.next) else os;
    if o.next.At? then SetPrev(os1, o.next.block, o.prev) else os1
  }

  /** The level after bypassing an order with links `prev` and `next`. */
  function Shrink(l: PriceLevel, prev: Ref, next: Ref): PriceLevel
    requires 0 < l.count
  {
    PriceLevel(l.price, if prev.At? then l.head else next, if next.At? then l.tail else prev, l.count - 1)
  }

  // ---------------------------------------------------------------- removal

  function Without(sd: Ladder, k: nat): Ladder
    requires k < |sd.queue| == |sd.nodes|
  {
    var p := sd.queue[k].price;
    Ladder(RemoveAt(sd.nodes, k), RemoveAt(sd.queue, k), if Count(sd.queue, p) == 1 then sd.lv - {p} else sd.lv)
  }

  lemma {:induction false} SortedBetween(q: seq<Order>, buy: bool, i: nat, j: nat, k: nat)
    requires SortedByPrice(q, buy) && i <= j <= k < |q| && q[i].price == q[k].price
    ensures q[j].price == q[i].price
  {
    assert i < j ==> AtLeastAsGood(buy, q[i].price, q[j].price);
    assert j < k ==> AtLeastAsGood(buy, q[j].price, q[k].price);
  }

  /** Orders on both sides of position `k` share a price only if the order at `k` has it too. */
  ghost predicate NoGap(q: seq<Order>, k: nat) {
    0 < k < |q| - 1 && q[k - 1].price == q[k + 1].price ==> q[k].price == q[k - 1].price
  }

  lemma {:induction false} SortedHasNoGap(q: seq<Order>, buy: bool, k: nat)
    requires SortedByPrice(q, buy)
    ensures NoGap(q, k)
  {
    if 0 < k < |q| - 1 && q[k - 1].price == q[k + 1].price {
      SortedBetween(q, buy, k - 1, k, k + 1);
    }
  }

  /** After a removal the survivors' links are the old ones with the removed order bypassed. */
  lemma {:induction false} WithoutPrev(sd: Ladder, k: nat, i: nat)
    requires k < |sd.queue| == |sd.nodes| && i < |sd.queue| && i != k && NoGap(sd.queue, k)
    ensures PrevRef(Without(sd, k), if i < k then i else i - 1)
         == if i == k + 1 && PrevRef(sd, i).At? then PrevRef(sd, k) else PrevRef(sd, i)
  {
  }

  lemma {:induction false} WithoutNext(sd: Ladder, k: nat, i: nat)
    requires k < |sd.queue| == |sd.nodes| && i < |sd.queue| && i != k && NoGap(sd.queue, k)
    ensures NextRef(Without(sd, k), if i < k then i else i - 1)
         == if i + 1 == k && NextRef(sd, i).At? then NextRef(sd, k) else NextRef(sd, i)
  {
  }

  ghost predicate NeighboursOK(sd: Ladder, os: Orders, k: nat)
    requires k < |sd.queue| == |sd.nodes|
  {
    && NodeOK(sd, os, k)
    && (k > 0 ==> NodeOK(sd, os, k - 1))
    && (k + 1 < |sd.nodes| ==> NodeOK(sd, os, k + 1))
  }

  lemma {:induction false} BypassedNode(sd: Ladder, os: Orders, k: nat, i: nat)
    requires k < |sd.queue| == |sd.nodes| && i < |sd.queue| && i != k && NoGap(sd.queue, k)
    requires Distinct(sd.nodes) && NeighboursOK(sd, os, k) && NodeOK(sd, os, i)
    ensures NodeOK(Without(sd, k), Bypass(os, sd.nodes[k]), if i < k then i else i - 1)
  {
    WithoutPrev(sd, k, i);
    WithoutNext(sd, k, i);
    var n := sd.nodes[i];
    assert k > 0 && i != k - 1 ==> n != sd.nodes[k - 1];
    assert k + 1 < |sd.nodes| && i != k + 1 ==> n != sd.nodes[k + 1];
  }

  lemma {:induction false} BypassTouches(sd: Ladder, os: Orders, k: nat, n: nat)
    requires k < |sd.queue| == |sd.nodes| && NeighboursOK(sd, os, k) && n < |os|
    ensures n !in sd.nodes ==> Bypass(os, sd.nodes[k])[n] == os[n]
    ensures Bypass(os, sd.nodes[k])[n].isFree == os[n].isFree
  {
  }

  /** The level blocks after removing order `k`; an emptied level is freed. */
  function ShrunkLevels(sd: Ladder, ls: Levels, k: nat): Levels
    requires k < |sd.queue| == |sd.nodes| && LevelOK(sd, ls, k)
  {
    var p := sd.queue[k].price;
    var b := ls[sd.lv[p]];
    if b.value.count == 0 then ls
    else ls[sd.lv[p] := ObjectBlock(Shrink(b.value, PrevRef(sd, k), NextRef(sd, k)),
                                    if b.value.count == 1 then true else b.isFree)]
  }

  /** The other orders of the price of order `k`, if any, include a neighbour of `k`. */
  ghost predicate Adjoining(q: seq<Order>, k: nat, j: nat)
    requires k < |q| && j < |q| && j != k
  {
    q[j].price == q[k].price ==>
      if j < k then q[k - 1].price == q[k].price == q[j + 1].price else q[k + 1].price == q[k].price == q[j - 1].price
  }

  lemma {:induction false} LevelContiguous(q: seq<Order>, buy: bool, k: nat, j: nat)
    requires SortedByPrice(q, buy) && k < |q| && j < |q| && j != k
    ensures Adjoining(q, k, j)
  {
    if q[j].price == q[k].price {
      var lo, hi := if j < k then j else k, if j < k then k else j;
      SortedBetween(q, buy, lo, lo + 1, hi);
      SortedBetween(q, buy, lo, hi - 1, hi);
    }
  }

  lemma {:induction false} RemovedCounts(q: seq<Order>, k: nat, j: nat)
    requires k < |q| && j < |q| && j != k
    ensures var p, r := q[j].price, q[k].price;
            && Count(q, p) == Count(RemoveAt(q, k), p) + (if r == p then 1 else 0)
            && Count(q, r) == Count(RemoveAt(q, k), r) + 1
            && (p == r ==> Count(q, r) > 1)
  {
    var p, r := q[j].price, q[k].price;
    CountRemoved(q, k, p);
    CountRemoved(q, k, r);
    CountPositive(RemoveAt(q, k), r);
    assert RemoveAt(q, k)[if j < k then j else j - 1] == q[j];
  }

  lemma {:induction false} ShrunkLevelOK(sd: Ladder, ls: Levels, k: nat, j: nat)
    requires k < |sd.queue| == |sd.nodes| && j < |sd.queue| && j != k && NoGap(sd.queue, k)
    requires LevelOK(sd, ls, j) && LevelOK(sd, ls, k)
    requires Adjoining(sd.queue, k, j)
    requires sd.queue[j].price != sd.queue[k].price ==> sd.lv[sd.queue[j].price] != sd.lv[sd.queue[k].price]
    ensures LevelOK(Without(sd, k), ShrunkLevels(sd, ls, k), if j < k then j else j - 1)
  {
    WithoutPrev(sd, k, j);
    WithoutNext(sd, k, j);
    RemovedCounts(sd.queue, k, j);
    assert Without(sd, k).queue[if j < k then j else j - 1] == sd.queue[j];
  }

  lemma {:induction false} RemovedShapeOK(sd: Ladder, buy: bool, k: nat)
    requires ShapeOK(sd, buy) && k < |sd.nodes|
    ensures ShapeOK(Without(sd, k), buy)
  {
    var sd' := Without(sd, k);
    forall r | r in sd'.lv
      ensures Occupied(sd'.queue, r)
    {
      StillOccupied(sd.queue, k, r);
    }
  }

  lemma {:induction false} RemovedNodeOK(sd: Ladder, os: Orders, k: nat, i: nat)
    requires k < |sd.queue| == |sd.nodes| && NeighboursOK(sd, os, k) && NodesOK(sd, os) && Distinct(sd.nodes)
    requires NoGap(sd.queue, k) && i < |sd.nodes| - 1
    ensures NodeOK(Without(sd, k), Bypass(os, sd.nodes[k]), i)
  {
    var j := if i < k then i else i + 1;
    assert NodeOK(sd, os, j);
    BypassedNode(sd, os, k, j);
  }

  lemma {:induction false} RemovedNodesOK(sd: Ladder, os: Orders, buy: bool, k: nat)
    requires ShapeOK(sd, buy) && NodesOK(sd, os) && k < |sd.nodes|
    ensures NeighboursOK(sd, os, k) && NodesOK(Without(sd, k), Bypass(os, sd.nodes[k]))
  {
    SortedHasNoGap(sd.queue, buy, k);
    assert NeighboursOK(sd, os, k);
    forall i | 0 <= i < |sd.nodes| - 1
      ensures NodeOK(Without(sd, k), Bypass(os, sd.nodes[k]), i)
    {
      RemovedNodeOK(sd, os, k, i);
    }
  }

  lemma {:induction false} RemovedLevelsOK(sd: Ladder, ls: Levels, buy: bool, k: nat)
    requires ShapeOK(sd, buy) && LevelsOK(sd, ls) && k < |sd.nodes|
    ensures LevelOK(sd, ls, k) && 0 < Count(sd.queue, sd.queue[k].price)
    ensures LevelsOK(Without(sd, k), ShrunkLevels(sd, ls, k))
  {
    SortedHasNoGap(sd.queue, buy, k);
    assert LevelOK(sd, ls, k);
    CountRemoved(sd.queue, k, sd.queue[k].price);
    forall i | 0 <= i < |sd.nodes| - 1
      ensures LevelOK(Without(sd, k), ShrunkLevels(sd, ls, k), i)
    {
      var j := if i < k then i else i + 1;
      LevelContiguous(sd.queue, buy, k, j);
      assert LevelOK(sd, ls, j);
      ShrunkLevelOK(sd, ls, k, j);
    }
  }

  /** Removing order `k` and bypassing its block keeps the side well linked. */
  lemma {:induction false} RemovedSideOK(sd: Ladder, os: Orders, ls: Levels, buy: bool, k: nat)
    requires SideOK(sd, os, ls, buy) && k < |sd.nodes|
    ensures NeighboursOK(sd, os, k) && LevelOK(sd, ls, k) && 0 < Count(sd.queue, sd.queue[k].price)
    ensures SideOK(Without(sd, k), Bypass(os, sd.nodes[k]), ShrunkLevels(sd, ls, k), buy)
  {
    RemovedShapeOK(sd, buy, k);
    RemovedNodesOK(sd, os, buy, k);
    RemovedLevelsOK(sd, ls, buy, k);
  }

  lemma {:induction false} StillOccupied(q: seq<Order>, k: nat, r: Price)
    requires k < |q| && Occupied(q, r) && (q[k].price == r ==> Count(q, r) != 1)
    ensures Occupied(RemoveAt(q, k), r)
  {
    CountRemoved(q, k, r);
    CountPositive(q, r);
    CountPositive(RemoveAt(q, k), r);
  }

  // ---------------------------------------------------------------- insertion

  function With(sd: Ladder, k: nat, n: nat, o: Order, lp: nat): Ladder
    requires k <= |sd.queue| == |sd.nodes|
  {
    Ladder(InsertAt(sd.nodes, k, n), InsertAt(sd.queue, k, o), sd.lv[o.price := lp])
  }

  /** The level after appending block `n`. */
  function Grow(l: PriceLevel, n: nat): PriceLevel {
    PriceLevel(l.price, if l.tail.At? then l.head else At(n), At(n), l.count + 1)
  }

  /** The order blocks after block `n` is linked behind the tail of level `l`. */
  function Append(os: Orders, l: PriceLevel, n: nat, o: Order): (r: Orders)
    requires n < |os| && RefOK(l.tail, |os|)
    ensures |r| == |os|
  {
    var os1 := os[n := os[n].(value := BookOrder(o, l.tail, Null))];
    if l.tail.At? then SetNext(os1, l.tail.block, At(n)) else os1
  }

  /** Position `k` is where the level of price `p` ends, or would stand. */
  ghost predicate LevelEnd(q: seq<Order>, k: nat, p: Price)
    requires k <= |q|
  {
    && (k < |q| ==> q[k].price != p)
    && (0 < k < |q| ==> q[k - 1].price != q[k].price)
  }

  /** Level block `l` is ready to take another order of price `p` at position `k`. */
  ghost predicate Ready(sd: Ladder, l: PriceLevel, k: nat, p: Price)
    requires k <= |sd.queue| == |sd.nodes|
  {
    && l.price == p && l.count == Count(sd.queue, p)
    && l.tail == if 0 < k && sd.queue[k - 1].price == p then At(sd.nodes[k - 1]) else Null
  }

  /** Inserting where a level ends changes one link only: that of the order now followed by the new one. */
  lemma {:induction false} AppendedRefs(sd: Ladder, k: nat, n: nat, o: Order, lp: nat, i: nat)
    requires k <= |sd.queue| == |sd.nodes| && i < |sd.nodes| && LevelEnd(sd.queue, k, o.price)
    ensures var sd', i' := With(sd, k, n, o, lp), if i < k then i else i + 1;
            && sd'.queue[i'] == sd.queue[i] && sd'.nodes[i'] == sd.nodes[i] && PrevRef(sd', i') == PrevRef(sd, i)
            && NextRef(sd', i') == if i + 1 == k && sd.queue[i].price == o.price then At(n) else NextRef(sd, i)
  {
  }

  lemma {:induction false} AppendedBlock(os: Orders, l: PriceLevel, n: nat, o: Order, m: nat)
    requires n < |os| && m < |os| && m != n && RefOK(l.tail, |os|)
    ensures Append(os, l, n, o)[m].value == if l.tail == At(m) then os[m].value.(next := At(n)) else os[m].value
  {
  }

  lemma {:induction false} AppendedNode(sd: Ladder, os: Orders, l: PriceLevel, k: nat, n: nat, o: Order, lp: nat,
                                        i: nat)
    requires k <= |sd.queue| == |sd.nodes| && i < |sd.nodes| && n < |os| && RefOK(l.tail, |os|)
    requires LevelEnd(sd.queue, k, o.price) && Ready(sd, l, k, o.price)
    requires NodeOK(sd, os, i) && Distinct(sd.nodes) && n !in sd.nodes
    ensures NodeOK(With(sd, k, n, o, lp), Append(os, l, n, o), if i < k then i else i + 1)
  {
    assert sd.nodes[i] in sd.nodes;
    assert 0 < k && i != k - 1 ==> sd.nodes[i] != sd.nodes[k - 1];
    AppendedRefs(sd, k, n, o, lp, i);
    AppendedBlock(os, l, n, o, sd.nodes[i]);
  }

  lemma {:induction false} NewNode(sd: Ladder, os: Orders, l: PriceLevel, k: nat, n: nat, o: Order, lp: nat)
    requires k <= |sd.queue| == |sd.nodes| && n < |os| && RefOK(l.tail, |os|)
    requires LevelEnd(sd.queue, k, o.price) && Ready(sd, l, k, o.price) && n !in sd.nodes
    ensures NodeOK(With(sd, k, n, o, lp), Append(os, l, n, o), k)
  {
    assert 0 < k ==> sd.nodes[k - 1] in sd.nodes;
  }

  lemma {:induction false} AppendedLevel(sd: Ladder, ls: Levels, k: nat, n: nat, o: Order, lp: nat, i: nat)
    requires k <= |sd.queue| == |sd.nodes| && i < |sd.nodes| && lp < |ls|
    requires LevelEnd(sd.queue, k, o.price) && Ready(sd, ls[lp].value, k, o.price) && LevelOK(sd, ls, i)
    requires sd.queue[i].price == o.price ==> sd.lv[o.price] == lp && i < k
    requires sd.queue[i].price == o.price && i + 1 < k ==> sd.queue[i + 1].price == o.price
    requires sd.queue[i].price == o.price ==> sd.queue[k - 1].price == o.price
    requires sd.queue[i].price != o.price ==> sd.lv[sd.queue[i].price] != lp
    ensures LevelOK(With(sd, k, n, o, lp), ls[lp := ls[lp].(value := Grow(ls[lp].value, n))],
                    if i < k then i else i + 1)
  {
    CountInserted(sd.queue, k, o, sd.queue[i].price);
    AppendedRefs(sd, k, n, o, lp, i);
    if sd.queue[i].price == o.price {
      AppendedToLevel(sd, ls[lp].value, k, n, o, i);
    }
  }

  lemma {:induction false} AppendedToLevel(sd: Ladder, l: PriceLevel, k: nat, n: nat, o: Order, i: nat)
    requires i < k <= |sd.queue| == |sd.nodes| && sd.queue[i].price == o.price == sd.queue[k - 1].price
    requires Ready(sd, l, k, o.price) && (i + 1 < k ==> sd.queue[i + 1].price == o.price)
    ensures Grow(l, n).head == l.head && Grow(l, n).tail == At(n)
    ensures i + 1 < k ==> NextRef(sd, i).At?
  {
  }

  lemma {:induction false} NewLevel(sd: Ladder, ls: Levels, k: nat, n: nat, o: Order, lp: nat)
    requires k <= |sd.queue| == |sd.nodes| && lp < |ls|
    requires LevelEnd(sd.queue, k, o.price) && Ready(sd, ls[lp].value, k, o.price)
    ensures LevelOK(With(sd, k, n, o, lp), ls[lp := ls[lp].(value := Grow(ls[lp].value, n))], k)
  {
    CountInserted(sd.queue, k, o, o.price);
  }

  lemma {:induction false} InsertPosEndsLevel(q: seq<Order>, p: Price, buy: bool)
    requires SortedByPrice(q, buy)
    ensures var k := InsertPos(q, p, buy);
            && LevelEnd(q, k, p)
            && (Occupied(q, p) <==> 0 < k && q[k - 1].price == p)
            && forall i :: 0 <= i < |q| && q[i].price == p ==> i < k && q[k - 1].price == p
  {
    var k := InsertPos(q, p, buy);
    forall i | k <= i < |q|
      ensures q[i].price != p
    {
      assert k < i ==> AtLeastAsGood(buy, q[k].price, q[i].price);
    }
    forall i | 0 <= i < k && q[i].price == p
      ensures q[k - 1].price == p
    {
      assert i < k - 1 ==> AtLeastAsGood(buy, q[i].price, q[k - 1].price);
    }
  }

  lemma {:induction false} InsertedOccupied(q: seq<Order>, k: nat, o: Order, r: Price)
    requires k <= |q| && (r == o.price || Occupied(q, r))
    ensures Occupied(InsertAt(q, k, o), r)
  {
    var q' := InsertAt(q, k, o);
    if r == o.price {
      assert q'[k].price == r;
    } else {
      var i :| 0 <= i < |q| && q[i].price == r;
      assert q'[if i < k then i else i + 1].price == r;
    }
  }

  lemma {:induction false} InsertedDistinct(ns: seq<nat>, k: nat, n: nat)
    requires k <= |ns| && Distinct(ns) && n !in ns
    ensures Distinct(InsertAt(ns, k, n))
  {
    var r := InsertAt(ns, k, n);
    forall i, j | 0 <= i < j < |r| ensures r[i] != r[j] {
      assert j < k ==> r[j] == ns[j];
      assert i > k ==> r[i] == ns[i - 1];
    }
  }

  lemma {:induction false} InsertedShapeOK(sd: Ladder, buy: bool, n: nat, o: Order, lp: nat)
    requires ShapeOK(sd, buy) && o.side.BUY? == buy && n !in sd.nodes
    requires forall p :: p in sd.lv && p != o.price ==> sd.lv[p] != lp
    ensures ShapeOK(With(sd, InsertPos(sd.queue, o.price, buy), n, o, lp), buy)
  {
    var q, k := sd.queue, InsertPos(sd.queue, o.price, buy);
    var sd' := With(sd, k, n, o, lp);
    InsertSorted(q, o, buy);
    InsertedDistinct(sd.nodes, k, n);
    forall r | r in sd'.lv
      ensures Occupied(sd'.queue, r)
    {
      InsertedOccupied(q, k, o, r);
    }
  }

  /** What it takes to append block `n` to level `l`, at position `k`. */
  ghost predicate NodesReady(sd: Ladder, os: Orders, l: PriceLevel, k: nat, n: nat, o: Order) {
    && k <= |sd.queue| == |sd.nodes| && n < |os| && RefOK(l.tail, |os|)
    && forall key {:trigger Look(key)} :: key == Structure ==>
         && LevelEnd(sd.queue, k, o.price) && Ready(sd, l, k, o.price)
         && NodesOK(sd, os) && Distinct(sd.nodes) && n !in sd.nodes
  }

  lemma {:induction false} InsertedNodeOK(sd: Ladder, os: Orders, l: PriceLevel, k: nat, n: nat, o: Order, lp: nat,
                                          j: nat)
    requires NodesReady(sd, os, l, k, n, o) && j <= |sd.nodes|
    ensures NodeOK(With(sd, k, n, o, lp), Append(os, l, n, o), j)
  {
    assert Look(Structure);
    if j == k {
      NewNode(sd, os, l, k, n, o, lp);
    } else {
      var i := if j < k then j else j - 1;
      assert NodeOK(sd, os, i);
      AppendedNode(sd, os, l, k, n, o, lp, i);
    }
  }

  lemma {:induction false} InsertedNodesOK(sd: Ladder, os: Orders, l: PriceLevel, k: nat, n: nat, o: Order, lp: nat)
    requires NodesReady(sd, os, l, k, n, o)
    ensures NodesOK(With(sd, k, n, o, lp), Append(os, l, n, o))
  {
    forall j | 0 <= j <= |sd.nodes|
      ensures NodeOK(With(sd, k, n, o, lp), Append(os, l, n, o), j)
    {
      InsertedNodeOK(sd, os, l, k, n, o, lp, j);
    }
  }

  ghost predicate LevelsReady(sd: Ladder, ls: Levels, buy: bool, k: nat, o: Order, lp: nat) {
    && k <= |sd.queue| == |sd.nodes| && lp < |ls|
    && forall key {:trigger Look(key)} :: key == Structure ==>
         && SortedByPrice(sd.queue, buy)
         && LevelEnd(sd.queue, k, o.price) && Ready(sd, ls[lp].value, k, o.price) && LevelsOK(sd, ls)
         && (forall i :: 0 <= i < |sd.queue| && sd.queue[i].price == o.price
                         ==> i < k && sd.queue[k - 1].price == o.price)
         && (0 < k && sd.queue[k - 1].price == o.price ==> o.price in sd.lv && sd.lv[o.price] == lp)
         && forall p :: p in sd.lv && p != o.price ==> sd.lv[p] != lp
  }

  lemma {:induction false} InsertedLevelOK(sd: Ladder, ls: Levels, buy: bool, k: nat, n: nat, o: Order, lp: nat, j: nat)
    requires LevelsReady(sd, ls, buy, k, o, lp) && j <= |sd.nodes|
    ensures LevelOK(With(sd, k, n, o, lp), ls[lp := ls[lp].(value := Grow(ls[lp].value, n))], j)
  {
    assert Look(Structure);
    if j == k {
      NewLevel(sd, ls, k, n, o, lp);
    } else {
      var i := if j < k then j else j - 1;
      assert LevelOK(sd, ls, i);
      OldLevelOK(sd, ls, buy, k, n, o, lp, i, j);
    }
  }

  lemma {:induction false} OldLevelOK(sd: Ladder, ls: Levels, buy: bool, k: nat, n: nat, o: Order, lp: nat, i: nat,
                                      j: nat)
    requires j == (if i < k then i else i + 1) && k <= |sd.queue| == |sd.nodes| && i < |sd.nodes| && lp < |ls|
    requires SortedByPrice(sd.queue, buy)
    requires LevelEnd(sd.queue, k, o.price) && Ready(sd, ls[lp].value, k, o.price) && LevelOK(sd, ls, i)
    requires sd.queue[i].price == o.price ==> i < k && sd.queue[k - 1].price == o.price && sd.lv[o.price] == lp
    requires sd.queue[i].price != o.price ==> sd.lv[sd.queue[i].price] != lp
    ensures LevelOK(With(sd, k, n, o, lp), ls[lp := ls[lp].(value := Grow(ls[lp].value, n))], j)
  {
    if sd.queue[i].price == o.price {
      LevelReaches(sd.queue, buy, i, k, o.price);
    }
    AppendedLevel(sd, ls, k, n, o, lp, i);
  }

  lemma {:induction false} InsertedLevelsOK(sd: Ladder, ls: Levels, buy: bool, k: nat, n: nat, o: Order, lp: nat)
    requires LevelsReady(sd, ls, buy, k, o, lp)
    ensures LevelsOK(With(sd, k, n, o, lp), ls[lp := ls[lp].(value := Grow(ls[lp].value, n))])
  {
    var sd', ls' := With(sd, k, n, o, lp), ls[lp := ls[lp].(value := Grow(ls[lp].value, n))];
    forall j | 0 <= j <= |sd.nodes|
      ensures LevelOK(sd', ls', j)
    {
      InsertedLevelOK(sd, ls, buy, k, n, o, lp, j);
    }
  }

  lemma {:induction false} LevelReaches(q: seq<Order>, buy: bool, i: nat, k: nat, p: Price)
    requires SortedByPrice(q, buy) && i < k <= |q| && q[i].price == p && LevelEnd(q, k, p)
    requires q[k - 1].price == p
    ensures i + 1 < k ==> q[i + 1].price == p
  {
    if i + 1 < k { SortedBetween(q, buy, i, i + 1, k - 1); }
  }

  /** Appending an order at the end of its level keeps the side well linked. `lp` is the level's block: the
      one the map holds, or a fresh empty one. */
  lemma {:induction false} InsertedSideOK(sd: Ladder, os: Orders, ls: Levels, buy: bool, n: nat, o: Order, lp: nat)
    requires SideOK(sd, os, ls, buy) && o.side.BUY? == buy && n < |os| && n !in sd.nodes && lp < |ls|
    requires o.price in sd.lv ==> sd.lv[o.price] == lp
    requires o.price !in sd.lv ==> ls[lp].value == PriceLevel(o.price, Null, Null, 0)
    requires forall p :: p in sd.lv && p != o.price ==> sd.lv[p] != lp
    ensures RefOK(ls[lp].value.tail, |os|)
    ensures SideOK(With(sd, InsertPos(sd.queue, o.price, buy), n, o, lp), Append(os, ls[lp].value, n, o),
                   ls[lp := ls[lp].(value := Grow(ls[lp].value, n))], buy)
  {
    var k := InsertPos(sd.queue, o.price, buy);
    InsertPosEndsLevel(sd.queue, o.price, buy);
    ReadyLevel(sd, os, ls, buy, k, o.price, lp);
    InsertedShapeOK(sd, buy, n, o, lp);
    InsertedNodesOK(sd, os, ls[lp].value, k, n, o, lp);
    if 0 < k && sd.queue[k - 1].price == o.price { assert LevelOK(sd, ls, k - 1); }
    InsertedLevelsOK(sd, ls, buy, k, n, o, lp);
  }

  lemma {:induction false} ReadyLevel(sd: Ladder, os: Orders, ls: Levels, buy: bool, k: nat, p: Price, lp: nat)
    requires SideOK(sd, os, ls, buy) && k <= |sd.queue| && LevelEnd(sd.queue, k, p) && lp < |ls|
    requires Occupied(sd.queue, p) <==> 0 < k && sd.queue[k - 1].price == p
    requires if p in sd.lv then sd.lv[p] == lp else ls[lp].value == PriceLevel(p, Null, Null, 0)
    ensures Ready(sd, ls[lp].value, k, p) && RefOK(ls[lp].value.tail, |os|)
  {
    CountPositive(sd.queue, p);
    if Occupied(sd.queue, p) {
      assert LevelOK(sd, ls, k - 1) && NodeOK(sd, os, k - 1);
    }
  }

  // ---------------------------------------------------------------- in-place changes and framing

  /** Changing an order's quantity in its block changes nothing else. */
  lemma {:induction false} ResizedNode(sd: Ladder, os: Orders, k: nat, o: Order, i: nat)
    requires k < |sd.queue| == |sd.nodes| && i < |sd.nodes| && o.price == sd.queue[k].price && Distinct(sd.nodes)
    requires NodeOK(sd, os, k) && NodeOK(sd, os, i)
    ensures NodeOK(sd.(queue := sd.queue[k := o]),
                   os[sd.nodes[k] := os[sd.nodes[k]].(value := os[sd.nodes[k]].value.(order := o))], i)
  {
    ResizedRefs(sd, k, o, i);
    assert i != k ==> sd.nodes[i] != sd.nodes[k];
  }

  lemma {:induction false} ResizedRefs(sd: Ladder, k: nat, o: Order, i: nat)
    requires k < |sd.queue| == |sd.nodes| && i < |sd.nodes| && o.price == sd.queue[k].price
    ensures var sd' := sd.(queue := sd.queue[k := o]);
            && sd'.queue[i].price == sd.queue[i].price
            && PrevRef(sd', i) == PrevRef(sd, i) && NextRef(sd', i) == NextRef(sd, i)
  {
  }

  lemma {:induction false} ResizedLevel(sd: Ladder, ls: Levels, k: nat, o: Order, i: nat)
    requires k < |sd.queue| == |sd.nodes| && i < |sd.nodes| && o.price == sd.queue[k].price && LevelOK(sd, ls, i)
    ensures LevelOK(sd.(queue := sd.queue[k := o]), ls, i)
  {
    ResizedRefs(sd, k, o, i);
    CountReplaced(sd.queue, k, o, sd.queue[i].price);
  }

  lemma {:induction false} ResizedShape(sd: Ladder, buy: bool, k: nat, o: Order)
    requires ShapeOK(sd, buy) && k < |sd.nodes| && o.price == sd.queue[k].price && o.side == sd.queue[k].side
    ensures ShapeOK(sd.(queue := sd.queue[k := o]), buy)
  {
    var sd' := sd.(queue := sd.queue[k := o]);
    forall p | p in sd'.lv
      ensures Occupied(sd'.queue, p)
    {
      var i :| 0 <= i < |sd.queue| && sd.queue[i].price == p;
      assert sd'.queue[i].price == p;
    }
  }

  lemma {:induction false} ResizedSideOK(sd: Ladder, os: Orders, ls: Levels, buy: bool, k: nat, o: Order)
    requires SideOK(sd, os, ls, buy) && k < |sd.nodes| && o.price == sd.queue[k].price && o.side == sd.queue[k].side
    ensures NodeOK(sd, os, k)
    ensures SideOK(sd.(queue := sd.queue[k := o]),
                   os[sd.nodes[k] := os[sd.nodes[k]].(value := os[sd.nodes[k]].value.(order := o))], ls, buy)
  {
    assert NodeOK(sd, os, k);
    ResizedShape(sd, buy, k, o);
    var sd' := sd.(queue := sd.queue[k := o]);
    var os' := os[sd.nodes[k] := os[sd.nodes[k]].(value := os[sd.nodes[k]].value.(order := o))];
    forall i | 0 <= i < |sd.nodes|
      ensures NodeOK(sd', os', i) && LevelOK(sd', ls, i)
    {
      assert NodeOK(sd, os, i) && LevelOK(sd, ls, i);
      ResizedNode(sd, os, k, o, i);
      ResizedLevel(sd, ls, k, o, i);
    }
  }

  /** A side depends only on the contents of its own blocks. */
  lemma {:induction false} SideFrame(sd: Ladder, os: Orders, ls: Levels, os': Orders, ls': Levels, buy: bool)
    requires SideOK(sd, os, ls, buy) && |os| == |os'| && |ls| == |ls'|
    requires forall n :: n in sd.nodes && n < |os| ==> os'[n].value == os[n].value
    requires forall p :: p in sd.lv && sd.lv[p] < |ls| ==> ls'[sd.lv[p]].value == ls[sd.lv[p]].value
    ensures SideOK(sd, os', ls', buy)
  {
    forall i | 0 <= i < |sd.nodes|
      ensures NodeOK(sd, os', i) && LevelOK(sd, ls', i)
    {
      assert NodeOK(sd, os, i) && LevelOK(sd, ls, i) && sd.nodes[i] in sd.nodes;
    }
  }
}
