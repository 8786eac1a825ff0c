/** Both sides of a linked book, its id index and its pools, and what keeps them consistent. */
module LinkedBook {
  import opened Types
  import opened Book
  import opened Matching
  import opened MemPool
  import opened Links
  import opened Progress
  import opened Seal

  // The two sides play the same role; `x` is the side being changed, the bids when `buy`, and `y` the other.

  /** The sides share no order block and no level block. */
  ghost predicate Apart(x: Ladder, y: Ladder) {
    && (forall n :: n in x.nodes ==> n !in y.nodes)
    && forall p, r :: p in x.lv && r in y.lv ==> x.lv[p] != y.lv[r]
  }

  ghost predicate OwnsLevel(sd: Ladder, l: nat) {
    exists p :: p in sd.lv && sd.lv[p] == l
  }

  /** The order blocks in use are exactly the listed ones. */
  ghost predicate LiveOrders(x: Ladder, y: Ladder, os: Orders) {
    forall n :: 0 <= n < |os| ==> (!os[n].isFree <==> n in x.nodes || n in y.nodes)
  }

  /** The level blocks in use are exactly those in the price maps. */
  ghost predicate LiveLevels(x: Ladder, y: Ladder, ls: Levels) {
    forall l :: 0 <= l < |ls| ==> (!ls[l].isFree <==> OwnsLevel(x, l) || OwnsLevel(y, l))
  }

  /** Every listed order is indexed under its id at its block. */
  ghost predicate IndexedIn(sd: Ladder, index: map<OrderId, nat>) {
    && |sd.queue| == |sd.nodes|
    && forall i :: 0 <= i < |sd.queue| ==> sd.queue[i].id in index && index[sd.queue[i].id] == sd.nodes[i]
  }

  ghost predicate Lists(sd: Ladder, id: OrderId) {
    exists i :: 0 <= i < |sd.queue| && sd.queue[i].id == id
  }

  /** The index is a bijection between the ids and the blocks of the listed orders. */
  ghost predicate IndexOK(x: Ladder, y: Ladder, index: map<OrderId, nat>) {
    && IndexedIn(x, index) && IndexedIn(y, index)
    && forall id :: id in index ==> Lists(x, id) || Lists(y, id)
  }

  ghost predicate SidesOK(x: Ladder, y: Ladder, os: Orders, ls: Levels, buy: bool) {
    SideOK(x, os, ls, buy) && SideOK(y, os, ls, !buy) && Apart(x, y)
  }

  /** The whole structural invariant. */
  ghost predicate PairOK(x: Ladder, y: Ladder, os: Orders, ls: Levels, index: map<OrderId, nat>, buy: bool) {
    SidesOK(x, y, os, ls, buy) && LiveOrders(x, y, os) && LiveLevels(x, y, ls) && IndexOK(x, y, index)
  }

  lemma {:induction false} PairSymmetric(x: Ladder, y: Ladder, os: Orders, ls: Levels, index: map<OrderId, nat>,
                                         buy: bool)
    requires PairOK(x, y, os, ls, index, buy)
    ensures PairOK(y, x, os, ls, index, !buy)
  {
  }

  /** No two listed orders share an id. */
  lemma {:induction false} IdsDistinct(x: Ladder, y: Ladder, index: map<OrderId, nat>, k: nat)
    requires IndexOK(x, y, index) && Distinct(x.nodes) && k < |x.queue|
    requires forall n :: n in x.nodes ==> n !in y.nodes
    ensures forall j :: 0 <= j < |x.queue| && j != k ==> x.queue[j].id != x.queue[k].id
    ensures forall j :: 0 <= j < |y.queue| ==> y.queue[j].id != x.queue[k].id
  {
    forall j | 0 <= j < |x.queue| && j != k
      ensures x.queue[j].id != x.queue[k].id
    {
      assert x.nodes[j] != x.nodes[k];
    }
    forall j | 0 <= j < |y.queue|
      ensures y.queue[j].id != x.queue[k].id
    {
      assert x.nodes[k] in x.nodes && y.nodes[j] in y.nodes;
    }
  }

  // ---------------------------------------------------------------- removal

  function Freed<T>(bs: seq<ObjectBlock<T>>, n: nat): seq<ObjectBlock<T>>
    requires n < |bs|
  {
    bs[n := bs[n].(isFree := true)]
  }

  lemma {:induction false} RemovedSides(x: Ladder, y: Ladder, os: Orders, ls: Levels, buy: bool, k: nat)
    requires SidesOK(x, y, os, ls, buy) && k < |x.nodes|
    ensures NeighboursOK(x, os, k) && LevelOK(x, ls, k)
    ensures SidesOK(Without(x, k), y, Freed(Bypass(os, x.nodes[k]), x.nodes[k]), ShrunkLevels(x, ls, k), buy)
  {
    var n := x.nodes[k];
    RemovedSideOK(x, os, ls, buy, k);
    var os', ls' := Freed(Bypass(os, n), n), ShrunkLevels(x, ls, k);
    SideFrame(Without(x, k), Bypass(os, n), ls', os', ls', buy);
    RemovedFrame(x, y, os, ls, buy, k);
    SideFrame(y, os, ls, os', ls', !buy);
    WithoutBlocks(x.nodes, k);
  }

  lemma {:induction false} RemovedFrame(x: Ladder, y: Ladder, os: Orders, ls: Levels, buy: bool, k: nat)
    requires k < |x.queue| == |x.nodes| && NeighboursOK(x, os, k) && LevelOK(x, ls, k) && Apart(x, y)
    ensures forall n :: n in y.nodes && n < |os| ==> Freed(Bypass(os, x.nodes[k]), x.nodes[k])[n] == os[n]
    ensures forall p :: p in y.lv && y.lv[p] < |ls| ==> ShrunkLevels(x, ls, k)[y.lv[p]] == ls[y.lv[p]]
  {
    assert x.nodes[k] in x.nodes;
    forall n | n in y.nodes && n < |os|
      ensures Bypass(os, x.nodes[k])[n] == os[n]
    {
      BypassTouches(x, os, k, n);
    }
  }

  lemma {:induction false} WithoutBlocks(ns: seq<nat>, k: nat)
    requires Distinct(ns) && k < |ns|
    ensures forall n :: n in RemoveAt(ns, k) <==> n in ns && n != ns[k]
  {
    assert ns == ns[..k] + [ns[k]] + ns[k + 1..];
  }

  lemma {:induction false} RemovedOrdersLive(x: Ladder, y: Ladder, os: Orders, k: nat)
    requires k < |x.queue| == |x.nodes| && NeighboursOK(x, os, k) && Distinct(x.nodes)
    requires LiveOrders(x, y, os) && forall n :: n in x.nodes ==> n !in y.nodes
    ensures LiveOrders(Without(x, k), y, Freed(Bypass(os, x.nodes[k]), x.nodes[k]))
  {
    WithoutBlocks(x.nodes, k);
    assert x.nodes[k] in x.nodes;
    forall n | 0 <= n < |os|
      ensures Bypass(os, x.nodes[k])[n].isFree == os[n].isFree
    {
      BypassTouches(x, os, k, n);
    }
  }

  lemma {:induction false} OwnsWithout(sd: Ladder, k: nat, l: nat)
    requires k < |sd.queue| == |sd.nodes| && sd.queue[k].price in sd.lv && Injective(sd.lv)
    ensures var p := sd.queue[k].price;
            OwnsLevel(Without(sd, k), l) <==> OwnsLevel(sd, l) && !(Count(sd.queue, p) == 1 && l == sd.lv[p])
  {
    var sd' := Without(sd, k);
    if OwnsLevel(sd', l) {
      var r :| r in sd'.lv && sd'.lv[r] == l;
      assert r in sd.lv && sd.lv[r] == l;
    }
    if OwnsLevel(sd, l) {
      var r :| r in sd.lv && sd.lv[r] == l;
      assert r in sd'.lv ==> sd'.lv[r] == l;
    }
  }

  lemma {:induction false} RemovedLevelsLive(x: Ladder, y: Ladder, ls: Levels, k: nat)
    requires k < |x.queue| == |x.nodes| && LevelOK(x, ls, k) && 0 < Count(x.queue, x.queue[k].price)
    requires Injective(x.lv) && Apart(x, y) && LiveLevels(x, y, ls)
    ensures LiveLevels(Without(x, k), y, ShrunkLevels(x, ls, k))
  {
    var p := x.queue[k].price;
    assert OwnsLevel(x, x.lv[p]);
    forall l | 0 <= l < |ls|
      ensures !ShrunkLevels(x, ls, k)[l].isFree <==> OwnsLevel(Without(x, k), l) || OwnsLevel(y, l)
    {
      OwnsWithout(x, k, l);
    }
  }

  lemma {:induction false} RemovedIndexedIn(x: Ladder, index: map<OrderId, nat>, k: nat)
    requires IndexedIn(x, index) && k < |x.queue|
    requires forall j :: 0 <= j < |x.queue| && j != k ==> x.queue[j].id != x.queue[k].id
    ensures IndexedIn(Without(x, k), index - {x.queue[k].id})
  {
    var x', index' := Without(x, k), index - {x.queue[k].id};
    forall i | 0 <= i < |x'.queue|
      ensures x'.queue[i].id in index' && index'[x'.queue[i].id] == x'.nodes[i]
    {
      var j := if i < k then i else i + 1;
      assert x'.queue[i] == x.queue[j] && x'.nodes[i] == x.nodes[j];
    }
  }

  lemma {:induction false} StillCarried(x: Ladder, k: nat, id: OrderId)
    requires |x.queue| == |x.nodes| && k < |x.queue| && Lists(x, id) && id != x.queue[k].id
    ensures Lists(Without(x, k), id)
  {
    var i :| 0 <= i < |x.queue| && x.queue[i].id == id;
    assert Without(x, k).queue[if i < k then i else i - 1].id == id;
  }

  lemma {:induction false} RemovedIndex(x: Ladder, y: Ladder, index: map<OrderId, nat>, k: nat)
    requires IndexOK(x, y, index) && Distinct(x.nodes) && k < |x.queue|
    requires forall n :: n in x.nodes ==> n !in y.nodes
    ensures IndexOK(Without(x, k), y, index - {x.queue[k].id})
  {
    IdsDistinct(x, y, index, k);
    RemovedIndexedIn(x, index, k);
    forall id | id in index && id != x.queue[k].id
      ensures Lists(Without(x, k), id) || Lists(y, id)
    {
      if Lists(x, id) { StillCarried(x, k, id); }
    }
  }

  /** Unlinking, unindexing and freeing the order at position `k` keeps the whole structure consistent. */
  lemma {:induction false} RemovedOK(x: Ladder, y: Ladder, os: Orders, ls: Levels, index: map<OrderId, nat>,
                                     buy: bool, k: nat)
    requires PairOK(x, y, os, ls, index, buy) && k < |x.nodes|
    ensures NeighboursOK(x, os, k) && LevelOK(x, ls, k)
    ensures PairOK(Without(x, k), y, Freed(Bypass(os, x.nodes[k]), x.nodes[k]), ShrunkLevels(x, ls, k),
                   index - {x.queue[k].id}, buy)
  {
    RemovedSideOK(x, os, ls, buy, k);
    RemovedSides(x, y, os, ls, buy, k);
    RemovedOrdersLive(x, y, os, k);
    RemovedLevelsLive(x, y, ls, k);
    RemovedIndex(x, y, index, k);
  }

  // ---------------------------------------------------------------- insertion

  /** A block taken from a pool and filled. */
  function Filled<T>(bs: seq<ObjectBlock<T>>, n: nat, v: T): seq<ObjectBlock<T>>
    requires n < |bs|
  {
    bs[n := ObjectBlock(v, false)]
  }

  /** The level blocks once level block `lp` stands for price `p`: unchanged when the price has a level,
      otherwise with a fresh empty level in it. */
  function Opened(x: Ladder, ls: Levels, p: Price, lp: nat): (r: Levels)
    requires lp < |ls|
    ensures |r| == |ls|
  {
    if p in x.lv then ls else Filled(ls, lp, PriceLevel(p, Null, Null, 0))
  }

  function Grown(ls: Levels, lp: nat, n: nat): (r: Levels)
    requires lp < |ls|
    ensures |r| == |ls|
  {
    ls[lp := ls[lp].(value := Grow(ls[lp].value, n))]
  }

  /** Block `n` is free to take an order, and `lp` is the level of price `p` or free to become it. */
  ghost predicate Available(x: Ladder, os: Orders, ls: Levels, n: nat, p: Price, lp: nat) {
    && n < |os| && os[n].isFree && lp < |ls|
    && if p in x.lv then x.lv[p] == lp else ls[lp].isFree
  }

  lemma {:induction false} AvailableApart(x: Ladder, y: Ladder, os: Orders, ls: Levels, n: nat, p: Price, lp: nat)
    requires LiveOrders(x, y, os) && LiveLevels(x, y, ls) && Available(x, os, ls, n, p, lp)
    requires Injective(x.lv) && Apart(x, y)
    ensures n !in x.nodes && n !in y.nodes
    ensures forall r :: r in x.lv && r != p ==> x.lv[r] != lp
    ensures forall r :: r in y.lv ==> y.lv[r] != lp
  {
    if p !in x.lv {
      assert !OwnsLevel(x, lp) && !OwnsLevel(y, lp);
    }
  }

  lemma {:induction false} InsertedSides(x: Ladder, y: Ladder, os: Orders, ls: Levels, buy: bool, n: nat, o: Order,
                                         lp: nat, blank: BookOrder)
    requires SidesOK(x, y, os, ls, buy) && o.side.BUY? == buy && Available(x, os, ls, n, o.price, lp)
    requires n !in x.nodes && n !in y.nodes
    requires forall r :: r in x.lv && r != o.price ==> x.lv[r] != lp
    requires forall r :: r in y.lv ==> y.lv[r] != lp
    ensures var ls1 := Opened(x, ls, o.price, lp);
            && RefOK(ls1[lp].value.tail, |os|)
            && (ls1[lp].value.tail.At? ==> ls1[lp].value.tail.block in x.nodes)
            && SidesOK(With(x, InsertPos(x.queue, o.price, buy), n, o, lp), y,
                       Append(Filled(os, n, blank), ls1[lp].value, n, o), Grown(ls1, lp, n), buy)
  {
    var os1, ls1 := Filled(os, n, blank), Opened(x, ls, o.price, lp);
    var k := InsertPos(x.queue, o.price, buy);
    SideFrame(x, os, ls, os1, ls1, buy);
    SideFrame(y, os, ls, os1, ls1, !buy);
    InsertedSideOK(x, os1, ls1, buy, n, o, lp);
    TailListed(x, os1, ls1, buy, o.price, lp);
    OtherSideKept(x, y, os1, ls1, !buy, n, o, lp);
    WithBlocks(x.nodes, k, n);
  }

  lemma {:induction false} TailListed(x: Ladder, os: Orders, ls: Levels, buy: bool, p: Price, lp: nat)
    requires SideOK(x, os, ls, buy) && lp < |ls|
    requires p in x.lv ==> x.lv[p] == lp
    requires p !in x.lv ==> ls[lp].value == PriceLevel(p, Null, Null, 0)
    ensures ls[lp].value.tail.At? ==> ls[lp].value.tail.block in x.nodes
  {
    var k := InsertPos(x.queue, p, buy);
    InsertPosEndsLevel(x.queue, p, buy);
    ReadyLevel(x, os, ls, buy, k, p, lp);
    assert 0 < k ==> x.nodes[k - 1] in x.nodes;
  }

  lemma {:induction false} OtherSideKept(x: Ladder, y: Ladder, os: Orders, ls: Levels, buy: bool, n: nat, o: Order,
                                         lp: nat)
    requires SideOK(y, os, ls, buy) && n < |os| && lp < |ls| && n !in y.nodes && RefOK(ls[lp].value.tail, |os|)
    requires ls[lp].value.tail.At? ==> ls[lp].value.tail.block in x.nodes
    requires (forall m :: m in x.nodes ==> m !in y.nodes) && forall r :: r in y.lv ==> y.lv[r] != lp
    ensures SideOK(y, Append(os, ls[lp].value, n, o), Grown(ls, lp, n), buy)
  {
    AppendTouches(os, ls[lp].value, n, o, y.nodes);
    SideFrame(y, os, ls, Append(os, ls[lp].value, n, o), Grown(ls, lp, n), buy);
  }

  lemma {:induction false} AppendTouches(os: Orders, l: PriceLevel, n: nat, o: Order, ns: seq<nat>)
    requires n < |os| && RefOK(l.tail, |os|) && n !in ns && (l.tail.At? ==> l.tail.block !in ns)
    ensures forall m :: m in ns && m < |os| ==> Append(os, l, n, o)[m] == os[m]
    ensures forall m :: 0 <= m < |os| ==> Append(os, l, n, o)[m].isFree == os[m].isFree
  {
  }

  lemma {:induction false} InsertedLive(x: Ladder, y: Ladder, os: Orders, ls: Levels, k: nat, n: nat, o: Order,
                                        lp: nat, blank: BookOrder)
    requires k <= |x.queue| == |x.nodes| && LiveOrders(x, y, os) && LiveLevels(x, y, ls)
    requires Available(x, os, ls, n, o.price, lp)
    requires RefOK(Opened(x, ls, o.price, lp)[lp].value.tail, |os|)
    ensures var ls1 := Opened(x, ls, o.price, lp);
            && LiveOrders(With(x, k, n, o, lp), y, Append(Filled(os, n, blank), ls1[lp].value, n, o))
            && LiveLevels(With(x, k, n, o, lp), y, Grown(ls1, lp, n))
  {
    var x', ls1 := With(x, k, n, o, lp), Opened(x, ls, o.price, lp);
    WithBlocks(x.nodes, k, n);
    AppendTouches(Filled(os, n, blank), ls1[lp].value, n, o, []);
    forall l: nat
      ensures OwnsLevel(x', l) <==> l == lp || OwnsLevel(x, l)
    {
      OwnsWith(x, k, n, o, lp, l);
    }
    if o.price in x.lv { assert OwnsLevel(x, lp); }
  }

  lemma {:induction false} OwnsWith(x: Ladder, k: nat, n: nat, o: Order, lp: nat, l: nat)
    requires k <= |x.queue| == |x.nodes| && (o.price in x.lv ==> x.lv[o.price] == lp)
    ensures OwnsLevel(With(x, k, n, o, lp), l) <==> l == lp || OwnsLevel(x, l)
  {
    var x' := With(x, k, n, o, lp);
    assert o.price in x'.lv && x'.lv[o.price] == lp;
    if OwnsLevel(x, l) {
      var p :| p in x.lv && x.lv[p] == l;
      assert p in x'.lv && x'.lv[p] == l;
    }
  }

  /** Taking block `n` for order `o`, linking it at the back of its level and indexing it keeps the whole
      structure consistent. */
  lemma {:induction false} InsertedOK(x: Ladder, y: Ladder, os: Orders, ls: Levels, index: map<OrderId, nat>, buy: bool,
                                      n: nat, o: Order, lp: nat, blank: BookOrder)
    requires PairOK(x, y, os, ls, index, buy) && Available(x, os, ls, n, o.price, lp)
    requires o.id !in index && o.side.BUY? == buy
    ensures var ls1 := Opened(x, ls, o.price, lp);
            && RefOK(ls1[lp].value.tail, |os|) && (ls1[lp].value.tail.At? ==> ls1[lp].value.tail.block != n)
            && PairOK(With(x, InsertPos(x.queue, o.price, buy), n, o, lp), y,
                      Append(Filled(os, n, blank), ls1[lp].value, n, o), Grown(ls1, lp, n), index[o.id := n], buy)
  {
    var k := InsertPos(x.queue, o.price, buy);
    AvailableApart(x, y, os, ls, n, o.price, lp);
    InsertedSides(x, y, os, ls, buy, n, o, lp, blank);
    InsertedLive(x, y, os, ls, k, n, o, lp, blank);
    InsertedIndex(x, y, index, k, n, o, lp);
  }

  lemma {:induction false} WithBlocks(ns: seq<nat>, k: nat, n: nat)
    requires k <= |ns|
    ensures forall m :: m in InsertAt(ns, k, n) <==> m == n || m in ns
  {
    assert ns == ns[..k] + ns[k..];
  }

  lemma {:induction false} InsertedIndexedIn(x: Ladder, index: map<OrderId, nat>, k: nat, n: nat, o: Order, lp: nat)
    requires IndexedIn(x, index) && o.id !in index && k <= |x.queue|
    ensures IndexedIn(With(x, k, n, o, lp), index[o.id := n])
  {
    var x', index' := With(x, k, n, o, lp), index[o.id := n];
    forall i | 0 <= i < |x'.queue|
      ensures x'.queue[i].id in index' && index'[x'.queue[i].id] == x'.nodes[i]
    {
      if i != k {
        var j := if i < k then i else i - 1;
        assert x'.queue[i] == x.queue[j] && x'.nodes[i] == x.nodes[j];
      }
    }
  }

  lemma {:induction false} CarriedWith(x: Ladder, k: nat, n: nat, o: Order, lp: nat, id: OrderId)
    requires k <= |x.queue| == |x.nodes| && (Lists(x, id) || id == o.id)
    ensures Lists(With(x, k, n, o, lp), id)
  {
    var x' := With(x, k, n, o, lp);
    if id == o.id {
      assert x'.queue[k].id == id;
    } else {
      var i :| 0 <= i < |x.queue| && x.queue[i].id == id;
      assert x'.queue[if i < k then i else i + 1].id == id;
    }
  }

  lemma {:induction false} InsertedIndex(x: Ladder, y: Ladder, index: map<OrderId, nat>, k: nat, n: nat, o: Order,
                                         lp: nat)
    requires IndexOK(x, y, index) && o.id !in index && k <= |x.queue|
    ensures IndexOK(With(x, k, n, o, lp), y, index[o.id := n])
  {
    InsertedIndexedIn(x, index, k, n, o, lp);
    forall id | id in index[o.id := n]
      ensures Lists(With(x, k, n, o, lp), id) || Lists(y, id)
    {
      if Lists(x, id) || id == o.id { CarriedWith(x, k, n, o, lp, id); }
    }
  }

  // ---------------------------------------------------------------- resizing

  /** Changing an order's quantities in its block keeps everything else. */
  lemma {:induction false} ResizedOK(x: Ladder, y: Ladder, os: Orders, ls: Levels, index: map<OrderId, nat>, buy: bool,
                                     k: nat, o: Order)
    requires PairOK(x, y, os, ls, index, buy) && k < |x.nodes|
    requires o.price == x.queue[k].price && o.side == x.queue[k].side && o.id == x.queue[k].id
    ensures NodeOK(x, os, k)
    ensures PairOK(x.(queue := x.queue[k := o]), y,
                   os[x.nodes[k] := os[x.nodes[k]].(value := os[x.nodes[k]].value.(order := o))], ls, index, buy)
  {
    ResizedSideOK(x, os, ls, buy, k, o);
    var n := x.nodes[k];
    var x', os' := x.(queue := x.queue[k := o]), os[n := os[n].(value := os[n].value.(order := o))];
    assert n in x.nodes;
    SideFrame(y, os, ls, os', ls, !buy);
    ResizedIndex(x, y, index, k, o);
    assert forall l :: OwnsLevel(x', l) == OwnsLevel(x, l);
  }

  lemma {:induction false} ResizedIndex(x: Ladder, y: Ladder, index: map<OrderId, nat>, k: nat, o: Order)
    requires IndexOK(x, y, index) && k < |x.queue| && o.id == x.queue[k].id
    ensures IndexOK(x.(queue := x.queue[k := o]), y, index)
  {
    var x' := x.(queue := x.queue[k := o]);
    assert forall i :: 0 <= i < |x.queue| ==> x'.queue[i].id == x.queue[i].id;
    forall id | id in index
      ensures Lists(x', id) || Lists(y, id)
    {
      if Lists(x, id) {
        var i :| 0 <= i < |x.queue| && x.queue[i].id == id;
        assert x'.queue[i].id == id;
      }
    }
  }

  // ---------------------------------------------------------------- the invariant under seal

  // The invariant is many quantifiers. Code that only carries it along holds it sealed; a lemma that needs
  // a fact about one order looks inside and hands out that fact alone.

  ghost predicate Sound(x: Ladder, y: Ladder, os: Orders, ls: Levels, index: map<OrderId, nat>, buy: bool) {
    forall key {:trigger Look(key)} :: key == Structure ==> PairOK(x, y, os, ls, index, buy)
  }

  lemma {:induction false} SoundSymmetric(x: Ladder, y: Ladder, os: Orders, ls: Levels, index: map<OrderId, nat>,
                                          buy: bool)
    requires Sound(x, y, os, ls, index, buy)
    ensures Sound(y, x, os, ls, index, !buy)
  {
    assert Look(Structure);
    PairSymmetric(x, y, os, ls, index, buy);
  }

  /** What is known about the order at position `k`. */
  ghost predicate OrderFacts(x: Ladder, os: Orders, ls: Levels, index: map<OrderId, nat>, buy: bool, k: nat)
    requires k < |x.queue| == |x.nodes|
  {
    && NeighboursOK(x, os, k) && LevelOK(x, ls, k) && 0 < Count(x.queue, x.queue[k].price)
    && x.queue[k].side.BUY? == buy && !os[x.nodes[k]].isFree && !ls[x.lv[x.queue[k].price]].isFree
    && x.queue[k].id in index && index[x.queue[k].id] == x.nodes[k]
  }

  lemma {:induction false} FactsOf(x: Ladder, y: Ladder, os: Orders, ls: Levels, index: map<OrderId, nat>, buy: bool,
                                   k: nat)
    requires Sound(x, y, os, ls, index, buy) && k < |x.queue| == |x.nodes|
    ensures OrderFacts(x, os, ls, index, buy, k)
  {
    assert Look(Structure);
    RemovedSideOK(x, os, ls, buy, k);
    assert x.nodes[k] in x.nodes && OwnsLevel(x, x.lv[x.queue[k].price]);
  }

  lemma {:induction false} RemovedSound(x: Ladder, y: Ladder, os: Orders, ls: Levels, index: map<OrderId, nat>,
                                        buy: bool, k: nat)
    requires Sound(x, y, os, ls, index, buy) && k < |x.queue| == |x.nodes| && OrderFacts(x, os, ls, index, buy, k)
    ensures Sound(Without(x, k), y, Freed(Bypass(os, x.nodes[k]), x.nodes[k]), ShrunkLevels(x, ls, k),
                  index - {x.queue[k].id}, buy)
  {
    assert Look(Structure);
    RemovedOK(x, y, os, ls, index, buy, k);
  }

  lemma {:induction false} InsertedSound(x: Ladder, y: Ladder, os: Orders, ls: Levels, index: map<OrderId, nat>,
                                         buy: bool,
                                         n: nat, o: Order, lp: nat, blank: BookOrder)
    requires Sound(x, y, os, ls, index, buy) && Available(x, os, ls, n, o.price, lp) && |x.queue| == |x.nodes|
    requires o.id !in index && o.side.BUY? == buy
    ensures var ls1 := Opened(x, ls, o.price, lp);
            && RefOK(ls1[lp].value.tail, |os|) && (ls1[lp].value.tail.At? ==> ls1[lp].value.tail.block != n)
            && Sound(With(x, InsertPos(x.queue, o.price, buy), n, o, lp), y,
                     Append(Filled(os, n, blank), ls1[lp].value, n, o), Grown(ls1, lp, n), index[o.id := n], buy)
  {
    assert Look(Structure);
    InsertedOK(x, y, os, ls, index, buy, n, o, lp, blank);
  }

  lemma {:induction false} ResizedSound(x: Ladder, y: Ladder, os: Orders, ls: Levels, index: map<OrderId, nat>,
                                        buy: bool,
                                        k: nat, o: Order)
    requires Sound(x, y, os, ls, index, buy) && k < |x.queue| == |x.nodes| && x.nodes[k] < |os|
    requires o.price == x.queue[k].price && o.side == x.queue[k].side && o.id == x.queue[k].id
    ensures Sound(x.(queue := x.queue[k := o]), y,
                  os[x.nodes[k] := os[x.nodes[k]].(value := os[x.nodes[k]].value.(order := o))], ls, index, buy)
  {
    assert Look(Structure);
    ResizedOK(x, y, os, ls, index, buy, k, o);
  }

  /** An indexed id belongs to exactly one order, on one side. */
  lemma {:induction false} Locate(x: Ladder, y: Ladder, os: Orders, ls: Levels, index: map<OrderId, nat>, buy: bool,
                                  id: OrderId)
    requires Sound(x, y, os, ls, index, buy) && |x.queue| == |x.nodes| && |y.queue| == |y.nodes|
    ensures id !in index ==> !Has(x.queue, id) && !Has(y.queue, id)
    ensures id in index ==> (Has(x.queue, id) <==> !Has(y.queue, id))
    ensures Has(x.queue, id) ==> OrderFacts(x, os, ls, index, buy, IndexOf(x.queue, id))
    ensures Has(y.queue, id) ==> OrderFacts(y, os, ls, index, !buy, IndexOf(y.queue, id))
  {
    assert Look(Structure);
    SoundSymmetric(x, y, os, ls, index, buy);
    var i, j := IndexOf(x.queue, id), IndexOf(y.queue, id);
    if i < |x.queue| { FactsOf(x, y, os, ls, index, buy, i); IdsDistinct(x, y, index, i); }
    if j < |y.queue| { FactsOf(y, x, os, ls, index, !buy, j); }
    if id in index && Lists(x, id) {
      var k :| 0 <= k < |x.queue| && x.queue[k].id == id;
      assert Has(x.queue, id);
    }
    if id in index && Lists(y, id) {
      var k :| 0 <= k < |y.queue| && y.queue[k].id == id;
      assert Has(y.queue, id);
    }
  }

  lemma {:induction false} LevelKnown(x: Ladder, y: Ladder, os: Orders, ls: Levels, index: map<OrderId, nat>,
                                      buy: bool, p: Price)
    requires Sound(x, y, os, ls, index, buy)
    ensures p in x.lv ==> x.lv[p] < |ls|
  {
    assert Look(Structure);
    LevelInRange(x, os, ls, buy, p);
  }

  /** What a matching loop needs to know about a whole side. */
  lemma {:induction false} SideFacts(x: Ladder, y: Ladder, os: Orders, ls: Levels, index: map<OrderId, nat>, buy: bool)
    requires Sound(x, y, os, ls, index, buy)
    ensures SortedByPrice(x.queue, buy)
  {
    assert Look(Structure);
  }

  /** The best price after `from` in the price map is the price at the cursor. */
  lemma {:induction false} NextPrice(x: Ladder, y: Ladder, os: Orders, ls: Levels, index: map<OrderId, nat>, buy: bool,
                                     c: nat, from: Option<Price>, r: Option<Price>)
    requires Sound(x, y, os, ls, index, buy) && Cursor(x.queue, c, from, buy)
    requires r.Some? ==> r.value in x.lv && Beyond(buy, from, r.value)
                         && forall p :: p in x.lv && Beyond(buy, from, p) ==> AtLeastAsGood(buy, r.value, p)
    requires r.None? ==> forall p :: p in x.lv ==> !Beyond(buy, from, p)
    ensures r == if c < |x.queue| then Some(x.queue[c].price) else None
  {
    PricesMapped(x, y, os, ls, index, buy);
    NextIn(x.queue, x.lv, buy, c, from, r);
  }

  lemma {:induction false} PricesMapped(x: Ladder, y: Ladder, os: Orders, ls: Levels, index: map<OrderId, nat>,
                                        buy: bool)
    requires Sound(x, y, os, ls, index, buy)
    ensures SortedByPrice(x.queue, buy) && Mapped(x.queue, x.lv)
  {
    assert Look(Structure);
    forall i | 0 <= i < |x.queue| ensures x.queue[i].price in x.lv { assert LevelOK(x, ls, i); }
  }

  /** The price map has a level for exactly the prices at which orders rest. */
  ghost predicate Mapped(q: seq<Order>, lv: map<Price, nat>) {
    (forall i :: 0 <= i < |q| ==> q[i].price in lv) && forall p :: p in lv ==> Occupied(q, p)
  }

  lemma {:induction false} NextIn(q: seq<Order>, lv: map<Price, nat>, buy: bool, c: nat, from: Option<Price>,
                                  r: Option<Price>)
    requires SortedByPrice(q, buy) && Mapped(q, lv) && Cursor(q, c, from, buy)
    requires r.Some? ==> r.value in lv && Beyond(buy, from, r.value)
                         && forall p :: p in lv && Beyond(buy, from, p) ==> AtLeastAsGood(buy, r.value, p)
    requires r.None? ==> forall p :: p in lv ==> !Beyond(buy, from, p)
    ensures r == if c < |q| then Some(q[c].price) else None
  {
    if c < |q| { assert q[c].price in lv; }
    if r.Some? {
      var i :| 0 <= i < |q| && q[i].price == r.value;
      assert c <= i;
      assert c < i ==> AtLeastAsGood(buy, q[c].price, q[i].price);
    }
  }

  // ---------------------------------------------------------------- capacity

  function Prices(q: seq<Order>): set<Price> {
    set i | 0 <= i < |q| :: q[i].price
  }

  function NodeSet(ns: seq<nat>): set<nat> {
    set i | 0 <= i < |ns| :: ns[i]
  }

  lemma {:induction false} DistinctSize(ns: seq<nat>)
    requires Distinct(ns)
    ensures |NodeSet(ns)| == |ns|
  {
    if ns != [] {
      var init, last := ns[..|ns| - 1], ns[|ns| - 1];
      DistinctSize(init);
      forall n: nat
        ensures n in NodeSet(ns) <==> n in NodeSet(init) + {last}
      {
        assert n in NodeSet(ns) <==> n in ns;
        assert n in NodeSet(init) <==> n in init;
      }
      assert NodeSet(ns) == NodeSet(init) + {last};
      assert last !in init;
    }
  }

  lemma {:induction false} InjectiveSize(lv: map<Price, nat>)
    requires Injective(lv)
    ensures |lv.Values| == |lv|
    decreases |lv|
  {
    if lv != map[] {
      var p :| p in lv;
      var rest := lv - {p};
      InjectiveSize(rest);
      forall v
        ensures v in lv.Values <==> v in rest.Values || v == lv[p]
      {
        if v in lv.Values && v != lv[p] {
          var r :| r in lv && lv[r] == v;
          assert r in rest && rest[r] == v;
        }
      }
      assert lv.Values == rest.Values + {lv[p]};
      assert lv[p] !in rest.Values;
      assert lv.Keys == rest.Keys + {p};
    }
  }

  lemma {:induction false} DisjointSize<T>(s: set<T>, t: set<T>)
    requires s !! t
    ensures |s + t| == |s| + |t|
  {
  }

  lemma {:induction false} LiveNodes(x: Ladder, y: Ladder, os: Orders)
    requires LiveOrders(x, y, os)
    requires forall i :: 0 <= i < |x.nodes| ==> x.nodes[i] < |os|
    requires forall i :: 0 <= i < |y.nodes| ==> y.nodes[i] < |os|
    ensures Live(os) == NodeSet(x.nodes) + NodeSet(y.nodes)
  {
    forall n: nat
      ensures n in Live(os) <==> n in NodeSet(x.nodes) + NodeSet(y.nodes)
    {
      assert n in NodeSet(x.nodes) <==> n in x.nodes;
      assert n in NodeSet(y.nodes) <==> n in y.nodes;
    }
  }

  lemma {:induction false} NodesInRange(x: Ladder, os: Orders, ls: Levels, buy: bool)
    requires SideOK(x, os, ls, buy)
    ensures forall i :: 0 <= i < |x.nodes| ==> x.nodes[i] < |os|
    ensures |NodeSet(x.nodes)| == |x.queue|
  {
    DistinctSize(x.nodes);
    forall i | 0 <= i < |x.nodes| ensures x.nodes[i] < |os| { assert NodeOK(x, os, i); }
  }

  lemma {:induction false} NodeSetsApart(x: Ladder, y: Ladder)
    requires Apart(x, y)
    ensures NodeSet(x.nodes) !! NodeSet(y.nodes)
  {
    forall n | n in NodeSet(x.nodes) ensures n !in NodeSet(y.nodes) {
      assert n in x.nodes;
    }
  }

  lemma {:induction false} LiveOrderCount(x: Ladder, y: Ladder, os: Orders, ls: Levels, index: map<OrderId, nat>,
                                          buy: bool)
    requires Sound(x, y, os, ls, index, buy)
    ensures |Live(os)| == |x.queue| + |y.queue|
  {
    assert Look(Structure);
    NodesInRange(x, os, ls, buy);
    NodesInRange(y, os, ls, !buy);
    NodeSetsApart(x, y);
    DisjointSize(NodeSet(x.nodes), NodeSet(y.nodes));
    LiveNodes(x, y, os);
  }

  lemma {:induction false} LevelInRange(x: Ladder, os: Orders, ls: Levels, buy: bool, p: Price)
    requires SideOK(x, os, ls, buy)
    ensures p in x.lv ==> x.lv[p] < |ls|
    ensures p in x.lv <==> p in Prices(x.queue)
  {
    if p in x.lv {
      var i :| 0 <= i < |x.queue| && x.queue[i].price == p;
      assert LevelOK(x, ls, i);
    }
    if p in Prices(x.queue) {
      var i :| 0 <= i < |x.queue| && x.queue[i].price == p;
      assert LevelOK(x, ls, i);
    }
  }

  lemma {:induction false} LevelPerPrice(x: Ladder, os: Orders, ls: Levels, buy: bool)
    requires SideOK(x, os, ls, buy)
    ensures x.lv.Keys == Prices(x.queue) && |x.lv.Values| == |Prices(x.queue)|
    ensures forall p :: p in x.lv ==> x.lv[p] < |ls|
  {
    forall p
      ensures p in x.lv <==> p in Prices(x.queue)
      ensures p in x.lv ==> x.lv[p] < |ls|
    {
      LevelInRange(x, os, ls, buy, p);
    }
    InjectiveSize(x.lv);
    assert |x.lv.Keys| == |x.lv|;
  }

  lemma {:induction false} ValuesApart(x: Ladder, y: Ladder)
    requires Apart(x, y)
    ensures x.lv.Values !! y.lv.Values
  {
  }

  lemma {:induction false} LiveLevelCount(x: Ladder, y: Ladder, os: Orders, ls: Levels, index: map<OrderId, nat>,
                                          buy: bool)
    requires Sound(x, y, os, ls, index, buy)
    ensures x.lv.Keys == Prices(x.queue) && y.lv.Keys == Prices(y.queue)
    ensures |Live(ls)| == |Prices(x.queue)| + |Prices(y.queue)|
  {
    assert Look(Structure);
    LevelPerPrice(x, os, ls, buy);
    LevelPerPrice(y, os, ls, !buy);
    ValuesApart(x, y);
    DisjointSize(x.lv.Values, y.lv.Values);
    LiveValues(x, y, ls);
  }

  lemma {:induction false} LiveValues(x: Ladder, y: Ladder, ls: Levels)
    requires LiveLevels(x, y, ls)
    requires forall p :: p in x.lv ==> x.lv[p] < |ls|
    requires forall p :: p in y.lv ==> y.lv[p] < |ls|
    ensures Live(ls) == x.lv.Values + y.lv.Values
  {
    forall l: nat
      ensures l in Live(ls) <==> l in x.lv.Values + y.lv.Values
    {
      assert l in x.lv.Values <==> OwnsLevel(x, l);
      assert l in y.lv.Values <==> OwnsLevel(y, l);
    }
  }

  /** A book that pools of `maxOrders` and `maxLevels` blocks can hold. */
  predicate Fits(b: Book, maxOrders: nat, maxLevels: nat) {
    |b.bids| + |b.asks| < maxOrders && |Prices(b.bids)| + |Prices(b.asks)| < maxLevels
  }

  /** Whether an order of price `p` still fits beside what is stored. */
  ghost predicate Room(x: Ladder, os: Orders, ls: Levels, p: Price) {
    |Live(os)| + 1 < |os| && (p in x.lv || |Live(ls)| + 1 < |ls|)
  }

  lemma {:induction false} PricesInserted(q: seq<Order>, k: nat, o: Order)
    requires k <= |q|
    ensures Prices(InsertAt(q, k, o)) == Prices(q) + {o.price}
  {
    var r := InsertAt(q, k, o);
    forall p
      ensures p in Prices(r) <==> p in Prices(q) || p == o.price
    {
      if p in Prices(q) {
        var i :| 0 <= i < |q| && q[i].price == p;
        assert r[if i < k then i else i + 1].price == p;
      }
      if p == o.price { assert r[k].price == p; }
    }
  }

  lemma {:induction false} LiveBound<T>(bs: seq<ObjectBlock<T>>, i: nat)
    requires i < |bs| && bs[i].isFree
    ensures |Live(bs)| < |bs|
  {
    var others := Range(|bs|) - {i};
    assert Live(bs) <= others;
    Smaller(Live(bs), others);
  }

  lemma {:induction false} RoomCounts(x: Ladder, y: Ladder, os: Orders, ls: Levels, index: map<OrderId, nat>,
                                      buy: bool, p: Price)
    requires Sound(x, y, os, ls, index, buy) && |Live(os)| < |os| && |Live(ls)| < |ls|
    ensures Room(x, os, ls, p)
        <==> |x.queue| + |y.queue| + 1 < |os| && |Prices(x.queue) + {p}| + |Prices(y.queue)| < |ls|
    ensures |x.queue| + |y.queue| < |os| && |Prices(x.queue)| + |Prices(y.queue)| < |ls|
  {
    LiveOrderCount(x, y, os, ls, index, buy);
    LiveLevelCount(x, y, os, ls, index, buy);
    var s := Prices(x.queue);
    assert p in x.lv <==> p in s;
    if p in s { assert s + {p} == s; } else { assert |s + {p}| == |s| + 1; }
  }
}
