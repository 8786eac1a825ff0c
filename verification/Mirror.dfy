/** The snapshot mirror, rebuilt from book updates alone, against the live book it is meant to copy. */
module Mirror {
  import opened Types
  import opened Seal
  import opened Book
  import opened Matching
  import opened Invariant

  datatype Entry = Entry(id: OrderId, side: Side, price: Price, qty: Qty)

  type Copy = map<OrderId, Entry>

  /** One update applied to one symbol's copy; trades are announced separately and change nothing here. */
  function Apply(m: Copy, u: BookUpdate): Copy {
    match u.typ
    case ADD_ORDER => m[u.id := Entry(u.id, u.side, u.price, u.qty)]
    case MODIFY_ORDER => if u.id in m then m[u.id := m[u.id].(qty := u.qty)] else m
    case CANCEL_ORDER => m - {u.id}
    case TRADE => m
  }

  function Replay(m: Copy, us: seq<BookUpdate>): Copy {
    if us == [] then m else Apply(Replay(m, us[..|us| - 1]), us[|us| - 1])
  }

  lemma {:induction false} ReplayConcat(m: Copy, us: seq<BookUpdate>, more: seq<BookUpdate>)
    ensures Replay(m, us + more) == Replay(Replay(m, us), more)
  {
    if more == [] {
      assert us + more == us;
    } else {
      ReplayConcat(m, us, more[..|more| - 1]);
      assert (us + more)[..|us + more| - 1] == us + more[..|more| - 1];
    }
  }

  lemma {:induction false} ReplayOfOne(m: Copy, u: BookUpdate)
    ensures Replay(m, [u]) == Apply(m, u)
  {
    assert [u][..0] == [];
  }

  // ---------------------------------------------------------------- the copy of a side

  function EntryOf(o: Order): Entry {
    Entry(o.id, o.side, o.price, o.qty)
  }

  function Ids(q: seq<Order>): set<OrderId> {
    if q == [] then {} else {q[0].id} + Ids(q[1..])
  }

  /** The exact copy of a list of orders. */
  function CopyOf(q: seq<Order>): (m: Copy)
    ensures m.Keys == Ids(q)
  {
    if q == [] then map[] else map[q[0].id := EntryOf(q[0])] + CopyOf(q[1..])
  }

  lemma {:induction false} ListedIsId(q: seq<Order>, i: nat)
    requires i < |q|
    ensures q[i].id in Ids(q)
  {
    if i > 0 { ListedIsId(q[1..], i - 1); }
  }

  lemma {:induction false} IdIsListed(q: seq<Order>, id: OrderId) returns (i: nat)
    requires id in Ids(q)
    ensures i < |q| && q[i].id == id
  {
    if q[0].id == id {
      i := 0;
    } else {
      i := IdIsListed(q[1..], id);
      i := i + 1;
    }
  }

  lemma {:induction false} NotListed(q: seq<Order>, id: OrderId)
    requires forall i :: 0 <= i < |q| ==> q[i].id != id
    ensures id !in Ids(q)
  {
    if q != [] { NotListed(q[1..], id); }
  }

  lemma {:induction false} PlusAssoc(x: Copy, y: Copy, z: Copy)
    ensures (x + y) + z == x + (y + z)
  {
  }

  lemma {:induction false} WedgedIn(x: Copy, y: Copy, id: OrderId, e: Entry, e': Entry)
    requires id !in x && id !in y
    ensures (x + map[id := e]) + y == (x + y)[id := e]
    ensures ((x + map[id := e]) + y) - {id} == x + y
    ensures ((x + map[id := e]) + y)[id := e'] == (x + map[id := e']) + y
    ensures ((x + map[id := e]) + y)[id] == e
  {
  }

  lemma {:induction false} CopyConcat(q: seq<Order>, r: seq<Order>)
    ensures CopyOf(q + r) == CopyOf(q) + CopyOf(r)
  {
    if q == [] {
      assert q + r == r;
    } else {
      var head := map[q[0].id := EntryOf(q[0])];
      assert CopyOf(q + r) == head + CopyOf(q[1..] + r) by { assert (q + r)[1..] == q[1..] + r; }
      CopyConcat(q[1..], r);
      PlusAssoc(head, CopyOf(q[1..]), CopyOf(r));
    }
  }

  lemma {:induction false} CopyOfOne(o: Order)
    ensures CopyOf([o]) == map[o.id := EntryOf(o)]
  {
    assert [o][1..] == [];
  }

  lemma {:induction false} CopyAround(q: seq<Order>, o: Order, r: seq<Order>)
    ensures CopyOf(q + [o] + r) == (CopyOf(q) + map[o.id := EntryOf(o)]) + CopyOf(r)
    ensures CopyOf(q + r) == CopyOf(q) + CopyOf(r)
  {
    CopyConcat(q + [o], r);
    CopyConcat(q, [o]);
    CopyConcat(q, r);
    CopyOfOne(o);
  }

  // ---------------------------------------------------------------- one sweep

  lemma {:induction false} FillMirrored(sym: Symbol, f: Fill, m: Copy)
    requires f.maker.id in m
    ensures Replay(m, FillUpdates(sym, f))
         == if f.maker.qty == 0 then m - {f.maker.id} else m[f.maker.id := m[f.maker.id].(qty := f.maker.qty)]
  {
    var us := FillUpdates(sym, f);
    assert us == [us[0]] + [us[1]];
    ReplayConcat(m, [us[0]], [us[1]]);
    ReplayOfOne(m, us[0]);
    ReplayOfOne(m, us[1]);
  }

  /** The updates of one fill, applied to a copy of `[o] + q` beside other entries `w`. */
  lemma {:induction false} HeadMirrored(sym: Symbol, t: Taker, o: Order, n: Qty, leaves: Qty, w: Copy, c: Copy)
    requires o.id !in w && o.id !in c && n <= o.qty && (o.client == t.client ==> n == 0)
    ensures Replay((w + map[o.id := EntryOf(o)]) + c, AllFillUpdates(sym, Executed(t, o, n, leaves)))
         == (w + CopyOf(Kept(t, o, n))) + c
  {
    var o' := o.(qty := o.qty - n);
    var m := (w + map[o.id := EntryOf(o)]) + c;
    CopyOfOne(o');
    if o.client != t.client {
      var f := Fill(o', n, leaves);
      FillEventsOfOne(sym, t, f);
      FillMirrored(sym, f, m);
      WedgedIn(w, c, o.id, EntryOf(o), EntryOf(o'));
      if n == o.qty {
        assert w + CopyOf(Kept(t, o, n)) == w;
      } else {
        assert Kept(t, o, n) == [o'];
      }
    } else {
      assert Kept(t, o, n) == [o] && o' == o;
    }
  }

  lemma {:induction false} KeptApart(t: Taker, o: Order, n: Qty, w: Copy, q: seq<Order>)
    requires n <= o.qty && o.id !in Ids(q) && w.Keys !! Ids(q)
    ensures (w + CopyOf(Kept(t, o, n))).Keys !! Ids(q)
  {
    CopyOfOne(o.(qty := o.qty - n));
  }

  /** Replaying the updates of a sweep turns a copy of the side into a copy of what is left of it, and
      leaves every other entry alone. */
  /** The updates of `fs` turn the copy `from` into the copy `to`. */
  ghost predicate Turns(sym: Symbol, from: Copy, fs: seq<Fill>, to: Copy) {
    forall key {:trigger Look(key)} :: key == Pairs ==> Replay(from, AllFillUpdates(sym, fs)) == to
  }

  lemma {:induction false} TurnsOn(sym: Symbol, a: Copy, fs: seq<Fill>, b: Copy, gs: seq<Fill>, c: Copy)
    requires Turns(sym, a, fs, b) && Turns(sym, b, gs, c)
    ensures Turns(sym, a, fs + gs, c)
  {
    assert Look(Pairs);
    FillEventsConcat(sym, Taker(0, 0, BUY, 0, false), fs, gs);
    ReplayConcat(a, AllFillUpdates(sym, fs), AllFillUpdates(sym, gs));
  }

  lemma {:induction false} HeadTurns(sym: Symbol, t: Taker, q: seq<Order>, n: Qty, leaves: Qty, w: Copy)
    requires q != [] && DistinctIds(q) && w.Keys !! Ids(q) && n <= q[0].qty && (q[0].client == t.client ==> n == 0)
    ensures var w1 := w + CopyOf(Kept(t, q[0], n));
            && w1.Keys !! Ids(q[1..])
            && Turns(sym, w + CopyOf(q), Executed(t, q[0], n, leaves), w1 + CopyOf(q[1..]))
  {
    NotListed(q[1..], q[0].id);
    KeptApart(t, q[0], n, w, q[1..]);
    PlusAssoc(w, map[q[0].id := EntryOf(q[0])], CopyOf(q[1..]));
    HeadMirrored(sym, t, q[0], n, leaves, w, CopyOf(q[1..]));
  }

  /** What a sweep of `q` beside the entries `w` does to the copy. */
  ghost predicate SweptCopy(sym: Symbol, q: seq<Order>, w: Copy, s: Swept) {
    forall key {:trigger Look(key)} :: key == Pairs
        ==> Turns(sym, w + CopyOf(q), s.fills, w + CopyOf(s.rest))
  }

  lemma {:induction false} UnsweptCopy(sym: Symbol, q: seq<Order>, w: Copy, qty: Qty)
    ensures SweptCopy(sym, q, w, Swept(q, qty, []))
  {
    assert Look(Pairs);
  }

  lemma {:induction false} VisitTurns(sym: Symbol, t: Taker, q: seq<Order>, n: Qty, leaves: Qty, w: Copy, s: Swept)
    requires q != [] && DistinctIds(q) && w.Keys !! Ids(q) && n <= q[0].qty && (q[0].client == t.client ==> n == 0)
    requires SweptCopy(sym, q[1..], w + CopyOf(Kept(t, q[0], n)), s)
    ensures SweptCopy(sym, q, w, Swept(Kept(t, q[0], n) + s.rest, s.leaves, Executed(t, q[0], n, leaves) + s.fills))
  {
    assert Look(Pairs);
    var head := Kept(t, q[0], n);
    var w1 := w + CopyOf(head);
    HeadTurns(sym, t, q, n, leaves, w);
    CopyConcat(head, s.rest);
    PlusAssoc(w, CopyOf(head), CopyOf(s.rest));
    TurnsOn(sym, w + CopyOf(q), Executed(t, q[0], n, leaves), w1 + CopyOf(q[1..]), s.fills, w1 + CopyOf(s.rest));
  }

  lemma {:induction false} SweepTurns(sym: Symbol, t: Taker, q: seq<Order>, qty: Qty, w: Copy)
    requires DistinctIds(q) && w.Keys !! Ids(q)
    ensures SweptCopy(sym, q, w, Sweep(t, q, qty))
  {
    if Stops(t, q, qty) {
      UnsweptCopy(sym, q, w, qty);
    } else {
      var n := Taken(t, q[0], qty);
      var s := Sweep(t, q[1..], qty - n);
      assert Sweep(t, q, qty)
          == Swept(Kept(t, q[0], n) + s.rest, s.leaves, Executed(t, q[0], n, qty - n) + s.fills);
      HeadTurns(sym, t, q, n, qty - n, w);
      SweepTurns(sym, t, q[1..], qty - n, w + CopyOf(Kept(t, q[0], n)));
      VisitTurns(sym, t, q, n, qty - n, w, s);
    }
  }

  lemma {:induction false} SweepMirrored(sym: Symbol, t: Taker, q: seq<Order>, qty: Qty, w: Copy)
    requires DistinctIds(q) && w.Keys !! Ids(q)
    ensures Replay(w + CopyOf(q), AllFillUpdates(sym, Sweep(t, q, qty).fills)) == w + CopyOf(Sweep(t, q, qty).rest)
  {
    assert Look(Pairs);
    SweepTurns(sym, t, q, qty, w);
  }

  // ---------------------------------------------------------------- list edits

  lemma {:induction false} CopyInserted(q: seq<Order>, k: nat, o: Order)
    requires k <= |q| && o.id !in Ids(q)
    ensures CopyOf(InsertAt(q, k, o)) == CopyOf(q)[o.id := EntryOf(o)]
  {
    var a, c := q[..k], q[k..];
    assert q == a + c;
    CopyAround(a, o, c);
    assert o.id !in CopyOf(q);
    WedgedIn(CopyOf(a), CopyOf(c), o.id, EntryOf(o), EntryOf(o));
  }

  lemma {:induction false} CopyReplaced(q: seq<Order>, k: nat, o: Order)
    requires DistinctIds(q) && k < |q| && o.id == q[k].id
    ensures CopyOf(q)[o.id := EntryOf(o)] == CopyOf(q[k := o])
    ensures CopyOf(q) - {o.id} == CopyOf(RemoveAt(q, k))
    ensures o.id in Ids(q) && CopyOf(q)[o.id] == EntryOf(q[k])
  {
    var a, c := q[..k], q[k + 1..];
    assert CopyOf(q) == (CopyOf(a) + map[o.id := EntryOf(q[k])]) + CopyOf(c) by {
      assert q == a + [q[k]] + c;
      CopyAround(a, q[k], c);
    }
    assert CopyOf(q[k := o]) == (CopyOf(a) + map[o.id := EntryOf(o)]) + CopyOf(c) by {
      assert q[k := o] == a + [o] + c;
      CopyAround(a, o, c);
    }
    CopyConcat(a, c);
    NotListed(a, o.id);
    NotListed(c, o.id);
    WedgedIn(CopyOf(a), CopyOf(c), o.id, EntryOf(q[k]), EntryOf(o));
    ListedIsId(q, k);
  }

  lemma {:induction false} SweptIds(t: Taker, q: seq<Order>, qty: Qty)
    ensures Ids(Sweep(t, q, qty).rest) <= Ids(q)
  {
    var r := Sweep(t, q, qty).rest;
    forall id | id in Ids(r)
      ensures id in Ids(q)
    {
      var i := IdIsListed(r, id);
      if Has(q, id) { ListedIsId(q, IndexOf(q, id)); } else { StaysApart(t, q, qty, id, r[i]); }
    }
  }

  // ---------------------------------------------------------------- both sides together

  function All(b: Book): seq<Order> {
    b.bids + b.asks
  }

  ghost function BookIds(b: Book): set<OrderId> {
    Ids(All(b))
  }

  /** The live orders of a book beside other entries. */
  ghost function Picture(b: Book, others: Copy): Copy {
    others + CopyOf(All(b))
  }

  lemma {:induction false} AllDistinct(b: Book)
    requires BookOK(b)
    ensures DistinctIds(All(b)) && CopyOf(All(b)) == CopyOf(b.asks) + CopyOf(b.bids)
    ensures Ids(b.bids) !! Ids(b.asks) && BookIds(b) == Ids(b.bids) + Ids(b.asks)
  {
    CopyConcat(b.bids, b.asks);
    forall id | id in Ids(b.bids)
      ensures id !in Ids(b.asks)
    {
      var i := IdIsListed(b.bids, id);
      NotListed(b.asks, id);
    }
  }

  lemma {:induction false} EditLeft<T>(a: seq<T>, c: seq<T>, i: nat, o: T)
    requires i < |a|
    ensures RemoveAt(a, i) + c == RemoveAt(a + c, i) && a[i := o] + c == (a + c)[i := o]
  {
  }

  lemma {:induction false} EditRight<T>(a: seq<T>, c: seq<T>, i: nat, o: T)
    requires i < |c|
    ensures a + RemoveAt(c, i) == RemoveAt(a + c, |a| + i) && a + c[i := o] == (a + c)[|a| + i := o]
  {
  }

  lemma {:induction false} FoundLeft(a: seq<Order>, c: seq<Order>, id: OrderId, qty: Qty)
    requires Has(a, id) && !Has(c, id)
    ensures var i := IndexOf(a, id);
            && (a + c)[i] == a[i] && Remove(a, id) + Remove(c, id) == RemoveAt(a + c, i)
            && Resize(a, id, qty) + Resize(c, id, qty) == (a + c)[i := a[i].(qty := qty, originalQty := qty)]
  {
    var i := IndexOf(a, id);
    EditLeft(a, c, i, a[i].(qty := qty, originalQty := qty));
  }

  lemma {:induction false} FoundRight(a: seq<Order>, c: seq<Order>, id: OrderId, qty: Qty)
    requires !Has(a, id) && Has(c, id)
    ensures var i := IndexOf(c, id);
            && (a + c)[|a| + i] == c[i] && Remove(a, id) + Remove(c, id) == RemoveAt(a + c, |a| + i)
            && Resize(a, id, qty) + Resize(c, id, qty) == (a + c)[|a| + i := c[i].(qty := qty, originalQty := qty)]
  {
    var i := IndexOf(c, id);
    EditRight(a, c, i, c[i].(qty := qty, originalQty := qty));
  }

  lemma {:induction false} OnOneSide(b: Book, id: OrderId)
    requires DisjointIds(b.bids, b.asks) && Has(b.bids, id)
    ensures !Has(b.asks, id)
  {
    assert b.bids[IndexOf(b.bids, id)].id == id;
  }

  /** Where an order stands in the whole book, and what removing or resizing it does there. */
  lemma {:induction false} FoundAt(b: Book, id: OrderId, qty: Qty) returns (k: nat)
    requires DisjointIds(b.bids, b.asks) && Find(b, id).Some?
    ensures k < |All(b)| && All(b)[k] == Find(b, id).value && All(b)[k].id == id
    ensures All(RemoveFrom(b, id)) == RemoveAt(All(b), k)
    ensures All(b.(bids := Resize(b.bids, id, qty), asks := Resize(b.asks, id, qty)))
         == All(b)[k := All(b)[k].(qty := qty, originalQty := qty)]
  {
    if Has(b.bids, id) {
      k := IndexOf(b.bids, id);
      OnOneSide(b, id);
      FoundLeft(b.bids, b.asks, id, qty);
    } else {
      k := |b.bids| + IndexOf(b.asks, id);
      FoundRight(b.bids, b.asks, id, qty);
    }
  }

  lemma {:induction false} RestedAt(b: Book, o: Order) returns (k: nat)
    ensures k <= |All(b)| && All(RestIn(b, o)) == InsertAt(All(b), k, o)
  {
    k := if o.side.BUY? then InsertPos(b.bids, o.price, true) else |b.bids| + InsertPos(b.asks, o.price, false);
  }

  lemma {:induction false} AddedTo(p: Copy, x: Copy, id: OrderId, e: Entry)
    requires id !in x
    ensures (p + x)[id := e] == (p - {id}) + x[id := e]
  {
  }

  lemma {:induction false} TakenFrom(p: Copy, x: Copy, id: OrderId, e: Entry)
    requires id !in p && id in x
    ensures p + x == (p + map[id := x[id]]) + (x - {id})
    ensures (p + x) - {id} == p + (x - {id})
    ensures (p + x)[id := e] == p + x[id := e]
  {
  }

  lemma {:induction false} MatchMirrored(b: Book, t: Taker, qty: Qty, others: Copy)
    requires BookOK(b) && others.Keys !! BookIds(b)
    ensures var m := Match(b, t, qty).0;
            Replay(Picture(b, others), m.updates) == Picture(m.book, others) && BookIds(m.book) <= BookIds(b)
  {
    var q := Opposite(b, t.side);
    var m := Match(b, t, qty).0;
    SweptIds(t, q, qty);
    AllDistinct(b);
    MatchOK(b, t, qty);
    AllDistinct(m.book);
    CopyConcat(b.bids, b.asks);
    CopyConcat(m.book.bids, m.book.asks);
    var same := if t.side.BUY? then b.bids else b.asks;
    PlusAssoc(others, CopyOf(same), CopyOf(q));
    PlusAssoc(others, CopyOf(same), CopyOf(Sweep(t, q, qty).rest));
    SweepMirrored(b.symbol, t, q, qty, others + CopyOf(same));
  }

  lemma {:induction false} RestMirrored(b: Book, o: Order, others: Copy)
    requires o.id !in BookIds(b)
    ensures Picture(b, others)[o.id := EntryOf(o)] == Picture(RestIn(b, o), others - {o.id})
    ensures BookIds(RestIn(b, o)) == BookIds(b) + {o.id}
  {
    var k := RestedAt(b, o);
    CopyInserted(All(b), k, o);
    AddedTo(others, CopyOf(All(b)), o.id, EntryOf(o));
    assert CopyOf(All(b))[o.id := EntryOf(o)].Keys == BookIds(b) + {o.id};
  }

  /** Taking an order out of the book without saying so leaves its entry among the others. */
  lemma {:induction false} RemoveMirrored(b: Book, id: OrderId, others: Copy)
    requires BookOK(b) && others.Keys !! BookIds(b) && Find(b, id).Some?
    ensures var o := Find(b, id).value;
            && Picture(b, others) == Picture(RemoveFrom(b, id), others + map[id := EntryOf(o)])
            && Picture(b, others) - {id} == Picture(RemoveFrom(b, id), others)
            && BookIds(RemoveFrom(b, id)) == BookIds(b) - {id} && id in BookIds(b)
            && Picture(b, others)[id] == EntryOf(o)
  {
    var k := FoundAt(b, id, 0);
    AllDistinct(b);
    CopyReplaced(All(b), k, All(b)[k]);
    TakenFrom(others, CopyOf(All(b)), id, EntryOf(All(b)[k]));
  }

  lemma {:induction false} ResizeMirrored(b: Book, id: OrderId, qty: Qty, others: Copy)
    requires BookOK(b) && others.Keys !! BookIds(b) && Find(b, id).Some?
    ensures var r := b.(bids := Resize(b.bids, id, qty), asks := Resize(b.asks, id, qty));
            && Picture(b, others)[id := EntryOf(Find(b, id).value).(qty := qty)] == Picture(r, others)
            && BookIds(r) == BookIds(b)
  {
    var k := FoundAt(b, id, qty);
    AllDistinct(b);
    var o := All(b)[k].(qty := qty, originalQty := qty);
    CopyReplaced(All(b), k, o);
    TakenFrom(others, CopyOf(All(b)), id, EntryOf(o));
    assert CopyOf(All(b))[id := EntryOf(o)].Keys == BookIds(b);
  }

  // ---------------------------------------------------------------- one request

  /** The copy is exactly the live orders plus the stale entries `phantoms` of orders no longer live. */
  ghost predicate Agrees(m: Copy, b: Book, phantoms: Copy) {
    m == Picture(b, phantoms) && phantoms.Keys !! BookIds(b)
  }

  /** The outcome's updates carry agreement from book `b` with phantoms `p` to the new book with `p'`. */
  ghost predicate Carries(b: Book, p: Copy, o: Outcome, p': Copy) {
    Agrees(Replay(Picture(b, p), o.updates), o.book, p')
  }

  lemma {:induction false} QuietCarries(b: Book, p: Copy, o: Outcome)
    requires p.Keys !! BookIds(b) && o.book == b && o.updates == []
    ensures Carries(b, p, o, p)
  {
  }

  lemma {:induction false} NoOverlap(p: Copy, ids: set<OrderId>)
    requires p.Keys !! ids
    ensures p - ids == p
  {
  }

  lemma {:induction false} TransientCarries(b: Book, t: Taker, price: Price, qty: Qty, p: Copy)
    requires BookOK(b) && p.Keys !! BookIds(b)
    ensures Carries(b, p, AddTransient(b, t, price, qty), p)
  {
    if Find(b, t.id).Some? {
      QuietCarries(b, p, AddTransient(b, t, price, qty));
    } else {
      MatchMirrored(b, t, qty, p);
    }
  }

  lemma {:induction false} RestCarries(b: Book, p: Copy, m: Outcome, o: Order)
    requires Replay(Picture(b, p), m.updates) == Picture(m.book, p)
    requires p.Keys !! BookIds(b) && BookIds(m.book) <= BookIds(b) && o.id !in BookIds(b)
    ensures var step := Outcome(RestIn(m.book, o), m.responses,
                                m.updates + [BookUpdate(ADD_ORDER, o.id, b.symbol, o.side, o.price, o.qty)]);
            && Carries(b, p, step, p - BookIds(step.book))
            && BookIds(step.book) == BookIds(m.book) + {o.id}
  {
    var add := BookUpdate(ADD_ORDER, o.id, b.symbol, o.side, o.price, o.qty);
    RestMirrored(m.book, o, p);
    ReplayConcat(Picture(b, p), m.updates, [add]);
    ReplayOfOne(Picture(m.book, p), add);
    assert p - BookIds(RestIn(m.book, o)) == p - {o.id};
  }

  lemma {:induction false} MatchAndRestCarries(b: Book, t: Taker, typ: OrderType, qty: Qty, now: Nanos, p: Copy)
    requires BookOK(b) && p.Keys !! BookIds(b) && t.id !in BookIds(b)
    ensures var o := MatchAndRest(b, t, typ, qty, now);
            && Carries(b, p, o, p - BookIds(o.book))
            && (t.id in BookIds(o.book) <==> 0 < Match(b, t, qty).1)
            && BookIds(o.book) <= BookIds(b) + {t.id}
  {
    var (m, leaves) := Match(b, t, qty);
    MatchMirrored(b, t, qty, p);
    if leaves == 0 {
      NoOverlap(p, BookIds(m.book));
    } else {
      RestCarries(b, p, m, Order(t.id, t.client, typ, t.side, t.limit, qty, leaves, now));
    }
  }

  lemma {:induction false} LimitCarries(b: Book, r: Request, now: Nanos, p: Copy)
    requires BookOK(b) && p.Keys !! BookIds(b)
    ensures var o := AddLimit(b, r.client, r.id, r.side, r.price, r.qty, now);
            Carries(b, p, o, p - BookIds(o.book))
  {
    if Find(b, r.id).Some? {
      assert p - BookIds(b) == p;
      QuietCarries(b, p, AddLimit(b, r.client, r.id, r.side, r.price, r.qty, now));
    } else {
      NotListed(All(b), r.id);
      MatchAndRestCarries(b, Taker(r.client, r.id, r.side, r.price, true), LIMIT, r.qty, now, p);
    }
  }

  lemma {:induction false} CancelCarries(b: Book, client: ClientId, id: OrderId, p: Copy)
    requires BookOK(b) && p.Keys !! BookIds(b)
    ensures Carries(b, p, Cancel(b, client, id), p)
  {
    if Owns(b, client, id) {
      ReplayOfOne(Picture(b, p), Cancel(b, client, id).updates[0]);
      RemoveMirrored(b, id, p);
    } else {
      QuietCarries(b, p, Cancel(b, client, id));
    }
  }

  lemma {:induction false} SameEvents(b: Book, p: Copy, o: Outcome, o': Outcome, p': Copy)
    requires Carries(b, p, o, p') && o.book == o'.book && o.updates == o'.updates
    ensures Carries(b, p, o', p')
  {
  }

  lemma {:induction false} RepriceCarries(b: Book, o: Order, price: Price, qty: Qty, now: Nanos, p: Copy)
    requires BookOK(b) && p.Keys !! BookIds(b) && Find(b, o.id) == Some(o)
    requires price != o.price && 0 < price && 0 < qty < INVALID_QTY
    ensures var step := Modify(b, o.client, o.id, price, qty, now);
            var t := Taker(o.client, o.id, o.side, price, true);
            && Carries(b, p, step, (p + map[o.id := EntryOf(o)]) - BookIds(step.book))
            && (o.id in BookIds(step.book) <==> 0 < Match(RemoveFrom(b, o.id), t, qty).1)
  {
    var e, t := map[o.id := EntryOf(o)], Taker(o.client, o.id, o.side, price, true);
    RemoveOK(b, o.id);
    RemoveMirrored(b, o.id, p);
    MatchAndRestCarries(RemoveFrom(b, o.id), t, o.typ, qty, now, p + e);
    var m := MatchAndRest(RemoveFrom(b, o.id), t, o.typ, qty, now);
    assert Carries(b, p, m, (p + e) - BookIds(m.book));
    SameEvents(b, p, m, Modify(b, o.client, o.id, price, qty, now), (p + e) - BookIds(m.book));
  }

  lemma {:induction false} ResizeCarries(b: Book, o: Order, qty: Qty, step: Outcome, p: Copy)
    requires BookOK(b) && p.Keys !! BookIds(b) && Find(b, o.id) == Some(o)
    requires step.book == b.(bids := Resize(b.bids, o.id, qty), asks := Resize(b.asks, o.id, qty))
    requires step.updates == [BookUpdate(MODIFY_ORDER, o.id, b.symbol, o.side, o.price, qty)]
    ensures Carries(b, p, step, p)
  {
    RemoveMirrored(b, o.id, p);
    ReplayOfOne(Picture(b, p), step.updates[0]);
    ResizeMirrored(b, o.id, qty, p);
  }

  lemma {:induction false} ForgotAgain(p: Copy, id: OrderId, e: Entry)
    requires id !in p
    ensures (p + map[id := e]) - {id} == p
  {
  }

  lemma {:induction false} GrowCarries(b: Book, o: Order, o': Order, step: Outcome, p: Copy)
    requires BookOK(b) && p.Keys !! BookIds(b) && Find(b, o.id) == Some(o)
    requires EntryOf(o') == EntryOf(o).(qty := o'.qty) && step.book == RestIn(RemoveFrom(b, o.id), o')
    requires step.updates == [BookUpdate(MODIFY_ORDER, o.id, b.symbol, o.side, o.price, o'.qty)]
    ensures Carries(b, p, step, p)
  {
    var u := BookUpdate(MODIFY_ORDER, o.id, b.symbol, o.side, o.price, o'.qty);
    RemoveMirrored(b, o.id, p);
    assert Replay(Picture(b, p), step.updates) == Picture(b, p)[o.id := EntryOf(o')] by {
      ReplayOfOne(Picture(b, p), u);
    }
    RestMirrored(RemoveFrom(b, o.id), o', p + map[o.id := EntryOf(o)]);
    ForgotAgain(p, o.id, EntryOf(o));
  }

  /** The one path that removes an order without announcing it: a re-pricing that fills completely. */
  predicate FilledByRepricing(b: Book, r: Request) {
    && r.typ.MODIFY? && Incoming(b, r).Some?
    && AttackSweep(Incoming(b, r).value).leaves == 0
  }

  /** The stale entries a request leaves behind, besides those already there. */
  function LeftBehind(p: Copy, b: Book, r: Request): Copy {
    if FilledByRepricing(b, r) then p + map[r.id := EntryOf(Find(b, r.id).value)] else p
  }

  ghost function NextPhantoms(p: Copy, b: Book, r: Request, now: Nanos): Copy {
    LeftBehind(p, b, r) - BookIds(Step(b, r, now).book)
  }

  lemma {:induction false} StillListed(p: Copy, id: OrderId, e: Entry, ids: set<OrderId>)
    requires id in ids
    ensures (p + map[id := e]) - ids == p - ids
  {
  }

  lemma {:induction false} SamePriceCarries(b: Book, o: Order, r: Request, now: Nanos, p: Copy)
    requires BookOK(b) && p.Keys !! BookIds(b) && !Malformed(r) && r.typ.MODIFY?
    requires Find(b, r.id) == Some(o) && o.id == r.id && o.client == r.client && o.price == r.price
    ensures Carries(b, p, Modify(b, r.client, r.id, r.price, r.qty, now), p)
  {
    var step := Modify(b, r.client, r.id, r.price, r.qty, now);
    if r.qty < o.qty {
      ResizeCarries(b, o, r.qty, step, p);
    } else if r.qty > o.qty {
      GrowCarries(b, o, Order(r.id, r.client, o.typ, o.side, r.price, r.qty, r.qty, now), step, p);
    } else {
      QuietCarries(b, p, step);
    }
  }

  lemma {:induction false} LeftBehindByModify(p: Copy, b: Book, o: Order, r: Request)
    requires !Malformed(r) && r.typ.MODIFY? && Find(b, r.id) == Some(o) && o.client == r.client
    ensures var t := Taker(r.client, r.id, o.side, r.price, true);
            LeftBehind(p, b, r)
            == if o.price != r.price && Match(RemoveFrom(b, r.id), t, r.qty).1
               == 0 then p + map[r.id := EntryOf(o)] else p
  {
  }

  lemma {:induction false} OwnedModifyCarries(b: Book, o: Order, r: Request, now: Nanos, p: Copy)
    requires BookOK(b) && p.Keys !! BookIds(b) && r.typ.MODIFY? && !Malformed(r)
    requires Find(b, r.id) == Some(o) && o.id == r.id && o.client == r.client
    ensures var step := Modify(b, r.client, r.id, r.price, r.qty, now);
            Carries(b, p, step, LeftBehind(p, b, r) - BookIds(step.book))
  {
    var ids := BookIds(Modify(b, r.client, r.id, r.price, r.qty, now).book);
    LeftBehindByModify(p, b, o, r);
    if r.price == o.price {
      SamePriceCarries(b, o, r, now, p);
      NoOverlap(p, ids);
    } else {
      RepriceCarries(b, o, r.price, r.qty, now, p);
      if r.id in ids { StillListed(p, r.id, EntryOf(o), ids); }
    }
  }

  lemma {:induction false} ModifyCarries(b: Book, r: Request, now: Nanos, p: Copy)
    requires BookOK(b) && p.Keys !! BookIds(b) && r.typ.MODIFY? && !Malformed(r)
    ensures var step := Modify(b, r.client, r.id, r.price, r.qty, now);
            Carries(b, p, step, LeftBehind(p, b, r) - BookIds(step.book))
  {
    if Owns(b, r.client, r.id) {
      FoundOK(b, r.id);
      OwnedModifyCarries(b, Find(b, r.id).value, r, now, p);
    } else {
      QuietCarries(b, p, Modify(b, r.client, r.id, r.price, r.qty, now));
      NoOverlap(p, BookIds(b));
    }
  }

  lemma {:induction false} StepCarries(b: Book, r: Request, now: Nanos, p: Copy)
    requires BookOK(b) && p.Keys !! BookIds(b)
    ensures Carries(b, p, Step(b, r, now), NextPhantoms(p, b, r, now))
  {
    var step := Step(b, r, now);
    if Malformed(r) {
      QuietCarries(b, p, step);
    } else {
      match r.typ
      case LIMIT => LimitCarries(b, r, now, p);
      case MARKET => TransientCarries(b, Taker(r.client, r.id, r.side, INVALID_PRICE, false), INVALID_PRICE, r.qty, p);
      case IOC => TransientCarries(b, Taker(r.client, r.id, r.side, r.price, true), r.price, r.qty, p);
      case CANCEL => CancelCarries(b, r.client, r.id, p);
      case MODIFY => ModifyCarries(b, r, now, p);
    }
    if Malformed(r) || r.typ.MARKET? || r.typ.IOC? || r.typ.CANCEL? {
      NoOverlap(p, BookIds(step.book));
    }
  }

  // ---------------------------------------------------------------- whole runs

  ghost function Phantoms(symbol: Symbol, ins: seq<Input>): Copy {
    if ins == [] then map[]
    else
      var before, last := ins[..|ins| - 1], ins[|ins| - 1];
      NextPhantoms(Phantoms(symbol, before), Run(symbol, before).book, last.request, last.now)
  }

  /** After every run, the mirror replayed from the update stream is exactly the live book, with side,
      price and quantity of every order, plus the phantoms. */
  lemma {:induction false} MirrorAgrees(symbol: Symbol, ins: seq<Input>)
    ensures Agrees(Replay(map[], Run(symbol, ins).updates), Run(symbol, ins).book, Phantoms(symbol, ins))
  {
    if ins == [] {
      assert All(Empty(symbol)) == [];
    } else {
      var before, last := ins[..|ins| - 1], ins[|ins| - 1];
      var o := Run(symbol, before);
      MirrorAgrees(symbol, before);
      ReachableOK(symbol, before);
      StepCarries(o.book, last.request, last.now, Phantoms(symbol, before));
      ReplayConcat(map[], o.updates, Step(o.book, last.request, last.now).updates);
    }
  }

  /** Entry `k` says whether request `k` re-priced order `id` into a complete fill. */
  ghost function LeftTrace(symbol: Symbol, ins: seq<Input>, id: OrderId): (t: seq<bool>)
    ensures |t| == |ins|
  {
    if ins == [] then []
    else
      var before, r := ins[..|ins| - 1], ins[|ins| - 1].request;
      LeftTrace(symbol, before, id) + [r.id == id && FilledByRepricing(Run(symbol, before).book, r)]
  }

  /** Entry `k` says whether `id` rests in the book after `k` requests. */
  ghost function RestTrace(symbol: Symbol, ins: seq<Input>, id: OrderId): (t: seq<bool>)
    ensures |t| == |ins| + 1
  {
    if ins == [] then [false]
    else RestTrace(symbol, ins[..|ins| - 1], id) + [id in BookIds(Run(symbol, ins).book)]
  }

  /** Raised by some request and not lowered since. */
  ghost predicate RaisedLast(left: seq<bool>, rests: seq<bool>) {
    exists k :: 0 <= k < |left| && left[k] && forall j :: k < j < |rests| ==> !rests[j]
  }

  lemma {:induction false} RaisedSnoc(left: seq<bool>, rests: seq<bool>, l: bool, x: bool)
    requires |rests| == |left| + 1
    ensures RaisedLast(left + [l], rests + [x]) <==> (RaisedLast(left, rests) || l) && !x
  {
    var left', rests' := left + [l], rests + [x];
    if RaisedLast(left', rests') {
      var k :| 0 <= k < |left'| && left'[k] && forall j :: k < j < |rests'| ==> !rests'[j];
      assert !rests'[|rests|];
      if k < |left| {
        assert left[k] && forall j :: k < j < |rests| ==> rests[j] == rests'[j];
      }
    }
    if !x && l {
      assert left'[|left|] && forall j :: |left| < j < |rests'| ==> !rests'[j];
    }
    if !x && RaisedLast(left, rests) {
      var k :| 0 <= k < |left| && left[k] && forall j :: k < j < |rests| ==> !rests[j];
      assert left'[k] && forall j :: k < j < |rests'| ==> !rests'[j];
    }
  }

  lemma {:induction false} PhantomSnoc(symbol: Symbol, ins: seq<Input>, id: OrderId)
    requires ins != []
    ensures var before, r := ins[..|ins| - 1], ins[|ins| - 1].request;
            id in Phantoms(symbol, ins)
            <==> (id in Phantoms(symbol, before) || (r.id == id && FilledByRepricing(Run(symbol, before).book, r)))
                 && id !in BookIds(Run(symbol, ins).book)
  {
  }

  /** Some re-pricing filled order `id` completely and it has not rested since. */
  ghost predicate Lingers(symbol: Symbol, ins: seq<Input>, id: OrderId) {
    RaisedLast(LeftTrace(symbol, ins, id), RestTrace(symbol, ins, id))
  }

  /** Before the call: a re-pricing will fill completely exactly when the other clients' orders within the new
      price hold at least its quantity. */
  lemma {:induction false} RepricingFillsWhen(b: Book, r: Request)
    requires BookOK(b) && r.typ.MODIFY? && Incoming(b, r).Some?
    ensures var a := Incoming(b, r).value;
            var q := Opposite(a.book, a.taker.side);
            FilledByRepricing(b, r) <==> r.qty <= Ahead(a.taker, q, |q|)
  {
    var a := Incoming(b, r).value;
    RemoveOK(b, r.id);
    SweepIsAllocation(a.taker, Opposite(a.book, a.taker.side), a.qty);
  }

  /** The phantoms are exactly the ids that some re-pricing filled completely and that have not rested in
      the book at any time since. */
  lemma {:induction false} PhantomsExplained(symbol: Symbol, ins: seq<Input>, id: OrderId)
    ensures id in Phantoms(symbol, ins) <==> Lingers(symbol, ins, id)
  {
    if ins != [] {
      var before, r := ins[..|ins| - 1], ins[|ins| - 1].request;
      PhantomsExplained(symbol, before, id);
      PhantomSnoc(symbol, ins, id);
      RaisedSnoc(LeftTrace(symbol, before, id), RestTrace(symbol, before, id),
                 r.id == id && FilledByRepricing(Run(symbol, before).book, r), id in BookIds(Run(symbol, ins).book));
    }
  }

  lemma {:induction false} NothingAdded(x: Copy, p: Copy)
    requires p.Keys !! x.Keys
    ensures p + x == x <==> p == map[]
  {
    if p != map[] {
      var id :| id in p;
      assert id in p + x && id !in x;
    } else {
      assert p + x == x;
    }
  }

  lemma {:induction false} NoPhantoms(symbol: Symbol, ins: seq<Input>)
    ensures Phantoms(symbol, ins) == map[]
            <==> forall id :: !Lingers(symbol, ins, id)
  {
    forall id ensures id in Phantoms(symbol, ins) <==> Lingers(symbol, ins, id) {
      PhantomsExplained(symbol, ins, id);
    }
    NoKeys(Phantoms(symbol, ins));
  }

  lemma {:induction false} NoKeys(p: Copy)
    ensures p == map[] <==> forall id :: id !in p
  {
  }

  /** The mirror is an exact copy of the live book if and only if no order that left through a re-pricing
      filled completely is still waiting to rest again. */
  lemma {:induction false} ExactIff(symbol: Symbol, ins: seq<Input>)
    ensures Replay(map[], Run(symbol, ins).updates) == CopyOf(All(Run(symbol, ins).book))
            <==> forall id :: !Lingers(symbol, ins, id)
  {
    MirrorAgrees(symbol, ins);
    NothingAdded(CopyOf(All(Run(symbol, ins).book)), Phantoms(symbol, ins));
    NoPhantoms(symbol, ins);
  }

  /** A run in which no re-pricing fills completely is mirrored exactly. */
  lemma {:induction false} ExactWithoutRepricing(symbol: Symbol, ins: seq<Input>)
    requires forall id :: true !in LeftTrace(symbol, ins, id)
    ensures Replay(map[], Run(symbol, ins).updates) == CopyOf(All(Run(symbol, ins).book))
  {
    forall id ensures !Lingers(symbol, ins, id) {
      assert true !in LeftTrace(symbol, ins, id);
    }
    ExactIff(symbol, ins);
  }

  // ---------------------------------------------------------------- the exception is real

  const SELL_5_AT_110 := Input(Request(LIMIT, 1, "TST", 1, SELL, 110, 5, 0), 0)
  const BUY_5_AT_100 := Input(Request(LIMIT, 2, "TST", 2, BUY, 100, 5, 0), 1)
  const REPRICE_TO_110 := Input(Request(MODIFY, 2, "TST", 2, Side.INVALID, 110, 5, 0), 2)

  lemma {:induction false} RunSnoc(symbol: Symbol, ins: seq<Input>, i: Input)
    ensures var o := Run(symbol, ins);
            var step := Step(o.book, i.request, i.now);
            Run(symbol, ins + [i]) == Outcome(step.book, o.responses + step.responses, o.updates + step.updates)
  {
    assert (ins + [i])[..|ins|] == ins;
  }

  lemma {:induction false} RepricedAway()
    ensures var ask, bid := Order(1, 1, LIMIT, SELL, 110, 5, 5, 0), Order(2, 2, LIMIT, BUY, 100, 5, 5, 1);
            var o := Step(Book("TST", [bid], [ask]), REPRICE_TO_110.request, REPRICE_TO_110.now);
            && o.book == Empty("TST")
            && o.updates == [BookUpdate(TRADE, 1, "TST", SELL, 110, 5),
               BookUpdate(CANCEL_ORDER, 1, "TST", SELL, 110, 0)]
  {
    var ask, bid := Order(1, 1, LIMIT, SELL, 110, 5, 5, 0), Order(2, 2, LIMIT, BUY, 100, 5, 5, 1);
    var t := Taker(2, 2, BUY, 110, true);
    assert [ask][1..] == [];
    assert Sweep(t, [ask], 5) == Swept([], 0, [Fill(ask.(qty := 0), 5, 0)]);
    FillEventsOfOne("TST", t, Fill(ask.(qty := 0), 5, 0));
    assert RemoveFrom(Book("TST", [bid], [ask]), 2) == Book("TST", [], [ask]);
  }

  lemma {:induction false} BeforeRepricing()
    ensures var o := Run("TST", [SELL_5_AT_110, BUY_5_AT_100]);
            && o.book == Book("TST", [Order(2, 2, LIMIT, BUY, 100, 5, 5, 1)], [Order(1, 1, LIMIT, SELL, 110, 5, 5, 0)])
            && o.updates == [BookUpdate(ADD_ORDER, 1, "TST", SELL, 110, 5),
               BookUpdate(ADD_ORDER, 2, "TST", BUY, 100, 5)]
  {
    RunSnoc("TST", [], SELL_5_AT_110);
    RunSnoc("TST", [SELL_5_AT_110], BUY_5_AT_100);
    assert [] + [SELL_5_AT_110] == [SELL_5_AT_110] && [SELL_5_AT_110] + [BUY_5_AT_100] == [SELL_5_AT_110, BUY_5_AT_100];
  }

  lemma {:induction false} ReplayExample(a: BookUpdate, b: BookUpdate, c: BookUpdate, d: BookUpdate)
    ensures Replay(map[], [a, b] + [c, d]) == Apply(Apply(Apply(Apply(map[], a), b), c), d)
  {
    var us := [a, b, c, d];
    assert [a, b] + [c, d] == us && us[..3] == [a, b, c] && [a, b, c][..2] == [a, b] && [a, b][..1] == [a];
    ReplayOfOne(map[], a);
    assert Replay(map[], [a, b]) == Apply(Replay(map[], [a]), b);
  }

  /** A bid re-priced onto a matching ask trades away and leaves the book empty, yet stays in the mirror. */
  lemma {:induction false} PhantomExample()
    ensures var o := Run("TST", [SELL_5_AT_110, BUY_5_AT_100] + [REPRICE_TO_110]);
            && o.book == Empty("TST")
            && Replay(map[], o.updates) == map[2 := Entry(2, BUY, 100, 5)]
  {
    BeforeRepricing();
    RepricedAway();
    RunSnoc("TST", [SELL_5_AT_110, BUY_5_AT_100], REPRICE_TO_110);
    ReplayExample(BookUpdate(ADD_ORDER, 1, "TST", SELL, 110, 5), BookUpdate(ADD_ORDER, 2, "TST", BUY, 100, 5),
                  BookUpdate(TRADE, 1, "TST", SELL, 110, 5), BookUpdate(CANCEL_ORDER, 1, "TST", SELL, 110, 0));
  }

  // ---------------------------------------------------------------- the service

  type Mirrors = map<Symbol, Copy>

  /** Looking a symbol up creates its empty copy, as the service's map does. */
  function CopyFor(ms: Mirrors, symbol: Symbol): Copy {
    if symbol in ms then ms[symbol] else map[]
  }

  function ApplyAll(ms: Mirrors, u: BookUpdate): Mirrors {
    ms[u.symbol := Apply(CopyFor(ms, u.symbol), u)]
  }

  ghost predicate Keyed(m: Copy) {
    forall id :: id in m ==> m[id].id == id
  }

  class BookSnapshotService {
    var mirror: Mirrors

    constructor ()
      ensures mirror == map[] && Valid()
    {
      mirror := map[];
    }

    ghost predicate Valid()
      reads this
    {
      forall s :: s in mirror ==> Keyed(mirror[s])
    }

    method ApplyUpdate(u: BookUpdate)
      requires Valid()
      modifies this
      ensures Valid() && mirror == ApplyAll(old(mirror), u)
      ensures forall s :: s != u.symbol ==> CopyFor(mirror, s) == CopyFor(old(mirror), s)
      ensures var was, m := CopyFor(old(mirror), u.symbol), CopyFor(mirror, u.symbol);
              && (forall id :: id != u.id ==> (id in m <==> id in was) && (id in m ==> m[id] == was[id]))
              && (u.typ.ADD_ORDER? ==> u.id in m && m[u.id] == Entry(u.id, u.side, u.price, u.qty))
              && (u.typ.MODIFY_ORDER? ==> (u.id in m <==> u.id in was)
                                          && (u.id in m ==> m[u.id] == was[u.id].(qty := u.qty)))
              && (u.typ.CANCEL_ORDER? ==> u.id !in m) && (u.typ.TRADE? ==> m == was)
    {
      var book := if u.symbol in mirror then mirror[u.symbol] else map[];
      match u.typ {
        case ADD_ORDER => book := book[u.id := Entry(u.id, u.side, u.price, u.qty)];
        case MODIFY_ORDER =>
          if u.id in book {
            book := book[u.id := book[u.id].(qty := u.qty)];
          }
        case CANCEL_ORDER => book := book - {u.id};
        case TRADE =>
      }
      mirror := mirror[u.symbol := book];
    }

    /** Every entry of the symbol's copy, each exactly once. */
    method SnapshotFor(symbol: Symbol) returns (out: seq<Entry>)
      requires Valid()
      ensures forall i, j :: 0 <= i < j < |out| ==> out[i].id != out[j].id
      ensures forall e :: e in out <==> e.id in CopyFor(mirror, symbol) && e == CopyFor(mirror, symbol)[e.id]
    {
      out := [];
      if symbol !in mirror {
        return;
      }
      var book := mirror[symbol];
      var todo := book.Keys;
      while todo != {}
        invariant todo <= book.Keys
        invariant forall i, j :: 0 <= i < j < |out| ==> out[i].id != out[j].id
        invariant forall e :: e in out <==> e.id in book && e == book[e.id] && e.id !in todo
        decreases todo
      {
        var id :| id in todo;
        todo := todo - {id};
        assert forall i :: 0 <= i < |out| ==> out[i] in out;
        out := out + [book[id]];
      }
    }
  }
}
