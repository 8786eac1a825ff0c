/** How far a sweep has come: the reasoning behind the matching loops, free of pointers. */
module Progress {
  import opened Types
  import opened Book
  import opened Matching
  import opened Seal

  /** The orders before position `c` of `q` are settled, `fills` have been made, and sweeping the rest with
      `leaves` completes the sweep of `q0` with `qty`. */
  ghost predicate Sweeping(t: Taker, q0: seq<Order>, qty: Qty, q: seq<Order>, c: nat, leaves: Qty, fills: seq<Fill>) {
    EndsAs(t, Sweep(t, q0, qty), q, c, leaves, fills)
  }

  ghost predicate EndsAs(t: Taker, end: Swept, q: seq<Order>, c: nat, leaves: Qty, fills: seq<Fill>) {
    && c <= |q|
    && forall key {:trigger Look(key)} :: key == Sweeps ==>
         var s := Sweep(t, q[c..], leaves);
         end == Swept(q[..c] + s.rest, s.leaves, fills + s.fills)
  }

  lemma {:induction false} SweepStarts(t: Taker, q: seq<Order>, qty: Qty)
    ensures Sweeping(t, q, qty, q, 0, qty, [])
  {
    assert Look(Sweeps);
    var s := Sweep(t, q, qty);
    assert q[0..] == q && q[..0] + s.rest == s.rest && [] + s.fills == s.fills;
  }

  /** Passing over an own order, or over any order once nothing is left to trade. */
  lemma {:induction false} SweepSkips(t: Taker, q0: seq<Order>, qty: Qty, q: seq<Order>, c: nat, leaves: Qty,
                                      fills: seq<Fill>)
    requires Sweeping(t, q0, qty, q, c, leaves, fills) && c < |q|
    requires leaves == 0 || (q[c].client == t.client && Crosses(t, q[c].price))
    ensures Sweeping(t, q0, qty, q, c + 1, leaves, fills)
  {
    assert Look(Sweeps);
    assert q[c..][1..] == q[c + 1..] && q[c..][0] == q[c];
    assert q[..c + 1] == q[..c] + [q[c]];
    var s, s' := Sweep(t, q[c..], leaves), Sweep(t, q[c + 1..], leaves);
    if leaves == 0 {
      assert q[c..] == [q[c]] + q[c + 1..];
      Assoc(q[..c], [q[c]], q[c + 1..]);
    } else {
      assert s.rest == [q[c]] + s'.rest && s.fills == [] + s'.fills;
      assert [] + s'.fills == s'.fills;
      Assoc(q[..c], [q[c]], s'.rest);
    }
  }

  /** The list once order `c` has given up `n` units, and where the next order then stands. */
  function AfterFill(q: seq<Order>, c: nat, n: Qty): seq<Order>
    requires c < |q| && n <= q[c].qty
  {
    if n == q[c].qty then RemoveAt(q, c) else q[c := q[c].(qty := q[c].qty - n)]
  }

  function NextAfterFill(q: seq<Order>, c: nat, n: Qty): nat
    requires c < |q|
  {
    if n == q[c].qty then c else c + 1
  }

  lemma {:induction false} SweepFills(t: Taker, q0: seq<Order>, qty: Qty, q: seq<Order>, c: nat, leaves: Qty,
                                      fills: seq<Fill>)
    requires Sweeping(t, q0, qty, q, c, leaves, fills) && c < |q|
    requires leaves > 0 && q[c].client != t.client && Crosses(t, q[c].price)
    ensures var n := Min(leaves, q[c].qty);
            var f := Fill(q[c].(qty := q[c].qty - n), n, leaves - n);
            Sweeping(t, q0, qty, AfterFill(q, c, n), NextAfterFill(q, c, n), leaves - n, fills + [f])
  {
    var n := Min(leaves, q[c].qty);
    FillEnds(t, Sweep(t, q0, qty), q, c, leaves, n, fills);
  }

  lemma {:induction false} FillEnds(t: Taker, end: Swept, q: seq<Order>, c: nat, leaves: Qty, n: Qty, fills: seq<Fill>)
    requires EndsAs(t, end, q, c, leaves, fills) && c < |q| && n == Min(leaves, q[c].qty)
    requires leaves > 0 && q[c].client != t.client && Crosses(t, q[c].price)
    ensures EndsAs(t, end, AfterFill(q, c, n), NextAfterFill(q, c, n), leaves - n,
                   fills + [Fill(q[c].(qty := q[c].qty - n), n, leaves - n)])
  {
    assert Look(Sweeps);
    var f := Fill(q[c].(qty := q[c].qty - n), n, leaves - n);
    var s := Sweep(t, q[c + 1..], leaves - n);
    assert Sweep(t, q[c..], leaves) == Swept(Kept(t, q[c], n) + s.rest, s.leaves, [f] + s.fills) by {
      assert q[c..][1..] == q[c + 1..] && q[c..][0] == q[c];
    }
    AfterFillSplits(t, q, c, n);
    Assoc(fills, [f], s.fills);
    Assoc(q[..c], Kept(t, q[c], n), s.rest);
  }

  lemma {:induction false} AfterFillSplits(t: Taker, q: seq<Order>, c: nat, n: Qty)
    requires c < |q| && n <= q[c].qty && q[c].client != t.client
    ensures var q', c' := AfterFill(q, c, n), NextAfterFill(q, c, n);
            c' <= |q'| && q'[..c'] == q[..c] + Kept(t, q[c], n) && q'[c'..] == q[c + 1..]
  {
  }

  lemma {:induction false} SweepEnds(t: Taker, q0: seq<Order>, qty: Qty, q: seq<Order>, c: nat, leaves: Qty,
                                     fills: seq<Fill>)
    requires Sweeping(t, q0, qty, q, c, leaves, fills) && Stops(t, q[c..], leaves)
    ensures Sweep(t, q0, qty) == Swept(q, leaves, fills)
  {
    assert Look(Sweeps);
    assert q[..c] + q[c..] == q && fills + [] == fills;
  }

  // ---------------------------------------------------------------- a sweep with its events

  /** Where a sweep began: the side, the quantity, and the events already sent. */
  datatype Start = Start(queue: seq<Order>, qty: Qty, responses: seq<Response>, updates: seq<BookUpdate>)

  ghost predicate Made(sym: Symbol, t: Taker, s0: Start, q: seq<Order>, c: nat, leaves: Qty,
                       rs: seq<Response>, us: seq<BookUpdate>, fills: seq<Fill>) {
    && Sweeping(t, s0.queue, s0.qty, q, c, leaves, fills)
    && rs == s0.responses + AllFillResponses(sym, t, fills)
    && us == s0.updates + AllFillUpdates(sym, fills)
  }

  /** The sweep has come to position `c` of `q` and the events sent are those of the fills made so far. */
  ghost predicate OnTrack(sym: Symbol, t: Taker, s0: Start, q: seq<Order>, c: nat, leaves: Qty,
                          rs: seq<Response>, us: seq<BookUpdate>) {
    forall key {:trigger Look(key)} :: key == Sweeps
        ==> exists fills :: Made(sym, t, s0, q, c, leaves, rs, us, fills)
  }

  lemma {:induction false} TrackStarts(sym: Symbol, t: Taker, s0: Start)
    ensures OnTrack(sym, t, s0, s0.queue, 0, s0.qty, s0.responses, s0.updates)
  {
    SweepStarts(t, s0.queue, s0.qty);
    assert s0.responses + [] == s0.responses && s0.updates + [] == s0.updates;
    assert Made(sym, t, s0, s0.queue, 0, s0.qty, s0.responses, s0.updates, []);
  }

  lemma {:induction false} TrackSkips(sym: Symbol, t: Taker, s0: Start, q: seq<Order>, c: nat, leaves: Qty,
                                      rs: seq<Response>, us: seq<BookUpdate>)
    requires OnTrack(sym, t, s0, q, c, leaves, rs, us) && c < |q|
    requires leaves == 0 || (q[c].client == t.client && Crosses(t, q[c].price))
    ensures OnTrack(sym, t, s0, q, c + 1, leaves, rs, us)
  {
    assert Look(Sweeps);
    var fills :| Made(sym, t, s0, q, c, leaves, rs, us, fills);
    SweepSkips(t, s0.queue, s0.qty, q, c, leaves, fills);
    assert Made(sym, t, s0, q, c + 1, leaves, rs, us, fills);
  }

  /** `f` is what happens to the order at position `c`. */
  predicate Hits(t: Taker, q: seq<Order>, c: nat, leaves: Qty, f: Fill) {
    && c < |q| && leaves > 0 && q[c].client != t.client && Crosses(t, q[c].price)
    && f.qty == Min(leaves, q[c].qty) && f == Fill(q[c].(qty := q[c].qty - f.qty), f.qty, leaves - f.qty)
  }

  lemma {:induction false} MadeFills(sym: Symbol, t: Taker, s0: Start, q: seq<Order>, c: nat, leaves: Qty,
                                     rs: seq<Response>, us: seq<BookUpdate>, fills: seq<Fill>, f: Fill)
    requires Made(sym, t, s0, q, c, leaves, rs, us, fills) && Hits(t, q, c, leaves, f)
    ensures Made(sym, t, s0, AfterFill(q, c, f.qty), NextAfterFill(q, c, f.qty), f.leaves,
                 rs + FillResponses(sym, t, f), us + FillUpdates(sym, f), fills + [f])
  {
    SweepFills(t, s0.queue, s0.qty, q, c, leaves, fills);
    EventsExtend(sym, t, s0, fills, f);
  }

  lemma {:induction false} EventsExtend(sym: Symbol, t: Taker, s0: Start, fills: seq<Fill>, f: Fill)
    ensures s0.responses + AllFillResponses(sym, t, fills) + FillResponses(sym, t, f)
         == s0.responses + AllFillResponses(sym, t, fills + [f])
    ensures s0.updates + AllFillUpdates(sym, fills) + FillUpdates(sym, f)
         == s0.updates + AllFillUpdates(sym, fills + [f])
  {
    FillEventsConcat(sym, t, fills, [f]);
    FillEventsOfOne(sym, t, f);
    Assoc(s0.responses, AllFillResponses(sym, t, fills), FillResponses(sym, t, f));
    Assoc(s0.updates, AllFillUpdates(sym, fills), FillUpdates(sym, f));
  }

  lemma {:induction false} TrackFills(sym: Symbol, t: Taker, s0: Start, q: seq<Order>, c: nat, leaves: Qty,
                                      rs: seq<Response>, us: seq<BookUpdate>, f: Fill)
    requires OnTrack(sym, t, s0, q, c, leaves, rs, us) && Hits(t, q, c, leaves, f)
    ensures OnTrack(sym, t, s0, AfterFill(q, c, f.qty), NextAfterFill(q, c, f.qty), f.leaves,
                    rs + FillResponses(sym, t, f), us + FillUpdates(sym, f))
  {
    assert Look(Sweeps);
    var fills :| Made(sym, t, s0, q, c, leaves, rs, us, fills);
    MadeFills(sym, t, s0, q, c, leaves, rs, us, fills, f);
  }

  lemma {:induction false} TrackEnds(sym: Symbol, t: Taker, s0: Start, q: seq<Order>, c: nat, leaves: Qty,
                                     rs: seq<Response>, us: seq<BookUpdate>)
    requires OnTrack(sym, t, s0, q, c, leaves, rs, us) && c <= |q| && Stops(t, q[c..], leaves)
    ensures var s := Sweep(t, s0.queue, s0.qty);
            && s.rest == q && s.leaves == leaves
            && rs == s0.responses + AllFillResponses(sym, t, s.fills) && us == s0.updates + AllFillUpdates(sym, s.fills)
  {
    assert Look(Sweeps);
    var fills :| Made(sym, t, s0, q, c, leaves, rs, us, fills);
    SweepEnds(t, s0.queue, s0.qty, q, c, leaves, fills);
  }

  // ---------------------------------------------------------------- cursors

  /** Price `p` comes strictly after `from` in priority; every price comes after no price at all. */
  predicate Beyond(buy: bool, from: Option<Price>, p: Price) {
    from.Some? ==> p != from.value && AtLeastAsGood(buy, from.value, p)
  }

  /** Position `c` is the first whose price comes after `from`. */
  ghost predicate Cursor(q: seq<Order>, c: nat, from: Option<Price>, buy: bool) {
    && c <= |q|
    && (forall j :: 0 <= j < c ==> !Beyond(buy, from, q[j].price))
    && (c < |q| ==> Beyond(buy, from, q[c].price))
  }

  /** Position `c` lies inside or just behind the level of price `p`. */
  ghost predicate Within(q: seq<Order>, c: nat, p: Price, buy: bool) {
    && c <= |q|
    && (forall j :: 0 <= j < c ==> AtLeastAsGood(buy, q[j].price, p))
    && (c < |q| ==> AtLeastAsGood(buy, p, q[c].price))
  }

  lemma {:induction false} EntersLevel(q: seq<Order>, c: nat, from: Option<Price>, buy: bool)
    requires SortedByPrice(q, buy) && Cursor(q, c, from, buy) && c < |q|
    ensures Within(q, c, q[c].price, buy)
    ensures c > 0 ==> q[c - 1].price != q[c].price
  {
  }

  lemma {:induction false} LeavesLevel(q: seq<Order>, c: nat, p: Price, buy: bool)
    requires Within(q, c, p, buy) && (c < |q| ==> q[c].price != p)
    ensures Cursor(q, c, Some(p), buy)
  {
  }

  lemma {:induction false} WithinSkips(q: seq<Order>, c: nat, p: Price, buy: bool)
    requires SortedByPrice(q, buy) && Within(q, c, p, buy) && c < |q| && q[c].price == p
    ensures Within(q, c + 1, p, buy)
  {
    assert c + 1 < |q| ==> AtLeastAsGood(buy, q[c].price, q[c + 1].price);
  }

  lemma {:induction false} WithinFills(q: seq<Order>, c: nat, p: Price, buy: bool, n: Qty)
    requires SortedByPrice(q, buy) && Within(q, c, p, buy) && c < |q| && q[c].price == p && n <= q[c].qty
    ensures var q', c' := AfterFill(q, c, n), NextAfterFill(q, c, n);
            && Within(q', c', p, buy)
            && |q'| - c' == |q| - c - 1
            && (c' < |q'| ==> q'[c'] == q[c + 1])
  {
    WithinSkips(q, c, p, buy);
  }
}
