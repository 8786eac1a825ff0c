/** What the matcher computes: the walk down the book is exactly the greedy allocation of the incoming
    quantity over the eligible orders in priority order. */
module Matching {
  import opened Types
  import opened Book

  ghost predicate SortedByPrice(q: seq<Order>, buy: bool) {
    forall i, j :: 0 <= i < j < |q| ==> AtLeastAsGood(buy, q[i].price, q[j].price)
  }

  ghost predicate LiveQty(q: seq<Order>) {
    forall i :: 0 <= i < |q| ==> 0 < q[i].qty
  }

  lemma {:induction false} Assoc<T>(a: seq<T>, b: seq<T>, c: seq<T>)
    ensures (a + b) + c == a + (b + c)
  {
  }

  lemma {:induction false} InsertSorted(q: seq<Order>, o: Order, buy: bool)
    requires SortedByPrice(q, buy)
    ensures SortedByPrice(Insert(q, o, buy), buy)
  {
    var k := InsertPos(q, o.price, buy);
    var r := InsertAt(q, k, o);
    forall i, j | 0 <= i < j < |r|
      ensures AtLeastAsGood(buy, r[i].price, r[j].price)
    {
      assert k < |q| && i == k < j ==> k == j - 1 || AtLeastAsGood(buy, q[k].price, q[j - 1].price);
    }
  }

  // ---------------------------------------------------------------- the reference allocation

  /** An order the taker may trade with: another client's, at a price within the limit. */
  predicate Eligible(t: Taker, o: Order) {
    o.client != t.client && Crosses(t, o.price)
  }

  /** Total quantity of the eligible orders among the first `k`. */
  function Ahead(t: Taker, q: seq<Order>, k: nat): nat
    requires k <= |q|
  {
    if k == 0 then 0 else Ahead(t, q, k - 1) + if Eligible(t, q[k - 1]) then q[k - 1].qty else 0
  }

  /** What order `k` is due out of `qty`: all it has, or whatever the eligible orders ahead leave over. */
  function Share(t: Taker, q: seq<Order>, qty: Qty, k: nat): (n: Qty)
    requires k < |q|
    ensures n <= q[k].qty
  {
    if !Eligible(t, q[k]) || qty <= Ahead(t, q, k) then 0 else Min(q[k].qty, qty - Ahead(t, q, k))
  }

  function Remaining(t: Taker, q: seq<Order>, qty: Qty, k: nat): Qty
    requires k <= |q|
  {
    qty - Min(qty, Ahead(t, q, k))
  }

  function Served(t: Taker, q: seq<Order>, qty: Qty, k: nat): Order
    requires k < |q|
  {
    q[k].(qty := q[k].qty - Share(t, q, qty, k))
  }

  /** The first `k` orders after everyone is served, exhausted ones dropped. */
  function Residue(t: Taker, q: seq<Order>, qty: Qty, k: nat): seq<Order>
    requires k <= |q|
  {
    if k == 0 then []
    else
      var o := Served(t, q, qty, k - 1);
      Residue(t, q, qty, k - 1) + if o.qty == 0 then [] else [o]
  }

  /** The executions among the first `k` orders, in priority order. */
  function Executions(t: Taker, q: seq<Order>, qty: Qty, k: nat): seq<Fill>
    requires k <= |q|
  {
    if k == 0 then []
    else
      var n := Share(t, q, qty, k - 1);
      Executions(t, q, qty, k - 1)
      + if n == 0 then [] else [Fill(Served(t, q, qty, k - 1), n, Remaining(t, q, qty, k))]
  }

  lemma {:induction false} AheadGrows(t: Taker, q: seq<Order>, j: nat, k: nat)
    requires j <= k <= |q|
    ensures Ahead(t, q, j) <= Ahead(t, q, k)
    ensures j < k && Eligible(t, q[j]) ==> Ahead(t, q, j) + q[j].qty <= Ahead(t, q, k)
  {
    if j < k {
      AheadGrows(t, q, j, k - 1);
    }
  }

  lemma {:induction false} NotDue(t: Taker, q: seq<Order>, qty: Qty, k: nat, n: nat)
    requires k <= n < |q| && SortedByPrice(q, !t.side.BUY?)
    requires Remaining(t, q, qty, k) == 0 || !Crosses(t, q[k].price)
    ensures Served(t, q, qty, n) == q[n] && Share(t, q, qty, n) == 0
    ensures Remaining(t, q, qty, n + 1) == Remaining(t, q, qty, n)
  {
    AheadGrows(t, q, k, n);
    assert n > k ==> AtLeastAsGood(!t.side.BUY?, q[k].price, q[n].price);
  }

  /** Once the walk stops, nobody further down is due anything. */
  lemma {:induction false} NobodyServed(t: Taker, q: seq<Order>, qty: Qty, k: nat, n: nat)
    requires k <= n <= |q| && SortedByPrice(q, !t.side.BUY?) && LiveQty(q)
    requires k == |q| || Remaining(t, q, qty, k) == 0 || !Crosses(t, q[k].price)
    ensures Remaining(t, q, qty, n) == Remaining(t, q, qty, k)
    ensures Residue(t, q, qty, n) == Residue(t, q, qty, k) + q[k..n]
    ensures Executions(t, q, qty, n) == Executions(t, q, qty, k)
  {
    if n == k {
      assert Residue(t, q, qty, k) + q[k..n] == Residue(t, q, qty, k);
    } else {
      NobodyServed(t, q, qty, k, n - 1);
      NotDue(t, q, qty, k, n - 1);
      ResidueGrows(t, q, qty, k, n);
    }
  }

  lemma {:induction false} ResidueGrows(t: Taker, q: seq<Order>, qty: Qty, k: nat, n: nat)
    requires k < n <= |q| && Served(t, q, qty, n - 1) == q[n - 1] && 0 < q[n - 1].qty
    requires Residue(t, q, qty, n - 1) == Residue(t, q, qty, k) + q[k..n - 1]
    ensures Residue(t, q, qty, n) == Residue(t, q, qty, k) + q[k..n]
  {
    assert q[k..n] == q[k..n - 1] + [q[n - 1]];
    Assoc(Residue(t, q, qty, k), q[k..n - 1], [q[n - 1]]);
  }

  /** One step of the walk serves order `k` its share. */
  lemma {:induction false} SweepStep(t: Taker, q: seq<Order>, qty: Qty, k: nat)
    requires k < |q| && 0 < Remaining(t, q, qty, k) && Crosses(t, q[k].price) && 0 < q[k].qty
    ensures var s := Sweep(t, q[k + 1..], Remaining(t, q, qty, k + 1));
            var o := Served(t, q, qty, k);
            var n := Share(t, q, qty, k);
            Sweep(t, q[k..], Remaining(t, q, qty, k))
            == Swept((if o.qty == 0 then [] else [o]) + s.rest, s.leaves,
                     (if n == 0 then [] else [Fill(o, n, Remaining(t, q, qty, k + 1))]) + s.fills)
  {
    assert q[k..][0] == q[k] && q[k..][1..] == q[k + 1..];
    var n := Taken(t, q[k], Remaining(t, q, qty, k));
    assert n == Share(t, q, qty, k) && Remaining(t, q, qty, k + 1) == Remaining(t, q, qty, k) - n;
  }

  /** What is left to sweep from order `k` on, `s`, completes the allocation of the orders before it. */
  ghost predicate Completes(t: Taker, q: seq<Order>, qty: Qty, k: nat, s: Swept)
    requires k <= |q|
  {
    && Residue(t, q, qty, |q|) == Residue(t, q, qty, k) + s.rest
    && Executions(t, q, qty, |q|) == Executions(t, q, qty, k) + s.fills
    && Remaining(t, q, qty, |q|) == s.leaves
  }

  lemma {:induction false} CompletesBefore(t: Taker, q: seq<Order>, qty: Qty, k: nat, s: Swept)
    requires k < |q| && Completes(t, q, qty, k + 1, s)
    ensures var o, n := Served(t, q, qty, k), Share(t, q, qty, k);
            Completes(t, q, qty, k, Swept((if o.qty == 0 then [] else [o]) + s.rest, s.leaves,
                                          (if n == 0 then [] else [Fill(o, n, Remaining(t, q, qty, k + 1))]) + s.fills))
  {
    var o, n := Served(t, q, qty, k), Share(t, q, qty, k);
    Assoc(Residue(t, q, qty, k), if o.qty == 0 then [] else [o], s.rest);
    Assoc(Executions(t, q, qty, k), if n == 0 then [] else [Fill(o, n, Remaining(t, q, qty, k + 1))], s.fills);
  }

  /** At every point the walk has served exactly the allocation of the orders it has passed. */
  lemma {:induction false} SweepFrom(t: Taker, q: seq<Order>, qty: Qty, k: nat)
    requires k <= |q| && SortedByPrice(q, !t.side.BUY?) && LiveQty(q)
    ensures Completes(t, q, qty, k, Sweep(t, q[k..], Remaining(t, q, qty, k)))
    decreases |q| - k
  {
    if k == |q| || Remaining(t, q, qty, k) == 0 || !Crosses(t, q[k].price) {
      NobodyServed(t, q, qty, k, |q|);
      assert q[k..|q|] == q[k..] && Executions(t, q, qty, k) + [] == Executions(t, q, qty, k);
    } else {
      SweepFrom(t, q, qty, k + 1);
      CompletesBefore(t, q, qty, k, Sweep(t, q[k + 1..], Remaining(t, q, qty, k + 1)));
      SweepStep(t, q, qty, k);
    }
  }

  /** The matcher is the greedy allocation: same survivors in the same places, same executions in the
      same order, and the taker keeps exactly what the eligible orders together could not supply. */
  lemma {:induction false} SweepIsAllocation(t: Taker, q: seq<Order>, qty: Qty)
    requires SortedByPrice(q, !t.side.BUY?) && LiveQty(q)
    ensures Sweep(t, q, qty)
         == Swept(Residue(t, q, qty, |q|), qty - Min(qty, Ahead(t, q, |q|)), Executions(t, q, qty, |q|))
  {
    SweepFrom(t, q, qty, 0);
    assert q[0..] == q && Remaining(t, q, qty, 0) == qty;
    var s := Sweep(t, q, qty);
    assert Residue(t, q, qty, 0) + s.rest == s.rest;
    assert Executions(t, q, qty, 0) + s.fills == s.fills;
  }

  /** Nobody is served while an eligible order ahead of them is short, and whoever is left short ends
      the allocation. */
  lemma {:induction false} ServedInOrder(t: Taker, q: seq<Order>, qty: Qty, j: nat, k: nat)
    requires j < k < |q| && Eligible(t, q[j]) && 0 < Share(t, q, qty, k)
    ensures Share(t, q, qty, j) == q[j].qty
  {
    AheadGrows(t, q, j, k);
  }

  // ---------------------------------------------------------------- the events of several fills

  lemma {:induction false} FillEventsConcat(sym: Symbol, t: Taker, fs: seq<Fill>, gs: seq<Fill>)
    ensures AllFillResponses(sym, t, fs + gs) == AllFillResponses(sym, t, fs) + AllFillResponses(sym, t, gs)
    ensures AllFillUpdates(sym, fs + gs) == AllFillUpdates(sym, fs) + AllFillUpdates(sym, gs)
  {
    if fs == [] {
      assert fs + gs == gs;
    } else {
      FillEventsConcat(sym, t, fs[1..], gs);
      assert (fs + gs)[1..] == fs[1..] + gs;
      Assoc(FillResponses(sym, t, fs[0]), AllFillResponses(sym, t, fs[1..]), AllFillResponses(sym, t, gs));
      Assoc(FillUpdates(sym, fs[0]), AllFillUpdates(sym, fs[1..]), AllFillUpdates(sym, gs));
    }
  }

  lemma {:induction false} FillEventsOfOne(sym: Symbol, t: Taker, f: Fill)
    ensures AllFillResponses(sym, t, [f]) == FillResponses(sym, t, f)
    ensures AllFillUpdates(sym, [f]) == FillUpdates(sym, f)
  {
    assert [f][1..] == [];
  }

  // ---------------------------------------------------------------- no order appears out of nowhere

  lemma {:induction false} StaysApart(t: Taker, q: seq<Order>, qty: Qty, id: OrderId, o: Order)
    requires !Has(q, id) && o in Sweep(t, q, qty).rest
    ensures o.id != id
  {
    if !Stops(t, q, qty) {
      var n := Taken(t, q[0], qty);
      if o in Sweep(t, q[1..], qty - n).rest {
        StaysApart(t, q[1..], qty - n, id, o);
      }
    }
  }

  lemma {:induction false} SweepKeepsAbsent(t: Taker, q: seq<Order>, qty: Qty, id: OrderId)
    requires !Has(q, id)
    ensures !Has(Sweep(t, q, qty).rest, id)
  {
    var r := Sweep(t, q, qty).rest;
    forall o | o in r
      ensures o.id != id
    {
      StaysApart(t, q, qty, id, o);
    }
  }
}
