/** No quantity is created or lost: a ledger over the event streams of a whole run. */
module Conservation {
  import opened Types
  import opened Book
  import opened Invariant

  function Total(q: seq<Order>): nat {
    if q == [] then 0 else q[0].qty + Total(q[1..])
  }

  function Resting(b: Book): nat {
    Total(b.bids) + Total(b.asks)
  }

  function FilledQty(fs: seq<Fill>): nat {
    if fs == [] then 0 else fs[0].qty + FilledQty(fs[1..])
  }

  /** Sum of the leaves reported by responses of one status. */
  function SumLeaves(rs: seq<Response>, status: ResponseStatus): nat {
    if rs == [] then 0 else (if rs[0].status == status then rs[0].leaves else 0) + SumLeaves(rs[1..], status)
  }

  /** Sum of the quantities of updates of one type. */
  function SumQty(us: seq<BookUpdate>, typ: UpdateType): nat {
    if us == [] then 0 else (if us[0].typ == typ then us[0].qty else 0) + SumQty(us[1..], typ)
  }

  lemma {:induction false} TotalConcat(q: seq<Order>, r: seq<Order>)
    ensures Total(q + r) == Total(q) + Total(r)
  {
    if q == [] {
      assert q + r == r;
    } else {
      TotalConcat(q[1..], r);
      assert (q + r)[1..] == q[1..] + r;
    }
  }

  lemma {:induction false} TotalAt(q: seq<Order>, k: nat, o: Order)
    ensures k <= |q| ==> Total(InsertAt(q, k, o)) == Total(q) + o.qty
    ensures k < |q| ==> Total(RemoveAt(q, k)) + q[k].qty == Total(q)
    ensures k < |q| ==> Total(q[k := o]) + q[k].qty == Total(q) + o.qty
  {
    if k <= |q| {
      assert q == q[..k] + q[k..];
      TotalConcat(q[..k], q[k..]);
      TotalConcat(q[..k] + [o], q[k..]);
      TotalConcat(q[..k], [o]);
    }
    if k < |q| {
      TotalConcat(q[..k], q[k + 1..]);
      assert q[k..][1..] == q[k + 1..];
      assert q[k := o] == q[..k] + [o] + q[k + 1..];
      TotalConcat(q[..k] + [o], q[k + 1..]);
    }
  }

  lemma {:induction false} SumLeavesConcat(rs: seq<Response>, more: seq<Response>, status: ResponseStatus)
    ensures SumLeaves(rs + more, status) == SumLeaves(rs, status) + SumLeaves(more, status)
  {
    if rs == [] {
      assert rs + more == more;
    } else {
      SumLeavesConcat(rs[1..], more, status);
      assert (rs + more)[1..] == rs[1..] + more;
    }
  }

  lemma {:induction false} SumQtyConcat(us: seq<BookUpdate>, more: seq<BookUpdate>, typ: UpdateType)
    ensures SumQty(us + more, typ) == SumQty(us, typ) + SumQty(more, typ)
  {
    if us == [] {
      assert us + more == more;
    } else {
      SumQtyConcat(us[1..], more, typ);
      assert (us + more)[1..] == us[1..] + more;
    }
  }

  // ---------------------------------------------------------------- one step

  lemma {:induction false} FilledQtyConcat(fs: seq<Fill>, more: seq<Fill>)
    ensures FilledQty(fs + more) == FilledQty(fs) + FilledQty(more)
  {
    if fs == [] {
      assert fs + more == more;
    } else {
      FilledQtyConcat(fs[1..], more);
      assert (fs + more)[1..] == fs[1..] + more;
    }
  }

  lemma {:induction false} VisitBalance(t: Taker, o: Order, n: Qty, leaves: Qty)
    requires n <= o.qty && (o.client == t.client ==> n == 0)
    ensures Total(Kept(t, o, n)) + n == o.qty && FilledQty(Executed(t, o, n, leaves)) == n
  {
  }

  lemma {:induction false} SweepBalance(t: Taker, q: seq<Order>, qty: Qty)
    ensures var s := Sweep(t, q, qty);
            && qty == s.leaves + FilledQty(s.fills)
            && Total(q) == Total(s.rest) + FilledQty(s.fills)
  {
    if !Stops(t, q, qty) {
      var n := Taken(t, q[0], qty);
      SweepBalance(t, q[1..], qty - n);
      var s := Sweep(t, q[1..], qty - n);
      VisitBalance(t, q[0], n, qty - n);
      TotalConcat(Kept(t, q[0], n), s.rest);
      FilledQtyConcat(Executed(t, q[0], n, qty - n), s.fills);
    }
  }

  lemma {:induction false} FillEventSums(sym: Symbol, t: Taker, fs: seq<Fill>)
    ensures SumQty(AllFillUpdates(sym, fs), TRADE) == FilledQty(fs)
    ensures SumQty(AllFillUpdates(sym, fs), CANCEL_ORDER) == 0
    ensures SumLeaves(AllFillResponses(sym, t, fs), ACCEPTED) == 0
    ensures SumLeaves(AllFillResponses(sym, t, fs), CANCELED) == 0
  {
    if fs != [] {
      FillEventSums(sym, t, fs[1..]);
      var us, rs := FillUpdates(sym, fs[0]), FillResponses(sym, t, fs[0]);
      SumQtyConcat(us, AllFillUpdates(sym, fs[1..]), TRADE);
      SumQtyConcat(us, AllFillUpdates(sym, fs[1..]), CANCEL_ORDER);
      SumLeavesConcat(rs, AllFillResponses(sym, t, fs[1..]), ACCEPTED);
      SumLeavesConcat(rs, AllFillResponses(sym, t, fs[1..]), CANCELED);
      assert us[1..] == [us[1]] && rs[1..] == [rs[1]];
    }
  }

  /** Quantity in minus quantity out, read off the events of one step. */
  function NetInflow(rs: seq<Response>, us: seq<BookUpdate>): int {
    SumLeaves(rs, ACCEPTED) - SumLeaves(rs, CANCELED) - 2 * SumQty(us, TRADE) - SumQty(us, CANCEL_ORDER)
  }

  lemma {:induction false} NetInflowConcat(rs: seq<Response>, rs': seq<Response>, us: seq<BookUpdate>,
                                           us': seq<BookUpdate>)
    ensures NetInflow(rs + rs', us + us') == NetInflow(rs, us) + NetInflow(rs', us')
  {
    SumLeavesConcat(rs, rs', ACCEPTED);
    SumLeavesConcat(rs, rs', CANCELED);
    SumQtyConcat(us, us', TRADE);
    SumQtyConcat(us, us', CANCEL_ORDER);
  }

  function ResponseInflow(r: Response): int {
    if r.status.ACCEPTED? then r.leaves else if r.status.CANCELED? then -(r.leaves as int) else 0
  }

  function UpdateInflow(u: BookUpdate): int {
    if u.typ.TRADE? then -2 * u.qty else if u.typ.CANCEL_ORDER? then -(u.qty as int) else 0
  }

  lemma {:induction false} NetInflowOfOne(r: Response, u: BookUpdate)
    ensures NetInflow([r], []) == ResponseInflow(r)
    ensures NetInflow([], [u]) == UpdateInflow(u)
    ensures NetInflow([r], [u]) == ResponseInflow(r) + UpdateInflow(u)
  {
    assert [r][1..] == [] && [u][1..] == [];
    assert SumLeaves([r], ACCEPTED) == if r.status.ACCEPTED? then r.leaves else 0;
    assert SumLeaves([r], CANCELED) == if r.status.CANCELED? then r.leaves else 0;
  }

  /** A header in front of an outcome adds what the header reports. */
  lemma {:induction false} HeaderInflow(r: Response, o: Outcome)
    ensures NetInflow(WithHeader(r, o).responses, o.updates) == ResponseInflow(r) + NetInflow(o.responses, o.updates)
  {
    NetInflowConcat([r], o.responses, [], o.updates);
    NetInflowOfOne(r, BookUpdate(TRADE, 0, "", BUY, 0, 0));
    assert [] + o.updates == o.updates;
  }

  lemma {:induction false} MatchBalance(b: Book, t: Taker, qty: Qty)
    ensures var (m, leaves) := Match(b, t, qty);
            && Resting(m.book) == Resting(b) - (qty - leaves)
            && NetInflow(m.responses, m.updates) == -2 * (qty - leaves)
  {
    SweepBalance(t, Opposite(b, t.side), qty);
    FillEventSums(b.symbol, t, Sweep(t, Opposite(b, t.side), qty).fills);
  }

  lemma {:induction false} MatchAndRestBalance(b: Book, t: Taker, typ: OrderType, qty: Qty, now: Nanos)
    ensures var o := MatchAndRest(b, t, typ, qty, now);
            Resting(o.book) == Resting(b) + qty + NetInflow(o.responses, o.updates)
  {
    var (m, leaves) := Match(b, t, qty);
    MatchBalance(b, t, qty);
    if leaves > 0 {
      RestBalance(m.book, Order(t.id, t.client, typ, t.side, t.limit, qty, leaves, now));
      var add := BookUpdate(ADD_ORDER, t.id, b.symbol, t.side, t.limit, leaves);
      NetInflowConcat(m.responses, [], m.updates, [add]);
      NetInflowOfOne(Response(FILLED, 0, "", 0, 0, BUY, 0, 0, 0), add);
      assert m.responses + [] == m.responses;
    }
  }

  lemma {:induction false} TransientBalance(b: Book, t: Taker, price: Price, qty: Qty)
    ensures var o := AddTransient(b, t, price, qty);
            Resting(o.book) == Resting(b) + NetInflow(o.responses, o.updates)
  {
    if Find(b, t.id).Some? {
      NetInflowOfOne(AddTransient(b, t, price, qty).responses[0], BookUpdate(TRADE, 0, "", BUY, 0, 0));
    } else {
      var (m, leaves) := Match(b, t, qty);
      MatchBalance(b, t, qty);
      var header := Response(ACCEPTED, t.client, b.symbol, t.id, t.id, t.side, price, 0, qty);
      var tail := Response(CANCELED, t.client, b.symbol, t.id, t.id, t.side, price, qty - leaves, leaves);
      HeaderInflow(header, m);
      HeaderInflow(header, m.(responses := m.responses + [tail]));
      NetInflowConcat(m.responses, [tail], m.updates, []);
      NetInflowOfOne(tail, BookUpdate(TRADE, 0, "", BUY, 0, 0));
      assert m.updates + [] == m.updates;
    }
  }

  lemma {:induction false} RemoveBalance(b: Book, id: OrderId)
    requires BookOK(b)
    ensures Resting(RemoveFrom(b, id)) == Resting(b) - if Find(b, id).Some? then Find(b, id).value.qty else 0
  {
    var i, j := IndexOf(b.bids, id), IndexOf(b.asks, id);
    if i < |b.bids| { TotalAt(b.bids, i, b.bids[i]); }
    if j < |b.asks| { TotalAt(b.asks, j, b.asks[j]); }
  }

  /** By how much an accepted modify changes the size its owner asks for. */
  function ModifyDelta(b: Book, r: Request): int {
    if r.typ.MODIFY? && !Malformed(r) && Owns(b, r.client, r.id) then r.qty - Find(b, r.id).value.qty else 0
  }

  lemma {:induction false} RestBalance(b: Book, o: Order)
    ensures Resting(RestIn(b, o)) == Resting(b) + o.qty
  {
    var q := if o.side.BUY? then b.bids else b.asks;
    TotalAt(q, InsertPos(q, o.price, o.side.BUY?), o);
  }

  lemma {:induction false} ResizeBalance(b: Book, id: OrderId, qty: Qty)
    requires BookOK(b) && Find(b, id).Some?
    ensures Resting(b.(bids := Resize(b.bids, id, qty), asks := Resize(b.asks, id, qty)))
         == Resting(b) + qty - Find(b, id).value.qty
  {
    var i, j := IndexOf(b.bids, id), IndexOf(b.asks, id);
    if i < |b.bids| { TotalAt(b.bids, i, b.bids[i].(qty := qty, originalQty := qty)); }
    if j < |b.asks| { TotalAt(b.asks, j, b.asks[j].(qty := qty, originalQty := qty)); }
    assert i == |b.bids| || j == |b.asks|;
  }

  lemma {:induction false} RepriceBalance(b: Book, t: Taker, typ: OrderType, qty: Qty, now: Nanos, header: Response)
    requires BookOK(b) && Find(b, t.id).Some? && ResponseInflow(header) == 0
    ensures var o := WithHeader(header, MatchAndRest(RemoveFrom(b, t.id), t, typ, qty, now));
            Resting(o.book) == Resting(b) + qty - Find(b, t.id).value.qty + NetInflow(o.responses, o.updates)
  {
    RemoveBalance(b, t.id);
    MatchAndRestBalance(RemoveFrom(b, t.id), t, typ, qty, now);
    HeaderInflow(header, MatchAndRest(RemoveFrom(b, t.id), t, typ, qty, now));
  }

  lemma {:induction false} ModifyBalance(b: Book, r: Request, now: Nanos)
    requires BookOK(b) && r.typ.MODIFY? && !Malformed(r) && Owns(b, r.client, r.id)
    ensures var o := Modify(b, r.client, r.id, r.price, r.qty, now);
            Resting(o.book) == Resting(b) + ModifyDelta(b, r) + NetInflow(o.responses, o.updates)
  {
    var o := Find(b, r.id).value;
    var done := Response(MODIFIED, r.client, b.symbol, r.id, r.id, o.side, r.price, 0, r.qty);
    if r.price != o.price {
      RepriceBalance(b, Taker(r.client, r.id, o.side, r.price, true), o.typ, r.qty, now, done);
    } else {
      NetInflowOfOne(done, BookUpdate(MODIFY_ORDER, r.id, b.symbol, o.side, r.price, r.qty));
      if r.qty < o.qty {
        ResizeBalance(b, r.id, r.qty);
      } else if r.qty > o.qty {
        RemoveBalance(b, r.id);
        RestBalance(RemoveFrom(b, r.id), Order(r.id, r.client, o.typ, o.side, r.price, r.qty, r.qty, now));
      }
    }
  }

  lemma {:induction false} LimitBalance(b: Book, client: ClientId, id: OrderId, side: Side, price: Price, qty: Qty,
                                        now: Nanos)
    ensures var o := AddLimit(b, client, id, side, price, qty, now);
            Resting(o.book) == Resting(b) + NetInflow(o.responses, o.updates)
  {
    if Find(b, id).Some? {
      RefusalBalance(AddLimit(b, client, id, side, price, qty, now).responses[0]);
    } else {
      var t := Taker(client, id, side, price, true);
      MatchAndRestBalance(b, t, LIMIT, qty, now);
      HeaderInflow(Response(ACCEPTED, client, b.symbol, id, id, side, price, 0, qty),
          MatchAndRest(b, t, LIMIT, qty, now));
    }
  }

  lemma {:induction false} RefusalBalance(r: Response)
    requires !r.status.ACCEPTED? && !r.status.CANCELED?
    ensures NetInflow([r], []) == 0
  {
    NetInflowOfOne(r, BookUpdate(TRADE, 0, "", BUY, 0, 0));
  }

  lemma {:induction false} CancelBalance(b: Book, client: ClientId, id: OrderId)
    requires BookOK(b)
    ensures var o := Cancel(b, client, id);
            Resting(o.book) == Resting(b) + NetInflow(o.responses, o.updates)
  {
    var step := Cancel(b, client, id);
    if Owns(b, client, id) {
      RemoveBalance(b, id);
      NetInflowOfOne(step.responses[0], step.updates[0]);
    } else {
      RefusalBalance(step.responses[0]);
    }
  }

  lemma {:induction false} StepBalance(b: Book, r: Request, now: Nanos)
    requires BookOK(b)
    ensures var o := Step(b, r, now);
            Resting(o.book) == Resting(b) + ModifyDelta(b, r) + NetInflow(o.responses, o.updates)
  {
    if Malformed(r) {
      RefusalBalance(Reject(r));
    } else {
      match r.typ
      case LIMIT => LimitBalance(b, r.client, r.id, r.side, r.price, r.qty, now);
      case MARKET => TransientBalance(b, Taker(r.client, r.id, r.side, INVALID_PRICE, false), INVALID_PRICE, r.qty);
      case IOC => TransientBalance(b, Taker(r.client, r.id, r.side, r.price, true), r.price, r.qty);
      case CANCEL => CancelBalance(b, r.client, r.id);
      case MODIFY =>
        if Owns(b, r.client, r.id) {
          ModifyBalance(b, r, now);
        } else {
          RefusalBalance(Step(b, r, now).responses[0]);
        }
    }
  }

  // ---------------------------------------------------------------- whole runs

  function RunDelta(symbol: Symbol, ins: seq<Input>): int {
    if ins == [] then 0
    else RunDelta(symbol, ins[..|ins| - 1]) + ModifyDelta(Run(symbol, ins[..|ins| - 1]).book, ins[|ins| - 1].request)
  }

  /** Over every run: accepted quantity plus the net effect of modifies equals twice the traded quantity
      (each trade consumes from both parties), plus what was cancelled on request, plus the cancelled
      remainders of market and immediate-or-cancel orders, plus what still rests. */
  lemma {:induction false} QuantityConserved(symbol: Symbol, ins: seq<Input>)
    ensures var o := Run(symbol, ins);
            SumLeaves(o.responses, ACCEPTED) + RunDelta(symbol, ins)
            == 2 * SumQty(o.updates, TRADE) + SumQty(o.updates, CANCEL_ORDER) + SumLeaves(o.responses, CANCELED)
               + Resting(o.book)
  {
    if ins != [] {
      var before, last := ins[..|ins| - 1], ins[|ins| - 1];
      var o := Run(symbol, before);
      QuantityConserved(symbol, before);
      ReachableOK(symbol, before);
      StepBalance(o.book, last.request, last.now);
      var step := Step(o.book, last.request, last.now);
      NetInflowConcat(o.responses, step.responses, o.updates, step.updates);
    }
  }
}
