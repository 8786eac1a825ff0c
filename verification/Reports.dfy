/** What clients can rely on in the response stream: current leaves, well-formed fills, bounded bursts. */
module Reports {
  import opened Types
  import opened Seal
  import opened Book
  import opened Matching
  import opened Invariant

  // ---------------------------------------------------------------- the latest report is the truth

  predicate Refusal(status: ResponseStatus) {
    status.REJECTED? || status.CANCEL_REJECTED? || status.MODIFY_REJECTED?
  }

  /** The leaves quantity in the most recent response about `id` that is not a refusal. */
  function Latest(rs: seq<Response>, id: OrderId): Option<Qty> {
    if rs == [] then None
    else
      var last := rs[|rs| - 1];
      if last.clientOrderId == id && !Refusal(last.status) then Some(last.leaves)
      else Latest(rs[..|rs| - 1], id)
  }

  lemma {:induction false} LatestConcat(rs: seq<Response>, more: seq<Response>, id: OrderId)
    ensures Latest(rs + more, id) == if Latest(more, id).Some? then Latest(more, id) else Latest(rs, id)
  {
    if more == [] {
      assert rs + more == rs;
    } else {
      LatestConcat(rs, more[..|more| - 1], id);
      assert (rs + more)[..|rs + more| - 1] == rs + more[..|more| - 1];
    }
  }

  lemma {:induction false} LatestOfOne(r: Response, id: OrderId)
    ensures Latest([r], id) == if r.clientOrderId == id && !Refusal(r.status) then Some(r.leaves) else None
  {
    assert [r][..0] == [];
  }

  lemma {:induction false} LatestOfFill(sym: Symbol, t: Taker, f: Fill, id: OrderId)
    requires f.maker.id != t.id
    ensures Latest(FillResponses(sym, t, f), id)
         == if id == t.id then Some(f.leaves) else if id == f.maker.id then Some(f.maker.qty) else None
  {
    var rs := FillResponses(sym, t, f);
    assert rs[..1] == [rs[0]];
    LatestOfOne(rs[0], id);
  }

  /** Only the taker and the orders it traded with are reported on. */
  lemma {:induction false} LatestOfFills(sym: Symbol, t: Taker, fs: seq<Fill>, id: OrderId)
    requires forall i :: 0 <= i < |fs| ==> fs[i].maker.id != t.id
    ensures id == t.id && fs != [] ==> Latest(AllFillResponses(sym, t, fs), id) == Some(fs[|fs| - 1].leaves)
    ensures id != t.id && (forall i :: 0 <= i < |fs| ==> fs[i].maker.id != id)
            ==> Latest(AllFillResponses(sym, t, fs), id) == None
  {
    if fs != [] {
      LatestOfFills(sym, t, fs[1..], id);
      LatestOfFill(sym, t, fs[0], id);
      LatestConcat(FillResponses(sym, t, fs[0]), AllFillResponses(sym, t, fs[1..]), id);
    }
  }

  lemma {:induction false} FillsLack(t: Taker, q: seq<Order>, qty: Qty, id: OrderId)
    requires !Has(q, id)
    ensures forall i :: 0 <= i < |Sweep(t, q, qty).fills| ==> Sweep(t, q, qty).fills[i].maker.id != id
  {
    if !Stops(t, q, qty) {
      FillsLack(t, q[1..], qty - Taken(t, q[0], qty), id);
    }
  }

  lemma {:induction false} LastFillLeaves(t: Taker, q: seq<Order>, qty: Qty)
    ensures var s := Sweep(t, q, qty);
            s.leaves == if s.fills == [] then qty else s.fills[|s.fills| - 1].leaves
  {
    if !Stops(t, q, qty) {
      var n := Taken(t, q[0], qty);
      LastFillLeaves(t, q[1..], qty - n);
      var s := Sweep(t, q[1..], qty - n);
      assert Sweep(t, q, qty).fills == Executed(t, q[0], n, qty - n) + s.fills && Sweep(t, q, qty).leaves == s.leaves;
    }
  }

  lemma {:induction false} LatestAfterHead(sym: Symbol, t: Taker, o: Order, n: Qty, leaves: Qty, fs: seq<Fill>,
                                           id: OrderId)
    requires o.id != t.id && id != t.id && n <= o.qty
    ensures var later := Latest(AllFillResponses(sym, t, fs), id);
            Latest(AllFillResponses(sym, t, Executed(t, o, n, leaves) + fs), id)
            == if later.None? && id == o.id && o.client != t.client then Some(o.qty - n) else later
  {
    var done := Executed(t, o, n, leaves);
    FillEventsConcat(sym, t, done, fs);
    LatestConcat(AllFillResponses(sym, t, done), AllFillResponses(sym, t, fs), id);
    if done != [] {
      FillEventsOfOne(sym, t, done[0]);
      LatestOfFill(sym, t, done[0], id);
    }
  }

  lemma {:induction false} LaterFillsSilent(sym: Symbol, t: Taker, q: seq<Order>, qty: Qty, id: OrderId)
    requires !Has(q, id) && !Has(q, t.id) && id != t.id
    ensures Latest(AllFillResponses(sym, t, Sweep(t, q, qty).fills), id) == None
  {
    FillsLack(t, q, qty, id);
    FillsLack(t, q, qty, t.id);
    LatestOfFills(sym, t, Sweep(t, q, qty).fills, id);
  }

  /** Of an order that survives a sweep of `q`: untouched and unreported, or reported at its new size. */
  ghost predicate Reported(rs: seq<Response>, o: Order, q: seq<Order>) {
    Latest(rs, o.id) == Some(o.qty) || (Latest(rs, o.id) == None && o in q)
  }

  lemma {:induction false} HeadReports(sym: Symbol, t: Taker, q: seq<Order>, n: Qty, leaves: Qty, fs: seq<Fill>,
                                       o: Order)
    requires q != [] && n <= q[0].qty && (q[0].client == t.client ==> n == 0) && o in Kept(t, q[0], n) && o.id != t.id
    requires Latest(AllFillResponses(sym, t, fs), o.id) == None
    ensures Reported(AllFillResponses(sym, t, Executed(t, q[0], n, leaves) + fs), o, q)
  {
    LatestAfterHead(sym, t, q[0], n, leaves, fs, o.id);
  }

  lemma {:induction false} TailReports(sym: Symbol, t: Taker, q: seq<Order>, n: Qty, leaves: Qty, fs: seq<Fill>,
                                       o: Order)
    requires q != [] && n <= q[0].qty && q[0].id != t.id && o.id != t.id && o.id != q[0].id
    requires Reported(AllFillResponses(sym, t, fs), o, q[1..])
    ensures Reported(AllFillResponses(sym, t, Executed(t, q[0], n, leaves) + fs), o, q)
  {
    LatestAfterHead(sym, t, q[0], n, leaves, fs, o.id);
  }

  lemma {:induction false} TailIds(q: seq<Order>, id: OrderId)
    requires q != [] && DistinctIds(q) && !Has(q, id)
    ensures DistinctIds(q[1..]) && !Has(q[1..], id) && !Has(q[1..], q[0].id) && q[0].id != id
  {
  }

  /** That holds of the responses to the executions `fs`. */
  ghost predicate FillsReport(sym: Symbol, t: Taker, fs: seq<Fill>, o: Order, q: seq<Order>) {
    forall key {:trigger Look(key)} :: key == Pairs ==> Reported(AllFillResponses(sym, t, fs), o, q)
  }

  /** What the sweep of the orders behind `head` says about `o`: its size if it is one of them, and nothing if it
      is the head. */
  ghost predicate LaterReport(sym: Symbol, t: Taker, s: Swept, o: Order, q: seq<Order>, head: OrderId) {
    forall key {:trigger Look(key)} :: key == Pairs ==>
      if o in s.rest then o.id != head && Reported(AllFillResponses(sym, t, s.fills), o, q)
      else o.id == head ==> Latest(AllFillResponses(sym, t, s.fills), o.id) == None
  }

  lemma {:induction false} VisitReports(sym: Symbol, t: Taker, q: seq<Order>, n: Qty, leaves: Qty, s: Swept, o: Order)
    requires q != [] && n <= q[0].qty && (q[0].client == t.client ==> n == 0) && q[0].id != t.id && o.id != t.id
    requires o in Kept(t, q[0], n) + s.rest && LaterReport(sym, t, s, o, q[1..], q[0].id)
    ensures FillsReport(sym, t, Executed(t, q[0], n, leaves) + s.fills, o, q)
  {
    assert Look(Pairs);
    if o in s.rest {
      TailReports(sym, t, q, n, leaves, s.fills, o);
    } else {
      HeadReports(sym, t, q, n, leaves, s.fills, o);
    }
  }

  lemma {:induction false} UnsweptReports(sym: Symbol, t: Taker, q: seq<Order>, o: Order)
    requires o in q
    ensures FillsReport(sym, t, [], o, q)
  {
    assert Look(Pairs);
  }

  lemma {:induction false} SweepReports(sym: Symbol, t: Taker, q: seq<Order>, qty: Qty, o: Order)
    requires DistinctIds(q) && !Has(q, t.id) && o in Sweep(t, q, qty).rest && o.id != t.id
    ensures FillsReport(sym, t, Sweep(t, q, qty).fills, o, q)
    decreases |q|, 1
  {
    if Stops(t, q, qty) {
      UnsweptReports(sym, t, q, o);
    } else {
      var n := Taken(t, q[0], qty);
      var s := Sweep(t, q[1..], qty - n);
      assert Sweep(t, q, qty) == Swept(Kept(t, q[0], n) + s.rest, s.leaves, Executed(t, q[0], n, qty - n) + s.fills);
      TailIds(q, t.id);
      LaterReports(sym, t, q[1..], qty - n, q[0].id, o);
      VisitReports(sym, t, q, n, qty - n, s, o);
    }
  }

  lemma {:induction false} LaterReports(sym: Symbol, t: Taker, q: seq<Order>, qty: Qty, head: OrderId, o: Order)
    requires DistinctIds(q) && !Has(q, t.id) && !Has(q, head) && o.id != t.id
    ensures LaterReport(sym, t, Sweep(t, q, qty), o, q, head)
    decreases |q|, 2
  {
    assert Look(Pairs);
    if o in Sweep(t, q, qty).rest {
      StaysApart(t, q, qty, head, o);
      SweepReports(sym, t, q, qty, o);
    } else if o.id == head {
      LaterFillsSilent(sym, t, q, qty, head);
    }
  }

  ghost predicate UpToDate(q: seq<Order>, rs: seq<Response>) {
    forall o :: o in q ==> Latest(rs, o.id) == Some(o.qty)
  }

  ghost predicate AllUpToDate(b: Book, rs: seq<Response>) {
    UpToDate(b.bids, rs) && UpToDate(b.asks, rs)
  }

  lemma {:induction false} QuietKeeps(q: seq<Order>, rs: seq<Response>, r: Response)
    requires UpToDate(q, rs) && (Refusal(r.status) || forall o :: o in q ==> o.id != r.clientOrderId)
    ensures UpToDate(q, rs + [r])
  {
    forall o | o in q
      ensures Latest(rs + [r], o.id) == Some(o.qty)
    {
      LatestConcat(rs, [r], o.id);
      LatestOfOne(r, o.id);
    }
  }

  lemma {:induction false} AbsentMeans(q: seq<Order>, id: OrderId)
    requires !Has(q, id)
    ensures forall o :: o in q ==> o.id != id
  {
  }

  lemma {:induction false} MatchReports(b: Book, rs: seq<Response>, t: Taker, qty: Qty)
    requires BookOK(b) && Absent(b, t.id) && AllUpToDate(b, rs)
    requires Latest(rs, t.id) == Some(qty)
    ensures var (m, leaves) := Match(b, t, qty);
            AllUpToDate(m.book, rs + m.responses) && Latest(rs + m.responses, t.id) == Some(leaves)
  {
    var (m, leaves) := Match(b, t, qty);
    var q := Opposite(b, t.side);
    var s := Sweep(t, q, qty);
    LastFillLeaves(t, q, qty);
    FillsLack(t, q, qty, t.id);
    LatestOfFills(b.symbol, t, s.fills, t.id);
    LatestConcat(rs, m.responses, t.id);
    forall o | o in s.rest
      ensures Latest(rs + m.responses, o.id) == Some(o.qty)
    {
      StaysApart(t, q, qty, t.id, o);
      SweepReports(b.symbol, t, q, qty, o);
      assert Look(Pairs);
      LatestConcat(rs, m.responses, o.id);
    }
    var same := if t.side.BUY? then b.bids else b.asks;
    AbsentMeans(same, t.id);
    forall o | o in same
      ensures Latest(rs + m.responses, o.id) == Some(o.qty)
    {
      FillsLack(t, q, qty, o.id);
      LatestOfFills(b.symbol, t, s.fills, o.id);
      LatestConcat(rs, m.responses, o.id);
    }
  }

  lemma {:induction false} RestReports(b: Book, rs: seq<Response>, o: Order)
    requires AllUpToDate(b, rs) && Latest(rs, o.id) == Some(o.qty)
    ensures AllUpToDate(RestIn(b, o), rs)
  {
    var q := if o.side.BUY? then b.bids else b.asks;
    InsertAtElements(q, InsertPos(q, o.price, o.side.BUY?), o);
  }

  lemma {:induction false} MatchAndRestReports(b: Book, rs: seq<Response>, t: Taker, typ: OrderType, qty: Qty,
                                               now: Nanos)
    requires BookOK(b) && Absent(b, t.id) && AllUpToDate(b, rs) && Latest(rs, t.id) == Some(qty)
    ensures var o := MatchAndRest(b, t, typ, qty, now); AllUpToDate(o.book, rs + o.responses)
  {
    var (m, leaves) := Match(b, t, qty);
    MatchReports(b, rs, t, qty);
    if leaves > 0 {
      RestReports(m.book, rs + m.responses, Order(t.id, t.client, typ, t.side, t.limit, qty, leaves, now));
    }
  }

  /** The header of a fresh order or of a modify announces its size and disturbs nobody else. */
  lemma {:induction false} HeaderReports(b: Book, rs: seq<Response>, r: Response)
    requires Absent(b, r.clientOrderId) && AllUpToDate(b, rs) && !Refusal(r.status)
    ensures AllUpToDate(b, rs + [r]) && Latest(rs + [r], r.clientOrderId) == Some(r.leaves)
  {
    AbsentMeans(b.bids, r.clientOrderId);
    AbsentMeans(b.asks, r.clientOrderId);
    QuietKeeps(b.bids, rs, r);
    QuietKeeps(b.asks, rs, r);
    LatestConcat(rs, [r], r.clientOrderId);
    LatestOfOne(r, r.clientOrderId);
  }

  lemma {:induction false} RefusalReports(b: Book, rs: seq<Response>, r: Response)
    requires AllUpToDate(b, rs) && Refusal(r.status)
    ensures AllUpToDate(b, rs + [r])
  {
    QuietKeeps(b.bids, rs, r);
    QuietKeeps(b.asks, rs, r);
  }

  lemma {:induction false} TransientReports(b: Book, rs: seq<Response>, t: Taker, price: Price, qty: Qty)
    requires BookOK(b) && AllUpToDate(b, rs)
    ensures var o := AddTransient(b, t, price, qty); AllUpToDate(o.book, rs + o.responses)
  {
    if Find(b, t.id).Some? {
      RefusalReports(b, rs, AddTransient(b, t, price, qty).responses[0]);
    } else {
      var header := Response(ACCEPTED, t.client, b.symbol, t.id, t.id, t.side, price, 0, qty);
      var m := Match(b, t, qty).0;
      var tail := TransientShape(b, t, price, qty);
      HeaderReports(b, rs, header);
      MatchReports(b, rs + [header], t, qty);
      MatchOK(b, t, qty);
      Assoc(rs, [header], m.responses + tail);
      Assoc(rs + [header], m.responses, tail);
      if tail == [] {
        assert rs + [header] + m.responses + tail == rs + [header] + m.responses;
      } else {
        HeaderReports(m.book, rs + [header] + m.responses, tail[0]);
        assert tail == [tail[0]];
      }
    }
  }

  lemma {:induction false} RepriceReports(b: Book, rs: seq<Response>, t: Taker, typ: OrderType, qty: Qty, now: Nanos,
                                          header: Response)
    requires BookOK(b) && AllUpToDate(b, rs)
    requires header.clientOrderId == t.id && header.leaves == qty && !Refusal(header.status)
    ensures var o := WithHeader(header, MatchAndRest(RemoveFrom(b, t.id), t, typ, qty, now));
            AllUpToDate(o.book, rs + o.responses)
  {
    var removed := RemoveFrom(b, t.id);
    RemovedReports(b, rs, header);
    RemoveOK(b, t.id);
    MatchAndRestReports(removed, rs + [header], t, typ, qty, now);
    Assoc(rs, [header], MatchAndRest(removed, t, typ, qty, now).responses);
  }

  /** With an order taken out, anything may be reported about it. */
  lemma {:induction false} RemovedReports(b: Book, rs: seq<Response>, r: Response)
    requires BookOK(b) && AllUpToDate(b, rs) && !Refusal(r.status)
    ensures AllUpToDate(RemoveFrom(b, r.clientOrderId), rs + [r]) && Latest(rs + [r], r.clientOrderId) == Some(r.leaves)
  {
    RemoveOK(b, r.clientOrderId);
    HeaderReports(RemoveFrom(b, r.clientOrderId), rs, r);
  }

  lemma {:induction false} GrowReports(b: Book, rs: seq<Response>, o: Order, header: Response)
    requires BookOK(b) && AllUpToDate(b, rs)
    requires header.clientOrderId == o.id && header.leaves == o.qty && !Refusal(header.status)
    ensures AllUpToDate(RestIn(RemoveFrom(b, o.id), o), rs + [header])
  {
    RemovedReports(b, rs, header);
    RestReports(RemoveFrom(b, o.id), rs + [header], o);
  }

  lemma {:induction false} ShrinkReports(b: Book, rs: seq<Response>, id: OrderId, qty: Qty, header: Response)
    requires BookOK(b) && AllUpToDate(b, rs)
    requires header.clientOrderId == id && header.leaves == qty && !Refusal(header.status)
    ensures AllUpToDate(b.(bids := Resize(b.bids, id, qty), asks := Resize(b.asks, id, qty)), rs + [header])
    ensures Find(b, id).Some? && Find(b, id).value.qty == qty ==> AllUpToDate(b, rs + [header])
  {
    ResizeReports(b.bids, rs, id, qty, header, true);
    ResizeReports(b.asks, rs, id, qty, header, false);
    if Has(b.bids, id) { assert !Has(b.asks, id) by { assert b.bids[IndexOf(b.bids, id)].id == id; } }
  }

  lemma {:induction false} ModifyReports(b: Book, rs: seq<Response>, client: ClientId, id: OrderId, price: Price,
                                         qty: Qty, now: Nanos)
    requires BookOK(b) && AllUpToDate(b, rs)
    ensures var o := Modify(b, client, id, price, qty, now); AllUpToDate(o.book, rs + o.responses)
  {
    var step := Modify(b, client, id, price, qty, now);
    if !Owns(b, client, id) || qty == 0 || qty == INVALID_QTY || price <= 0 {
      RefusalReports(b, rs, step.responses[0]);
    } else {
      var o := Find(b, id).value;
      var header := Response(MODIFIED, client, b.symbol, id, id, o.side, price, 0, qty);
      if price != o.price {
        RepriceReports(b, rs, Taker(client, id, o.side, price, true), o.typ, qty, now, header);
      } else if qty > o.qty {
        GrowReports(b, rs, Order(id, client, o.typ, o.side, price, qty, qty, now), header);
      } else {
        ShrinkReports(b, rs, id, qty, header);
      }
    }
  }

  lemma {:induction false} ResizeReports(q: seq<Order>, rs: seq<Response>, id: OrderId, qty: Qty, r: Response,
                                         buy: bool)
    requires QueueOK(q, buy) && UpToDate(q, rs)
    requires r.clientOrderId == id && r.leaves == qty && !Refusal(r.status)
    ensures UpToDate(Resize(q, id, qty), rs + [r])
    ensures Has(q, id) && q[IndexOf(q, id)].qty == qty ==> UpToDate(q, rs + [r])
    ensures !Has(q, id) ==> UpToDate(q, rs + [r])
  {
    forall i | 0 <= i < |q|
      ensures Latest(rs + [r], q[i].id) == Some(if i == IndexOf(q, id) then qty else q[i].qty)
    {
      assert q[i] in q;
      LatestConcat(rs, [r], q[i].id);
      LatestOfOne(r, q[i].id);
    }
  }

  lemma {:induction false} StepReports(b: Book, rs: seq<Response>, r: Request, now: Nanos)
    requires BookOK(b) && AllUpToDate(b, rs)
    ensures var o := Step(b, r, now); AllUpToDate(o.book, rs + o.responses)
  {
    var o := Step(b, r, now);
    if Malformed(r) {
      RefusalReports(b, rs, o.responses[0]);
    } else {
      match r.typ
      case LIMIT =>
        if Find(b, r.id).Some? {
          RefusalReports(b, rs, o.responses[0]);
        } else {
          var t := Taker(r.client, r.id, r.side, r.price, true);
          HeaderReports(b, rs, o.responses[0]);
          MatchAndRestReports(b, rs + [o.responses[0]], t, LIMIT, r.qty, now);
          Assoc(rs, [o.responses[0]], MatchAndRest(b, t, LIMIT, r.qty, now).responses);
        }
      case MARKET => TransientReports(b, rs, Taker(r.client, r.id, r.side, INVALID_PRICE, false), INVALID_PRICE, r.qty);
      case IOC => TransientReports(b, rs, Taker(r.client, r.id, r.side, r.price, true), r.price, r.qty);
      case CANCEL =>
        if !Owns(b, r.client, r.id) {
          RefusalReports(b, rs, o.responses[0]);
        } else {
          RemoveOK(b, r.id);
          HeaderReports(RemoveFrom(b, r.id), rs, o.responses[0]);
        }
      case MODIFY => ModifyReports(b, rs, r.client, r.id, r.price, r.qty, now);
    }
  }

  /** Over every run, the latest response about a resting order that is not a refusal reports exactly the
      quantity the order still has. */
  lemma {:induction false} LeavesReported(symbol: Symbol, ins: seq<Input>)
    ensures AllUpToDate(Run(symbol, ins).book, Run(symbol, ins).responses)
  {
    if ins != [] {
      var before, last := ins[..|ins| - 1], ins[|ins| - 1];
      LeavesReported(symbol, before);
      ReachableOK(symbol, before);
      var o := Run(symbol, before);
      StepReports(o.book, o.responses, last.request, last.now);
    }
  }

  // ---------------------------------------------------------------- the shape of the stream

  /** An execution report pair under the header `h` of the order that caused it: taker first, then maker. */
  predicate FillPair(h: Response, a: Response, m: Response) {
    && (h.status.ACCEPTED? || h.status.MODIFIED?)
    && a.status.FILLED? && m.status.FILLED?
    && a.client == h.client && a.clientOrderId == h.clientOrderId && a.side == h.side
    && 0 < a.execQty == m.execQty && h.leaves == a.leaves + a.execQty
    && a.price == m.price && a.client != m.client && a.side.BUY? != m.side.BUY?
    && (h.price == INVALID_PRICE || AtLeastAsGood(!h.side.BUY?, a.price, h.price))
  }

  /** Fills occur only in such pairs, under a header whose leaves they run down. */
  predicate WellPaired(rs: seq<Response>, h: Option<Response>) {
    if rs == [] then true
    else if rs[0].status.FILLED? then
      && 2 <= |rs| && h.Some? && FillPair(h.value, rs[0], rs[1])
      && WellPaired(rs[2..], Some(h.value.(leaves := rs[0].leaves)))
    else WellPaired(rs[1..], Some(rs[0]))
  }

  /** The same, sealed. */
  ghost predicate Paired(rs: seq<Response>, h: Option<Response>) {
    forall key {:trigger Look(key)} :: key == Pairs ==> WellPaired(rs, h)
  }

  lemma {:induction false} PairedMeans(rs: seq<Response>, h: Option<Response>)
    ensures Paired(rs, h) <==> WellPaired(rs, h)
  {
    assert Look(Pairs);
  }

  /** The pairing of a list that starts with a fill, or with anything else, from that of its tail. */
  lemma {:induction false} PairedHead(rs: seq<Response>, h: Option<Response>)
    requires rs != []
    ensures rs[0].status.FILLED? ==>
      (Paired(rs, h) <==> 2 <= |rs| && h.Some? && FillPair(h.value, rs[0], rs[1])
                          && Paired(rs[2..], Some(h.value.(leaves := rs[0].leaves))))
    ensures !rs[0].status.FILLED? ==> (Paired(rs, h) <==> Paired(rs[1..], Some(rs[0])))
  {
    assert Look(Pairs);
  }

  lemma {:induction false} PairedConcat(rs: seq<Response>, more: seq<Response>, h: Option<Response>)
    requires Paired(rs, h) && Paired(more, None) && (more == [] || !more[0].status.FILLED?)
    ensures Paired(rs + more, h)
    decreases |rs|
  {
    if rs == [] {
      assert rs + more == more;
      if more != [] { PairedHead(more, None); PairedHead(more, h); } else { assert Look(Pairs); }
    } else {
      PairedHead(rs, h);
      PairedHead(rs + more, h);
      if rs[0].status.FILLED? {
        PairedConcat(rs[2..], more, Some(h.value.(leaves := rs[0].leaves)));
        assert (rs + more)[2..] == rs[2..] + more;
      } else {
        PairedConcat(rs[1..], more, Some(rs[0]));
        assert (rs + more)[1..] == rs[1..] + more;
      }
    }
  }

  /** The header a request's matching is announced with. */
  ghost predicate HeaderFor(h: Response, t: Taker, qty: Qty) {
    && (h.status.ACCEPTED? || h.status.MODIFIED?) && h.leaves == qty
    && h.client == t.client && h.clientOrderId == t.id && h.side == t.side
    && if t.hasLimit then h.price == t.limit else h.price == INVALID_PRICE
  }

  lemma {:induction false} PairThen(h: Response, pair: seq<Response>, more: seq<Response>)
    requires |pair| == 2 && FillPair(h, pair[0], pair[1])
    requires Paired(more, Some(h.(leaves := pair[0].leaves)))
    ensures Paired(pair + more, Some(h))
  {
    PairedHead(pair + more, Some(h));
    assert (pair + more)[2..] == more;
  }

  ghost predicate FillsPaired(sym: Symbol, t: Taker, fs: seq<Fill>, h: Response) {
    forall key {:trigger Look(key)} :: key == Pairs ==> Paired(AllFillResponses(sym, t, fs), Some(h))
  }

  lemma {:induction false} PairedVisit(sym: Symbol, t: Taker, o: Order, qty: Qty, fs: seq<Fill>, h: Response)
    requires 0 < o.qty && 0 < qty && Crosses(t, o.price) && o.side.BUY? != t.side.BUY? && HeaderFor(h, t, qty)
    requires FillsPaired(sym, t, fs, h.(leaves := qty - Taken(t, o, qty)))
    ensures var n := Taken(t, o, qty); FillsPaired(sym, t, Executed(t, o, n, qty - n) + fs, h)
  {
    assert Look(Pairs);
    var n := Taken(t, o, qty);
    if o.client == t.client {
      assert h.(leaves := qty) == h && [] + fs == fs;
    } else {
      var f := Fill(o.(qty := o.qty - n), n, qty - n);
      FillEventsConcat(sym, t, [f], fs);
      FillEventsOfOne(sym, t, f);
      PairThen(h, FillResponses(sym, t, f), AllFillResponses(sym, t, fs));
    }
  }

  lemma {:induction false} UnsweptPaired(sym: Symbol, t: Taker, h: Response)
    ensures FillsPaired(sym, t, [], h)
  {
    assert Look(Pairs);
  }

  lemma {:induction false} SweepPaired(sym: Symbol, t: Taker, q: seq<Order>, qty: Qty, h: Response)
    requires LiveQty(q) && forall i :: 0 <= i < |q| ==> q[i].side.BUY? != t.side.BUY?
    requires HeaderFor(h, t, qty)
    ensures FillsPaired(sym, t, Sweep(t, q, qty).fills, h)
  {
    if Stops(t, q, qty) {
      UnsweptPaired(sym, t, h);
    } else {
      var n := Taken(t, q[0], qty);
      var s := Sweep(t, q[1..], qty - n);
      assert Sweep(t, q, qty).fills == Executed(t, q[0], n, qty - n) + s.fills;
      SweepPaired(sym, t, q[1..], qty - n, h.(leaves := qty - n));
      PairedVisit(sym, t, q[0], qty, s.fills, h);
    }
  }

  lemma {:induction false} RestShape(b: Book, t: Taker, typ: OrderType, qty: Qty, now: Nanos)
    returns (us: seq<BookUpdate>)
    ensures var o, m := MatchAndRest(b, t, typ, qty, now), Match(b, t, qty).0;
            o.responses == m.responses && o.updates == m.updates + us && |us| <= 1
  {
    var (m, leaves) := Match(b, t, qty);
    us := if leaves == 0 then [] else [BookUpdate(ADD_ORDER, t.id, b.symbol, t.side, t.limit, leaves)];
    assert m.updates + [] == m.updates;
  }

  lemma {:induction false} TransientShape(b: Book, t: Taker, price: Price, qty: Qty) returns (rs: seq<Response>)
    requires Find(b, t.id).None?
    ensures var o, m := AddTransient(b, t, price, qty), Match(b, t, qty).0;
            && o.responses == [Response(ACCEPTED, t.client, b.symbol, t.id, t.id, t.side, price, 0, qty)]
               + (m.responses + rs)
            && o.book == m.book && o.updates == m.updates
            && |rs| <= 1 && (rs != [] ==> rs[0].status.CANCELED? && rs[0].clientOrderId == t.id)
  {
    var (m, leaves) := Match(b, t, qty);
    rs := if leaves == 0 then []
          else [Response(CANCELED, t.client, b.symbol, t.id, t.id, t.side, price, qty - leaves, leaves)];
    assert m.responses + [] == m.responses;
  }

  /** A request that matches emits a header, the events of its fills, and at most one more of each kind. */
  lemma {:induction false} AttackShape(b: Book, r: Request, now: Nanos) returns (rs: seq<Response>, us: seq<BookUpdate>)
    requires Incoming(b, r).Some?
    ensures var a := Incoming(b, r).value;
            var o := Step(b, r, now);
            var m := Match(a.book, a.taker, a.qty).0;
            && o.responses != [] && HeaderFor(o.responses[0], a.taker, a.qty)
            && o.responses == [o.responses[0]] + (m.responses + rs) && o.updates == m.updates + us
            && |rs| <= 1 && |us| <= 1 && (rs != [] ==> rs[0].status.CANCELED?)
  {
    var a := Incoming(b, r).value;
    var m := Match(a.book, a.taker, a.qty).0;
    rs, us := [], [];
    assert m.responses + [] == m.responses && m.updates + [] == m.updates;
    match r.typ
    case LIMIT => us := RestShape(a.book, a.taker, LIMIT, a.qty, now);
    case MODIFY => us := RestShape(a.book, a.taker, Find(b, r.id).value.typ, a.qty, now);
    case MARKET => rs := TransientShape(b, a.taker, INVALID_PRICE, a.qty);
    case IOC => rs := TransientShape(b, a.taker, r.price, a.qty);
  }

  lemma {:induction false} MatchPaired(a: Attack, h: Response, tail: seq<Response>)
    requires BookOK(a.book) && HeaderFor(h, a.taker, a.qty)
    requires |tail| <= 1 && (tail != [] ==> tail[0].status.CANCELED?)
    ensures Paired([h] + (Match(a.book, a.taker, a.qty).0.responses + tail), None)
  {
    var rs := Match(a.book, a.taker, a.qty).0.responses;
    SweepPaired(a.book.symbol, a.taker, Opposite(a.book, a.taker.side), a.qty, h);
    assert Look(Pairs);
    assert tail == [] || tail[1..] == [];
    PairedMeans(tail, None);
    PairedConcat(rs, tail, Some(h));
    PairedHead([h] + (rs + tail), None);
    assert ([h] + (rs + tail))[1..] == rs + tail;
  }

  lemma {:induction false} OneReply(b: Book, r: Request, now: Nanos)
    requires Incoming(b, r).None?
    ensures var rs := Step(b, r, now).responses;
            |rs| == 1 && !rs[0].status.FILLED?
  {
  }

  lemma {:induction false} StepPaired(b: Book, r: Request, now: Nanos)
    requires BookOK(b)
    ensures var rs := Step(b, r, now).responses;
            rs != [] && !rs[0].status.FILLED? && Paired(rs, None)
  {
    var rs := Step(b, r, now).responses;
    if Incoming(b, r).None? {
      OneReply(b, r, now);
      PairedHead(rs, None);
      PairedMeans(rs[1..], Some(rs[0]));
    } else {
      var tail, _ := AttackShape(b, r, now);
      if r.typ.MODIFY? { RemoveOK(b, r.id); }
      MatchPaired(Incoming(b, r).value, rs[0], tail);
    }
  }

  /** Over every run the response stream is well paired: each execution is reported twice in a row, to
      the incoming order and to a different client's resting order, for the same positive size at the
      same price within the incoming limit, and the reported leaves run down by that size. */
  lemma {:induction false} FillsReportedInPairs(symbol: Symbol, ins: seq<Input>)
    ensures WellPaired(Run(symbol, ins).responses, None)
  {
    if ins != [] {
      var before, last := ins[..|ins| - 1], ins[|ins| - 1];
      FillsReportedInPairs(symbol, before);
      ReachableOK(symbol, before);
      var o := Run(symbol, before);
      var rs := Step(o.book, last.request, last.now).responses;
      StepPaired(o.book, last.request, last.now);
      PairedMeans(o.responses, None);
      PairedConcat(o.responses, rs, None);
      PairedMeans(o.responses + rs, None);
    }
  }

  // ---------------------------------------------------------------- how much one request can emit

  lemma {:induction false} EventCounts(sym: Symbol, t: Taker, fs: seq<Fill>)
    ensures |AllFillResponses(sym, t, fs)| == 2 * |fs| && |AllFillUpdates(sym, fs)| == 2 * |fs|
  {
    if fs != [] {
      EventCounts(sym, t, fs[1..]);
    }
  }

  /** Each listed order trades at most once, and only the last one to trade can be left with quantity. */
  lemma {:induction false} OnePartialFill(t: Taker, q: seq<Order>, qty: Qty)
    ensures var fs := Sweep(t, q, qty).fills;
            |fs| <= |q| && forall i :: 0 <= i < |fs| - 1 ==> fs[i].maker.qty == 0
  {
    if !Stops(t, q, qty) {
      var n := Taken(t, q[0], qty);
      OnePartialFill(t, q[1..], qty - n);
    }
  }

  /** One request filling `k` resting orders emits at most 2k + 2 responses and 2k + 1 book updates, where
      `k` is at most the number of orders resting opposite it. */
  lemma {:induction false} BurstBound(b: Book, r: Request, now: Nanos)
    ensures var o := Step(b, r, now);
            var a := Incoming(b, r);
            var k := if a.Some? then |AttackSweep(a.value).fills| else 0;
            && |o.responses| <= 2 * k + 2 && |o.updates| <= 2 * k + 1
            && (a.Some? ==> k <= |Opposite(a.value.book, a.value.taker.side)|)
            && (a.Some? ==> forall i :: 0 <= i < k - 1 ==> AttackSweep(a.value).fills[i].maker.qty == 0)
  {
    var a := Incoming(b, r);
    if a.Some? {
      var rs, us := AttackShape(b, r, now);
      EventCounts(a.value.book.symbol, a.value.taker, AttackSweep(a.value).fills);
      OnePartialFill(a.value.taker, Opposite(a.value.book, a.value.taker.side), a.value.qty);
    }
  }
}
