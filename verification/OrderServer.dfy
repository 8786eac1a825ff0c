/** The gateway's thread as code: one turn of its loop is a run of the gateway's atomic steps. */
module OrderServer {
  import opened Types
  import opened Seal
  import opened Sequencer
  import opened Gateway

  /** An inbox entry: the request as submitted and the clock reading of the submit. */
  datatype TimedRequest = TimedRequest(rxTime: Nanos, request: Request)

  function Tag(item: TimedRequest): Request {
    item.request.(recvTime := item.rxTime)
  }

  function TagAll(items: seq<TimedRequest>): (rs: seq<Request>)
    ensures |rs| == |items| && forall i :: 0 <= i < |items| ==> rs[i] == Tag(items[i])
  {
    seq(|items|, i requires 0 <= i < |items| => Tag(items[i]))
  }

  ghost predicate NoSubmit(steps: seq<GateStep>) {
    forall i :: 0 <= i < |steps| ==> !steps[i].Stamp? && !steps[i].Push?
  }

  /** `g'` is reachable from `g` by the gateway's own steps, without a submit in between. */
  ghost predicate Turns(g: Gate, g': Gate, capacity: nat) {
    forall key {:trigger Look(key)} :: key == Paths ==>
      exists steps :: GateRun(g, steps, g', capacity) && NoSubmit(steps)
  }

  /** What holds of every reachable gate. */
  ghost predicate Sane(g: Gate, capacity: nat) {
    forall key {:trigger Look(key)} :: key == Paths ==> GateOK(g, capacity)
  }

  lemma {:induction false} TurnsRefl(g: Gate, capacity: nat)
    ensures Turns(g, g, capacity)
  {
    assert GateRun(g, [], g, capacity) && NoSubmit([]);
  }

  lemma {:induction false} RunThenStep(g: Gate, steps: seq<GateStep>, g': Gate, step: GateStep, capacity: nat)
    requires GateRun(g, steps, g', capacity) && CanTake(g', step, capacity)
    ensures GateRun(g, steps + [step], Take(g', step, capacity), capacity)
    decreases |steps|
  {
    if steps == [] {
      RunBack(g, step, Take(g, step, capacity), [], Take(g, step, capacity), capacity);
      assert [] + [step] == [step] + [];
    } else {
      RunThenStep(Take(g, steps[0], capacity), steps[1..], g', step, capacity);
      assert (steps + [step])[1..] == steps[1..] + [step];
    }
  }

  lemma {:induction false} TurnsThen(g: Gate, g': Gate, step: GateStep, capacity: nat)
    requires Turns(g, g', capacity) && CanTake(g', step, capacity) && !step.Stamp? && !step.Push?
    ensures Turns(g, Take(g', step, capacity), capacity)
  {
    assert Look(Paths);
    var steps :| GateRun(g, steps, g', capacity) && NoSubmit(steps);
    RunThenStep(g, steps, g', step, capacity);
    var all := steps + [step];
    assert NoSubmit(all);
  }

  /** A flush is one sort and as many routings as there are requests. */
  lemma {:induction false} TurnsThenRouteAll(g: Gate, g': Gate, capacity: nat)
    requires Turns(g, g', capacity)
    ensures Turns(g, g'.(routed := g'.routed + g'.outgoing, outgoing := []), capacity)
    decreases |g'.outgoing|
  {
    if g'.outgoing == [] {
      assert g'.routed + g'.outgoing == g'.routed;
    } else {
      var g1 := Take(g', Route, capacity);
      TurnsThen(g, g', Route, capacity);
      TurnsThenRouteAll(g, g1, capacity);
      HeadMoves(g'.outgoing, g'.routed);
    }
  }

  ghost function Flushed(g: Gate, sorted: seq<Request>): Gate {
    g.(pending := [], routed := g.routed + sorted, flushes := g.flushes + [sorted])
  }

  lemma {:induction false} TurnsThenFlush(g: Gate, g': Gate, sorted: seq<Request>, capacity: nat)
    requires Turns(g, g', capacity) && CanTake(g', Flush(sorted), capacity)
    ensures Turns(g, Flushed(g', sorted), capacity)
  {
    TurnsThen(g, g', Flush(sorted), capacity);
    TurnsThenRouteAll(g, Take(g', Flush(sorted), capacity), capacity);
  }

  lemma {:induction false} FlushOK(g: Gate, sorted: seq<Request>, capacity: nat)
    requires Sane(g, capacity) && CanTake(g, Flush(sorted), capacity)
    ensures Sane(Flushed(g, sorted), capacity)
  {
    assert Look(Paths);
    TurnsRefl(g, capacity);
    TurnsThenFlush(g, g, sorted, capacity);
    var steps :| GateRun(g, steps, Flushed(g, sorted), capacity) && NoSubmit(steps);
    GateRunKept(g, steps, Flushed(g, sorted), capacity);
  }

  ghost function Submitted(g: Gate, r: Request): Gate {
    g.(submitted := g.submitted + multiset{r}, inbox := g.inbox + [r])
  }

  lemma {:induction false} SubmitRun(g: Gate, r: Request, capacity: nat)
    requires Sane(g, capacity)
    ensures Sane(Submitted(g, r), capacity) && GateRun(g, [Stamp(r), Push(r)], Submitted(g, r), capacity)
  {
    assert Look(Paths);
    var g1 := Take(g, Stamp(r), capacity);
    assert g.inFlight + multiset{r} - multiset{r} == g.inFlight;
    assert Take(g1, Push(r), capacity) == Submitted(g, r);
    assert GateRun(Submitted(g, r), [], Submitted(g, r), capacity);
    RunBack(g1, Push(r), Submitted(g, r), [], Submitted(g, r), capacity);
    RunBack(g, Stamp(r), g1, [Push(r)] + [], Submitted(g, r), capacity);
    assert [Stamp(r)] + ([Push(r)] + []) == [Stamp(r), Push(r)];
    GateRunKept(g, [Stamp(r), Push(r)], Submitted(g, r), capacity);
  }

  ghost function SwappedOut(g: Gate): Gate {
    g.(batch := g.inbox, inbox := [])
  }

  lemma {:induction false} TurnsThenSwap(g: Gate, capacity: nat)
    requires Sane(g, capacity) && g.inbox != [] && g.batch == [] && g.pending == [] && g.outgoing == []
    ensures Turns(g, SwappedOut(g), capacity) && Sane(SwappedOut(g), capacity)
  {
    assert Look(Paths);
    TurnsRefl(g, capacity);
    TurnsThen(g, g, Swap, capacity);
    GateKept(g, Swap, capacity);
  }

  /** With nothing under way everything submitted is in flight or routed. */
  lemma {:induction false} AllRouted(g: Gate, capacity: nat)
    requires Sane(g, capacity) && g.inbox == [] && g.batch == [] && g.pending == [] && g.outgoing == []
    ensures g.submitted == g.inFlight + multiset(g.routed)
  {
    assert Look(Paths);
  }

  ghost function Enqueued(g: Gate, rest: seq<Request>, r: Request): Gate {
    g.(pending := g.pending + [r], batch := rest)
  }

  lemma {:induction false} TurnsThenEnqueue(start: Gate, g: Gate, rest: seq<Request>, r: Request, capacity: nat)
    requires Turns(start, g, capacity) && Sane(g, capacity)
    requires g.batch == [r] + rest && g.outgoing == [] && |g.pending| < capacity
    ensures Turns(start, Enqueued(g, rest, r), capacity) && Sane(Enqueued(g, rest, r), capacity)
  {
    assert Look(Paths);
    assert g.batch[1..] == rest;
    TurnsThen(start, g, Enqueue, capacity);
    GateKept(g, Enqueue, capacity);
  }

  /** The gate after one request has gone from the batch to the buffer, which is flushed first if it is full. */
  ghost function Entered(g: Gate, rest: seq<Request>, r: Request, flushed: seq<Request>, capacity: nat): Gate {
    Enqueued(if |g.pending| == capacity then Flushed(g, flushed) else g, rest, r)
  }

  lemma {:induction false} TurnsThenEnter(start: Gate, g: Gate, rest: seq<Request>, r: Request, flushed: seq<Request>,
                                          capacity: nat)
    requires Turns(start, g, capacity) && Sane(g, capacity) && 0 < capacity
    requires g.batch == [r] + rest && g.outgoing == [] && |g.pending| <= capacity
    requires |g.pending| == capacity ==> Sequenced(g.pending, flushed)
    ensures Turns(start, Entered(g, rest, r, flushed, capacity), capacity)
    ensures Sane(Entered(g, rest, r, flushed, capacity), capacity)
  {
    if |g.pending| == capacity {
      TurnsThenFlush(start, g, flushed, capacity);
      FlushOK(g, flushed, capacity);
      TurnsThenEnqueue(start, Flushed(g, flushed), rest, r, capacity);
    } else {
      TurnsThenEnqueue(start, g, rest, r, capacity);
    }
  }

  class OrderGatewayServer {
    const sequencer: RequestSequencer
    var inbox: seq<TimedRequest>

    /** The gate this object is in, with its history. */
    ghost var gate: Gate

    ghost function Repr(): set<object> {
      {this, sequencer, sequencer.pending}
    }

    ghost function Capacity(): nat {
      sequencer.pending.Length
    }

    /** The object stands for `gate`, while `batch` is what the loop at hand still has to sequence. */
    ghost predicate Represents(batch: seq<TimedRequest>)
      reads this, sequencer, sequencer.pending
    {
      && sequencer.Valid() && Sane(gate, Capacity())
      && gate.inbox == TagAll(inbox) && gate.batch == TagAll(batch) && gate.outgoing == []
      && gate.pending == sequencer.Buffered() && gate.routed == sequencer.routed
    }

    ghost predicate Valid()
      reads this, sequencer, sequencer.pending
    {
      Represents([])
    }

    constructor (blank: Request)
      ensures Valid() && gate == IDLE && fresh(Repr()) && Capacity() == 8192
    {
      sequencer := new RequestSequencer(blank);
      inbox, gate := [], IDLE;
      assert Look(Paths);
    }

    /** Append a request, stamped with the time of the call, to the inbox. */
    method Submit(rxTime: Nanos, request: Request)
      requires Valid()
      modifies this
      ensures Valid() && inbox == old(inbox) + [TimedRequest(rxTime, request)]
      ensures gate.submitted == old(gate.submitted) + multiset{request.(recvTime := rxTime)}
      ensures GateRun(old(gate), [Stamp(request.(recvTime := rxTime)), Push(request.(recvTime := rxTime))], gate,
              Capacity())
    {
      SubmitRun(gate, request.(recvTime := rxTime), Capacity());
      gate := Submitted(gate, request.(recvTime := rxTime));
      inbox := inbox + [TimedRequest(rxTime, request)];
    }

    /** Move everything in the inbox into the sequencer, which flushes itself whenever it is full. */
    method DrainInbox()
      requires Valid() && sequencer.pendingSize == 0
      modifies Repr()
      ensures Valid() && inbox == [] && Turns(old(gate), gate, Capacity())
    {
      TurnsRefl(gate, Capacity());
      if |inbox| == 0 {
        return;
      }
      var batch := inbox;
      TurnsThenSwap(gate, Capacity());
      gate := SwappedOut(gate);
      inbox := [];
      var i := 0;
      while i < |batch|
        invariant 0 <= i <= |batch| && inbox == [] && Represents(batch[i..])
        invariant Turns(old(gate), gate, Capacity())
      {
        assert batch[i..] == [batch[i]] + batch[i + 1..];
        EnqueueNext(batch[i], batch[i + 1..], old(gate));
        i := i + 1;
      }
    }

    method EnqueueNext(item: TimedRequest, ghost rest: seq<TimedRequest>, ghost start: Gate)
      requires Represents([item] + rest) && Turns(start, gate, Capacity())
      modifies `gate, sequencer, sequencer.pending
      ensures Represents(rest) && Turns(start, gate, Capacity())
    {
      assert TagAll([item] + rest) == [Tag(item)] + TagAll(rest);
      ghost var g, r := gate, Tag(item);
      ghost var flushed := sequencer.Enqueue(item.rxTime, item.request);
      ghost var g' := Entered(g, TagAll(rest), r, flushed, Capacity());
      TurnsThenEnter(start, g, TagAll(rest), r, flushed, Capacity());
      assert g'.pending == sequencer.Buffered() && g'.routed == sequencer.routed by {
        assert [] + [r] == [r] && g.routed + [] == g.routed;
      }
      gate := g';
    }

    /** One turn of the loop: everything submitted before it is routed by the end of it. */
    method RunOnce()
      requires Valid() && sequencer.pendingSize == 0
      modifies Repr()
      ensures Valid() && inbox == [] && sequencer.pendingSize == 0 && Turns(old(gate), gate, Capacity())
      ensures gate.submitted == gate.inFlight + multiset(sequencer.routed)
    {
      DrainInbox();
      ghost var g := gate;
      ghost var flushed := sequencer.Flush();
      if g.pending != [] {
        TurnsThenFlush(old(gate), g, flushed, Capacity());
        FlushOK(g, flushed, Capacity());
        gate := Flushed(g, flushed);
      } else {
        assert |flushed| == |multiset(flushed)| == |multiset(g.pending)|;
        assert sequencer.routed + [] == sequencer.routed;
      }
      AllRouted(gate, Capacity());
    }
  }
}
