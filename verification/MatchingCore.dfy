/** The threads around the rings as code: routing into a symbol's request ring, the symbol's matching loop,
    and the feed's forwarding loop; and how much ring space one request can need. */
module MatchingCore {
  import opened Types
  import opened Seal
  import opened Book
  import opened Mirror
  import opened Reports
  import opened RingQueue
  import opened LinkedBook
  import opened OrderBook
  import opened Pipeline

  const SYMBOL_QUEUE_SIZE: nat := 65536

  // ---------------------------------------------------------------- the rings, one whole call at a time

  /** What a writer needs to start a call; it does not look at the count. */
  ghost predicate Writable<T>(s: Ring<T>) {
    InBounds(s) && s.producer.Ready?
  }

  /** The ring after one whole write, into a full ring or not. */
  ghost function Sent<T>(s: Ring<T>, v: T): (r: Ring<T>)
    requires Writable(s)
    ensures Writable(r) && r.written == s.written + [v] && r.read == s.read && r.consumer == s.consumer
    ensures r.count == s.count + 1 && |r.store| == |s.store|
  {
    After(After(After(s, FillSlot(v)), AdvanceWrite), IncrementCount)
  }

  ghost function SentAll<T>(s: Ring<T>, vs: seq<T>): (r: Ring<T>)
    requires Writable(s)
    ensures Writable(r) && r.written == s.written + vs && r.read == s.read && r.consumer == s.consumer
    ensures r.count == s.count + |vs| && |r.store| == |s.store|
  {
    if vs == [] then s
    else
      assert s.written + vs == (s.written + vs[..|vs| - 1]) + [vs[|vs| - 1]];
      Sent(SentAll(s, vs[..|vs| - 1]), vs[|vs| - 1])
  }

  lemma {:induction false} SentOK<T>(s: Ring<T>, v: T)
    requires RingOK(s) && s.producer.Ready? && s.count < |s.store|
    ensures RingOK(Sent(s, v))
  {
    var s1 := After(s, FillSlot(v));
    StepOK(s, FillSlot(v));
    StepOK(s1, AdvanceWrite);
    StepOK(After(s1, AdvanceWrite), IncrementCount);
  }

  ghost predicate Intact<T>(s: Ring<T>) {
    forall key {:trigger Look(key)} :: key == Slots ==> RingOK(s)
  }

  /** The ring is well-formed and neither thread is inside a call. */
  ghost predicate Settled<T>(s: Ring<T>) {
    s.producer.Ready? && s.consumer.Polling? && s.read <= s.written && s.count == |s.written| - |s.read| && Intact(s)
  }

  /** The same, except that the reader holds the next slot. */
  ghost predicate Held<T>(s: Ring<T>) {
    s.producer.Ready? && s.consumer.Holding? && s.read < s.written && s.count == |s.written| - |s.read| && Intact(s)
  }

  /** Free slots are all it takes for a write to keep the ring well-formed. */
  lemma {:induction false} SentSettled<T>(s: Ring<T>, v: T)
    requires Settled(s) && s.count < |s.store|
    ensures Writable(s) && Settled(Sent(s, v))
  {
    assert Look(Slots);
    SentOK(s, v);
  }

  /** Ring `s` has become `r` by writing `vs` in order and by nothing else. */
  ghost predicate Delivered<T>(s: Ring<T>, vs: seq<T>, r: Ring<T>) {
    && Writable(s) && Writable(r) && |r.store| == |s.store| && r.count == s.count + |vs|
    && forall key {:trigger Look(key)} :: key == Slots ==> r == SentAll(s, vs)
  }

  lemma {:induction false} DeliveredNone<T>(s: Ring<T>)
    requires Writable(s)
    ensures Delivered(s, [], s)
  {
    assert Look(Slots);
  }

  lemma {:induction false} DeliveredOne<T>(s: Ring<T>, v: T)
    requires Writable(s)
    ensures Delivered(s, [v], Sent(s, v))
  {
    assert Look(Slots);
    assert [v][..0] == [] && SentAll(s, []) == s;
  }

  lemma {:induction false} SentAllConcat<T>(s: Ring<T>, vs: seq<T>, ws: seq<T>)
    requires Writable(s)
    ensures SentAll(s, vs + ws) == SentAll(SentAll(s, vs), ws)
  {
    if ws == [] {
      assert vs + ws == vs;
    } else {
      var init, last := ws[..|ws| - 1], ws[|ws| - 1];
      SentAllConcat(s, vs, init);
      assert (vs + ws)[..|vs + ws| - 1] == vs + init && (vs + ws)[|vs + ws| - 1] == last;
      assert SentAll(s, vs + ws) == Sent(SentAll(s, vs + init), last);
    }
  }

  lemma {:induction false} DeliveredMore<T>(s: Ring<T>, vs: seq<T>, s1: Ring<T>, ws: seq<T>, s2: Ring<T>)
    requires Delivered(s, vs, s1) && Delivered(s1, ws, s2)
    ensures Delivered(s, vs + ws, s2)
  {
    assert Look(Slots);
    SentAllConcat(s, vs, ws);
  }

  lemma {:induction false} DeliveredNext<T>(s: Ring<T>, vs: seq<T>, i: nat, j: nat, s1: Ring<T>, s2: Ring<T>)
    requires i <= j < |vs| && Delivered(s, vs[i..j], s1) && Delivered(s1, [vs[j]], s2)
    ensures Delivered(s, vs[i..j + 1], s2)
  {
    DeliveredMore(s, vs[i..j], s1, [vs[j]], s2);
    assert vs[i..j + 1] == vs[i..j] + [vs[j]];
  }

  /** Delivery is first in, first out as long as there are free slots. */
  lemma {:induction false} DeliveredSettled<T>(s: Ring<T>, vs: seq<T>, r: Ring<T>)
    requires Settled(s) && Delivered(s, vs, r) && s.count + |vs| <= |s.store|
    ensures Settled(r) && r.written == s.written + vs && r.read == s.read
    decreases |vs|
  {
    assert Look(Slots);
    if vs == [] {
      assert s.written + vs == s.written;
    } else {
      var init := vs[..|vs| - 1];
      DeliveredSettled(s, init, SentAll(s, init));
      SentSettled(SentAll(s, init), vs[|vs| - 1]);
    }
  }

  method Send<T>(queue: LFQueue<T>, value: T)
    requires Writable(queue.State())
    modifies queue, queue.store
    ensures queue.State() == Sent(old(queue.State()), value)
  {
    queue.Write(value);
    queue.UpdateWriteIndex();
  }

  method Peek<T>(queue: LFQueue<T>) returns (value: Option<T>)
    requires Settled(queue.State())
    modifies queue
    ensures queue.written == old(queue.written) && queue.read == old(queue.read) && queue.count == old(queue.count)
    ensures if old(queue.count) == 0 then value.None? && Settled(queue.State())
            else Held(queue.State()) && value == Some(queue.written[|queue.read|])
  {
    assert Look(Slots);
    StepOK(queue.State(), TestCount);
    value := queue.GetNextToRead();
  }

  method Release<T>(queue: LFQueue<T>)
    requires Held(queue.State())
    modifies queue
    ensures Settled(queue.State()) && queue.written == old(queue.written) && queue.count == old(queue.count) - 1
    ensures queue.read == old(queue.read + [queue.written[|queue.read|]])
  {
    assert Look(Slots);
    queue.UpdateReadIndex();
  }

  // ---------------------------------------------------------------- one symbol

  lemma {:induction false} RequestsSnoc(ins: seq<Input>, i: Input)
    ensures Requests(ins + [i]) == Requests(ins) + [i.request]
  {
  }

  /** Everything one symbol's matching thread owns. */
  class SymbolContext {
    const requests: LFQueue<Request>
    const book: SymbolOrderBook

    /** The requests processed so far, with the clock readings. */
    ghost var done: seq<Input>

    ghost function Repr(): set<object> {
      {this, requests, requests.store} + book.Repr()
    }

    /** The requests processed are those read from the ring, and the book and both event streams are those
        of the flat book's run over them. */
    ghost predicate Valid()
      reads Repr()
    {
      Settled(requests.State()) && Matched()
    }

    ghost predicate Matched()
      reads Repr()
    {
      && book.Valid() && {this, requests, requests.store} !! book.Repr()
      && requests.read == Requests(done) && Caught(done)
    }

    ghost predicate Caught(ins: seq<Input>)
      reads book
    {
      Run(book.symbol, ins) == Outcome(book.Contents(), book.responses, book.updates)
    }

    constructor (symbol: Symbol, blank: Request)
      ensures Valid() && fresh(Repr()) && book.symbol == symbol && done == [] && requests.written == []
      ensures requests.store.Length == 65536
    {
      requests := new LFQueue(SYMBOL_QUEUE_SIZE, blank);
      book := new SymbolOrderBook(symbol);
      done := [];
    }

    /** One turn of the loop: process the oldest unread request, if any. It aborts (`!ok`) exactly when that
        request's outcome does not fit the book's pools. */
    method RunOnce(now: Nanos) returns (ok: bool)
      requires Valid()
      modifies Repr()
      ensures requests.written == old(requests.written)
      ensures old(requests.read == requests.written) ==> ok && done == old(done)
      ensures old(requests.read != requests.written) ==>
        |old(requests.read)| < |requests.written|
        && var i := Input(requests.written[|old(requests.read)|], now);
           && (ok <==> Fits(Step(old(book.Contents()), i.request, now).book,
                            book.orderPool.store.Length, book.levelPool.store.Length))
           && (ok ==> done == old(done) + [i])
      ensures ok ==> Valid()
    {
      var request := Peek(requests);
      ok := true;
      if request.Some? {
        ok := Serve(request.value, now);
      }
    }

    /** Process the request in the slot the thread holds, and release the slot. */
    method Serve(request: Request, now: Nanos) returns (ok: bool)
      requires Held(requests.State()) && Matched() && request == requests.written[|requests.read|]
      modifies Repr()
      ensures requests.written == old(requests.written)
      ensures ok <==> Fits(Step(old(book.Contents()), request, now).book,
                           book.orderPool.store.Length, book.levelPool.store.Length)
      ensures ok ==> Valid() && done == old(done) + [Input(request, now)]
    {
      RequestsSnoc(done, Input(request, now));
      ok := Process(request, now);
      assert Held(requests.State());
      Release(requests);
      assert ok ==> book.Valid() && Caught(done + [Input(request, now)]);
      done := done + [Input(request, now)];
    }

    method Process(request: Request, now: Nanos) returns (ok: bool)
      requires book.Valid() && Caught(done) && {this, requests, requests.store} !! book.Repr()
      modifies book.Repr()
      ensures ok <==> Fits(Step(old(book.Contents()), request, now).book,
                           book.orderPool.store.Length, book.levelPool.store.Length)
      ensures ok ==> book.Valid() && Caught(done + [Input(request, now)])
    {
      RunSnoc(book.symbol, done, Input(request, now));
      ok := book.ProcessRequest(request, now);
    }
  }

  // ---------------------------------------------------------------- routing and forwarding

  class Router {
    const contexts: map<Symbol, SymbolContext>
    const rejects: LFQueue<Response>

    constructor (contexts: map<Symbol, SymbolContext>, blank: Response)
      ensures this.contexts == contexts && fresh(rejects) && fresh(rejects.store) && Settled(rejects.State())
      ensures rejects.written == []
    {
      this.contexts := contexts;
      rejects := new LFQueue(SYMBOL_QUEUE_SIZE, blank);
    }

    /** Write the request to its symbol's ring, or refuse it on a ring of its own when the symbol is not listed.
        The write goes ahead whether there is a free slot or not; with one, what the symbol has done so far and
        what it still has to do stay as they are, and the request is last in line. */
    method RouteRequest(r: Request)
      requires r.symbol in contexts ==> Writable(contexts[r.symbol].requests.State())
      requires r.symbol !in contexts ==> Writable(rejects.State())
      modifies if r.symbol in contexts then {contexts[r.symbol].requests, contexts[r.symbol].requests.store}
               else {rejects, rejects.store}
      ensures r.symbol in contexts ==>
        var c := contexts[r.symbol];
        && c.requests.State() == Sent(old(c.requests.State()), r)
        && (old(c.Valid() && c.requests.count < c.requests.store.Length) ==> c.Valid())
      ensures r.symbol !in contexts ==>
        && rejects.State() == Sent(old(rejects.State()), Reject(r))
        && (old(Settled(rejects.State()) && rejects.count < rejects.store.Length) ==> Settled(rejects.State()))
    {
      if r.symbol !in contexts {
        ghost var s := rejects.State();
        if Settled(s) && s.count < |s.store| { SentSettled(s, Reject(r)); }
        Send(rejects, Reject(r));
      } else {
        ghost var s := contexts[r.symbol].requests.State();
        if Settled(s) && s.count < |s.store| { SentSettled(s, r); }
        Send(contexts[r.symbol].requests, r);
      }
    }
  }

  /** What waits in a ring. */
  ghost function Unread<T>(s: Ring<T>): seq<T> {
    if |s.read| <= |s.written| then s.written[|s.read|..] else []
  }

  method ForwardOne(updates: LFQueue<BookUpdate>, sink: LFQueue<BookUpdate>)
    requires Settled(updates.State()) && Writable(sink.State()) && 0 < updates.count
    requires updates != sink && updates.store != sink.store
    modifies updates, sink, sink.store
    ensures updates.count == old(updates.count) - 1
    ensures Moved(old(updates.State()), updates.State(), old(sink.State()), sink.State())
  {
    var update := Peek(updates);
    DeliveredOne(sink.State(), update.value);
    Send(sink, update.value);
    Release(updates);
  }

  /** The ring is well-formed and everything in it has been read. */
  ghost predicate Emptied<T>(s: Ring<T>) {
    forall key {:trigger Look(key)} :: key == Slots ==> Settled(s) && s.read == s.written
  }

  /** One value has gone from a ring that was `u` to a ring that was `s`. */
  ghost predicate Moved<T>(u: Ring<T>, u': Ring<T>, s: Ring<T>, s': Ring<T>) {
    && Settled(u') && u'.written == u.written && |u.read| < |u.written| && |u'.read| == |u.read| + 1
    && Delivered(s, [u.written[|u.read|]], s')
  }

  /** What has been read since `u0` has gone, in order, to the ring that was `s0`. */
  ghost predicate Forwarding<T>(u0: Ring<T>, u: Ring<T>, s0: Ring<T>, s: Ring<T>) {
    && Settled(u) && Writable(s)
    && forall key {:trigger Look(key)} :: key == Slots ==>
         && u.written == u0.written && |u0.read| <= |u.read|
         && Delivered(s0, u0.written[|u0.read|..|u.read|], s)
  }

  lemma {:induction false} ForwardingStarts<T>(u: Ring<T>, s: Ring<T>)
    requires Settled(u) && Writable(s)
    ensures Forwarding(u, u, s, s)
  {
    DeliveredNone(s);
    assert u.written[|u.read|..|u.read|] == [];
  }

  lemma {:induction false} ForwardingMoves<T>(u0: Ring<T>, u: Ring<T>, u': Ring<T>, s0: Ring<T>, s: Ring<T>,
                                              s': Ring<T>)
    requires Forwarding(u0, u, s0, s) && Moved(u, u', s, s')
    ensures Forwarding(u0, u', s0, s')
  {
    assert Look(Slots);
    DeliveredNext(s0, u0.written, |u0.read|, |u.read|, s, s');
  }

  lemma {:induction false} ForwardingEnds<T>(u0: Ring<T>, u: Ring<T>, s0: Ring<T>, s: Ring<T>)
    requires Forwarding(u0, u, s0, s) && u.count == 0
    ensures Emptied(u) && u.written == u0.written && Delivered(s0, Unread(u0), s)
  {
    assert Look(Slots);
    assert u0.written[|u0.read|..|u.read|] == Unread(u0);
  }

  /** The feed's inner loop: move everything waiting in one symbol's update ring to the snapshot ring, in
      order. */
  method Forward(updates: LFQueue<BookUpdate>, sink: LFQueue<BookUpdate>)
    requires Settled(updates.State()) && Writable(sink.State())
    requires updates != sink && updates.store != sink.store
    modifies updates, sink, sink.store
    ensures Emptied(updates.State()) && updates.written == old(updates.written)
    ensures Delivered(old(sink.State()), old(Unread(updates.State())), sink.State())
  {
    ghost var u0, s0 := updates.State(), sink.State();
    ForwardingStarts(u0, s0);
    while updates.count != 0
      invariant Forwarding(u0, updates.State(), s0, sink.State())
      decreases updates.count
    {
      ghost var u, s := updates.State(), sink.State();
      ForwardOne(updates, sink);
      ForwardingMoves(u0, u, updates.State(), s0, s, sink.State());
    }
    ForwardingEnds(u0, updates.State(), s0, sink.State());
  }

  /** What waits in several rings, ring by ring. */
  ghost function Waiting<T>(states: seq<Ring<T>>): seq<T> {
    if states == [] then [] else Waiting(states[..|states| - 1]) + Unread(states[|states| - 1])
  }

  lemma {:induction false} DeliveredAlong<T>(s: Ring<T>, states: seq<Ring<T>>, i: nat, s1: Ring<T>, s2: Ring<T>)
    requires i < |states| && Delivered(s, Waiting(states[..i]), s1) && Delivered(s1, Unread(states[i]), s2)
    ensures Delivered(s, Waiting(states[..i + 1]), s2)
  {
    DeliveredMore(s, Waiting(states[..i]), s1, Unread(states[i]), s2);
    assert states[..i + 1][..i] == states[..i];
  }

  ghost function States<T>(queues: seq<LFQueue<T>>): (r: seq<Ring<T>>)
    reads (set q | q in queues), (set q | q in queues :: q.store)
    ensures |r| == |queues| && forall i :: 0 <= i < |queues| ==> r[i] == queues[i].State()
  {
    if queues == [] then [] else States(queues[..|queues| - 1]) + [queues[|queues| - 1].State()]
  }

  /** The rings are different objects. */
  ghost predicate Separate<T>(queues: seq<LFQueue<T>>, sink: LFQueue<T>) {
    && (forall i, j :: 0 <= i < j < |queues| ==> queues[i] != queues[j])
    && forall i :: 0 <= i < |queues| ==> queues[i] != sink && queues[i].store != sink.store
  }

  /** The first `i` rings have been emptied and the others are still as they were. */
  ghost predicate Reached<T>(queues: seq<LFQueue<T>>, i: nat, before: seq<Ring<T>>)
    reads (set q | q in queues), (set q | q in queues :: q.store)
  {
    && |before| == |queues|
    && (forall j :: 0 <= j < i && j < |queues| ==> Emptied(queues[j].State()))
    && forall j :: i <= j < |queues| ==> queues[j].State() == before[j]
  }

  method ForwardNth(queues: seq<LFQueue<BookUpdate>>, sink: LFQueue<BookUpdate>, i: nat,
                    ghost before: seq<Ring<BookUpdate>>)
    requires i < |queues| && Separate(queues, sink) && Reached(queues, i, before)
    requires Settled(before[i]) && Writable(sink.State())
    modifies queues[i], sink, sink.store
    ensures Reached(queues, i + 1, before)
    ensures Delivered(old(sink.State()), Unread(before[i]), sink.State())
  {
    Forward(queues[i], sink);
    forall j | 0 <= j < |queues| && j != i
      ensures queues[j].State() == old(queues[j].State())
    {
      assert queues[j] != queues[i];
    }
  }

  /** One pass of the feed's loop over all symbols: everything waiting in every update ring goes to the snapshot
      ring, each symbol's updates in order. With enough free slots there, the snapshot ring stays well-formed
      and nothing is lost. */
  method ForwardAll(queues: seq<LFQueue<BookUpdate>>, sink: LFQueue<BookUpdate>)
    requires Writable(sink.State()) && Separate(queues, sink)
    requires forall i :: 0 <= i < |queues| ==> Settled(queues[i].State())
    modifies (set q | q in queues), sink, sink.store
    ensures forall i :: 0 <= i < |queues| ==> Emptied(queues[i].State())
    ensures Delivered(old(sink.State()), Waiting(old(States(queues))), sink.State())
    ensures old(Settled(sink.State())) && old(sink.count) + |Waiting(old(States(queues)))| <= sink.store.Length
            ==> Settled(sink.State()) && sink.written == old(sink.written) + Waiting(old(States(queues)))
  {
    ghost var before, s0 := States(queues), sink.State();
    DeliveredNone(s0);
    var i := 0;
    while i < |queues|
      invariant 0 <= i <= |queues| && Reached(queues, i, before)
      invariant Delivered(s0, Waiting(before[..i]), sink.State())
    {
      ghost var s1 := sink.State();
      ForwardNth(queues, sink, i, before);
      DeliveredAlong(s0, before, i, s1, sink.State());
      i := i + 1;
    }
    assert before[..i] == before;
    if Settled(s0) && s0.count + |Waiting(before)| <= |s0.store| {
      DeliveredSettled(s0, Waiting(before), sink.State());
    }
  }

  // ---------------------------------------------------------------- how much space a request needs

  function Values<T>(steps: seq<RingStep<T>>): seq<T> {
    if steps == [] then [] else (if steps[0].FillSlot? then [steps[0].value] else []) + Values(steps[1..])
  }

  lemma {:induction false} WritesAreValues<T>(s: Ring<T>, steps: seq<RingStep<T>>, s': Ring<T>)
    requires Leads(s, steps, s')
    ensures Writes(steps) == |Values(steps)| && s'.written == s.written + Values(steps)
    decreases |steps|
  {
    if steps != [] {
      WritesAreValues(After(s, steps[0]), steps[1..], s');
    }
  }

  /** The number of orders resting opposite a request, if it sets off matching at all. */
  function Facing(b: Book, r: Request): nat {
    var a := Incoming(b, r);
    if a.Some? then |Opposite(a.value.book, a.value.taker.side)| else 0
  }

  /** With `m` orders resting opposite a request, 2m + 2 free slots are enough for the symbol's thread to send
      every response to it without looking at the count: for every interleaving with the reader no unread
      response is overwritten, and what has been read is still a prefix of what was sent. */
  lemma {:induction false} ResponsesFit(b: Book, r: Request, now: Nanos, s: Ring<Response>,
                                        steps: seq<RingStep<Response>>, s': Ring<Response>)
    requires RingOK(s) && s.producer.Ready? && s.count + 2 * Facing(b, r) + 2 <= |s.store|
    requires Leads(s, steps, s') && Values(steps) == Step(b, r, now).responses
    ensures LeadsSafely(s, steps, s') && |s'.store| > 0 && Unharmed(s')
    ensures s'.read <= s'.written == s.written + Step(b, r, now).responses
  {
    BurstBound(b, r, now);
    WritesAreValues(s, steps, s');
    BurstSafe(s, steps, s');
    LeadsOK(s, steps, s');
  }

  /** Likewise 2m + 1 free slots for its book updates. */
  lemma {:induction false} UpdatesFit(b: Book, r: Request, now: Nanos, s: Ring<BookUpdate>,
                                      steps: seq<RingStep<BookUpdate>>, s': Ring<BookUpdate>)
    requires RingOK(s) && s.producer.Ready? && s.count + 2 * Facing(b, r) + 1 <= |s.store|
    requires Leads(s, steps, s') && Values(steps) == Step(b, r, now).updates
    ensures LeadsSafely(s, steps, s') && |s'.store| > 0 && Unharmed(s')
    ensures s'.read <= s'.written == s.written + Step(b, r, now).updates
  {
    BurstBound(b, r, now);
    WritesAreValues(s, steps, s');
    BurstSafe(s, steps, s');
    LeadsOK(s, steps, s');
  }
}
