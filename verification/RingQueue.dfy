/** The single-producer single-consumer ring buffer as two threads taking atomic steps in any order. */
module RingQueue {
  import opened Types

  /** Where the writing thread is: between writes, slot filled, or write index advanced. */
  datatype Producer = Ready | SlotFilled | IndexAdvanced

  /** Where the reading thread is: polling, holding the slot at the read index, or read index advanced. */
  datatype Consumer = Polling | Holding | Releasing

  /** The shared fields, both threads' positions, and the history: every value put into a slot and every
      value taken out of one. */
  datatype Ring<T> = Ring(
    store: seq<T>, nextWrite: nat, nextRead: nat, count: nat,
    producer: Producer, consumer: Consumer, written: seq<T>, read: seq<T>)

  /** The atomic steps. The consumer may look at the slot any number of times while it holds it. */
  datatype RingStep<T> =
    | FillSlot(value: T)
    | AdvanceWrite
    | IncrementCount
    | TestCount
    | AdvanceRead
    | DecrementCount

  function Succ(i: nat, n: nat): (j: nat)
    requires i < n
    ensures j < n
  {
    if i + 1 == n then 0 else i + 1
  }

  /** The code's way of stepping round. */
  lemma {:induction false} SuccIsMod(i: nat, n: nat)
    requires i < n
    ensures Succ(i, n) == (i + 1) % n
  {
    if i + 1 < n {
      Below(i + 1, n);
    }
  }

  lemma {:induction false} Below(a: nat, n: nat)
    requires a < n
    ensures a % n == a
  {
  }

  predicate InBounds<T>(s: Ring<T>) {
    s.nextWrite < |s.store| && s.nextRead < |s.store|
  }

  /** Program order of each thread; `AdvanceRead` stands for the last look at the slot and its release. The
      consumer's check that the count is not zero aborts the process when it fails. */
  predicate Allowed<T>(s: Ring<T>, step: RingStep<T>) {
    && InBounds(s)
    && match step
       case FillSlot(_) => s.producer.Ready?
       case AdvanceWrite => s.producer.SlotFilled?
       case IncrementCount => s.producer.IndexAdvanced?
       case TestCount => s.consumer.Polling?
       case AdvanceRead => s.consumer.Holding?
       case DecrementCount => s.consumer.Releasing?
  }

  /** The discipline the queue leaves to its writer: start a write only while there is a free slot. */
  predicate Disciplined<T>(s: Ring<T>, step: RingStep<T>) {
    step.FillSlot? ==> s.count < |s.store|
  }

  function After<T>(s: Ring<T>, step: RingStep<T>): Ring<T>
    requires Allowed(s, step)
  {
    match step
    case FillSlot(v) => s.(store := s.store[s.nextWrite := v], written := s.written + [v], producer := SlotFilled)
    case AdvanceWrite => s.(nextWrite := Succ(s.nextWrite, |s.store|), producer := IndexAdvanced)
    case IncrementCount => s.(count := s.count + 1, producer := Ready)
    case TestCount => if s.count == 0 then s else s.(consumer := Holding)
    case AdvanceRead => s.(nextRead := Succ(s.nextRead, |s.store|), read := s.read + [s.store[s.nextRead]],
                           consumer := Releasing)
    case DecrementCount => s.(count := if s.count == 0 then 0 else s.count - 1, consumer := Polling)
  }

  function Start<T>(store: seq<T>): Ring<T> {
    Ring(store, 0, 0, 0, Ready, Polling, [], [])
  }

  // ---------------------------------------------------------------- slots

  /** The slot of the `i`-th value ever written. */
  function Slot(i: nat, n: nat): (j: nat)
    requires 0 < n
    ensures j < n
  {
    if i == 0 then 0 else Succ(Slot(i - 1, n), n)
  }

  lemma {:induction false} SlotPlus(i: nat, d: nat, n: nat)
    requires d < n
    ensures Slot(i + d, n) == if Slot(i, n) + d < n then Slot(i, n) + d else Slot(i, n) + d - n
  {
    if d > 0 { SlotPlus(i, d - 1, n); }
  }

  /** Values less than a full turn apart have different slots; a full turn apart, the same. */
  lemma {:induction false} SlotsApart(i: nat, j: nat, n: nat)
    requires i < j
    ensures j - i < n ==> Slot(i, n) != Slot(j, n)
    ensures j - i == n ==> Slot(i, n) == Slot(j, n)
  {
    if j - i < n {
      SlotPlus(i, j - i, n);
    } else if j - i == n {
      SlotPlus(i, n - 1, n);
      assert Slot(j, n) == Succ(Slot(i + (n - 1), n), n);
    }
  }

  // ---------------------------------------------------------------- the invariant

  /** How many values the count already covers, and how many it no longer covers. */
  function Published<T>(s: Ring<T>): int {
    |s.written| - if s.producer.Ready? then 0 else 1
  }

  function Released<T>(s: Ring<T>): int {
    |s.read| - if s.consumer.Releasing? then 1 else 0
  }

  ghost predicate Unharmed<T>(s: Ring<T>)
    requires 0 < |s.store|
  {
    forall i :: |s.read| <= i < |s.written| ==> s.store[Slot(i, |s.store|)] == s.written[i]
  }

  ghost predicate RingOK<T>(s: Ring<T>) {
    && InBounds(s)
    && 0 <= Released(s) && |s.read| <= Published(s) && s.count == Published(s) - Released(s)
    && s.nextWrite == Slot(if s.producer.SlotFilled? then |s.written| - 1 else |s.written|, |s.store|)
    && s.nextRead == Slot(|s.read|, |s.store|)
    && (s.consumer.Holding? ==> |s.read| < Published(s))
    && |s.written| - Released(s) <= |s.store|
    && s.read == s.written[..|s.read|]
    && Unharmed(s)
  }

  lemma {:induction false} StartOK<T>(store: seq<T>)
    requires 0 < |store|
    ensures RingOK(Start(store))
  {
  }

  /** A write while some slot holds no unread value leaves every unread value intact. */
  lemma {:induction false} FillHarmless<T>(s: Ring<T>, v: T)
    requires RingOK(s) && s.producer.Ready? && |s.written| - |s.read| < |s.store|
    ensures Unharmed(After(s, FillSlot(v)))
  {
    var s' := After(s, FillSlot(v));
    forall i | |s.read| <= i < |s'.written|
      ensures s'.store[Slot(i, |s.store|)] == s'.written[i]
    {
      if i < |s.written| { SlotsApart(i, |s.written|, |s.store|); }
    }
  }

  lemma {:induction false} FillOK<T>(s: Ring<T>, v: T)
    requires RingOK(s) && s.producer.Ready? && s.count < |s.store|
    ensures RingOK(After(s, FillSlot(v)))
  {
    FillHarmless(s, v);
    assert After(s, FillSlot(v)).written[..|s.read|] == s.written[..|s.read|];
  }

  lemma {:induction false} PublishOK<T>(s: Ring<T>, step: RingStep<T>)
    requires RingOK(s) && Allowed(s, step) && (step.AdvanceWrite? || step.IncrementCount?)
    ensures RingOK(After(s, step))
  {
  }

  lemma {:induction false} AdvanceReadOK<T>(s: Ring<T>)
    requires RingOK(s) && s.consumer.Holding?
    ensures RingOK(After(s, AdvanceRead))
  {
    assert s.written[..|s.read| + 1] == s.written[..|s.read|] + [s.written[|s.read|]];
  }

  lemma {:induction false} ReadOK<T>(s: Ring<T>, step: RingStep<T>)
    requires RingOK(s) && Allowed(s, step) && (step.TestCount? || step.DecrementCount?)
    ensures RingOK(After(s, step)) && (step.DecrementCount? ==> s.count != 0)
  {
  }

  lemma {:induction false} StepOK<T>(s: Ring<T>, step: RingStep<T>)
    requires RingOK(s) && Allowed(s, step) && Disciplined(s, step)
    ensures RingOK(After(s, step))
    ensures step.DecrementCount? ==> s.count != 0
  {
    match step
    case FillSlot(v) => FillOK(s, v);
    case AdvanceRead => AdvanceReadOK(s);
    case TestCount => ReadOK(s, step);
    case DecrementCount => ReadOK(s, step);
    case _ => PublishOK(s, step);
  }

  // ---------------------------------------------------------------- every interleaving

  /** Taking `steps` one after the other leads from `s` to `s'`, each in its thread's program order. */
  ghost predicate Leads<T>(s: Ring<T>, steps: seq<RingStep<T>>, s': Ring<T>)
    decreases |steps|
  {
    if steps == [] then s == s' else Allowed(s, steps[0]) && Leads(After(s, steps[0]), steps[1..], s')
  }

  /** The same, with a writer that keeps the discipline. */
  ghost predicate LeadsSafely<T>(s: Ring<T>, steps: seq<RingStep<T>>, s': Ring<T>)
    decreases |steps|
  {
    if steps == [] then s == s'
    else Allowed(s, steps[0]) && Disciplined(s, steps[0]) && LeadsSafely(After(s, steps[0]), steps[1..], s')
  }

  lemma {:induction false} LeadsOK<T>(s: Ring<T>, steps: seq<RingStep<T>>, s': Ring<T>)
    requires RingOK(s) && LeadsSafely(s, steps, s')
    ensures RingOK(s')
    decreases |steps|
  {
    if steps != [] {
      StepOK(s, steps[0]);
      LeadsOK(After(s, steps[0]), steps[1..], s');
    }
  }

  /** First in, first out, whatever the interleaving: what has been read is a prefix of what was written,
      everything unread is intact in its slot, a held slot holds the next value in order, and the consumer's
      non-empty check cannot fail. */
  lemma {:induction false} Fifo<T>(store: seq<T>, steps: seq<RingStep<T>>, s: Ring<T>)
    requires 0 < |store| && LeadsSafely(Start(store), steps, s)
    ensures s.read <= s.written
    ensures |s.store| > 0 && Unharmed(s)
    ensures s.consumer.Holding?
            ==> s.nextRead < |s.store| && |s.read| < |s.written| && s.store[s.nextRead] == s.written[|s.read|]
    ensures s.consumer.Releasing? ==> s.count != 0
  {
    StartOK(store);
    LeadsOK(Start(store), steps, s);
  }

  /** While the consumer holds a slot, no step of the producer changes it. */
  lemma {:induction false} HeldSlotStable<T>(s: Ring<T>, step: RingStep<T>)
    requires RingOK(s) && Allowed(s, step) && Disciplined(s, step) && s.consumer.Holding? && !step.AdvanceRead?
    ensures After(s, step).nextRead == s.nextRead && After(s, step).store[s.nextRead] == s.store[s.nextRead]
  {
    if step.FillSlot? { SlotsApart(|s.read|, |s.written|, |s.store|); }
  }

  /** There is no full check. A write into a ring whose every slot holds an unread value lands in the very
      slot that is to be read next; any other write is harmless, and the writer's count, which covers a
      value until its release is complete, errs on the safe side. */
  lemma {:induction false} OverflowOverwrites<T>(s: Ring<T>, v: T)
    requires RingOK(s) && s.producer.Ready?
    ensures |s.written| - |s.read| == |s.store| ==> After(s, FillSlot(v)).store[s.nextRead] == v
    ensures s.count < |s.store| ==> |s.written| - |s.read| < |s.store|
    ensures |s.written| - |s.read| < |s.store| ==> Unharmed(After(s, FillSlot(v)))
    ensures |s.read| < |s.written| && v != s.written[|s.read|]
            ==> (Unharmed(After(s, FillSlot(v))) <==> |s.written| - |s.read| < |s.store|)
  {
    if |s.written| - |s.read| < |s.store| {
      FillHarmless(s, v);
    } else {
      SlotsApart(|s.read|, |s.written|, |s.store|);
      var s' := After(s, FillSlot(v));
      assert s'.store[Slot(|s.read|, |s.store|)] == v && s'.written[|s.read|] == s.written[|s.read|];
    }
  }

  // ---------------------------------------------------------------- bursts

  function Writes<T>(steps: seq<RingStep<T>>): nat {
    if steps == [] then 0 else (if steps[0].FillSlot? then 1 else 0) + Writes(steps[1..])
  }

  /** A writer that never looks at the count is still safe for as many writes as there were free slots, since
      nobody but the writer takes slots. */
  lemma {:induction false} BurstSafe<T>(s: Ring<T>, steps: seq<RingStep<T>>, s': Ring<T>)
    requires RingOK(s) && Leads(s, steps, s')
    requires Published(s) - Released(s) + (if s.producer.Ready? then 0 else 1) + Writes(steps) <= |s.store|
    ensures LeadsSafely(s, steps, s')
    decreases |steps|
  {
    if steps != [] {
      StepOK(s, steps[0]);
      BurstSafe(After(s, steps[0]), steps[1..], s');
    }
  }

  // ---------------------------------------------------------------- the object

  /** The queue as its callers see it: each method is one or more of the atomic steps. */
  class LFQueue<T> {
    const store: array<T>
    var nextWrite: nat
    var nextRead: nat
    var count: nat
    ghost var producer: Producer
    ghost var consumer: Consumer
    ghost var written: seq<T>
    ghost var read: seq<T>

    ghost function State(): Ring<T>
      reads this, store
    {
      Ring(store[..], nextWrite, nextRead, count, producer, consumer, written, read)
    }

    constructor (n: nat, blank: T)
      requires 0 < n
      ensures fresh(store) && State() == Start(seq(n, i => blank)) && RingOK(State())
    {
      store := new T[n](_ => blank);
      nextWrite, nextRead, count := 0, 0, 0;
      producer, consumer, written, read := Ready, Polling, [], [];
      new;
      assert store[..] == seq(n, i => blank);
      StartOK(store[..]);
    }

    /** Store through the pointer to the next slot to write to. */
    method Write(value: T)
      requires InBounds(State()) && producer.Ready?
      modifies this, store
      ensures State() == After(old(State()), FillSlot(value))
    {
      store[nextWrite] := value;
      producer, written := SlotFilled, written + [value];
    }

    method UpdateWriteIndex()
      requires InBounds(State()) && producer.SlotFilled?
      modifies this
      ensures State() == After(After(old(State()), AdvanceWrite), IncrementCount)
    {
      SuccIsMod(nextWrite, store.Length);
      nextWrite := (nextWrite + 1) % store.Length;
      count := count + 1;
      producer := Ready;
    }

    method GetNextToRead() returns (value: Option<T>)
      requires RingOK(State()) && consumer.Polling?
      modifies this
      ensures State() == After(old(State()), TestCount)
      ensures value == if count == 0 then None else Some(written[|read|])
    {
      value := None;
      if count != 0 {
        value := Some(store[nextRead]);
        consumer := Holding;
      }
    }

    method UpdateReadIndex()
      requires RingOK(State()) && consumer.Holding?
      modifies this
      ensures State() == After(After(old(State()), AdvanceRead), DecrementCount)
      ensures RingOK(State()) && read == old(read) + [written[|old(read)|]]
    {
      ghost var s := State();
      StepOK(s, AdvanceRead);
      StepOK(After(s, AdvanceRead), DecrementCount);
      read := read + [store[nextRead]];
      SuccIsMod(nextRead, store.Length);
      nextRead := (nextRead + 1) % store.Length;
      assert count != 0;
      count := count - 1;
      consumer := Polling;
    }
  }
}
