/** The fixed-size block allocator: blocks are named by their index in the store. */
module MemPool {

  datatype ObjectBlock<T> = ObjectBlock(value: T, isFree: bool)

  /** The position `d` places after `i` in a store of `n` blocks, going round at the end. */
  function Around(n: nat, i: nat, d: nat): (j: nat)
    requires i < n && d < n
    ensures j < n
  {
    if i + d < n then i + d else i + d - n
  }

  /** Block `j` is the first free block met when searching onwards from `i`. */
  ghost predicate FirstFreeAfter<T>(blocks: seq<ObjectBlock<T>>, i: nat, j: nat)
    requires i < |blocks|
  {
    exists d :: 0 < d < |blocks| && j == Around(|blocks|, i, d) && blocks[j].isFree
      && forall c :: 0 < c < d ==> !blocks[Around(|blocks|, i, c)].isFree
  }

  ghost function Live<T>(blocks: seq<ObjectBlock<T>>): set<nat> {
    set i: nat | i < |blocks| && !blocks[i].isFree
  }

  lemma {:induction false} AroundCovers(n: nat, i: nat, j: nat) returns (d: nat)
    requires i < n && j < n
    ensures d < n && j == Around(n, i, d) && (d == 0 <==> i == j)
  {
    d := if i <= j then j - i else j + n - i;
  }

  ghost function Range(n: nat): (s: set<nat>)
    ensures |s| == n
    ensures forall i: nat :: i in s <==> i < n
  {
    if n == 0 then {} else Range(n - 1) + {n - 1}
  }

  /** Only one block can be kept back: with the cursor on free block `i`, another free block exists exactly
      when fewer than all the other blocks are live. */
  lemma {:induction false} SpareBlock<T>(blocks: seq<ObjectBlock<T>>, i: nat)
    requires i < |blocks| && blocks[i].isFree
    ensures (exists j :: 0 <= j < |blocks| && j != i && blocks[j].isFree) <==> |Live(blocks)| + 1 < |blocks|
  {
    var others := Range(|blocks|) - {i};
    assert Live(blocks) <= others;
    if j :| 0 <= j < |blocks| && j != i && blocks[j].isFree {
      assert Live(blocks) <= others - {j};
      Smaller(Live(blocks), others - {j});
    } else {
      assert Live(blocks) == others;
    }
  }

  lemma {:induction false} Smaller<T>(s: set<T>, t: set<T>)
    requires s <= t
    ensures |s| <= |t|
  {
    assert t == s + (t - s);
  }

  class MemPool<T> {
    const store: array<ObjectBlock<T>>
    var nextFree: nat

    /** The cursor always rests on a free block. */
    ghost predicate Valid()
      reads this, store
    {
      nextFree < store.Length && store[nextFree].isFree
    }

    constructor (n: nat, blank: T)
      requires 0 < n
      ensures Valid() && fresh(store) && store.Length == n
      ensures forall i :: 0 <= i < n ==> store[i] == ObjectBlock(blank, true)
    {
      store := new ObjectBlock<T>[n](_ => ObjectBlock(blank, true));
      nextFree := 0;
    }

    /** Take the block under the cursor, then move the cursor to the next free one. When there is none the
        process aborts (`!ok`), which happens exactly when the block taken was the last free one: a pool of
        n blocks sustains n - 1 live objects. */
    method Allocate(value: T) returns (ok: bool, i: nat)
      requires Valid()
      modifies this, store
      ensures i == old(nextFree) && i < store.Length && old(store[i].isFree)
      ensures store[..] == old(store[..])[i := ObjectBlock(value, false)]
      ensures ok <==> |Live(old(store[..]))| + 1 < store.Length
      ensures ok ==> Valid() && FirstFreeAfter(store[..], i, nextFree)
    {
      i := nextFree;
      ghost var before := store[..];
      SpareBlock(before, i);
      store[i] := ObjectBlock(value, false);
      ok := UpdateNextFreeIndex();
      assert forall j :: 0 <= j < store.Length && j != i ==> store[j] == before[j];
    }

    method UpdateNextFreeIndex() returns (ok: bool)
      requires nextFree < store.Length && !store[nextFree].isFree
      modifies this
      ensures ok <==> exists j :: 0 <= j < store.Length && store[j].isFree
      ensures ok ==> Valid() && FirstFreeAfter(store[..], old(nextFree), nextFree)
    {
      var initial := nextFree;
      ghost var d := 0;
      while !store[nextFree].isFree
        invariant initial < store.Length && d < store.Length && nextFree == Around(store.Length, initial, d)
        invariant forall c :: 0 <= c < d ==> !store[Around(store.Length, initial, c)].isFree
        decreases store.Length - d
      {
        nextFree := nextFree + 1;
        if nextFree == store.Length {
          nextFree := 0;
        }
        if initial == nextFree {
          forall j | 0 <= j < store.Length
            ensures !store[j].isFree
          {
            var c := AroundCovers(store.Length, initial, j);
          }
          return false;
        }
        d := d + 1;
      }
      ok := true;
    }

    /** Give a block back. The process aborts (`!ok`) on a foreign block and on one that is already free. */
    method Deallocate(i: int) returns (ok: bool)
      requires Valid()
      modifies store
      ensures ok <==> 0 <= i < store.Length && !old(store[i].isFree)
      ensures ok ==> Valid() && store[..] == old(store[..])[i := old(store[i]).(isFree := true)]
      ensures !ok ==> store[..] == old(store[..])
    {
      ok := 0 <= i < store.Length && !store[i].isFree;
      if ok {
        store[i] := store[i].(isFree := true);
      }
    }

    /** Write through a pointer to a block. */
    method Write(i: nat, value: T)
      requires i < store.Length
      modifies store
      ensures store[..] == old(store[..])[i := old(store[i]).(value := value)]
    {
      store[i] := store[i].(value := value);
    }
  }
}
