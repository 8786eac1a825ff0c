/** The gateway's request sequencer: buffer, sort by receive time, hand on in that order. */
module Sequencer {
  import opened Types

  const MAX_PENDING_GATEWAY_REQUESTS: nat := 8192

  ghost predicate SortedByTime(s: seq<Request>) {
    forall i, j :: 0 <= i < j < |s| ==> s[i].recvTime <= s[j].recvTime
  }

  /** All that the library sort, which is not stable, promises about `out`. */
  ghost predicate Sequenced(buffered: seq<Request>, out: seq<Request>) {
    SortedByTime(out) && multiset(out) == multiset(buffered)
  }

  /** Requests received at the same time are the same request. */
  ghost predicate TimesSeparate(s: seq<Request>) {
    forall i, j :: 0 <= i < |s| && 0 <= j < |s| && s[i].recvTime == s[j].recvTime ==> s[i] == s[j]
  }

  // ---------------------------------------------------------------- a sort

  function Place(s: seq<Request>, r: Request): (t: seq<Request>)
    ensures multiset(t) == multiset(s) + multiset{r}
  {
    if s == [] || r.recvTime < s[0].recvTime then
      [r] + s
    else
      assert s == [s[0]] + s[1..];
      [s[0]] + Place(s[1..], r)
  }

  function SortByTime(s: seq<Request>): (t: seq<Request>)
    ensures multiset(t) == multiset(s) && |t| == |s|
  {
    if s == [] then []
    else
      assert s == s[..|s| - 1] + [s[|s| - 1]];
      var t := Place(SortByTime(s[..|s| - 1]), s[|s| - 1]);
      assert |t| == |multiset(t)| && |s| == |multiset(s)|;
      t
  }

  lemma {:induction false} PlaceElements(s: seq<Request>, r: Request, x: Request)
    ensures x in Place(s, r) <==> x == r || x in s
  {
    assert x in multiset(Place(s, r)) <==> x in Place(s, r);
    assert x in multiset(s) <==> x in s;
  }

  lemma {:induction false} PlaceSorted(s: seq<Request>, r: Request)
    requires SortedByTime(s)
    ensures SortedByTime(Place(s, r))
  {
    if s != [] && s[0].recvTime <= r.recvTime {
      PlaceSorted(s[1..], r);
      var t := Place(s[1..], r);
      forall i | 0 <= i < |t|
        ensures s[0].recvTime <= t[i].recvTime
      {
        PlaceElements(s[1..], r, t[i]);
      }
    }
  }

  lemma {:induction false} SortSequences(s: seq<Request>)
    ensures Sequenced(s, SortByTime(s))
  {
    if s != [] {
      SortSequences(s[..|s| - 1]);
      PlaceSorted(SortByTime(s[..|s| - 1]), s[|s| - 1]);
    }
  }

  // ---------------------------------------------------------------- when the order is determined

  lemma {:induction false} SameElements<T>(a: seq<T>, b: seq<T>, x: T)
    requires multiset(a) == multiset(b)
    ensures x in a <==> x in b
  {
    assert x in multiset(a) <==> x in multiset(b);
  }

  lemma {:induction false} SameHead(s: seq<Request>, a: seq<Request>, b: seq<Request>)
    requires TimesSeparate(s) && Sequenced(s, a) && Sequenced(s, b) && a != [] && b != []
    ensures a[0] == b[0]
  {
    SameElements(a, b, a[0]);
    SameElements(b, a, b[0]);
    var j :| 0 <= j < |b| && b[j] == a[0];
    var i :| 0 <= i < |a| && a[i] == b[0];
    assert a[0].recvTime == b[0].recvTime;
    SameElements(a, s, a[0]);
    SameElements(b, s, b[0]);
  }

  lemma {:induction false} TailSeparate(s: seq<Request>, a: seq<Request>)
    requires TimesSeparate(s) && multiset(a) == multiset(s) && a != []
    ensures TimesSeparate(a[1..])
  {
    forall i, j | 0 <= i < |a| - 1 && 0 <= j < |a| - 1 && a[1..][i].recvTime == a[1..][j].recvTime
      ensures a[1..][i] == a[1..][j]
    {
      SameElements(a, s, a[i + 1]);
      SameElements(a, s, a[j + 1]);
    }
  }

  lemma {:induction false} TailMultiset<T>(a: seq<T>)
    requires a != []
    ensures multiset(a[1..]) == multiset(a) - multiset{a[0]}
  {
    assert a == [a[0]] + a[1..];
  }

  lemma {:induction false} SortedUnique(s: seq<Request>, a: seq<Request>, b: seq<Request>)
    requires TimesSeparate(s) && Sequenced(s, a) && Sequenced(s, b)
    ensures a == b
    decreases |a|
  {
    assert |a| == |multiset(a)| && |b| == |multiset(b)|;
    if a != [] {
      SameHead(s, a, b);
      TailMultiset(a);
      TailMultiset(b);
      TailSeparate(s, a);
      SortedUnique(a[1..], a[1..], b[1..]);
      assert a == [a[0]] + a[1..] && b == [b[0]] + b[1..];
    }
  }

  function Swapped<T>(t: seq<T>, i: nat, j: nat): seq<T>
    requires i < |t| && j < |t|
  {
    t[i := t[j]][j := t[i]]
  }

  lemma {:induction false} SwappedSequenced(s: seq<Request>, t: seq<Request>, i: nat, j: nat)
    requires Sequenced(s, t) && i < j < |t| && t[i].recvTime == t[j].recvTime
    ensures Sequenced(s, Swapped(t, i, j))
  {
    var u := Swapped(t, i, j);
    assert multiset(u) == multiset(t);
    forall k, l | 0 <= k < l < |u|
      ensures u[k].recvTime <= u[l].recvTime
    {
      assert u[k].recvTime == t[k].recvTime && u[l].recvTime == t[l].recvTime;
    }
  }

  /** Two different requests with the same receive time stand somewhere in the sorted buffer, and can be swapped. */
  lemma {:induction false} TiesSwap(s: seq<Request>, x: Request, y: Request) returns (a: seq<Request>, i: nat, j: nat)
    requires x in s && y in s && x != y && x.recvTime == y.recvTime
    ensures Sequenced(s, a) && i < j < |a| && {a[i], a[j]} == {x, y} && a[i] != a[j]
    ensures Sequenced(s, Swapped(a, i, j))
  {
    a := SortByTime(s);
    SortSequences(s);
    SameElements(s, a, x);
    SameElements(s, a, y);
    var k :| 0 <= k < |a| && a[k] == x;
    var l :| 0 <= l < |a| && a[l] == y;
    i, j := if k < l then k else l, if k < l then l else k;
    SwappedSequenced(s, a, i, j);
  }

  /** The routed order depends only on which requests were buffered, not on the order producers reached the
      inbox or on how the sort breaks ties, if and only if receive times separate the requests. */
  lemma {:induction false} OrderDetermined(s: seq<Request>)
    ensures (forall a, b :: Sequenced(s, a) && Sequenced(s, b) ==> a == b) <==> TimesSeparate(s)
  {
    if TimesSeparate(s) {
      forall a, b | Sequenced(s, a) && Sequenced(s, b)
        ensures a == b
      {
        SortedUnique(s, a, b);
      }
    } else {
      var i, j :| 0 <= i < |s| && 0 <= j < |s| && s[i].recvTime == s[j].recvTime && s[i] != s[j];
      var a, k, l := TiesSwap(s, s[i], s[j]);
      assert Swapped(a, k, l)[k] != a[k];
    }
  }

  // ---------------------------------------------------------------- the object

  class RequestSequencer {
    const pending: array<Request>
    var pendingSize: nat

    /** What the router has been called with, in order. */
    var routed: seq<Request>

    ghost predicate Valid()
      reads this
    {
      pendingSize <= pending.Length && 0 < pending.Length
    }

    ghost function Buffered(): seq<Request>
      requires Valid()
      reads this, pending
    {
      pending[..pendingSize]
    }

    constructor (blank: Request)
      ensures Valid() && fresh(pending) && pending.Length == 8192
      ensures Buffered() == [] && routed == []
    {
      pending := new Request[MAX_PENDING_GATEWAY_REQUESTS](_ => blank);
      pendingSize, routed := 0, [];
    }

    /** Buffer one request tagged with its receive time; a full buffer is flushed first. Nothing is dropped. */
    method Enqueue(rxTime: Nanos, request: Request) returns (ghost flushed: seq<Request>)
      requires Valid()
      modifies this, pending
      ensures Valid() && routed == old(routed) + flushed
      ensures old(pendingSize) < pending.Length
              ==> flushed == [] && Buffered() == old(Buffered()) + [request.(recvTime := rxTime)]
      ensures old(pendingSize) == pending.Length
              ==> Sequenced(old(Buffered()), flushed) && Buffered() == [request.(recvTime := rxTime)]
    {
      flushed := [];
      if pendingSize >= pending.Length {
        flushed := Flush();
      }
      pending[pendingSize] := request.(recvTime := rxTime);
      pendingSize := pendingSize + 1;
    }

    /** Sort what is buffered by receive time and route it in that order. */
    method Flush() returns (ghost flushed: seq<Request>)
      requires Valid()
      modifies this, pending
      ensures Valid() && Buffered() == []
      ensures Sequenced(old(Buffered()), flushed) && routed == old(routed) + flushed
    {
      flushed := [];
      if pendingSize == 0 {
        return;
      }
      var sorted := SortPending();
      flushed := sorted;
      var i := 0;
      while i < pendingSize
        invariant 0 <= i <= pendingSize == |sorted| && pending[..pendingSize] == sorted
        invariant routed == old(routed) + sorted[..i]
        modifies `routed
      {
        routed := routed + [pending[i]];
        assert sorted[..i + 1] == sorted[..i] + [sorted[i]];
        i := i + 1;
      }
      pendingSize := 0;
    }

    /** The library sort of the buffered prefix. */
    method SortPending() returns (sorted: seq<Request>)
      requires Valid()
      modifies pending
      ensures Sequenced(old(Buffered()), sorted) && pending[..pendingSize] == sorted
    {
      sorted := SortByTime(pending[..pendingSize]);
      SortSequences(pending[..pendingSize]);
      Store(sorted);
    }

    method Store(values: seq<Request>)
      requires Valid() && |values| == pendingSize
      modifies pending
      ensures pending[..pendingSize] == values
    {
      var i := 0;
      while i < pendingSize
        invariant 0 <= i <= pendingSize
        invariant pending[..i] == values[..i]
      {
        pending[i] := values[i];
        i := i + 1;
      }
    }
  }
}
