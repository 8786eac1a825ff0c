/** Splitting the sequenced stream by symbol, and when what a symbol sees is determined. */
module Routing {
  import opened Types
  import opened Matching
  import opened Sequencer
  import opened Gateway

  /** The requests for one symbol, in order. */
  function OfSymbol(rs: seq<Request>, symbol: Symbol): seq<Request> {
    if rs == [] then []
    else OfSymbol(rs[..|rs| - 1], symbol) + if rs[|rs| - 1].symbol == symbol then [rs[|rs| - 1]] else []
  }

  lemma {:induction false} OfSymbolSnoc(rs: seq<Request>, r: Request, symbol: Symbol)
    ensures OfSymbol(rs + [r], symbol) == OfSymbol(rs, symbol) + if r.symbol == symbol then [r] else []
  {
    assert (rs + [r])[..|rs|] == rs;
  }

  lemma {:induction false} OfSymbolConcat(a: seq<Request>, b: seq<Request>, symbol: Symbol)
    ensures OfSymbol(a + b, symbol) == OfSymbol(a, symbol) + OfSymbol(b, symbol)
  {
    if b == [] {
      assert a + b == a;
    } else {
      var init, last := b[..|b| - 1], b[|b| - 1];
      OfSymbolConcat(a, init, symbol);
      OfSymbolSnoc(a + init, last, symbol);
      assert a + b == (a + init) + [last];
      Assoc(OfSymbol(a, symbol), OfSymbol(init, symbol), if last.symbol == symbol then [last] else []);
    }
  }

  lemma {:induction false} OfSymbolCounts(rs: seq<Request>, symbol: Symbol, x: Request)
    ensures multiset(OfSymbol(rs, symbol))[x] == if x.symbol == symbol then multiset(rs)[x] else 0
  {
    if rs != [] {
      OfSymbolCounts(rs[..|rs| - 1], symbol, x);
      assert rs == rs[..|rs| - 1] + [rs[|rs| - 1]];
    }
  }

  lemma {:induction false} OfSymbolElements(rs: seq<Request>, symbol: Symbol, x: Request)
    ensures x in OfSymbol(rs, symbol) <==> x in rs && x.symbol == symbol
  {
    OfSymbolCounts(rs, symbol, x);
    assert x in multiset(OfSymbol(rs, symbol)) <==> x in OfSymbol(rs, symbol);
    assert x in multiset(rs) <==> x in rs;
  }

  lemma {:induction false} OfSymbolSorted(rs: seq<Request>, symbol: Symbol)
    requires SortedByTime(rs)
    ensures SortedByTime(OfSymbol(rs, symbol))
  {
    if rs != [] {
      var init, last := rs[..|rs| - 1], rs[|rs| - 1];
      OfSymbolSorted(init, symbol);
      var before := OfSymbol(init, symbol);
      forall i | 0 <= i < |before|
        ensures before[i].recvTime <= last.recvTime
      {
        OfSymbolElements(init, symbol, before[i]);
        var k :| 0 <= k < |init| && init[k] == before[i];
        assert rs[k].recvTime <= rs[|rs| - 1].recvTime;
      }
    }
  }

  /** What a symbol sees of a sorted permutation is a sorted permutation of what it sees of the buffer. */
  lemma {:induction false} SequencedForSymbol(s: seq<Request>, a: seq<Request>, symbol: Symbol)
    requires Sequenced(s, a)
    ensures Sequenced(OfSymbol(s, symbol), OfSymbol(a, symbol))
  {
    OfSymbolSorted(a, symbol);
    forall x: Request
      ensures multiset(OfSymbol(s, symbol))[x] == multiset(OfSymbol(a, symbol))[x]
    {
      OfSymbolCounts(s, symbol, x);
      OfSymbolCounts(a, symbol, x);
    }
  }

  // ---------------------------------------------------------------- ties within a symbol

  /** The request at position `i` is found, in its symbol's stream, behind those that precede it. */
  lemma {:induction false} OfSymbolAt(rs: seq<Request>, i: nat)
    requires i < |rs|
    ensures var r := |OfSymbol(rs[..i], rs[i].symbol)|;
            r < |OfSymbol(rs, rs[i].symbol)| && OfSymbol(rs, rs[i].symbol)[r] == rs[i]
  {
    var symbol := rs[i].symbol;
    assert rs == (rs[..i] + [rs[i]]) + rs[i + 1..];
    OfSymbolSnoc(rs[..i], rs[i], symbol);
    OfSymbolConcat(rs[..i] + [rs[i]], rs[i + 1..], symbol);
  }

  lemma {:induction false} SwapShows(t: seq<Request>, i: nat, j: nat, symbol: Symbol)
    requires i < j < |t| && t[i] != t[j] && t[i].symbol == symbol && t[j].symbol == symbol
    ensures OfSymbol(Swapped(t, i, j), symbol) != OfSymbol(t, symbol)
  {
    var u := Swapped(t, i, j);
    OfSymbolAt(t, i);
    OfSymbolAt(u, i);
    assert u[..i] == t[..i];
  }

  lemma {:induction false} TiesShow(s: seq<Request>, symbol: Symbol, x: Request, y: Request)
    returns (a: seq<Request>, b: seq<Request>)
    requires x in OfSymbol(s, symbol) && y in OfSymbol(s, symbol) && x != y && x.recvTime == y.recvTime
    ensures Sequenced(s, a) && Sequenced(s, b) && OfSymbol(a, symbol) != OfSymbol(b, symbol)
  {
    OfSymbolElements(s, symbol, x);
    OfSymbolElements(s, symbol, y);
    var i, j;
    a, i, j := TiesSwap(s, x, y);
    SwapShows(a, i, j, symbol);
    b := Swapped(a, i, j);
  }

  /** What a symbol sees of a flush depends only on which requests were buffered, however the sort breaks ties,
      if and only if receive times separate the requests for that symbol; ties across symbols do no harm. */
  lemma {:induction false} SymbolOrderDetermined(s: seq<Request>, symbol: Symbol)
    ensures (forall a, b :: Sequenced(s, a) && Sequenced(s, b) ==> OfSymbol(a, symbol) == OfSymbol(b, symbol))
        <==> TimesSeparate(OfSymbol(s, symbol))
  {
    var q := OfSymbol(s, symbol);
    if TimesSeparate(q) {
      forall a, b | Sequenced(s, a) && Sequenced(s, b)
        ensures OfSymbol(a, symbol) == OfSymbol(b, symbol)
      {
        SequencedForSymbol(s, a, symbol);
        SequencedForSymbol(s, b, symbol);
        SortedUnique(q, OfSymbol(a, symbol), OfSymbol(b, symbol));
      }
    } else {
      var i, j :| 0 <= i < |q| && 0 <= j < |q| && q[i].recvTime == q[j].recvTime && q[i] != q[j];
      var a, b := TiesShow(s, symbol, q[i], q[j]);
    }
  }

  // ---------------------------------------------------------------- whole streams

  /** Two sorted streams of the same requests look the same to a symbol whose requests times separate. */
  lemma {:induction false} SortedStreamsAgree(a: seq<Request>, b: seq<Request>, symbol: Symbol)
    requires SortedByTime(a) && Sequenced(a, b) && TimesSeparate(OfSymbol(a, symbol))
    ensures OfSymbol(a, symbol) == OfSymbol(b, symbol)
  {
    SymbolOrderDetermined(a, symbol);
    assert Sequenced(a, a);
  }

  /** The same requests, flush by flush, with no ties within the symbol. */
  ghost predicate SameFlushes(ss: seq<seq<Request>>, ts: seq<seq<Request>>, symbol: Symbol) {
    && |ss| == |ts|
    && forall k :: 0 <= k < |ss| ==> multiset(ss[k]) == multiset(ts[k]) && TimesSeparate(OfSymbol(ss[k], symbol))
  }

  /** Flushes of the same requests give a symbol the same stream, whatever order the requests reached the
      inbox in and however the sorts broke ties between symbols. */
  lemma {:induction false} SameFlushesSameStream(ss: seq<seq<Request>>, ts: seq<seq<Request>>, symbol: Symbol)
    requires EachSorted(ss) && EachSorted(ts) && SameFlushes(ss, ts, symbol)
    ensures OfSymbol(Flat(ss), symbol) == OfSymbol(Flat(ts), symbol)
  {
    if ss != [] {
      var n := |ss| - 1;
      SameFlushesSameStream(ss[..n], ts[..n], symbol);
      OfSymbolConcat(Flat(ss[..n]), ss[n], symbol);
      OfSymbolConcat(Flat(ts[..n]), ts[n], symbol);
      SortedStreamsAgree(ss[n], ts[n], symbol);
    }
  }
}
