/**
  Append: folding pieces, in order, into aggregates of at least the threshold
  size. Every piece ends up in exactly one aggregate or in the remainder.
 */
module Aggregator {
  import opened Common
  import opened Sets
  import opened Pipeline
  import opened Lifecycle
  import opened Aggregates

  type Sizes = Piece -> nat // padded size of a piece

  ghost predicate Descending(ps: seq<Piece>, size: Sizes) {
    forall i, j :: 0 <= i < j < |ps| ==> size(ps[i]) >= size(ps[j])
  }

  ghost function Total(ps: seq<Piece>, size: Sizes): nat {
    if ps == [] then 0 else Total(ps[..|ps| - 1], size) + size(ps[|ps| - 1])
  }

  lemma {:induction false} TotalConcat(a: seq<Piece>, b: seq<Piece>, size: Sizes)
    ensures Total(a + b, size) == Total(a, size) + Total(b, size)
    decreases |b|
  {
    if b == [] {
      assert a + b == a;
    } else {
      var n := |b| - 1;
      assert (a + b)[..|a + b| - 1] == a + b[..n];
      TotalConcat(a, b[..n], size);
    }
  }

  /** Inserting after the larger pieces and before the others keeps the order. */
  lemma {:induction false} InsertKeepsOrder(sorted: seq<Piece>, i: nat, p: Piece, size: Sizes)
    requires i <= |sorted| && Descending(sorted, size)
    requires forall k :: 0 <= k < i ==> size(p) < size(sorted[k])
    requires forall k :: i <= k < |sorted| ==> size(p) >= size(sorted[k])
    ensures Descending(sorted[..i] + [p] + sorted[i..], size)
  {
  }

  lemma {:induction false} InsertAdds(sorted: seq<Piece>, i: nat, p: Piece, size: Sizes)
    requires i <= |sorted|
    ensures var r := sorted[..i] + [p] + sorted[i..];
            multiset(r) == multiset(sorted) + multiset{p} && Total(r, size) == Total(sorted, size) + size(p)
  {
    var a, b := sorted[..i], sorted[i..];
    assert sorted == a + b;
    TotalConcat(a, b, size);
    TotalConcat(a, [p], size);
    TotalConcat(a + [p], b, size);
    assert Total([p], size) == size(p) by { assert [p][..0] == []; }
  }

  /** Adds `p` before the first piece that is no larger, found by binary search. */
  method InsertOrderedByDescendingSize(sorted: seq<Piece>, p: Piece, size: Sizes) returns (r: seq<Piece>)
    requires Descending(sorted, size)
    ensures Descending(r, size)
    ensures multiset(r) == multiset(sorted) + multiset{p}
    ensures Total(r, size) == Total(sorted, size) + size(p)
  {
    var i, j := 0, |sorted|;
    while i < j
      invariant 0 <= i <= j <= |sorted|
      invariant forall k :: 0 <= k < i ==> size(p) < size(sorted[k])
      invariant forall k :: j <= k < |sorted| ==> size(p) >= size(sorted[k])
    {
      var h := (i + j) / 2;
      if size(p) < size(sorted[h]) {
        i := h + 1;
      } else {
        j := h;
      }
    }
    InsertKeepsOrder(sorted, i, p, size);
    InsertAdds(sorted, i, p, size);
    r := sorted[..i] + [p] + sorted[i..];
  }

  /** One piece larger than the threshold, or sorted pieces that reach it and stay under twice it. */
  ghost predicate WellSized(a: Aggregate, size: Sizes, min: nat) {
    var ps := Links(a);
    || (|ps| == 1 && size(ps[0]) > min)
    || (Descending(ps, size) && min <= Total(ps, size) < 2 * min && Small(ps, size, min))
  }

  /** NewAggregate keeps the pieces it is given, in order. */
  ghost predicate KeepsPieces(make: seq<Piece> -> Option<Aggregate>) {
    forall ps :: make(ps).Some? ==> Links(make(ps).value) == ps
  }

  /** What Append holds after some of its pieces: the aggregates made and the buffer. */
  ghost predicate Appended(seen: seq<Piece>, made: seq<Aggregate>, buffered: seq<Piece>, size: Sizes, min: nat) {
    && multiset(AllLinks(made)) + multiset(buffered) == multiset(seen)
    && (forall a :: a in made ==> WellSized(a, size, min))
    && Descending(buffered, size) && Total(buffered, size) < min && Small(buffered, size, min)
  }

  ghost predicate Small(ps: seq<Piece>, size: Sizes, min: nat) {
    forall p :: p in multiset(ps) ==> size(p) <= min
  }

  /** A piece over the threshold is an aggregate of its own. */
  lemma {:induction false} FlushAlone(seen: seq<Piece>, made: seq<Aggregate>, buffered: seq<Piece>, size: Sizes,
                                      min: nat,
                                      p: Piece, a: Aggregate)
    requires Appended(seen, made, buffered, size, min) && size(p) > min && Links(a) == [p]
    ensures Appended(seen + [p], made + [a], buffered, size, min)
  {
  }

  /** A piece at most the threshold joins the buffer. */
  lemma {:induction false} JoinBuffer(seen: seq<Piece>, made: seq<Aggregate>, buffered: seq<Piece>, size: Sizes,
                                      min: nat,
                                  p: Piece, more: seq<Piece>)
    requires Appended(seen, made, buffered, size, min) && size(p) <= min
    requires multiset(more) == multiset(buffered) + multiset{p} && Descending(more, size)
    ensures multiset(AllLinks(made)) + multiset(more) == multiset(seen + [p]) && Small(more, size, min)
    ensures Total(more, size) < min ==> Appended(seen + [p], made, more, size, min)
  {
  }

  /** A buffer that reaches the threshold is an aggregate. */
  lemma {:induction false} FlushBuffer(seen: seq<Piece>, made: seq<Aggregate>, more: seq<Piece>, size: Sizes, min: nat,
                                       a: Aggregate)
    requires multiset(AllLinks(made)) + multiset(more) == multiset(seen) && Links(a) == more
    requires forall x :: x in made ==> WellSized(x, size, min)
    requires Small(more, size, min) && Descending(more, size) && min <= Total(more, size) < 2 * min
    ensures Appended(seen, made + [a], [], size, min)
  {
  }

  /** What the buffer holds was seen. */
  lemma {:induction false} BufferSeen(pieces: seq<Piece>, n: nat, made: seq<Aggregate>, more: seq<Piece>,
                                      buffered: seq<Piece>)
    requires n < |pieces| && multiset(AllLinks(made)) + multiset(buffered) == multiset(pieces[..n])
    requires multiset(more) <= multiset(buffered) + multiset{pieces[n]}
    ensures multiset(more) <= multiset(pieces)
  {
    assert pieces == pieces[..n] + [pieces[n]] + pieces[n + 1..];
  }

  /** What Append holds between two pieces. */
  datatype Buffer = Buffer(made: seq<Aggregate>, buffered: seq<Piece>, total: nat)

  /** Append's loop body: `p` is flushed alone, or joins the buffer and may flush it. */
  method AppendPiece(ghost seen: seq<Piece>, p: Piece, b: Buffer, size: Sizes, min: nat,
                     make: seq<Piece> -> Option<Aggregate>)
    returns (r: Option<Buffer>, ghost tried: seq<Piece>)
    requires min > 0 && KeepsPieces(make)
    requires Appended(seen, b.made, b.buffered, size, min) && b.total == Total(b.buffered, size)
    ensures r.Some? ==> Appended(seen + [p], r.value.made, r.value.buffered, size, min)
    ensures r.Some? ==> r.value.total == Total(r.value.buffered, size)
    ensures r == None ==> make(tried) == None && multiset(tried) <= multiset(b.buffered) + multiset{p}
    ensures r == None ==> tried != [] && Descending(tried, size)
  {
    if size(p) > min {
      tried := [p];
      var a := make([p]);
      if a == None {
        return None, tried;
      }
      FlushAlone(seen, b.made, b.buffered, size, min, p, a.value);
      return Some(b.(made := b.made + [a.value])), tried;
    }
    var more := InsertOrderedByDescendingSize(b.buffered, p, size);
    tried := more;
    assert p in multiset(more);
    JoinBuffer(seen, b.made, b.buffered, size, min, p, more);
    var total := b.total + size(p);
    if total < min {
      return Some(Buffer(b.made, more, total)), tried;
    }
    var a := make(more);
    if a == None {
      return None, tried;
    }
    FlushBuffer(seen + [p], b.made, more, size, min, a.value);
    return Some(Buffer(b.made + [a.value], [], 0)), tried;
  }

  /**
    Every piece goes into exactly one aggregate or into `rest`, which stays
    below the threshold. `make` is NewAggregate; when it refuses some of the
    pieces the call fails, and `rest` is those, though they fall in size.
   */
  method Append(pieces: seq<Piece>, size: Sizes, min: nat, make: seq<Piece> -> Option<Aggregate>)
    returns (r: Option<seq<Aggregate>>, ghost rest: seq<Piece>)
    requires min > 0 && KeepsPieces(make)
    ensures r.Some? ==> Appended(pieces, r.value, rest, size, min)
    ensures r.Some? ==> multiset(AllLinks(r.value)) <= multiset(pieces)
    ensures r.Some? ==> forall a :: a in r.value ==> WellSized(a, size, min)
    ensures r == None ==>
              make(rest) == None && multiset(rest) <= multiset(pieces) && rest != [] && Descending(rest, size)
  {
    var b := Buffer([], [], 0);
    rest := [];
    for n := 0 to |pieces|
      invariant Appended(pieces[..n], b.made, b.buffered, size, min) && b.total == Total(b.buffered, size)
    {
      PrefixGrows(pieces, n);
      var next, tried := AppendPiece(pieces[..n], pieces[n], b, size, min, make);
      if next == None {
        BufferSeen(pieces, n, b.made, tried, b.buffered);
        return None, tried;
      }
      b := next.value;
    }
    WholePrefix(pieces);
    AppendedIsServed(pieces, b.made, b.buffered, size, min);
    return Some(b.made), b.buffered;
  }

  /** What Append made of the loaded pieces never asks for a piece more often than it was loaded. */
  lemma {:induction false} AppendedIsServed(loaded: seq<Piece>, made: seq<Aggregate>, rest: seq<Piece>, size: Sizes,
                                            min: nat)
    requires Appended(loaded, made, rest, size, min)
    ensures multiset(AllLinks(made)) <= multiset(loaded)
  {
  }

  /** Aggregates come from pieces. */
  lemma {:induction false} MadeFromSome(seen: seq<Piece>, made: seq<Aggregate>, rest: seq<Piece>, size: Sizes, min: nat)
    requires min > 0 && made != [] && Appended(seen, made, rest, size, min)
    ensures seen != []
  {
    var a := made[|made| - 1];
    assert a in made && WellSized(a, size, min);
    assert Links(a) != [] && |AllLinks(made)| > 0;
    assert |multiset(AllLinks(made)) + multiset(rest)| == |AllLinks(made)| + |rest|;
    assert |multiset(seen)| == |seen|;
  }

  /**
    The whole fold: what Append makes of the loaded pieces is always served by
    the loaded rows, so only NewAggregate can fail it, and then nothing changes.
   */
  method FoldLoaded(task: AggregateTask, order: seq<Blob>, size: Sizes, min: nat, make: seq<Piece> -> Option<Aggregate>)
    returns (r: FoldResult, ghost made: seq<Aggregate>, ghost rest: seq<Piece>, ghost plan: seq<seq<Blob>>)
    requires Distinct(order) && forall b :: b in order <==> Loadable(task.table, b)
    requires min > 0 && KeepsPieces(make)
    modifies task
    ensures r.Failed? ==>
              && r.error.AppendFailed? && make(rest) == None
              && multiset(rest) <= multiset(LoadedPieces(old(task.table), order))
    ensures r.FoldedInto? ==>
              && Planned(old(task.table), made, plan) && task.table == FoldedAll(old(task.table), made, plan)
              && r.roots == RootsOf(made) && made != []
    ensures !r.FoldedInto? ==> task.table == old(task.table)
    ensures !r.Failed? ==> Appended(LoadedPieces(old(task.table), order), made, rest, size, min)
    ensures !r.Failed? ==> (r.FoldedInto? <==> made != [])
  {
    made, plan := [], [];
    var pieces := LoadedPieces(task.table, order);
    var appended;
    appended, rest := Append(pieces, size, min, make);
    if appended.Some? {
      if |appended.value| > 0 {
        MadeFromSome(pieces, appended.value, rest, size, min);
      }
      made := appended.value;
    }
    r, plan := task.Fold(order, appended);
  }
}
