/**
  What sequences of AddRoots calls keep: a root is never recorded under two
  live transactions, a repeated call submits nothing, and the recorded rows of
  a root tile it.
 */
module RootSubmissions {
  import opened Common
  import opened RootLayout
  import opened AddRoots

  // -------------------------------------------------------------------- runs

  /** The chain and its watchers: rows go or stay, pieces come and go, a dead transaction stays dead. */
  ghost predicate Watches(t: Tables, t': Tables) {
    && (forall k :: k in t'.adds ==> k in t.adds && t'.adds[k] == t.adds[k])
    && t'.waits.Keys == t.waits.Keys
    && (forall tx :: tx in t.waits && Dead(t.waits[tx]) ==> Dead(t'.waits[tx]))
  }

  /** A call that submits nothing: its rows of dead transactions are cleared, or not even that. */
  ghost predicate SubmitsNothing(t: Tables, t': Tables, ds: int, request: seq<RootAdd>) {
    t' == t || Clears(t, t', ds, request)
  }

  lemma {:induction false} ClearsOneWay(t: Tables, t': Tables, ds: int, request: seq<RootAdd>)
    requires Clears(t, t', ds, request)
    ensures t' == Cleared(t, ds, DeadTxs(t, ds, request))
  {
    var c := Cleared(t, ds, DeadTxs(t, ds, request));
    ClearedClears(t, ds, request);
    forall k ensures k in t'.adds <==> k in c.adds
      ensures k in t'.adds && k in c.adds ==> t'.adds[k] == c.adds[k]
    {
      assert RowCleared(t, t', ds, request, k) && RowCleared(t, c, ds, request, k);
    }
    assert t'.adds == c.adds;
  }

  datatype Event =
    | Watch
    | Refuse(ds: int, request: seq<RootAdd>)
    | Submit(ds: int, request: seq<RootAdd>, tx: TxHash)

  ghost predicate Follows(t: Tables, e: Event, t': Tables) {
    match e
    case Watch => Watches(t, t')
    case Refuse(ds, request) => SubmitsNothing(t, t', ds, request)
    case Submit(ds, request, tx) => Submits(t, t', ds, request, tx)
  }

  /** No root of a data set is recorded under two live transactions. */
  ghost predicate OneLiveTx(t: Tables) {
    forall ds, r, a, b :: StagedUnder(t, ds, r, a) && StagedUnder(t, ds, r, b) ==> a == b
  }

  ghost predicate Inv(t: Tables) {
    KeysWaited(t) && OneLiveTx(t)
  }

  /** With fewer rows and fewer live transactions, less is staged. */
  lemma {:induction false} FewerStaged(t: Tables, t': Tables)
    requires Inv(t)
    requires forall k :: k in t'.adds ==> k in t.adds && t'.adds[k] == t.adds[k]
    requires forall tx :: tx in t'.waits ==> tx in t.waits && (Dead(t.waits[tx]) ==> Dead(t'.waits[tx]))
    requires KeysWaited(t')
    ensures Inv(t')
  {
    forall ds, r, tx | StagedUnder(t', ds, r, tx) ensures StagedUnder(t, ds, r, tx) {
      var k :| k in t'.adds && k.tx == tx && Stages(t', k, ds, r) && !Dead(t'.waits[tx]);
      assert Stages(t, k, ds, r);
    }
  }

  /** A live transaction recorded before the call is still the only one; the new one stages only new roots. */
  lemma {:induction false} SubmitStages(t: Tables, t': Tables, ds: int, request: seq<RootAdd>, tx: TxHash,
                                        d: int, r: Root, a: TxHash)
    requires Inv(t) && Submits(t, t', ds, request, tx) && StagedUnder(t', d, r, a)
    ensures a == tx ==> d == ds && IsNew(t, ds, r)
    ensures a != tx ==> StagedUnder(t, d, r, a) && (d == ds ==> InFlight(t, ds, r))
  {
  }

  lemma {:induction false} SubmitKeepsInv(t: Tables, t': Tables, ds: int, request: seq<RootAdd>, tx: TxHash)
    requires Inv(t) && Submits(t, t', ds, request, tx)
    ensures Inv(t')
  {
    forall d, r, a, b | StagedUnder(t', d, r, a) && StagedUnder(t', d, r, b) ensures a == b {
      SubmitStages(t, t', ds, request, tx, d, r, a);
      SubmitStages(t, t', ds, request, tx, d, r, b);
    }
    forall k | k in t'.adds ensures k.tx in t'.waits {
      assert k in Cleared(t, ds, DeadTxs(t, ds, request)).adds || NewRow(t, t', ds, request, tx, k);
    }
  }

  lemma {:induction false} EventKeepsInv(t: Tables, e: Event, t': Tables)
    requires Inv(t) && Follows(t, e, t')
    ensures Inv(t')
  {
    match e
    case Watch => FewerStaged(t, t');
    case Refuse(ds, request) =>
      if t' != t { ClearsOneWay(t, t', ds, request); }
      FewerStaged(t, t');
    case Submit(ds, request, tx) => SubmitKeepsInv(t, t', ds, request, tx);
  }

  ghost predicate IsRun(ts: seq<Tables>, es: seq<Event>) {
    && |ts| == |es| + 1 && ts[0] == Tables(map[], map[], {})
    && forall i :: 0 <= i < |es| ==> Follows(ts[i], es[i], ts[i + 1])
  }

  /** Over any sequence of non-overlapping calls, no root is recorded under two live transactions. */
  lemma {:induction false} NeverTwoLive(ts: seq<Tables>, es: seq<Event>, n: nat)
    requires IsRun(ts, es) && n < |ts|
    ensures Inv(ts[n])
  {
    if n > 0 {
      NeverTwoLive(ts, es, n - 1);
      assert Follows(ts[n - 1], es[n - 1], ts[n - 1 + 1]);
      EventKeepsInv(ts[n - 1], es[n - 1], ts[n]);
    }
  }

  // ----------------------------------------------------------------- clearing

  /** A row is cleared if and only if its transaction is waited on, is dead, and staged some requested root. */
  lemma {:induction false} ClearedIff(t: Tables, ds: int, request: seq<RootAdd>, k: AddKey)
    requires k in t.adds
    ensures k !in Cleared(t, ds, DeadTxs(t, ds, request)).adds <==>
            t.adds[k].dataSet == ds && DeadFor(t, ds, request, k.tx)
  {
    ClearedClears(t, ds, request);
    assert RowCleared(t, Cleared(t, ds, DeadTxs(t, ds, request)), ds, request, k);
  }

  /** Clearing moves no root to another part. */
  lemma {:induction false} ClearKeepsParts(t: Tables, ds: int, request: seq<RootAdd>, r: Root)
    ensures var t' := Cleared(t, ds, DeadTxs(t, ds, request));
            (InFlight(t', ds, r) <==> InFlight(t, ds, r)) && (Completed(t', ds, r) <==> Completed(t, ds, r))
  {
  }

  // ---------------------------------------------------------------- repeating

  /** No status changed; at most pieces were promoted. */
  ghost predicate Quiet(t: Tables, t': Tables) {
    t'.adds == t.adds && t'.waits == t.waits && t.pieces <= t'.pieces
  }

  /** Repeating a call that submitted finds nothing new, as long as no status changes. */
  lemma {:induction false} RepeatSubmitsNothing(t: Tables, t': Tables, later: Tables, ds: int, request: seq<RootAdd>,
                                                tx: TxHash, i: nat)
    requires Submits(t, t', ds, request, tx) && Quiet(t', later) && i < |request|
    ensures !IsNew(later, ds, request[i].root)
  {
  }

  /** Repeating a call that found nothing new finds nothing new again. */
  lemma {:induction false} NothingNewAgain(t: Tables, t': Tables, later: Tables, ds: int, request: seq<RootAdd>, i: nat)
    requires SubmitsNothing(t, t', ds, request) && Quiet(t', later) && i < |request| && !IsNew(t, ds, request[i].root)
    ensures !IsNew(later, ds, request[i].root)
  {
    if t' != t { ClearsOneWay(t, t', ds, request); }
  }

  // ------------------------------------------------------------------- layout

  /** The row of `key` covers byte `x` of root `i`. */
  ghost predicate RowCovers(adds: map<AddKey, AddRow>, tx: TxHash, i: nat, key: AddKey, x: nat) {
    key in adds && key.tx == tx && key.index == i && key.offset <= x < key.offset + adds[key].size
  }

  /** Every byte of a recorded root is covered by exactly one of its rows. */
  lemma {:induction false} RecordedRowsTile(base: map<AddKey, AddRow>, adds: map<AddKey, AddRow>, infos: Infos,
                                            ds: int, tx: TxHash, out: seq<RootAdd>, i: nat, x: nat)
    returns (key: AddKey)
    requires Adds(base, adds, infos, ds, tx, out, |out|, 0) && forall k :: k in base ==> k.tx != tx
    requires i < |out| && Known(infos, out[i].subs) && x < Sum(Sizes(infos, out[i].subs), |out[i].subs|)
    ensures RowCovers(adds, tx, i, key, x)
    ensures forall k :: RowCovers(adds, tx, i, k, x) ==> k == key
  {
    var subs := out[i].subs;
    var sizes := Sizes(infos, subs);
    var j := Tiles(sizes, |sizes|, x);
    key := KeyAt(infos, tx, out, i, j);
    assert Before(out, i, j, |out|, 0) && RowAt(infos, ds, out, i, j, adds[key]);
    forall k | RowCovers(adds, tx, i, k, x) ensures k == key {
      assert IsKey(infos, tx, out, |out|, 0, k);
      var n, m :| Before(out, n, m, |out|, 0) && k == KeyAt(infos, tx, out, n, m);
      assert RowAt(infos, ds, out, n, m, adds[k]);
      assert Covers(sizes, m, x);
    }
  }

  /** With power-of-two sizes, every recorded offset is a multiple of its own row's size. */
  lemma {:induction false} RecordedRowsAligned(base: map<AddKey, AddRow>, adds: map<AddKey, AddRow>, infos: Infos,
                                               ds: int, tx: TxHash, out: seq<RootAdd>, key: AddKey)
    requires Adds(base, adds, infos, ds, tx, out, |out|, 0) && AllDescending(infos, out)
    requires forall i :: 0 <= i < |out| ==> Known(infos, out[i].subs)
    requires forall s :: s in infos ==> PowerOfTwo(infos[s].size)
    requires key in adds && key !in base
    ensures Divides(adds[key].size, key.offset)
  {
    assert IsKey(infos, tx, out, |out|, 0, key);
    var i, k :| Before(out, i, k, |out|, 0) && key == KeyAt(infos, tx, out, i, k);
    assert RowAt(infos, ds, out, i, k, adds[key]);
    var subs := out[i].subs;
    forall j | 0 <= j < |subs| ensures PowerOfTwo(Sizes(infos, subs)[j]) {
      assert subs[j] in subs;
    }
    Aligned(Sizes(infos, subs), k);
  }
}
