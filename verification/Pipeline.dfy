/**
  The pdp_blob_pipeline table: one row per accepted blob, carrying it from
  staging through hashing (commP) to its place in an aggregate. Digests, CIDs
  and proofs are abstract values.
 */
module Pipeline {
  import opened Common

  type Blob(==, !new)   // blob multihash, the table's primary key
  type Piece(==, !new)  // piece CID (commP)
  type Root(==, !new)   // aggregate root CID
  type Proof(==, !new)  // encoded inclusion proof
  type TaskId(==, !new) // harmony_task id

  datatype AggregatePiece = AggregatePiece(link: Piece, proof: Proof)
  datatype Aggregate = Aggregate(root: Root, pieces: seq<AggregatePiece>)

  /** aggregate_root, agg_position and inclusion_proof: one UPDATE sets all three. */
  datatype Slot = Slot(root: Root, position: nat, proof: Proof)

  datatype Row = Row(
    staged: bool,
    settleTask: Option<TaskId>,
    commpTask: Option<TaskId>,
    commp: Option<Piece>,
    slot: Option<Slot>)

  type Table = map<Blob, Row>

  predicate Distinct<T(==)>(s: seq<T>) {
    forall i, j :: 0 <= i < j < |s| ==> s[i] != s[j]
  }

  /** Blob `b` can take the piece at position `i` of `a`. */
  predicate Fits(t: Table, a: Aggregate, i: nat, b: Blob)
    requires i < |a.pieces|
  {
    b in t && t[b].commp == Some(a.pieces[i].link) && t[b].slot == None
  }

  /** The rows of `ds` can be folded into `a`, each at its own position. */
  predicate Foldable(t: Table, a: Aggregate, ds: seq<Blob>) {
    && |ds| == |a.pieces|
    && Distinct(ds)
    && forall i :: 0 <= i < |ds| ==> Fits(t, a, i, ds[i])
  }

  function SlotAt(a: Aggregate, i: nat): Slot
    requires i < |a.pieces|
  {
    Slot(a.root, i, a.pieces[i].proof)
  }

  /** The table once the first `n` rows of `ds` are marked with their slots in `a`. */
  function Folded(t: Table, a: Aggregate, ds: seq<Blob>, n: nat): (r: Table)
    requires Foldable(t, a, ds) && n <= |ds|
    ensures r.Keys == t.Keys
    ensures forall i :: 0 <= i < n ==> ds[i] in r && r[ds[i]] == t[ds[i]].(slot := Some(SlotAt(a, i)))
    ensures forall b :: b in t && b !in ds[..n] ==> r[b] == t[b]
  {
    if n == 0 then t
    else Folded(t, a, ds, n - 1)[ds[n - 1] := t[ds[n - 1]].(slot := Some(SlotAt(a, n - 1)))]
  }
}
