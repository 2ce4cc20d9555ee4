/**
  Reading an aggregate back from the pipeline rows that store it: the loader
  succeeds on exactly the complete row sets, and in every reachable state it
  returns what was folded under the root exactly when that is one aggregate.
 */
module LoadAggregate {
  import opened Common
  import opened Pipeline
  import opened Lifecycle
  import opened Stages

  /** A result row: agg_position and inclusion_proof are nullable columns. */
  datatype Stored = Stored(commp: Piece, position: Option<int>, proof: Option<Proof>)

  datatype LoadError = NoPieces | SamePosition(at: nat) | NotAtPosition(at: nat)

  /** Row `i` is the piece at position `i`, with its proof. */
  predicate AtPosition(rows: seq<Stored>, i: nat)
    requires i < |rows|
  {
    rows[i].position == Some(i) && rows[i].proof.Some?
  }

  ghost predicate Complete(rows: seq<Stored>) {
    rows != [] && forall i :: 0 <= i < |rows| ==> AtPosition(rows, i)
  }

  /** The row the query selects for the piece at position `i`. */
  function RowOf(ps: seq<AggregatePiece>, i: nat): Stored
    requires i < |ps|
  {
    Stored(ps[i].link, Some(i), Some(ps[i].proof))
  }

  /** The rows are the pieces of `ps`, each at its position. */
  ghost predicate Reads(rows: seq<Stored>, ps: seq<AggregatePiece>) {
    rows != [] && |rows| == |ps| && forall i :: 0 <= i < |rows| ==> rows[i] == RowOf(ps, i)
  }

  /** Reads the pieces off the rows; an error names the first row out of place. */
  method Load(root: Root, rows: seq<Stored>) returns (r: Result<Aggregate, LoadError>)
    ensures r.Ok? <==> Complete(rows)
    ensures r.Ok? ==> r.value.root == root && Reads(rows, r.value.pieces)
    ensures r.Err? ==> (r.error.NoPieces? <==> rows == [])
    ensures r.Err? && rows != [] ==>
              && r.error.at < |rows| && !AtPosition(rows, r.error.at)
              && (forall i :: 0 <= i < r.error.at ==> AtPosition(rows, i))
              && (r.error.SamePosition? <==> r.error.at > 0 && rows[r.error.at].position == Some(r.error.at - 1))
  {
    if |rows| == 0 {
      return Err(NoPieces);
    }
    var pieces: seq<AggregatePiece> := [];
    for i := 0 to |rows|
      invariant |pieces| == i && forall k :: 0 <= k < i ==> AtPosition(rows, k)
      invariant forall k :: 0 <= k < i ==> rows[k] == RowOf(pieces, k)
    {
      assert rows[i].position != Some(i) || rows[i].proof == None ==> !AtPosition(rows, i);
      if i > 0 && rows[i].position == Some(i - 1) {
        return Err(SamePosition(i));
      }
      if rows[i].position != Some(i) || rows[i].proof == None {
        return Err(NotAtPosition(i));
      }
      pieces := pieces + [AggregatePiece(rows[i].commp, rows[i].proof.value)];
    }
    return Ok(Aggregate(root, pieces));
  }

  /** `row` is what the query selects from the pipeline row of `b`. */
  ghost predicate Selects(t: Table, root: Root, b: Blob, row: Stored) {
    && b in t && InRoot(t, b, root)
    && t[b].commp == Some(row.commp)
    && row.position == Some(t[b].slot.value.position)
    && row.proof == Some(t[b].slot.value.proof)
  }

  ghost predicate Selected(t: Table, root: Root, row: Stored) {
    exists b :: Selects(t, root, b, row)
  }

  ghost predicate Listed(t: Table, root: Root, b: Blob, rows: seq<Stored>) {
    exists row :: row in rows && Selects(t, root, b, row)
  }

  /** The rows come by rising position, none twice. */
  ghost predicate Rising(rows: seq<Stored>) {
    forall i, j :: 0 <= i < j < |rows| ==>
      && rows[i] != rows[j]
      && (rows[i].position.Some? && rows[j].position.Some? ==> rows[i].position.value <= rows[j].position.value)
  }

  /** `rows` answers the query: each selected row once, by position. */
  ghost predicate Answers(t: Table, root: Root, rows: seq<Stored>) {
    && Rising(rows)
    && (forall row :: row in rows ==> Selected(t, root, row))
    && (forall b :: b in t && InRoot(t, b, root) ==> Listed(t, root, b, rows))
  }

  /** Rising numbers below `n` that include them all are 0 to n - 1. */
  lemma {:induction false} Initial(ps: seq<int>, n: nat)
    requires forall i, j :: 0 <= i < j < |ps| ==> ps[i] < ps[j]
    requires forall i :: 0 <= i < |ps| ==> 0 <= ps[i] < n
    requires forall p :: 0 <= p < n ==> p in ps
    ensures |ps| == n && forall i :: 0 <= i < |ps| ==> ps[i] == i
  {
    for k := 0 to |ps|
      invariant forall i :: 0 <= i < k ==> ps[i] >= i
    {
      assert k > 0 ==> ps[k - 1] < ps[k];
    }
    for k := 0 to |ps|
      invariant forall i :: 0 <= i < k ==> ps[i] == i
    {
      assert ps[k] >= k && k in ps;
    }
    assert ps != [] ==> ps[|ps| - 1] == |ps| - 1;
    assert |ps| < n ==> |ps| in ps;
  }

  /** When the root loads as `ps`, a selected row is that of the piece at its position. */
  lemma {:induction false} SelectedInPlace(t: Table, root: Root, ps: seq<AggregatePiece>, row: Stored)
    requires Loads(t, root, ps) && Selected(t, root, row)
    ensures row.position.Some? && 0 <= row.position.value < |ps| && row == RowOf(ps, row.position.value)
  {
    var b :| Selects(t, root, b, row);
    assert StoresOf(t[b], ps);
  }

  lemma {:induction false} PieceListed(t: Table, root: Root, ps: seq<AggregatePiece>, rows: seq<Stored>, i: nat)
    requires Loads(t, root, ps) && Answers(t, root, rows) && i < |ps|
    ensures RowOf(ps, i) in rows
  {
    assert Filled(t, root, ps, i);
    var b :| b in t && InRoot(t, b, root) && t[b].slot.value.position == i && StoresOf(t[b], ps);
    assert Listed(t, root, b, rows);
    var row :| row in rows && Selects(t, root, b, row);
  }

  lemma {:induction false} LoadableAnswers(t: Table, root: Root, rows: seq<Stored>, ps: seq<AggregatePiece>)
    requires Answers(t, root, rows) && Loads(t, root, ps)
    ensures Reads(rows, ps)
  {
    forall i | 0 <= i < |rows|
      ensures rows[i].position.Some? && 0 <= rows[i].position.value < |ps|
      ensures rows[i] == RowOf(ps, rows[i].position.value)
    {
      assert rows[i] in rows;
      SelectedInPlace(t, root, ps, rows[i]);
    }
    var at := seq(|rows|, i requires 0 <= i < |rows| && rows[i].position.Some? => rows[i].position.value);
    forall i, j | 0 <= i < j < |rows| ensures at[i] < at[j] {
      assert rows[i] != rows[j];
    }
    forall p | 0 <= p < |ps| ensures p in at {
      PieceListed(t, root, ps, rows, p);
      var i :| 0 <= i < |rows| && rows[i] == RowOf(ps, p);
      assert at[i] == p;
    }
    Initial(at, |ps|);
    forall i | 0 <= i < |rows| ensures rows[i] == RowOf(ps, i) {
      assert at[i] == i;
    }
  }

  /** The answer reads as `ps` exactly when the rows of the root are the pieces of `ps`, at every position. */
  lemma {:induction false} AnswersIff(t: Table, root: Root, rows: seq<Stored>, ps: seq<AggregatePiece>)
    requires Answers(t, root, rows)
    ensures Reads(rows, ps) <==> Loads(t, root, ps)
  {
    if Loads(t, root, ps) { LoadableAnswers(t, root, rows, ps); }
    if Reads(rows, ps) {
      forall b | b in t && InRoot(t, b, root) ensures StoresOf(t[b], ps) {
        assert Listed(t, root, b, rows);
        var row :| row in rows && Selects(t, root, b, row);
        var i :| 0 <= i < |rows| && rows[i] == row;
        assert rows[i] == RowOf(ps, i);
      }
      forall i: nat | i < |ps| ensures Filled(t, root, ps, i) {
        assert rows[i] == RowOf(ps, i) && rows[i] in rows;
        var b :| Selects(t, root, b, rows[i]);
      }
    }
  }

  /**
    In every reachable state: nothing is read under a root nothing is folded
    under; otherwise what is read is an aggregate folded under it that all the
    others are prefixes of, and an error if there is none.
   */
  lemma {:induction false} ReadsIff(
    e: Env, steps: seq<Step>, root: Root, rows: seq<Stored>, ps: seq<AggregatePiece>)
    requires IsRun(e, Init, steps) && Answers(After(e, Init, steps).pipeline, root, rows)
    ensures var stored := After(e, Init, steps).batches.stored;
            if root in stored then Reads(rows, ps) <==> Longest(stored[root], ps) else rows == []
  {
    var s := After(e, Init, steps);
    assert rows != [] ==> Selected(s.pipeline, root, rows[0]);
    InitStaged();
    RunKeepsStaged(e, Init, steps);
    if root in s.batches.stored {
      AnswersIff(s.pipeline, root, rows, ps);
      LoadsIff(s.pipeline, s.batches.stored, root, ps);
    } else {
      var t := s.pipeline;
      forall b | b in t && t[b].slot.Some? ensures t[b].slot.value.root != root {
        assert IsStored(t[b], s.batches.stored);
      }
      assert forall row :: !Selected(t, root, row);
    }
  }

  /**
    In every reachable state, loading returns every aggregate folded under the
    root since its last retirement if and only if they are all the same.
   */
  lemma {:induction false} LoadsWhatWasStoredIff(e: Env, steps: seq<Step>, root: Root, rows: seq<Stored>)
    requires IsRun(e, Init, steps) && root in After(e, Init, steps).batches.stored
    requires Answers(After(e, Init, steps).pipeline, root, rows)
    ensures var stored := After(e, Init, steps).batches.stored[root];
            (forall a :: a in stored ==> Reads(rows, a.pieces)) <==>
              (forall a, b :: a in stored && b in stored ==> a == b)
  {
    var s := After(e, Init, steps);
    InitStaged();
    RunKeepsStaged(e, Init, steps);
    LoadsEachIff(s.pipeline, s.batches.stored, root);
    forall a | a in s.batches.stored[root] ensures Reads(rows, a.pieces) <==> Loads(s.pipeline, root, a.pieces) {
      AnswersIff(s.pipeline, root, rows, a.pieces);
    }
  }
}
