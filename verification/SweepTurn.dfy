/**
  What one blob's turn in the removal sweep does, table by table.
 */
module SweepTurn {
  import opened Common
  import opened Pipeline
  import opened Lifecycle

  /** The blob's row is in an aggregate, is being hashed or is being settled, so a turn leaves it. */
  predicate RowStays(s: State, b: Blob) {
    && b in s.pipeline
    && (|| s.pipeline[b].slot.Some?
        || (s.pipeline[b].commp == None && s.pipeline[b].commpTask.Some?
            && s.pipeline[b].commpTask.value in s.tasks.live)
        || (s.pipeline[b].staged && s.pipeline[b].settleTask.Some?
            && s.pipeline[b].settleTask.value in s.tasks.live))
  }

  /** Something other than a claim needs the blob. */
  ghost predicate Needed(s: State, b: Blob) {
    if b in s.commp then
      || (exists k :: k in s.adds && k.sub == s.commp[b] && !s.adds[k].promoted && s.adds[k].ok != Some(false))
      || (exists k :: k in s.chain && s.chain[k].sub == s.commp[b] && !s.chain[k].removed)
      || (s.commp[b] in s.refs && RowStays(s, b))
    else RowStays(s, b)
  }

  /** The blob is to be removed and no space claims it. */
  ghost predicate Doomed(s: State, b: Blob) {
    b in s.pending && !Claimed(s, b)
  }

  /** The turn deletes the bytes of `b`. */
  ghost predicate Deletes(s: State, step: Step, b: Blob) {
    step.Sweep? && step.blob == b && step.outcome != Untouched && Doomed(s, b) && !Needed(s, b)
  }

  /** The turn commits the removal of `b`. */
  ghost predicate Removes(s: State, step: Step, b: Blob) {
    Deletes(s, step, b) && step.outcome == Committed
  }

  lemma {:induction false} NeededIff(s: State, b: Blob)
    ensures RowStays(s, b) <==> b in CancelEntry(s, b).pipeline
    ensures Needed(s, b) <==> !Unreferenced(CancelEntry(s, b), b)
  {
    var t := CancelEntry(s, b);
    if b in s.commp {
      assert HasLiveAdd(t, s.commp[b]) <==> HasLiveAdd(s, s.commp[b]);
      assert OnChain(t, s.commp[b]) <==> OnChain(s, s.commp[b]);
    }
  }

  lemma {:induction false} TurnCases(s: State, b: Blob, o: Outcome)
    ensures var s1 := s.(pipeline := if RowStays(s, b) then s.pipeline else s.pipeline - {b});
            SweepBlob(s, b, o) ==
            if !Doomed(s, b) then s.(pending := if Claimed(s, b) then s.pending - {b} else s.pending)
            else if Needed(s, b) then s1
            else Finalize(s1, b, o)
  {
    NeededIff(s, b);
    assert b !in s.pipeline ==> s.pipeline - {b} == s.pipeline;
    assert b !in s.pending ==> s.pending - {b} == s.pending;
  }

  /**
    One turn, table by table: the request goes when the blob is claimed or its
    removal commits; the row when nothing holds it; bytes and mapping when
    nothing needs the blob. Nothing of any other blob changes.
   */
  ghost predicate Turned(s: State, t: State, b: Blob, o: Outcome) {
    var step := Sweep(b, o);
    && SameRuns(s, t) && t.claims == s.claims && t.keys == s.keys
    && t.pending == (if Claimed(s, b) || Removes(s, step, b) then s.pending - {b} else s.pending)
    && t.bytes == (if Deletes(s, step, b) then s.bytes - {b} else s.bytes)
    && t.pipeline == (if Doomed(s, b) && !RowStays(s, b) then s.pipeline - {b} else s.pipeline)
    && t.commp == (if Removes(s, step, b) then s.commp - {b} else s.commp)
  }

  /** The piece of a removed blob loses its reference and its removed rows, and nothing else. */
  ghost predicate PieceTurned(s: State, t: State, b: Blob, o: Outcome) {
    if Removes(s, Sweep(b, o), b) && b in s.commp then
      && t.refs == s.refs - {s.commp[b]}
      && (forall k :: k in t.chain <==> k in s.chain && !(s.chain[k].sub == s.commp[b] && s.chain[k].removed))
      && (forall k :: k in t.chain ==> t.chain[k] == s.chain[k])
    else t.refs == s.refs && t.chain == s.chain
  }

  lemma {:induction false} TurnLeaves(s: State, b: Blob, o: Outcome)
    ensures Turned(s, SweepBlob(s, b, o), b, o) && PieceTurned(s, SweepBlob(s, b, o), b, o)
  {
    TurnCases(s, b, o);
  }

  lemma {:induction false} TurnEffect(e: Env, s: State, b: Blob, o: Outcome)
    ensures Turned(s, Apply(e, s, Sweep(b, o)), b, o) && PieceTurned(s, Apply(e, s, Sweep(b, o)), b, o)
  {
    TurnLeaves(s, b, o);
  }

  /**
    After a committed turn of an unclaimed blob that nothing needs, the blob is
    not pending and has neither bytes nor mapping.
   */
  lemma {:induction false} RemovalEnds(e: Env, s: State, b: Blob)
    requires b in s.pending && !Claimed(s, b) && !Needed(s, b)
    ensures var t := Apply(e, s, Sweep(b, Committed)); b !in t.pending && b !in t.bytes && b !in t.commp
  {
    TurnEffect(e, s, b, Committed);
  }
}
