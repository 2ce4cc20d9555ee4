/**
  Bytes outlive every reference to them: a piece in a stored aggregate, in a
  staged unconfirmed add or in an unremoved on-chain row still has its blob's
  bytes. This holds over exactly the runs without a hazardous sweep turn or a
  careless clean-up. Blobs may share pieces.
 */
module Safety {
  import opened Common
  import opened Pipeline
  import opened Lifecycle
  import opened Stages

  /** Some blob with piece `p` has its bytes. */
  ghost predicate HasBytes(e: Env, s: State, p: Piece) {
    exists b :: b in s.bytes && e.commP(b) == p
  }

  /** Nothing the node stores or proves refers to deleted bytes. */
  ghost predicate Safe(e: Env, s: State) {
    && (forall b :: b in s.pipeline && s.pipeline[b].slot.Some? ==>
          b in s.bytes && s.pipeline[b].commp == Some(e.commP(b)))
    && (forall k :: k in s.adds && LiveAdd(s.adds[k]) ==> HasBytes(e, s, k.sub))
    && (forall k :: k in s.chain && !s.chain[k].removed ==> HasBytes(e, s, s.chain[k].sub))
  }

  /** A staged add or an unremoved on-chain row refers to `p`. */
  ghost predicate Needed(s: State, p: Piece) {
    HasLiveAdd(s, p) || OnChain(s, p)
  }

  /** Some blob with piece `p` is mapped and has its bytes. */
  ghost predicate Held(e: Env, s: State, p: Piece) {
    exists b :: b in s.bytes && b in s.commp && e.commP(b) == p
  }

  /** The row is claimed by a task that is gone, so it will never be hashed. */
  predicate Stuck(s: State, b: Blob)
    requires b in s.pipeline
  {
    var row := s.pipeline[b];
    row.commp == None && row.commpTask.Some? && row.commpTask.value !in s.tasks.live
  }

  ghost predicate MappingsTrue(e: Env, s: State) {
    && (forall b :: b in s.commp ==> s.commp[b] == e.commP(b))
    && (forall b :: b in s.commp && b in s.pipeline && !Stuck(s, b) ==> b in s.bytes)
  }

  ghost predicate RowsBacked(e: Env, s: State) {
    && (forall id :: id in s.tasks.working ==>
          && s.tasks.working[id].blob in s.commp
          && s.tasks.working[id].piece == e.commP(s.tasks.working[id].blob))
    && (forall b :: b in s.pipeline && s.pipeline[b].commp.Some? ==>
          b in s.commp && s.pipeline[b].commp == Some(e.commP(b)))
  }

  ghost predicate ChainBacked(e: Env, s: State) {
    forall p :: Needed(s, p) ==> Held(e, s, p)
  }

  ghost predicate Backed(e: Env, s: State) {
    MappingsTrue(e, s) && RowsBacked(e, s) && ChainBacked(e, s)
  }

  /** The inductive form of `Safe`. */
  ghost predicate Grounded(e: Env, s: State) {
    Staged(s) && Backed(e, s)
  }

  lemma {:induction false} GroundedIsSafe(e: Env, s: State)
    requires Grounded(e, s)
    ensures Safe(e, s)
  {
    forall p | Needed(s, p) ensures HasBytes(e, s, p) {
      var b :| b in s.bytes && b in s.commp && e.commP(b) == p;
    }
    forall b | b in s.pipeline && s.pipeline[b].slot.Some?
      ensures b in s.bytes && s.pipeline[b].commp == Some(e.commP(b))
    {
      assert InOrder(s.pipeline[b]);
    }
  }

  // ---------------------------------------------------- preservation by step

  lemma {:induction false} HeldGrows(e: Env, s: State, s': State)
    requires s.bytes <= s'.bytes && s.commp.Keys <= s'.commp.Keys
    ensures forall p :: Held(e, s, p) ==> Held(e, s', p)
  {
  }

  /** No more is needed than before, and no less is held. */
  lemma {:induction false} SameChain(e: Env, s: State, s': State)
    requires ChainBacked(e, s) && s'.adds == s.adds && s'.chain == s.chain
    requires s.bytes <= s'.bytes && s.commp.Keys <= s'.commp.Keys
    ensures ChainBacked(e, s')
  {
    HeldGrows(e, s, s');
    forall p ensures Needed(s', p) <==> Needed(s, p) {
    }
  }

  lemma {:induction false} ClientKeepsBacked(e: Env, s: State, step: ClientStep)
    requires Grounded(e, s) && ClientEnabled(s, step)
    ensures Backed(e, ClientApply(s, step))
  {
    SameChain(e, s, ClientApply(s, step));
  }

  lemma {:induction false} HashKeepsBacked(e: Env, s: State, b: Blob, id: TaskId)
    requires Backed(e, s) && CanHash(s, b, id)
    ensures Backed(e, Hashed(e, s, b, id)) && Backed(e, Parked(Hashed(e, s, b, id), id))
  {
    SameChain(e, s, Hashed(e, s, b, id));
    SameChain(e, s, Parked(Hashed(e, s, b, id), id));
  }

  lemma {:induction false} StampKeepsBacked(e: Env, s: State, id: TaskId)
    requires Backed(e, s) && RunsHoldRows(s) && id in s.tasks.working
    ensures Backed(e, Stamped(s, id))
  {
    SameChain(e, s, Stamped(s, id));
  }

  lemma {:induction false} TaskKeepsBacked(e: Env, s: State, step: TaskStep)
    requires Grounded(e, s) && TaskEnabled(s, step)
    ensures Backed(e, TaskApply(e, s, step))
  {
    match step
    case Hash(b, id) => HashKeepsBacked(e, s, b, id);
    case Stamp(id) => StampKeepsBacked(e, s, id);
    case HashParkStamp(b, id) =>
      HashKeepsOrder(e, s, b, id);
      HashKeepsBacked(e, s, b, id);
      StampKeepsBacked(e, Parked(Hashed(e, s, b, id), id), id);
    case _ => SameChain(e, s, TaskApply(e, s, step));
  }

  /** Each piece an AddRoots run has loaded is on a folded row, whose blob has its bytes. */
  lemma {:induction false} LoadedHeld(e: Env, s: State, id: TaskId, r: Root, p: Piece)
    requires Grounded(e, s) && id in s.batches.loaded && r in s.batches.loaded[id] && p in s.batches.loaded[id][r]
    ensures Held(e, s, p)
  {
    assert BatchHeld(s, id, r) && Carries(s.pipeline, r, p);
    var b :| b in s.pipeline && InRoot(s.pipeline, b, r) && s.pipeline[b].commp == Some(p);
    assert b in s.bytes && b in s.commp;
  }

  lemma {:induction false} FoldKeepsBacked(e: Env, s: State, a: Aggregate, ds: seq<Blob>)
    requires Backed(e, s) && BatchEnabled(s, Fold(a, ds))
    ensures Backed(e, BatchApply(s, Fold(a, ds)))
  {
    FoldKeepsPieces(s.pipeline, a, ds);
    SameChain(e, s, BatchApply(s, Fold(a, ds)));
  }

  lemma {:induction false} FoldKeepsPieces(t: Table, a: Aggregate, ds: seq<Blob>)
    requires Foldable(t, a, ds)
    ensures forall b :: b in t ==> Folded(t, a, ds, |ds|)[b].commp == t[b].commp
  {
    forall b | b in t ensures Folded(t, a, ds, |ds|)[b].commp == t[b].commp {
      if b in ds { var i :| 0 <= i < |ds| && ds[i] == b; }
    }
  }

  lemma {:induction false} RecordKeepsBacked(e: Env, s: State, id: TaskId, tx: TxHash, rs: set<Root>)
    requires Grounded(e, s) && BatchEnabled(s, Record(id, tx, rs))
    ensures ChainBacked(e, BatchApply(s, Record(id, tx, rs)))
  {
    var s' := BatchApply(s, Record(id, tx, rs));
    HeldGrows(e, s, s');
    forall p | Needed(s', p) ensures Held(e, s, p) {
      if !Needed(s, p) {
        var k :| k in s'.adds && k.sub == p && LiveAdd(s'.adds[k]);
        assert k !in s.adds;
        LoadedHeld(e, s, id, k.root, p);
      }
    }
  }

  lemma {:induction false} BatchKeepsBacked(e: Env, s: State, step: BatchStep)
    requires Grounded(e, s) && BatchEnabled(s, step)
    ensures Backed(e, BatchApply(s, step))
  {
    match step
    case Fold(a, ds) => FoldKeepsBacked(e, s, a, ds);
    case Record(id, tx, rs) => RecordKeepsBacked(e, s, id, tx, rs);
    case _ => SameChain(e, s, BatchApply(s, step));
  }

  /** A promoted row was a live add; no other chain step makes anything needed. */
  lemma {:induction false} NeededBefore(s: State, step: ChainStep, p: Piece)
    requires ChainEnabled(s, step) && Needed(ChainApply(s, step), p)
    ensures Needed(s, p)
  {
    var s' := ChainApply(s, step);
    if HasLiveAdd(s', p) {
      var k :| k in s'.adds && k.sub == p && LiveAdd(s'.adds[k]);
      assert k in s.adds && LiveAdd(s.adds[k]);
    } else {
      var k :| k in s'.chain && s'.chain[k].sub == p && !s'.chain[k].removed;
      if step.Promote? && k.root == step.key && k.offset in step.rows {
        var add := step.rows[k.offset];
        assert add in s.adds && add.sub == p && LiveAdd(s.adds[add]);
      } else {
        assert k in s.chain && s.chain[k].sub == p && !s.chain[k].removed;
      }
    }
  }

  lemma {:induction false} ChainKeepsBacked(e: Env, s: State, step: ChainStep)
    requires Grounded(e, s) && ChainEnabled(s, step)
    ensures ChainBacked(e, ChainApply(s, step))
  {
    var s' := ChainApply(s, step);
    HeldGrows(e, s, s');
    forall p | Needed(s', p) ensures Held(e, s', p) {
      NeededBefore(s, step, p);
    }
  }

  /** Nothing that survives the finalization of `b` needs `b`'s bytes. */
  lemma {:induction false} FinalizeKeepsBacked(e: Env, s: State, b: Blob, o: Outcome)
    requires Grounded(e, s) && Unreferenced(s, b)
    requires b in s.pipeline ==> s.pipeline[b].slot == None && s.pipeline[b].commp == None
    requires o == BytesOnly ==> b !in s.pipeline
    requires o == Committed ==> !Working(s, b)
    ensures Backed(e, Finalize(s, b, o))
  {
    var s' := Finalize(s, b, o);
    forall p | Needed(s', p) ensures Held(e, s', p) {
      assert Needed(s, p);
      var c :| c in s.bytes && c in s.commp && e.commP(c) == p;
      assert c != b;
    }
  }

  lemma {:induction false} CancelKeepsGrounded(e: Env, s: State, b: Blob)
    requires Grounded(e, s)
    ensures var s1 := CancelEntry(s, b);
            && Grounded(e, s1)
            && (b in s1.pipeline || !Working(s, b))
            && (b in s1.pipeline && s1.pipeline[b].slot == None ==> s1.pipeline[b].commp == None)
  {
    var s1 := CancelEntry(s, b);
    CancelKeepsOrder(s, s1, b);
    CancelKeepsWhole(s, b);
    SameBatches(s, s1);
    SameChain(e, s, s1);
  }

  lemma {:induction false} SweepKeepsBacked(e: Env, s: State, b: Blob, o: Outcome)
    requires Grounded(e, s) && !Hazard(s, b, o)
    ensures Backed(e, SweepBlob(s, b, o))
  {
    if b in s.pending {
      if Claimed(s, b) {
        SameChain(e, s, SweepBlob(s, b, o));
      } else {
        CancelKeepsGrounded(e, s, b);
        var s1 := CancelEntry(s, b);
        if Unreferenced(s1, b) && o != Untouched {
          FinalizeKeepsBacked(e, s1, b, o);
        }
      }
    }
  }

  /** Something refers to the bytes of `b`, and nothing would hold them if they went. */
  ghost predicate Careless(e: Env, s: State, b: Blob) {
    || (b in s.commp && b in s.pipeline && !Stuck(s, b))
    || exists p :: Needed(s, p) && forall c :: c in s.bytes && c in s.commp && e.commP(c) == p ==> c == b
  }

  /** The condition is exact: a clean-up keeps the node grounded if and only if it is not careless. */
  lemma {:induction false} CleanUpKeepsBackedIff(e: Env, s: State, b: Blob)
    requires Grounded(e, s)
    ensures Backed(e, s.(bytes := s.bytes - {b})) <==> !Careless(e, s, b)
  {
    var s' := s.(bytes := s.bytes - {b});
    forall p ensures Needed(s', p) <==> Needed(s, p) {
    }
    if !Careless(e, s, b) {
      forall p | Needed(s', p) ensures Held(e, s', p) {
        var c :| c in s.bytes && c in s.commp && e.commP(c) == p && c != b;
      }
    }
    if Backed(e, s') {
      forall p | Needed(s, p) ensures exists c :: c in s.bytes && c in s.commp && e.commP(c) == p && c != b {
        var c :| c in s'.bytes && c in s'.commp && e.commP(c) == p;
      }
    }
  }

  /** The step is neither a hazardous turn nor a careless clean-up. */
  ghost predicate Harmless(e: Env, s: State, step: Step) {
    && (step.Sweep? ==> !Hazard(s, step.blob, step.outcome))
    && (step.CleanUp? ==> !Careless(e, s, step.blob))
  }

  lemma {:induction false} StepKeepsGrounded(e: Env, s: State, step: Step)
    requires Grounded(e, s) && Enabled(s, step) && Harmless(e, s, step)
    ensures Grounded(e, Apply(e, s, step))
  {
    StepKeepsStaged(e, s, step);
    match step
    case Client(c) => ClientKeepsBacked(e, s, c);
    case Task(t) => TaskKeepsBacked(e, s, t);
    case Batch(b) => BatchKeepsBacked(e, s, b);
    case Chain(c) => ChainKeepsBacked(e, s, c);
    case Sweep(b, o) => SweepKeepsBacked(e, s, b, o);
    case CleanUp(b) => CleanUpKeepsBackedIff(e, s, b);
  }

  ghost predicate AllHarmless(e: Env, s: State, steps: seq<Step>)
    requires IsRun(e, s, steps)
    decreases |steps|
  {
    steps == [] || (Harmless(e, s, steps[0]) && AllHarmless(e, Apply(e, s, steps[0]), steps[1..]))
  }

  lemma {:induction false} RunKeepsGrounded(e: Env, s: State, steps: seq<Step>)
    requires Grounded(e, s) && IsRun(e, s, steps) && AllHarmless(e, s, steps)
    ensures Grounded(e, After(e, s, steps))
    decreases |steps|
  {
    if steps != [] {
      StepKeepsGrounded(e, s, steps[0]);
      RunKeepsGrounded(e, Apply(e, s, steps[0]), steps[1..]);
    }
  }

  /** Every run without such a step, from the empty node on, is safe at its end and so at each of its states. */
  lemma {:induction false} HarmlessRunsAreSafe(e: Env, steps: seq<Step>)
    requires IsRun(e, Init, steps) && AllHarmless(e, Init, steps)
    ensures Safe(e, After(e, Init, steps))
  {
    RunKeepsGrounded(e, Init, steps);
    GroundedIsSafe(e, After(e, Init, steps));
  }
}
