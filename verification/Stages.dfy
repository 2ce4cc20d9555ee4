/**
  What every run of the lifecycle keeps, whatever the sweep does: rows only
  move forward, a row is cancelled or folded but never both, and from its fold
  to its retirement an aggregate keeps every one of its positions.
 */
module Stages {
  import opened Common
  import opened Pipeline
  import opened Lifecycle

  /** Aggregated implies hashed, hashed implies claimed for hashing, claimed implies not staged. */
  predicate InOrder(r: Row) {
    && (r.slot.Some? ==> r.commp.Some?)
    && (r.commp.Some? ==> r.commpTask.Some?)
    && (r.commpTask.Some? ==> !r.staged)
  }

  ghost predicate RowsInOrder(s: State) {
    forall b :: b in s.pipeline ==> InOrder(s.pipeline[b])
  }

  /** A commp_task_id claims exactly one row. */
  ghost predicate TasksClaimOneRow(t: Table) {
    forall a, b :: a in t && b in t && t[a].commpTask.Some? && t[a].commpTask == t[b].commpTask ==> a == b
  }

  /** A commP run works for a live task on the row that task claimed, which is not hashed yet. */
  ghost predicate RunsHoldRows(s: State) {
    && s.tasks.live <= s.tasks.issued
    && s.batches.loaded.Keys <= s.tasks.live
    && (forall b :: b in s.pipeline && s.pipeline[b].commpTask.Some? ==>
          s.pipeline[b].commpTask.value in s.tasks.issued)
    && TasksClaimOneRow(s.pipeline)
    && forall id :: id in s.tasks.working ==>
      && id in s.tasks.live
      && s.tasks.working[id].blob in s.pipeline
      && s.pipeline[s.tasks.working[id].blob].commpTask == Some(id)
      && s.pipeline[s.tasks.working[id].blob].commp == None
  }

  /** The row stores a piece of an aggregate folded under its root. */
  ghost predicate IsStored(r: Row, stored: map<Root, set<Aggregate>>)
    requires r.slot.Some?
  {
    var root := r.slot.value.root;
    root in stored && exists a :: a in stored[root] && StoresOf(r, a.pieces)
  }

  /** Every position of `a` is on some row of its root. */
  ghost predicate AllFilled(t: Table, a: Aggregate) {
    a.pieces != [] && forall i: nat :: i < |a.pieces| ==> Filled(t, a.root, a.pieces, i)
  }

  /** The rows of a root are the pieces of the aggregates folded under it, each with all of its positions. */
  ghost predicate Whole(t: Table, stored: map<Root, set<Aggregate>>) {
    && (forall b :: b in t && t[b].slot.Some? ==> IsStored(t[b], stored))
    && (forall r :: r in stored ==> stored[r] != {})
    && (forall r, a :: r in stored && a in stored[r] ==> a.root == r && AllFilled(t, a))
  }

  /** Some row of `root` has piece `p`. */
  ghost predicate Carries(t: Table, root: Root, p: Piece) {
    exists b :: b in t && InRoot(t, b, root) && t[b].commp == Some(p)
  }

  /** What an AddRoots run has read is on rows that only its own retirement can delete. */
  ghost predicate BatchesHeld(s: State) {
    forall id, r :: id in s.batches.loaded && r in s.batches.loaded[id] ==> BatchHeld(s, id, r)
  }

  ghost predicate BatchHeld(s: State, id: TaskId, r: Root)
    requires id in s.batches.loaded && r in s.batches.loaded[id]
  {
    && r in s.batches.submissions && s.batches.submissions[r] == Some(id)
    && CarriesAll(s.pipeline, r, s.batches.loaded[id][r])
  }

  ghost predicate CarriesAll(t: Table, root: Root, ps: seq<Piece>) {
    forall p :: p in ps ==> Carries(t, root, p)
  }

  ghost predicate Staged(s: State) {
    RowsInOrder(s) && RunsHoldRows(s) && Whole(s.pipeline, s.batches.stored) && BatchesHeld(s)
  }

  /** Every folded row of `t` outside `gone` is in `t'`, with its place and piece. */
  ghost predicate FoldedKept(t: Table, t': Table, gone: set<Root>) {
    forall b :: b in t && t[b].slot.Some? && t[b].slot.value.root !in gone ==>
      b in t' && t'[b].slot == t[b].slot && t'[b].commp == t[b].commp
  }

  lemma {:induction false} FilledKept(t: Table, t': Table, gone: set<Root>)
    requires FoldedKept(t, t', gone)
    ensures forall r, p :: Carries(t, r, p) && r !in gone ==> Carries(t', r, p)
    ensures forall a :: AllFilled(t, a) && a.root !in gone ==> AllFilled(t', a)
  {
    forall r, p | Carries(t, r, p) && r !in gone ensures Carries(t', r, p) {
      var b :| b in t && InRoot(t, b, r) && t[b].commp == Some(p);
      assert InRoot(t', b, r);
    }
    forall a | AllFilled(t, a) && a.root !in gone ensures AllFilled(t', a) {
      forall i: nat | i < |a.pieces| ensures Filled(t', a.root, a.pieces, i) {
        assert Filled(t, a.root, a.pieces, i);
        var b :| b in t && InRoot(t, b, a.root) && t[b].slot.value.position == i && StoresOf(t[b], a.pieces);
        assert InRoot(t', b, a.root);
      }
    }
  }

  /** A folded row stores its piece of the aggregate; the others are as they were. */
  lemma {:induction false} FoldedRows(t: Table, a: Aggregate, ds: seq<Blob>)
    requires Foldable(t, a, ds) && |a.pieces| > 0
    ensures var t' := Folded(t, a, ds, |ds|);
            && FoldedKept(t, t', {}) && AllFilled(t', a)
            && forall b :: b in t' ==> t'[b] == t[b] || (InRoot(t', b, a.root) && StoresOf(t'[b], a.pieces))
  {
    var t' := Folded(t, a, ds, |ds|);
    assert ds[..|ds|] == ds;
    forall i | 0 <= i < |ds|
      ensures t[ds[i]].slot == None && InRoot(t', ds[i], a.root) && StoresOf(t'[ds[i]], a.pieces)
    {
      assert Fits(t, a, i, ds[i]);
    }
    forall i: nat | i < |a.pieces| ensures Filled(t', a.root, a.pieces, i) {
      assert InRoot(t', ds[i], a.root);
    }
  }

  lemma {:induction false} GrowKeepsWhole(t: Table, t': Table, b: Batches, a: Aggregate)
    requires Whole(t, b.stored) && FoldedKept(t, t', {}) && AllFilled(t', a)
    requires forall x :: x in t' ==>
               (x in t && t'[x] == t[x]) || (InRoot(t', x, a.root) && StoresOf(t'[x], a.pieces))
    ensures Whole(t', b.stored[a.root := Under(b.stored, a.root) + {a}])
  {
    var stored := b.stored[a.root := Under(b.stored, a.root) + {a}];
    FilledKept(t, t', {});
    assert a in stored[a.root];
    forall x | x in t' && t'[x].slot.Some? ensures IsStored(t'[x], stored) {
      if x in t && t'[x] == t[x] {
        assert IsStored(t[x], b.stored);
      }
    }
  }

  /** A fold takes no place from another aggregate, and fills all of its own. */
  lemma {:induction false} FoldKeepsWhole(t: Table, b: Batches, a: Aggregate, ds: seq<Blob>)
    requires Whole(t, b.stored) && Foldable(t, a, ds) && |a.pieces| > 0
    ensures Whole(Folded(t, a, ds, |ds|), b.stored[a.root := Under(b.stored, a.root) + {a}])
    ensures FoldedKept(t, Folded(t, a, ds, |ds|), {})
  {
    FoldedRows(t, a, ds);
    GrowKeepsWhole(t, Folded(t, a, ds, |ds|), b, a);
  }

  /** Deleting rows leaves an aggregate whole when all of its root's rows stay. */
  lemma {:induction false} DeleteKeepsWhole(t: Table, stored: map<Root, set<Aggregate>>, t': Table, gone: set<Root>)
    requires Whole(t, stored)
    requires forall b :: b in t' ==> b in t && t'[b] == t[b]
    requires forall b :: b in t && b !in t' ==> t[b].slot == None || t[b].slot.value.root in gone
    requires forall b :: b in t' && t'[b].slot.Some? ==> t'[b].slot.value.root !in gone
    ensures Whole(t', stored - gone) && FoldedKept(t, t', gone)
  {
    FilledKept(t, t', gone);
    forall x | x in t' && t'[x].slot.Some? ensures IsStored(t'[x], stored - gone) {
      assert IsStored(t[x], stored);
    }
  }

  /** Changing rows without touching a folded one, or adding an unfolded one, keeps `Whole`. */
  lemma {:induction false} TouchKeepsWhole(t: Table, stored: map<Root, set<Aggregate>>, b: Blob, row: Row)
    requires Whole(t, stored)
    requires row.slot == if b in t then t[b].slot else None
    requires b in t && t[b].slot.Some? ==> row.commp == t[b].commp
    ensures Whole(t[b := row], stored) && FoldedKept(t, t[b := row], {})
  {
    var t' := t[b := row];
    FilledKept(t, t', {});
    forall x | x in t' && t'[x].slot.Some? ensures IsStored(t'[x], stored) {
      assert IsStored(t[x], stored);
    }
  }

  lemma {:induction false} CancelKeepsWhole(s: State, b: Blob)
    requires Whole(s.pipeline, s.batches.stored)
    ensures Whole(CancelEntry(s, b).pipeline, s.batches.stored)
    ensures FoldedKept(s.pipeline, CancelEntry(s, b).pipeline, {})
  {
    DeleteKeepsWhole(s.pipeline, s.batches.stored, CancelEntry(s, b).pipeline, {});
    assert s.batches.stored - {} == s.batches.stored;
  }

  ghost predicate Ordered(s: State) {
    RowsInOrder(s) && RunsHoldRows(s)
  }

  lemma {:induction false} HashKeepsOrder(e: Env, s: State, b: Blob, id: TaskId)
    requires Ordered(s) && CanHash(s, b, id)
    ensures Ordered(Hashed(e, s, b, id)) && Ordered(Parked(Hashed(e, s, b, id), id))
  {
  }

  lemma {:induction false} StampKeepsOrder(s: State, id: TaskId)
    requires Ordered(s) && id in s.tasks.working
    ensures Ordered(Stamped(s, id))
  {
  }

  lemma {:induction false} TaskKeepsOrder(e: Env, s: State, step: TaskStep)
    requires Ordered(s) && TaskEnabled(s, step)
    ensures Ordered(TaskApply(e, s, step))
  {
    match step
    case Hash(b, id) => HashKeepsOrder(e, s, b, id);
    case Stamp(id) => StampKeepsOrder(s, id);
    case HashParkStamp(b, id) =>
      HashKeepsOrder(e, s, b, id);
      StampKeepsOrder(Parked(Hashed(e, s, b, id), id), id);
    case _ =>
  }

  lemma {:induction false} FoldKeepsOrder(s: State, a: Aggregate, ds: seq<Blob>)
    requires Ordered(s) && Foldable(s.pipeline, a, ds)
    ensures Ordered(s.(pipeline := Folded(s.pipeline, a, ds, |ds|)))
  {
    var t' := Folded(s.pipeline, a, ds, |ds|);
    forall b | b in t' ensures t'[b] == s.pipeline[b].(slot := t'[b].slot) && (t'[b].slot.Some? ==> t'[b].commp.Some?) {
      if b in ds {
        var i :| 0 <= i < |ds| && ds[i] == b;
        assert Fits(s.pipeline, a, i, b);
      } else {
        assert InOrder(s.pipeline[b]);
      }
    }
    forall i | 0 <= i < |ds| ensures s.pipeline[ds[i]].commp.Some? {
      assert Fits(s.pipeline, a, i, ds[i]);
    }
  }

  lemma {:induction false} BatchKeepsOrder(s: State, step: BatchStep)
    requires Staged(s) && BatchEnabled(s, step)
    ensures Ordered(BatchApply(s, step))
  {
    if step.Fold? { FoldKeepsOrder(s, step.aggregate, step.digests); }
  }

  lemma {:induction false} InsertKeepsOrder(s: State, s': State, b: Blob, staged: bool)
    requires Ordered(s) && SameRuns(s, s')
    requires || s'.pipeline == s.pipeline
             || (b !in s.pipeline && s'.pipeline == s.pipeline[b := NewRow.(staged := staged)])
    ensures Ordered(s')
  {
  }

  lemma {:induction false} CancelKeepsOrder(s: State, s': State, b: Blob)
    requires Ordered(s) && SameRuns(s, s')
    requires s'.pipeline == s.pipeline || s'.pipeline == CancelEntry(s, b).pipeline
    ensures Ordered(s')
  {
  }

  lemma {:induction false} StepKeepsOrder(e: Env, s: State, step: Step)
    requires Staged(s) && Enabled(s, step)
    ensures Ordered(Apply(e, s, step))
  {
    match step
    case Client(c) => InsertKeepsOrder(s, ClientApply(s, c), c.blob, c.Accept? && c.staged);
    case Task(t) => TaskKeepsOrder(e, s, t);
    case Batch(b) => BatchKeepsOrder(s, b);
    case Chain(c) =>
    case Sweep(b, o) => CancelKeepsOrder(s, SweepBlob(s, b, o), b);
    case CleanUp(b) =>
  }

  /** The step deletes the rows of these roots. */
  ghost function Retired(s: State, step: Step): set<Root> {
    if step.Batch? && step.batch.Retire? && step.batch.id in s.batches.loaded
    then s.batches.loaded[step.batch.id].Keys else {}
  }

  lemma {:induction false} TaskKeepsWhole(e: Env, s: State, step: TaskStep)
    requires Staged(s) && TaskEnabled(s, step)
    ensures Whole(TaskApply(e, s, step).pipeline, s.batches.stored)
    ensures FoldedKept(s.pipeline, TaskApply(e, s, step).pipeline, {})
  {
    var t, t', stored := s.pipeline, TaskApply(e, s, step).pipeline, s.batches.stored;
    match step
    case SpawnSettle(b, _) => TouchKeepsWhole(t, stored, b, t'[b]);
    case Settle(b) => TouchKeepsWhole(t, stored, b, t'[b]);
    case SpawnCommP(b, _) => TouchKeepsWhole(t, stored, b, t'[b]);
    case Stamp(id) => TouchKeepsWhole(t, stored, s.tasks.working[id].blob, t'[s.tasks.working[id].blob]);
    case HashParkStamp(b, _) => TouchKeepsWhole(t, stored, b, t'[b]);
    case _ =>
  }

  lemma {:induction false} BatchKeepsWhole(s: State, step: BatchStep)
    requires Staged(s) && BatchEnabled(s, step)
    ensures Whole(BatchApply(s, step).pipeline, BatchApply(s, step).batches.stored)
    ensures FoldedKept(s.pipeline, BatchApply(s, step).pipeline, Retired(s, Batch(step)))
  {
    match step
    case Fold(a, ds) => FoldKeepsWhole(s.pipeline, s.batches, a, ds);
    case Retire(id) =>
      DeleteKeepsWhole(s.pipeline, s.batches.stored, BatchApply(s, step).pipeline, s.batches.loaded[id].Keys);
    case _ =>
  }

  lemma {:induction false} ClientKeepsWhole(s: State, step: ClientStep)
    requires Staged(s) && ClientEnabled(s, step)
    ensures Whole(ClientApply(s, step).pipeline, s.batches.stored)
    ensures FoldedKept(s.pipeline, ClientApply(s, step).pipeline, {})
  {
    if ClientApply(s, step).pipeline != s.pipeline {
      TouchKeepsWhole(s.pipeline, s.batches.stored, step.blob, ClientApply(s, step).pipeline[step.blob]);
    }
  }

  lemma {:induction false} StepKeepsWhole(e: Env, s: State, step: Step)
    requires Staged(s) && Enabled(s, step)
    ensures Whole(Apply(e, s, step).pipeline, Apply(e, s, step).batches.stored)
    ensures FoldedKept(s.pipeline, Apply(e, s, step).pipeline, Retired(s, step))
  {
    match step
    case Client(c) => ClientKeepsWhole(s, c);
    case Task(t) => TaskKeepsWhole(e, s, t);
    case Batch(b) => BatchKeepsWhole(s, b);
    case Chain(c) =>
    case Sweep(b, o) => CancelKeepsWhole(s, b);
    case CleanUp(b) =>
  }

  /** A run that loads an aggregate finds every piece of it on a row. */
  lemma {:induction false} LoadedCarried(t: Table, r: Root, ps: seq<AggregatePiece>, p: Piece)
    requires Loads(t, r, ps) && p in LinksOf(ps)
    ensures Carries(t, r, p)
  {
    var i: nat :| i < |ps| && ps[i].link == p;
    assert Filled(t, r, ps, i);
  }

  lemma {:induction false} SameBatches(s: State, s': State)
    requires BatchesHeld(s) && FoldedKept(s.pipeline, s'.pipeline, {})
    requires forall r :: r in s.batches.submissions && s.batches.submissions[r].Some? ==>
               r in s'.batches.submissions && s'.batches.submissions[r] == s.batches.submissions[r]
    requires forall id :: id in s'.batches.loaded ==>
               id in s.batches.loaded && s'.batches.loaded[id] == s.batches.loaded[id]
    ensures BatchesHeld(s')
  {
    FilledKept(s.pipeline, s'.pipeline, {});
  }

  lemma {:induction false} LoadKeepsBatches(s: State, id: TaskId, found: map<Root, seq<AggregatePiece>>)
    requires BatchesHeld(s) && BatchEnabled(s, Load(id, found))
    ensures BatchesHeld(BatchApply(s, Load(id, found)))
  {
    forall r, p | r in found && p in LinksOf(found[r]) ensures Carries(s.pipeline, r, p) {
      LoadedCarried(s.pipeline, r, found[r], p);
    }
  }

  lemma {:induction false} RetireKeepsBatches(s: State, id: TaskId)
    requires Staged(s) && BatchEnabled(s, Retire(id))
    ensures BatchesHeld(BatchApply(s, Retire(id)))
  {
    BatchKeepsWhole(s, Retire(id));
    FilledKept(s.pipeline, BatchApply(s, Retire(id)).pipeline, s.batches.loaded[id].Keys);
  }

  lemma {:induction false} BatchKeepsBatches(s: State, step: BatchStep)
    requires Staged(s) && BatchEnabled(s, step)
    ensures BatchesHeld(BatchApply(s, step))
  {
    match step
    case Load(id, found) => LoadKeepsBatches(s, id, found);
    case Retire(id) => RetireKeepsBatches(s, id);
    case Fold(a, ds) => FoldedRows(s.pipeline, a, ds); SameBatches(s, BatchApply(s, step));
    case _ => SameBatches(s, BatchApply(s, step));
  }

  lemma {:induction false} TaskKeepsBatches(e: Env, s: State, step: TaskStep)
    requires Staged(s) && TaskEnabled(s, step)
    ensures BatchesHeld(TaskApply(e, s, step))
  {
    TaskKeepsWhole(e, s, step);
    SameBatches(s, TaskApply(e, s, step));
  }

  lemma {:induction false} StepKeepsBatches(e: Env, s: State, step: Step)
    requires Staged(s) && Enabled(s, step)
    ensures BatchesHeld(Apply(e, s, step))
  {
    match step
    case Batch(b) => BatchKeepsBatches(s, b);
    case Client(c) => ClientKeepsWhole(s, c); SameBatches(s, ClientApply(s, c));
    case Task(t) => TaskKeepsBatches(e, s, t);
    case Chain(c) => SameBatches(s, ChainApply(s, c));
    case Sweep(b, o) => CancelKeepsWhole(s, b); SameBatches(s, SweepBlob(s, b, o));
    case CleanUp(b) => SameBatches(s, s.(bytes := s.bytes - {b}));
  }

  lemma {:induction false} StepKeepsStaged(e: Env, s: State, step: Step)
    requires Staged(s) && Enabled(s, step)
    ensures Staged(Apply(e, s, step))
  {
    StepKeepsOrder(e, s, step);
    StepKeepsWhole(e, s, step);
    StepKeepsBatches(e, s, step);
  }

  /** Every state of every run is staged. */
  lemma {:induction false} RunKeepsStaged(e: Env, s: State, steps: seq<Step>)
    requires Staged(s) && IsRun(e, s, steps)
    ensures Staged(After(e, s, steps))
    decreases |steps|
  {
    if steps != [] {
      StepKeepsStaged(e, s, steps[0]);
      RunKeepsStaged(e, Apply(e, s, steps[0]), steps[1..]);
    }
  }

  lemma {:induction false} InitStaged()
    ensures Staged(Init)
  {
  }

  // ---------------------------------------------------------------- loading

  /** `ps` is the longest aggregate folded under the root, and every other one is a prefix of it. */
  ghost predicate Longest(stored: set<Aggregate>, ps: seq<AggregatePiece>) {
    && (exists a :: a in stored && a.pieces == ps)
    && (forall a :: a in stored ==> a.pieces <= ps)
  }

  /** A root loads exactly when all that was folded under it is one aggregate or prefixes of one, which it loads. */
  lemma {:induction false} LoadsIff(t: Table, stored: map<Root, set<Aggregate>>, r: Root, ps: seq<AggregatePiece>)
    requires Whole(t, stored) && r in stored
    ensures Loads(t, r, ps) <==> Longest(stored[r], ps)
  {
    if Loads(t, r, ps) {
      forall a | a in stored[r] ensures a.pieces <= ps {
        LoadedPrefix(t, a, ps);
      }
      assert Filled(t, r, ps, |ps| - 1);
      var b :| b in t && InRoot(t, b, r) && t[b].slot.value.position == |ps| - 1 && StoresOf(t[b], ps);
      assert IsStored(t[b], stored);
      var a :| a in stored[r] && StoresOf(t[b], a.pieces);
      assert a.pieces == ps;
    }
    if Longest(stored[r], ps) {
      var a :| a in stored[r] && a.pieces == ps;
      assert AllFilled(t, a);
      forall b | b in t && InRoot(t, b, r) ensures StoresOf(t[b], ps) {
        assert IsStored(t[b], stored);
        var c :| c in stored[r] && StoresOf(t[b], c.pieces);
        assert c.pieces <= ps;
      }
    }
  }

  lemma {:induction false} LoadedPrefix(t: Table, a: Aggregate, ps: seq<AggregatePiece>)
    requires AllFilled(t, a) && Loads(t, a.root, ps)
    ensures a.pieces <= ps
  {
    for i := 0 to |a.pieces|
      invariant i <= |ps| && a.pieces[..i] == ps[..i]
    {
      assert Filled(t, a.root, a.pieces, i);
      var b :| b in t && InRoot(t, b, a.root) && t[b].slot.value.position == i && StoresOf(t[b], a.pieces);
      assert StoresOf(t[b], ps) && a.pieces[i] == ps[i];
    }
  }

  /** Loading returns each of the aggregates folded under a root if and only if they are all the same. */
  lemma {:induction false} LoadsEachIff(t: Table, stored: map<Root, set<Aggregate>>, r: Root)
    requires Whole(t, stored) && r in stored
    ensures (forall a :: a in stored[r] ==> Loads(t, r, a.pieces))
            <==> (forall a, b :: a in stored[r] && b in stored[r] ==> a == b)
  {
    forall a | a in stored[r] ensures Loads(t, r, a.pieces) <==> Longest(stored[r], a.pieces) {
      LoadsIff(t, stored, r, a.pieces);
    }
    if forall a :: a in stored[r] ==> Loads(t, r, a.pieces) {
      forall a, b | a in stored[r] && b in stored[r] ensures a == b {
        assert a.pieces <= b.pieces && b.pieces <= a.pieces;
      }
    }
  }

  /** `r'` is at least as far along the pipeline as `r`, and keeps what `r` recorded. */
  predicate Advanced(r: Row, r': Row) {
    && (r'.staged ==> r.staged)
    && (r.settleTask.Some? ==> r'.settleTask == r.settleTask)
    && (r.commpTask.Some? ==> r'.commpTask == r.commpTask)
    && (r.commp.Some? ==> r'.commp == r.commp)
    && (r.slot.Some? ==> r'.slot == r.slot)
  }

  /**
    A row only advances; it leaves the table unfolded only by its own
    cancellation and folded only by the retirement of its aggregate.
   */
  lemma {:induction false} StepAdvances(e: Env, s: State, step: Step, b: Blob)
    requires Staged(s) && Enabled(s, step) && b in s.pipeline
    ensures var t' := Apply(e, s, step).pipeline;
            if b in t' then Advanced(s.pipeline[b], t'[b])
            else if s.pipeline[b].slot == None then step.Sweep? && step.blob == b && Cancellable(s, s.pipeline[b])
            else s.pipeline[b].slot.value.root in Retired(s, step)
  {
    match step
    case Client(c) =>
    case Task(t) => TaskAdvances(e, s, t, b);
    case Batch(f) => BatchAdvances(e, s, f, b);
    case Chain(c) =>
    case Sweep(c, o) =>
    case CleanUp(c) =>
  }

  lemma {:induction false} TaskAdvances(e: Env, s: State, step: TaskStep, b: Blob)
    requires Staged(s) && TaskEnabled(s, step) && b in s.pipeline
    ensures b in TaskApply(e, s, step).pipeline && Advanced(s.pipeline[b], TaskApply(e, s, step).pipeline[b])
  {
  }

  lemma {:induction false} BatchAdvances(e: Env, s: State, step: BatchStep, b: Blob)
    requires Staged(s) && BatchEnabled(s, step) && b in s.pipeline
    ensures var t' := BatchApply(s, step).pipeline;
            if b in t' then Advanced(s.pipeline[b], t'[b])
            else s.pipeline[b].slot.Some? && s.pipeline[b].slot.value.root in Retired(s, Batch(step))
  {
  }
}
