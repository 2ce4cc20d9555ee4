/**
  What the upload rows, the staging area and the staging index hold after any
  run, told by the statements that put it there and took it away.
 */
module UploadHistories {
  import opened Common
  import opened Histories
  import opened Uploads

  ghost function Next(): (State, Step, State) -> bool {
    (x: State, step: Step, y: State) => Enabled(x, step) && y == Apply(x, step)
  }

  /** The states a run goes through. */
  ghost function States(s: State, steps: seq<Step>): (r: seq<State>)
    requires IsRun(s, steps)
    ensures |r| == |steps| + 1 && r[0] == s && r[|steps|] == After(s, steps)
    ensures Traces(Next(), r, steps)
    decreases |steps|
  {
    if steps == [] then [s]
    else
      var rest := States(Apply(s, steps[0]), steps[1..]);
      TracesFrom(Next(), s, steps[0], rest, steps[1..]);
      assert [steps[0]] + steps[1..] == steps;
      [s] + rest
  }

  // ------------------------------------------------------------------- rows

  ghost predicate Completes(x: State, step: Step, id: Id, d: Digest) {
    && step == Put(id, Complete) && id in x.rows.puts && x.rows.puts[id] == Unheld(d)
    && Unmarked(x.rows, id) && d !in x.store.index
  }

  /** The row goes when its upload is recorded, dropped as a duplicate, released or reaped. */
  ghost predicate EndsRow(x: State, step: Step, id: Id) {
    || (exists d :: Completes(x, step, id, d))
    || (step == Put(id, DeleteRow) && Unmarked(x.rows, id))
    || step == Put(id, DeleteDiscarded)
    || step == Drop(id, ReapDelete)
  }

  ghost function Allocating(id: Id): (State, Step) -> bool {
    (x: State, step: Step) => step == Allocate(id)
  }

  ghost function EndingRow(id: Id): (State, Step) -> bool {
    (x: State, step: Step) => EndsRow(x, step, id)
  }

  lemma {:induction false} RowAfter(x: State, step: Step, id: Id)
    requires Enabled(x, step)
    ensures id in Apply(x, step).rows.marked <==> step == Allocate(id) || (id in x.rows.marked && !EndsRow(x, step, id))
  {
    if step == Put(id, Complete) {
      assert x.rows.puts[id] == Unheld(x.rows.puts[id].digest);
      assert Unmarked(x.rows, id) && x.rows.puts[id].digest !in x.store.index ==>
          Completes(x, step, id, x.rows.puts[id].digest);
    }
  }

  /** Over any run an upload has a row if and only if its allocation stands unrecorded, undropped and unreaped. */
  lemma {:induction false} HasRowIff(s: State, steps: seq<Step>, id: Id)
    requires IsRun(s, steps)
    ensures id in After(s, steps).rows.marked <==>
            Standing(States(s, steps), steps, id in s.rows.marked, Allocating(id), EndingRow(id))
  {
    forall x: State, step: Step, y: State | Next()(x, step, y)
      ensures id in y.rows.marked <==> Allocating(id)(x, step) || (id in x.rows.marked && !EndingRow(id)(x, step))
    {
      RowAfter(x, step, id);
    }
    LawOverRuns(Next(), States(s, steps), steps, (x: State) => id in x.rows.marked, Allocating(id), EndingRow(id));
  }

  ghost predicate IsDiscarded(x: State, id: Id) {
    id in x.rows.marked && x.rows.marked[id]
  }

  ghost function Discarding(id: Id): (State, Step) -> bool {
    (x: State, step: Step) => step == Drop(id, Discard) && id in x.rows.marked
  }

  ghost function Renewing(id: Id): (State, Step) -> bool {
    (x: State, step: Step) => step == Allocate(id) || EndsRow(x, step, id)
  }

  /** Over any run a row is marked if and only if a discard of its upload stands. */
  lemma {:induction false} DiscardedIff(s: State, steps: seq<Step>, id: Id)
    requires IsRun(s, steps)
    ensures IsDiscarded(After(s, steps), id) <==>
            Standing(States(s, steps), steps, IsDiscarded(s, id), Discarding(id), Renewing(id))
  {
    forall x: State, step: Step, y: State | Next()(x, step, y)
      ensures IsDiscarded(y, id) <==> Discarding(id)(x, step) || (IsDiscarded(x, id) && !Renewing(id)(x, step))
    {
      RowAfter(x, step, id);
    }
    LawOverRuns(Next(), States(s, steps), steps, (x: State) => IsDiscarded(x, id), Discarding(id), Renewing(id));
  }

  /** The discard finds no digest the upload holds, so it drops its data once it commits. */
  ghost function Dooming(id: Id): (State, Step) -> bool {
    (x: State, step: Step) => step == Drop(id, Discard) && forall d :: d in x.store.index ==> x.store.index[d] != id
  }

  ghost function Never(): (State, Step) -> bool {
    (x: State, step: Step) => false
  }

  /** Over any run an upload's data is to be dropped if and only if a discard found that it holds no digest. */
  lemma {:induction false} DroppingIff(s: State, steps: seq<Step>, id: Id)
    requires IsRun(s, steps)
    ensures id in After(s, steps).rows.dropping <==>
            Standing(States(s, steps), steps, id in s.rows.dropping, Dooming(id), Never())
  {
    forall x: State, step: Step, y: State | Next()(x, step, y)
      ensures id in y.rows.dropping <==> Dooming(id)(x, step) || (id in x.rows.dropping && !Never()(x, step))
    {
      DroppingAfter(x, step, id);
    }
    LawOverRuns(Next(), States(s, steps), steps, (x: State) => id in x.rows.dropping, Dooming(id), Never());
  }

  lemma {:induction false} DroppingAfter(x: State, step: Step, id: Id)
    requires Enabled(x, step)
    ensures id in Apply(x, step).rows.dropping <==> Dooming(id)(x, step) || id in x.rows.dropping
  {
  }

  // ---------------------------------------------------------------- the store

  ghost function Writing(id: Id): (State, Step) -> bool {
    (x: State, step: Step) =>
      step.Put? && step.id == id && (step.put.Write? || step.put == WriteFails(false))
  }

  /** The data is dropped with its upload, or moved or deleted with the digest that names it. */
  ghost predicate Unstages(x: State, step: Step, id: Id) {
    match step
    case Allocate(_) => false
    case Put(i, p) => i == id && (p == WriteFails(true) || p.DropDuplicate? || p.DropDiscarded?)
    case Drop(i, p) => i == id && (p.DropData? || p.ReapDrop?)
    case OnStore(d, op) =>
      d in x.store.index && x.store.index[d] == id && (op.SettleMove? || op.SettleUnstage? || op.DeleteUnstage?)
  }

  ghost function Unstaging(id: Id): (State, Step) -> bool {
    (x: State, step: Step) => Unstages(x, step, id)
  }

  lemma {:induction false} StagedAfter(x: State, step: Step, id: Id)
    requires Enabled(x, step)
    ensures id in Apply(x, step).store.staged <==>
            Writing(id)(x, step) || (id in x.store.staged && !Unstages(x, step, id))
  {
  }

  /** Over any run an upload's data is staged if and only if a write of it stands since it was last dropped or moved. */
  lemma {:induction false} StagedIff(s: State, steps: seq<Step>, id: Id)
    requires IsRun(s, steps)
    ensures id in After(s, steps).store.staged <==>
            Standing(States(s, steps), steps, id in s.store.staged, Writing(id), Unstaging(id))
  {
    forall x: State, step: Step, y: State | Next()(x, step, y)
      ensures id in y.store.staged <==> Writing(id)(x, step) || (id in x.store.staged && !Unstaging(id)(x, step))
    {
      StagedAfter(x, step, id);
    }
    LawOverRuns(Next(), States(s, steps), steps, (x: State) => id in x.store.staged, Writing(id), Unstaging(id));
  }

  ghost predicate Names(x: State, d: Digest, id: Id) {
    d in x.store.index && x.store.index[d] == id
  }

  ghost function Recording(d: Digest, id: Id): (State, Step) -> bool {
    (x: State, step: Step) => Completes(x, step, id, d)
  }

  ghost function Forgetting(d: Digest): (State, Step) -> bool {
    (x: State, step: Step) => step.OnStore? && step.digest == d && (step.op.SettleForget? || step.op.DeleteForget?)
  }

  lemma {:induction false} NamesAfter(x: State, step: Step, d: Digest, id: Id)
    requires Enabled(x, step)
    ensures Names(Apply(x, step), d, id) <==> Completes(x, step, id, d) || (Names(x, d, id) && !Forgetting(d)(x, step))
  {
  }

  /**
    Over any run the index names an upload for a digest if and only if it was
    completed, unmarked and first, and no Settle or Delete has finished since.
   */
  lemma {:induction false} NamedIff(s: State, steps: seq<Step>, d: Digest, id: Id)
    requires IsRun(s, steps)
    ensures Names(After(s, steps), d, id) <==>
            Standing(States(s, steps), steps, Names(s, d, id), Recording(d, id), Forgetting(d))
  {
    forall x: State, step: Step, y: State | Next()(x, step, y)
      ensures Names(y, d, id) <==> Recording(d, id)(x, step) || (Names(x, d, id) && !Forgetting(d)(x, step))
    {
      NamesAfter(x, step, d, id);
    }
    LawOverRuns(Next(), States(s, steps), steps, (x: State) => Names(x, d, id), Recording(d, id), Forgetting(d));
  }

  ghost function Placing(d: Digest): (State, Step) -> bool {
    (x: State, step: Step) =>
      step.OnStore? && step.digest == d && (step.op.PutBlob? || step.op.SettleMove? || step.op.SettleCopy?)
  }

  ghost function DeletingKey(d: Digest): (State, Step) -> bool {
    (x: State, step: Step) => step == OnStore(d, DeleteBegin)
  }

  /** Over any run a blob is at its digest if and only if a Put or a Settle placed it since its last Delete. */
  lemma {:induction false} KeyedIff(s: State, steps: seq<Step>, d: Digest)
    requires IsRun(s, steps)
    ensures d in After(s, steps).store.keyed <==>
            Standing(States(s, steps), steps, d in s.store.keyed, Placing(d), DeletingKey(d))
  {
    forall x: State, step: Step, y: State | Next()(x, step, y)
      ensures d in y.store.keyed <==> Placing(d)(x, step) || (d in x.store.keyed && !DeletingKey(d)(x, step))
    {
      KeyedAfter(x, step, d);
    }
    LawOverRuns(Next(), States(s, steps), steps, (x: State) => d in x.store.keyed, Placing(d), DeletingKey(d));
  }

  lemma {:induction false} KeyedAfter(x: State, step: Step, d: Digest)
    requires Enabled(x, step)
    ensures d in Apply(x, step).store.keyed <==>
            Placing(d)(x, step) || (d in x.store.keyed && step != OnStore(d, DeleteBegin))
  {
  }

  ghost predicate InOp(x: State, d: Digest, op: Op) {
    d in x.store.busy && x.store.busy[d] == op
  }

  /** The statement takes the operation that holds the digest's lock to `op`. */
  ghost predicate Enters(step: Step, d: Digest, op: Op) {
    && step.OnStore? && step.digest == d
    && match op
       case Settling(placed) =>
         if placed then step.op.SettleMove? || step.op.SettleCopy? else step.op.SettleBegin?
       case Deleting => step.op.DeleteBegin?
  }

  /** The statement begins the next part of its operation, ends it or gives it up. */
  ghost predicate LeavesOp(step: Step, d: Digest) {
    && step.OnStore? && step.digest == d
    && !step.op.PutBlob? && !step.op.SettleUnstage? && !step.op.DeleteUnstage?
  }

  ghost function Entering(d: Digest, op: Op): (State, Step) -> bool {
    (x: State, step: Step) => Enters(step, d, op)
  }

  ghost function LeavingOp(d: Digest): (State, Step) -> bool {
    (x: State, step: Step) => LeavesOp(step, d)
  }

  lemma {:induction false} OpAfter(x: State, step: Step, d: Digest, op: Op)
    requires Enabled(x, step)
    ensures InOp(Apply(x, step), d, op) <==> Enters(step, d, op) || (InOp(x, d, op) && !LeavesOp(step, d))
  {
  }

  /** Over any run a digest is locked by the Settle or Delete that began last and has not ended, as far as that got. */
  lemma {:induction false} LockedIff(s: State, steps: seq<Step>, d: Digest, op: Op)
    requires IsRun(s, steps)
    ensures InOp(After(s, steps), d, op) <==>
            Standing(States(s, steps), steps, InOp(s, d, op), Entering(d, op), LeavingOp(d))
  {
    forall x: State, step: Step, y: State | Next()(x, step, y)
      ensures InOp(y, d, op) <==> Entering(d, op)(x, step) || (InOp(x, d, op) && !LeavingOp(d)(x, step))
    {
      OpAfter(x, step, d, op);
    }
    LawOverRuns(Next(), States(s, steps), steps, (x: State) => InOp(x, d, op), Entering(d, op), LeavingOp(d));
  }

  /** The entry is recorded anew while no Delete holds the digest, or an operation on it ends. */
  ghost predicate EndsRemoval(x: State, step: Step, d: Digest) {
    || (d !in x.store.busy && exists id :: Completes(x, step, id, d))
    || (step.OnStore? && step.digest == d && (step.op.SettleForget? || step.op.DeleteForget? || step.op.DeleteNone?))
  }

  ghost function EndingRemoval(d: Digest): (State, Step) -> bool {
    (x: State, step: Step) => EndsRemoval(x, step, d)
  }

  lemma {:induction false} RemovalAfter(x: State, step: Step, d: Digest)
    requires Enabled(x, step)
    ensures d in Apply(x, step).store.removing <==>
            step == OnStore(d, DeleteBegin) || (d in x.store.removing && !EndsRemoval(x, step, d))
  {
    if step.Put? && step.put.Complete? {
      var id := step.id;
      assert Completes(x, step, id, d) <==>
             x.rows.puts[id].digest == d && Unmarked(x.rows, id) && d !in x.store.index;
    }
  }

  /** Over any run a digest is being deleted if and only if a Delete of it began and neither ended nor was overtaken. */
  lemma {:induction false} RemovedIff(s: State, steps: seq<Step>, d: Digest)
    requires IsRun(s, steps)
    ensures d in After(s, steps).store.removing <==>
            Standing(States(s, steps), steps, d in s.store.removing, DeletingKey(d), EndingRemoval(d))
  {
    forall x: State, step: Step, y: State | Next()(x, step, y)
      ensures d in y.store.removing <==>
              DeletingKey(d)(x, step) || (d in x.store.removing && !EndingRemoval(d)(x, step))
    {
      RemovalAfter(x, step, d);
    }
    LawOverRuns(Next(), States(s, steps), steps, (x: State) => d in x.store.removing, DeletingKey(d), EndingRemoval(d));
  }

  // ------------------------------------------------------------------ phases

  ghost predicate InPhase(x: State, id: Id, p: Phase) {
    id in x.rows.puts && x.rows.puts[id] == p
  }

  /** The statement takes the PUT of `id` to phase `p`. */
  ghost predicate Reaches(x: State, step: Step, id: Id, p: Phase) {
    && step.Put? && step.id == id
    && match p
       case Receiving => step.put.Begin?
       case Received(d) => step.put == Write(d)
       case Unheld(d) => step.put == Find(false) && InPhase(x, id, Received(d))
       case Duplicate =>
         || step.put == Find(true)
         || (step.put.Complete? && Unmarked(x.rows, id) && exists d :: InPhase(x, id, Unheld(d)) && d in x.store.index)
       case DuplicateDropped => step.put.DropDuplicate?
       case Discarded => (step.put.Complete? || step.put.DeleteRow?) && !Unmarked(x.rows, id)
       case DiscardedDropped => step.put.DropDiscarded?
  }

  ghost function Reaching(id: Id, p: Phase): (State, Step) -> bool {
    (x: State, step: Step) => Reaches(x, step, id, p)
  }

  ghost function Moving(id: Id): (State, Step) -> bool {
    (x: State, step: Step) => step.Put? && step.id == id
  }

  lemma {:induction false} PhaseAfter(x: State, step: Step, id: Id, p: Phase)
    requires Enabled(x, step)
    ensures InPhase(Apply(x, step), id, p) <==>
            Reaches(x, step, id, p) || (InPhase(x, id, p) && !(step.Put? && step.id == id))
  {
    if step == Put(id, Complete) {
      assert InPhase(x, id, Unheld(x.rows.puts[id].digest));
    }
  }

  /** Over any run a PUT is in the phase its own last statement took it to. */
  lemma {:induction false} PhaseIff(s: State, steps: seq<Step>, id: Id, p: Phase)
    requires IsRun(s, steps)
    ensures InPhase(After(s, steps), id, p) <==>
            Standing(States(s, steps), steps, InPhase(s, id, p), Reaching(id, p), Moving(id))
  {
    forall x: State, step: Step, y: State | Next()(x, step, y)
      ensures InPhase(y, id, p) <==> Reaching(id, p)(x, step) || (InPhase(x, id, p) && !Moving(id)(x, step))
    {
      PhaseAfter(x, step, id, p);
    }
    LawOverRuns(Next(), States(s, steps), steps, (x: State) => InPhase(x, id, p), Reaching(id, p), Moving(id));
  }

  // ----------------------------------------------------------------- reading

  /** Get finds the blob: at its digest, or staged under the upload that holds it. */
  predicate Readable(t: Store, d: Digest) {
    d in t.keyed || (d in t.index && t.index[d] in t.staged)
  }

  /** A step of a Delete of the digest that takes bytes away. */
  predicate DeletesBytes(step: Step, d: Digest) {
    step == OnStore(d, DeleteBegin) || step == OnStore(d, DeleteUnstage)
  }

  /** A readable blob stays readable through every statement, a Settle's included, but a Delete's of its digest. */
  lemma {:induction false} ReadableKept(s: State, steps: seq<Step>, d: Digest)
    requires Consistent(s) && IsRun(s, steps) && Patient(s, steps) && Readable(s.store, d)
    requires forall i :: 0 <= i < |steps| ==> !DeletesBytes(steps[i], d)
    ensures Readable(After(s, steps).store, d)
    decreases |steps|
  {
    if steps != [] {
      StepKeepsConsistent(s, steps[0]);
      assert !DeletesBytes(steps[0], d);
      ReadableAfter(s, steps[0], d);
      ReadableKept(Apply(s, steps[0]), steps[1..], d);
    }
  }

  lemma {:induction false} ReadableAfter(s: State, step: Step, d: Digest)
    requires Consistent(s) && Enabled(s, step) && !Early(s, step) && Readable(s.store, d) && !DeletesBytes(step, d)
    ensures Readable(Apply(s, step).store, d)
  {
    KeyedAfter(s, step, d);
    if d !in s.store.keyed {
      DropsNothingNamed(s, step, d);
      NamesAfter(s, step, d, s.store.index[d]);
    }
  }

  /** A Delete that runs to its end leaves the digest unreadable, unnamed and unstaged. */
  lemma {:induction false} DeleteEnds(t: Store, d: Digest)
    requires StoreEnabled(t, d, DeleteBegin)
    ensures var t1 := StoreApply(t, d, DeleteBegin);
            if d !in t.index then StoreEnabled(t1, d, DeleteNone) && !Readable(StoreApply(t1, d, DeleteNone), d)
            else
              && StoreEnabled(t1, d, DeleteUnstage)
              && var t2 := StoreApply(t1, d, DeleteUnstage);
                 && StoreEnabled(t2, d, DeleteForget)
                 && var t3 := StoreApply(t2, d, DeleteForget);
                    !Readable(t3, d) && d !in t3.index && t.index[d] !in t3.staged && d !in t3.busy
  {
  }
}
