/**
  How far pipeline rows, tasks, batches, staged adds and on-chain rows have got
  after any run, told by the steps that took them there.
 */
module RowHistories {
  import opened Common
  import opened Pipeline
  import opened Lifecycle
  import opened RootRows
  import opened SweepTurn
  import opened Histories
  import opened Contents

  // ------------------------------------------------------------ pipeline rows

  /** What one column of a row holds. */
  datatype Field =
    | Staged
    | SettleTask(id: TaskId)
    | CommPTask(id: TaskId)
    | CommP(piece: Piece)
    | InSlot(slot: Slot)

  predicate Has(r: Row, f: Field) {
    match f
    case Staged => r.staged
    case SettleTask(id) => r.settleTask == Some(id)
    case CommPTask(id) => r.commpTask == Some(id)
    case CommP(p) => r.commp == Some(p)
    case InSlot(sl) => r.slot == Some(sl)
  }

  ghost predicate RowHas(x: State, b: Blob, f: Field) {
    b in x.pipeline && Has(x.pipeline[b], f)
  }

  /** A commP run's last write: the row of its blob gets its piece. */
  ghost predicate Stamps(e: Env, x: State, step: Step, b: Blob, p: Piece) {
    && step.Task? && b in x.pipeline
    && (|| (&& step.task.Stamp? && step.task.id in x.tasks.working
            && x.tasks.working[step.task.id].blob == b && x.tasks.working[step.task.id].piece == p)
        || (step.task.HashParkStamp? && step.task.blob == b && p == if b in x.commp then x.commp[b] else e.commP(b)))
  }

  /** The aggregate has the row's piece at position `i`. */
  ghost predicate PlacedAt(a: Aggregate, ds: seq<Blob>, b: Blob, sl: Slot, i: nat) {
    && i < |ds| && i < |a.pieces| && ds[i] == b
    && sl.root == a.root && sl.position == i && sl.proof == a.pieces[i].proof
  }

  ghost predicate Writes(e: Env, x: State, step: Step, b: Blob, f: Field) {
    match f
    case Staged =>
      && step.Client? && step.client.Accept? && step.client.blob == b && step.client.staged
      && b !in x.pipeline && Idle(x, b)
    case SettleTask(id) => step == Task(SpawnSettle(b, id))
    case CommPTask(id) => step == Task(SpawnCommP(b, id))
    case CommP(p) => Stamps(e, x, step, b, p)
    case InSlot(sl) =>
      step.Batch? && step.batch.Fold? && exists i: nat :: PlacedAt(step.batch.aggregate, step.batch.digests, b, sl, i)
  }

  /** The row leaves, is settled, or is given another piece. */
  ghost predicate Overwrites(e: Env, x: State, step: Step, b: Blob, f: Field) {
    || Leaves(x, step, b)
    || (f.Staged? && step == Task(Settle(b)))
    || (f.CommP? && exists p :: Stamps(e, x, step, b, p))
  }

  ghost function Writing(e: Env, b: Blob, f: Field): (State, Step) -> bool {
    (x: State, step: Step) => Writes(e, x, step, b, f)
  }

  ghost function Overwriting(e: Env, b: Blob, f: Field): (State, Step) -> bool {
    (x: State, step: Step) => Overwrites(e, x, step, b, f)
  }

  lemma {:induction false} FieldAfterClient(e: Env, x: State, step: ClientStep, b: Blob, f: Field)
    requires ClientEnabled(x, step)
    ensures RowHas(ClientApply(x, step), b, f) <==> Writes(e, x, Client(step), b, f) || RowHas(x, b, f)
  {
    CarriedIff(x, b);
  }

  lemma {:induction false} FieldAfterTask(e: Env, x: State, step: TaskStep, b: Blob, f: Field)
    requires TaskEnabled(x, step)
    ensures RowHas(TaskApply(e, x, step), b, f) <==>
            Writes(e, x, Task(step), b, f) || (RowHas(x, b, f) && !Overwrites(e, x, Task(step), b, f))
  {
    var y := TaskApply(e, x, step);
    if step.Stamp? && x.tasks.working[step.id].blob == b && b in x.pipeline {
      assert Stamps(e, x, Task(step), b, x.tasks.working[step.id].piece);
    } else if step.HashParkStamp? && step.blob == b {
      assert Stamps(e, x, Task(step), b, if b in x.commp then x.commp[b] else e.commP(b));
    }
  }

  lemma {:induction false} FieldAfterFold(x: State, a: Aggregate, ds: seq<Blob>, b: Blob, f: Field)
    requires BatchEnabled(x, Fold(a, ds))
    ensures RowHas(BatchApply(x, Fold(a, ds)), b, f) <==>
            (f.InSlot? && exists i: nat :: PlacedAt(a, ds, b, f.slot, i)) || RowHas(x, b, f)
  {
    var t := Folded(x.pipeline, a, ds, |ds|);
    assert ds[..|ds|] == ds;
    if b in ds {
      var i :| 0 <= i < |ds| && ds[i] == b;
      assert Fits(x.pipeline, a, i, b) && t[b] == x.pipeline[b].(slot := Some(SlotAt(a, i)));
      assert f.InSlot? && f.slot == SlotAt(a, i) ==> PlacedAt(a, ds, b, f.slot, i);
      forall j: nat | j < |ds| && ds[j] == b ensures j == i {
      }
    }
  }

  lemma {:induction false} FieldAfterRetire(x: State, id: TaskId, b: Blob, f: Field)
    requires BatchEnabled(x, Retire(id))
    ensures RowHas(BatchApply(x, Retire(id)), b, f) <==> RowHas(x, b, f) && !Leaves(x, Batch(Retire(id)), b)
  {
  }

  lemma {:induction false} FieldAfterBatch(e: Env, x: State, step: BatchStep, b: Blob, f: Field)
    requires BatchEnabled(x, step)
    ensures RowHas(BatchApply(x, step), b, f) <==>
            Writes(e, x, Batch(step), b, f) || (RowHas(x, b, f) && !Overwrites(e, x, Batch(step), b, f))
  {
    match step
    case Fold(a, ds) => FieldAfterFold(x, a, ds, b, f);
    case Retire(id) => FieldAfterRetire(x, id, b, f);
    case _ => assert BatchApply(x, step).pipeline == x.pipeline;
  }

  lemma {:induction false} RowHasAfter(e: Env, x: State, step: Step, b: Blob, f: Field)
    requires Enabled(x, step)
    ensures RowHas(Apply(e, x, step), b, f) <==>
            Writing(e, b, f)(x, step) || (RowHas(x, b, f) && !Overwriting(e, b, f)(x, step))
  {
    match step
    case Client(c) => FieldAfterClient(e, x, c, b, f);
    case Task(t) => FieldAfterTask(e, x, t, b, f);
    case Batch(t) => FieldAfterBatch(e, x, t, b, f);
    case Chain(_) =>
    case Sweep(c, o) => TurnEffect(e, x, c, o);
    case CleanUp(_) =>
  }

  /** Over any run a column of a row holds a value if and only if the step that wrote it stands. */
  lemma {:induction false} RowHasIff(e: Env, s: State, steps: seq<Step>, b: Blob, f: Field)
    requires IsRun(e, s, steps)
    ensures RowHas(After(e, s, steps), b, f) <==>
            Standing(States(e, s, steps), steps, RowHas(s, b, f), Writing(e, b, f), Overwriting(e, b, f))
  {
    forall x: State, step: Step, y: State | Next(e)(x, step, y)
      ensures RowHas(y, b, f) <==> Writing(e, b, f)(x, step) || (RowHas(x, b, f) && !Overwriting(e, b, f)(x, step))
    {
      RowHasAfter(e, x, step, b, f);
    }
    LawOverRuns(Next(e), States(e, s, steps), steps, (x: State) => RowHas(x, b, f), Writing(e, b, f),
                Overwriting(e, b, f));
  }

  // ------------------------------------------------------------------- tasks

  ghost function Starting(id: TaskId): (State, Step) -> bool {
    (x: State, step: Step) =>
      || (step.Task? && (step.task.SpawnSettle? || step.task.SpawnCommP?) && step.task.id == id)
      || (step.Batch? && step.batch.ClaimRoots? && step.batch.id == id)
  }

  ghost function Ending(id: TaskId): (State, Step) -> bool {
    (x: State, step: Step) => step == Task(EndTask(id))
  }

  lemma {:induction false} LiveAfterTask(e: Env, x: State, step: TaskStep, id: TaskId)
    requires TaskEnabled(x, step)
    ensures id in TaskApply(e, x, step).tasks.live <==>
            Starting(id)(x, Task(step)) || (id in x.tasks.live && step != EndTask(id))
  {
  }

  lemma {:induction false} LiveAfterBatch(x: State, step: BatchStep, id: TaskId)
    requires BatchEnabled(x, step)
    ensures id in BatchApply(x, step).tasks.live <==> Starting(id)(x, Batch(step)) || id in x.tasks.live
    ensures BatchApply(x, step).tasks.working == x.tasks.working
  {
  }

  lemma {:induction false} LiveAfter(e: Env, x: State, step: Step, id: TaskId)
    requires Enabled(x, step)
    ensures id in Apply(e, x, step).tasks.live <==>
            Starting(id)(x, step) || (id in x.tasks.live && !Ending(id)(x, step))
  {
    match step
    case Client(_) =>
    case Task(t) => LiveAfterTask(e, x, t, id);
    case Batch(t) => LiveAfterBatch(x, t, id);
    case Chain(_) =>
    case Sweep(c, o) => TurnEffect(e, x, c, o);
    case CleanUp(_) =>
  }

  /** Over any run a task is alive if and only if it was started and has not ended. */
  lemma {:induction false} LiveIff(e: Env, s: State, steps: seq<Step>, id: TaskId)
    requires IsRun(e, s, steps)
    ensures id in After(e, s, steps).tasks.live <==>
            Standing(States(e, s, steps), steps, id in s.tasks.live, Starting(id), Ending(id))
  {
    forall x: State, step: Step, y: State | Next(e)(x, step, y)
      ensures id in y.tasks.live <==> Starting(id)(x, step) || (id in x.tasks.live && !Ending(id)(x, step))
    {
      LiveAfter(e, x, step, id);
    }
    LawOverRuns(Next(e), States(e, s, steps), steps, (x: State) => id in x.tasks.live, Starting(id), Ending(id));
  }

  ghost predicate Holding(x: State, id: TaskId, w: Work) {
    id in x.tasks.working && x.tasks.working[id] == w
  }

  /** The run has mapped its blob to the piece or, when `parked`, also written its reference. */
  ghost predicate Takes(e: Env, x: State, step: Step, id: TaskId, w: Work) {
    && step.Task?
    && (|| (&& step.task == Hash(w.blob, id) && !w.parked
            && w.piece == if w.blob in x.commp then x.commp[w.blob] else e.commP(w.blob))
        || (&& step.task == Park(id) && w.parked && id in x.tasks.working
            && x.tasks.working[id].blob == w.blob && x.tasks.working[id].piece == w.piece))
  }

  ghost function Taking(e: Env, id: TaskId, w: Work): (State, Step) -> bool {
    (x: State, step: Step) => Takes(e, x, step, id, w)
  }

  ghost function Stopping(id: TaskId): (State, Step) -> bool {
    (x: State, step: Step) =>
      step == Task(Park(id)) || step == Task(Stamp(id)) || step == Task(StopRun(id)) || step == Task(EndTask(id))
  }

  lemma {:induction false} HoldingAfterTask(e: Env, x: State, step: TaskStep, id: TaskId, w: Work)
    requires TaskEnabled(x, step)
    ensures Holding(TaskApply(e, x, step), id, w) <==>
            Takes(e, x, Task(step), id, w) || (Holding(x, id, w) && !Stopping(id)(x, Task(step)))
  {
  }

  lemma {:induction false} HoldingAfter(e: Env, x: State, step: Step, id: TaskId, w: Work)
    requires Enabled(x, step)
    ensures Holding(Apply(e, x, step), id, w) <==>
            Taking(e, id, w)(x, step) || (Holding(x, id, w) && !Stopping(id)(x, step))
  {
    match step
    case Client(_) =>
    case Task(t) => HoldingAfterTask(e, x, t, id, w);
    case Batch(t) => LiveAfterBatch(x, t, id);
    case Chain(_) =>
    case Sweep(c, o) => TurnEffect(e, x, c, o);
    case CleanUp(_) =>
  }

  /** Over any run a commP run holds a piece in memory if and only if it took it and has not stopped since. */
  lemma {:induction false} HoldingIff(e: Env, s: State, steps: seq<Step>, id: TaskId, w: Work)
    requires IsRun(e, s, steps)
    ensures Holding(After(e, s, steps), id, w) <==>
            Standing(States(e, s, steps), steps, Holding(s, id, w), Taking(e, id, w), Stopping(id))
  {
    forall x: State, step: Step, y: State | Next(e)(x, step, y)
      ensures Holding(y, id, w) <==> Taking(e, id, w)(x, step) || (Holding(x, id, w) && !Stopping(id)(x, step))
    {
      HoldingAfter(e, x, step, id, w);
    }
    LawOverRuns(Next(e), States(e, s, steps), steps, (x: State) => Holding(x, id, w), Taking(e, id, w), Stopping(id));
  }

  // ----------------------------------------------------------------- batches

  ghost predicate SubmittedTo(x: State, r: Root, o: Option<TaskId>) {
    r in x.batches.submissions && x.batches.submissions[r] == o
  }

  ghost function Submitting(r: Root, o: Option<TaskId>): (State, Step) -> bool {
    (x: State, step: Step) =>
      && step.Batch?
      && (|| (step.batch == Submit(r) && r !in x.batches.submissions && o == None)
          || (step.batch.ClaimRoots? && r in step.batch.roots && o == Some(step.batch.id)))
  }

  /** A task claims the root, or the task that has it retires it. */
  ghost function Resubmitting(r: Root): (State, Step) -> bool {
    (x: State, step: Step) =>
      && step.Batch?
      && (|| (step.batch.ClaimRoots? && r in step.batch.roots)
          || (step.batch.Retire? && SubmittedTo(x, r, Some(step.batch.id))))
  }

  lemma {:induction false} SubmittedAfterBatch(x: State, step: BatchStep, r: Root, o: Option<TaskId>)
    requires BatchEnabled(x, step)
    ensures SubmittedTo(BatchApply(x, step), r, o) <==>
            Submitting(r, o)(x, Batch(step)) || (SubmittedTo(x, r, o) && !Resubmitting(r)(x, Batch(step)))
  {
  }

  lemma {:induction false} TaskKeepsSubmissions(e: Env, x: State, step: TaskStep)
    requires TaskEnabled(x, step)
    ensures var y := TaskApply(e, x, step);
            && y.batches.submissions == x.batches.submissions && y.adds == x.adds
            && y.batches.stored == x.batches.stored && y.batches.ever == x.batches.ever
  {
  }

  lemma {:induction false} SubmittedAfter(e: Env, x: State, step: Step, r: Root, o: Option<TaskId>)
    requires Enabled(x, step)
    ensures SubmittedTo(Apply(e, x, step), r, o) <==>
            Submitting(r, o)(x, step) || (SubmittedTo(x, r, o) && !Resubmitting(r)(x, step))
  {
    match step
    case Client(_) =>
    case Task(t) => TaskKeepsSubmissions(e, x, t);
    case Batch(t) => SubmittedAfterBatch(x, t, r, o);
    case Chain(_) =>
    case Sweep(c, q) => TurnEffect(e, x, c, q);
    case CleanUp(_) =>
  }

  /** Over any run a root is submitted, to a task or to none, if and only if its submission or claim stands. */
  lemma {:induction false} SubmittedIff(e: Env, s: State, steps: seq<Step>, r: Root, o: Option<TaskId>)
    requires IsRun(e, s, steps)
    ensures SubmittedTo(After(e, s, steps), r, o) <==>
            Standing(States(e, s, steps), steps, SubmittedTo(s, r, o), Submitting(r, o), Resubmitting(r))
  {
    forall x: State, step: Step, y: State | Next(e)(x, step, y)
      ensures SubmittedTo(y, r, o) <==>
              Submitting(r, o)(x, step) || (SubmittedTo(x, r, o) && !Resubmitting(r)(x, step))
    {
      SubmittedAfter(e, x, step, r, o);
    }
    LawOverRuns(Next(e), States(e, s, steps), steps, (x: State) => SubmittedTo(x, r, o), Submitting(r, o),
                Resubmitting(r));
  }

  /** The step ends what an AddRoots run has in memory. */
  ghost predicate Forgets(step: Step, id: TaskId) {
    || step == Task(StopRun(id)) || step == Task(EndTask(id))
    || (step.Batch? && (step.batch.Load? || step.batch.Retire?) && step.batch.id == id)
  }

  ghost function Forgetting(id: TaskId): (State, Step) -> bool {
    (x: State, step: Step) => Forgets(step, id)
  }

  ghost predicate LoadedAs(x: State, id: TaskId, r: Root, ps: seq<Piece>) {
    id in x.batches.loaded && r in x.batches.loaded[id] && x.batches.loaded[id][r] == ps
  }

  /** The run reads the root's aggregate, whose pieces are `ps` in order. */
  ghost predicate ReadsAs(step: Step, id: TaskId, r: Root, ps: seq<Piece>) {
    && step.Batch? && step.batch.Load? && step.batch.id == id && r in step.batch.found
    && |ps| == |step.batch.found[r]| && forall i :: 0 <= i < |ps| ==> ps[i] == step.batch.found[r][i].link
  }

  ghost function Reading(id: TaskId, r: Root, ps: seq<Piece>): (State, Step) -> bool {
    (x: State, step: Step) => ReadsAs(step, id, r, ps)
  }

  lemma {:induction false} LoadedAfterBatch(x: State, step: BatchStep, id: TaskId, r: Root, ps: seq<Piece>)
    requires BatchEnabled(x, step)
    ensures LoadedAs(BatchApply(x, step), id, r, ps) <==>
            ReadsAs(Batch(step), id, r, ps) || (LoadedAs(x, id, r, ps) && !Forgets(Batch(step), id))
  {
    if step.Load? && step.id == id && r in step.found {
      assert LinksOf(step.found[r]) == ps <==> ReadsAs(Batch(step), id, r, ps);
    }
  }

  lemma {:induction false} TaskForgets(e: Env, x: State, step: TaskStep, id: TaskId)
    requires TaskEnabled(x, step)
    ensures var y := TaskApply(e, x, step);
            && (forall r, ps :: LoadedAs(y, id, r, ps) <==> LoadedAs(x, id, r, ps) && !Forgets(Task(step), id))
            && (forall sent :: SentAs(y, id, sent) <==> SentAs(x, id, sent) && !Forgets(Task(step), id))
  {
  }

  lemma {:induction false} LoadedAfter(e: Env, x: State, step: Step, id: TaskId, r: Root, ps: seq<Piece>)
    requires Enabled(x, step)
    ensures LoadedAs(Apply(e, x, step), id, r, ps) <==>
            Reading(id, r, ps)(x, step) || (LoadedAs(x, id, r, ps) && !Forgetting(id)(x, step))
  {
    match step
    case Client(_) =>
    case Task(t) => TaskForgets(e, x, t, id);
    case Batch(t) => LoadedAfterBatch(x, t, id, r, ps);
    case Chain(_) =>
    case Sweep(c, o) => TurnEffect(e, x, c, o);
    case CleanUp(_) =>
  }

  /** Over any run an AddRoots run has an aggregate in memory if and only if it read it and has not stopped since. */
  lemma {:induction false} LoadedIff(e: Env, s: State, steps: seq<Step>, id: TaskId, r: Root, ps: seq<Piece>)
    requires IsRun(e, s, steps)
    ensures LoadedAs(After(e, s, steps), id, r, ps) <==>
            Standing(States(e, s, steps), steps, LoadedAs(s, id, r, ps), Reading(id, r, ps), Forgetting(id))
  {
    forall x: State, step: Step, y: State | Next(e)(x, step, y)
      ensures LoadedAs(y, id, r, ps) <==>
              Reading(id, r, ps)(x, step) || (LoadedAs(x, id, r, ps) && !Forgetting(id)(x, step))
    {
      LoadedAfter(e, x, step, id, r, ps);
    }
    LawOverRuns(Next(e), States(e, s, steps), steps, (x: State) => LoadedAs(x, id, r, ps), Reading(id, r, ps),
                Forgetting(id));
  }

  ghost predicate SentAs(x: State, id: TaskId, sent: Sent) {
    id in x.batches.sent && x.batches.sent[id] == sent
  }

  /** The call submits the roots that are new and notes those that have rows already. */
  ghost predicate Sends(x: State, step: Step, id: TaskId, sent: Sent) {
    && step.Batch? && step.batch.Record? && step.batch.id == id && step.batch.tx == sent.tx
    && id in x.batches.loaded
    && (forall r :: r in sent.done <==> r in x.batches.loaded[id] && exists k :: k in x.chain && x.chain[k].root == r)
    && (forall r :: r in sent.added <==>
          && r in x.batches.loaded[id]
          && (forall k :: k in x.chain ==> x.chain[k].root != r)
          && (forall k :: k in x.adds && k.root == r ==> x.adds[k].ok == Some(false)))
  }

  ghost function Sending(id: TaskId, sent: Sent): (State, Step) -> bool {
    (x: State, step: Step) => Sends(x, step, id, sent)
  }

  lemma {:induction false} SentAfterBatch(x: State, step: BatchStep, id: TaskId, sent: Sent)
    requires BatchEnabled(x, step)
    ensures SentAs(BatchApply(x, step), id, sent) <==>
            Sends(x, Batch(step), id, sent) || (SentAs(x, id, sent) && !Forgets(Batch(step), id))
  {
    if step.Record? && step.id == id {
      var rs := x.batches.loaded[id].Keys;
      assert forall r :: r in NewRoots(x, rs) <==> r in rs && !HasAdd(x, r) && !HasRow(x, r);
      assert Sends(x, Batch(step), id, sent) <==>
             sent.tx == step.tx && sent.added == NewRoots(x, rs) && sent.done == CompletedRoots(x, rs);
    }
  }

  lemma {:induction false} SentAfter(e: Env, x: State, step: Step, id: TaskId, sent: Sent)
    requires Enabled(x, step)
    ensures SentAs(Apply(e, x, step), id, sent) <==>
            Sending(id, sent)(x, step) || (SentAs(x, id, sent) && !Forgetting(id)(x, step))
  {
    match step
    case Client(_) =>
    case Task(t) => TaskForgets(e, x, t, id);
    case Batch(t) => SentAfterBatch(x, t, id, sent);
    case Chain(_) =>
    case Sweep(c, o) => TurnEffect(e, x, c, o);
    case CleanUp(_) =>
  }

  /** Over any run a call's record of what it sent is that of the roots that were new and those that had rows. */
  lemma {:induction false} SentIff(e: Env, s: State, steps: seq<Step>, id: TaskId, sent: Sent)
    requires IsRun(e, s, steps)
    ensures SentAs(After(e, s, steps), id, sent) <==>
            Standing(States(e, s, steps), steps, SentAs(s, id, sent), Sending(id, sent), Forgetting(id))
  {
    forall x: State, step: Step, y: State | Next(e)(x, step, y)
      ensures SentAs(y, id, sent) <==> Sending(id, sent)(x, step) || (SentAs(x, id, sent) && !Forgetting(id)(x, step))
    {
      SentAfter(e, x, step, id, sent);
    }
    LawOverRuns(Next(e), States(e, s, steps), steps, (x: State) => SentAs(x, id, sent), Sending(id, sent),
                Forgetting(id));
  }

  /** The aggregate is among those folded under its root, ever or since the root was last retired. */
  ghost predicate IsKnown(x: State, a: Aggregate, ever: bool) {
    a in Under(if ever then x.batches.ever else x.batches.stored, a.root)
  }

  ghost function Folding(a: Aggregate): (State, Step) -> bool {
    (x: State, step: Step) => step.Batch? && step.batch.Fold? && step.batch.aggregate == a
  }

  ghost function Retiring(a: Aggregate, ever: bool): (State, Step) -> bool {
    (x: State, step: Step) =>
      && !ever && step.Batch? && step.batch.Retire?
      && step.batch.id in x.batches.loaded && a.root in x.batches.loaded[step.batch.id]
  }

  lemma {:induction false} KnownAfterBatch(x: State, step: BatchStep, a: Aggregate, ever: bool)
    requires BatchEnabled(x, step)
    ensures IsKnown(BatchApply(x, step), a, ever) <==>
            Folding(a)(x, Batch(step)) || (IsKnown(x, a, ever) && !Retiring(a, ever)(x, Batch(step)))
  {
  }

  lemma {:induction false} KnownAfter(e: Env, x: State, step: Step, a: Aggregate, ever: bool)
    requires Enabled(x, step)
    ensures IsKnown(Apply(e, x, step), a, ever) <==>
            Folding(a)(x, step) || (IsKnown(x, a, ever) && !Retiring(a, ever)(x, step))
  {
    match step
    case Client(_) =>
    case Task(t) => TaskKeepsSubmissions(e, x, t);
    case Batch(t) => KnownAfterBatch(x, t, a, ever);
    case Chain(_) =>
    case Sweep(c, o) => TurnEffect(e, x, c, o);
    case CleanUp(_) =>
  }

  /** Over any run the history of a root holds an aggregate if and only if it was folded, and not retired since. */
  lemma {:induction false} KnownIff(e: Env, s: State, steps: seq<Step>, a: Aggregate, ever: bool)
    requires IsRun(e, s, steps)
    ensures IsKnown(After(e, s, steps), a, ever) <==>
            Standing(States(e, s, steps), steps, IsKnown(s, a, ever), Folding(a), Retiring(a, ever))
  {
    forall x: State, step: Step, y: State | Next(e)(x, step, y)
      ensures IsKnown(y, a, ever) <==> Folding(a)(x, step) || (IsKnown(x, a, ever) && !Retiring(a, ever)(x, step))
    {
      KnownAfter(e, x, step, a, ever);
    }
    LawOverRuns(Next(e), States(e, s, steps), steps, (x: State) => IsKnown(x, a, ever), Folding(a),
                Retiring(a, ever));
  }

  // ------------------------------------------------------------- staged adds

  /** What one column of a staged add holds; Present is the row itself. */
  datatype AddField = Present | Resolved(ok: bool) | Promoted

  ghost predicate AddHas(x: State, k: AddKey, f: AddField) {
    && k in x.adds
    && match f
       case Present => true
       case Resolved(ok) => x.adds[k].ok == Some(ok)
       case Promoted => x.adds[k].promoted
  }

  ghost predicate WritesAdd(x: State, step: Step, k: AddKey, f: AddField) {
    match f
    case Present =>
      && step.Batch? && step.batch.Record? && step.batch.tx == k.tx && k.root in step.batch.roots
      && step.batch.id in x.batches.loaded && k.root in x.batches.loaded[step.batch.id]
      && k.sub in x.batches.loaded[step.batch.id][k.root]
    case Resolved(ok) => step == Chain(Resolve(k.tx, ok)) && k in x.adds && x.adds[k].ok == None
    case Promoted =>
      step.Chain? && step.chain.Promote? && step.chain.tx == k.tx && step.chain.root == k.root && k in x.adds
  }

  /** The rows of a failed transaction are cleared. */
  ghost predicate ClearsAdd(x: State, step: Step, k: AddKey) {
    step == Chain(ClearDead(k.tx)) && k in x.adds && x.adds[k].ok == Some(false)
  }

  ghost function WritingAdd(k: AddKey, f: AddField): (State, Step) -> bool {
    (x: State, step: Step) => WritesAdd(x, step, k, f)
  }

  ghost function ClearingAdd(k: AddKey): (State, Step) -> bool {
    (x: State, step: Step) => ClearsAdd(x, step, k)
  }

  lemma {:induction false} AddAfterChain(x: State, step: ChainStep, k: AddKey, f: AddField)
    requires ChainEnabled(x, step)
    ensures AddHas(ChainApply(x, step), k, f) <==>
            WritesAdd(x, Chain(step), k, f) || (AddHas(x, k, f) && !ClearsAdd(x, Chain(step), k))
  {
    if step.Promote? {
      assert k in step.rows.Values <==> k in AddsOf(x, step.tx, step.root);
    }
  }

  lemma {:induction false} AddAfterBatch(x: State, step: BatchStep, k: AddKey, f: AddField)
    requires BatchEnabled(x, step)
    ensures AddHas(BatchApply(x, step), k, f) <==> WritesAdd(x, Batch(step), k, f) || AddHas(x, k, f)
  {
  }

  lemma {:induction false} AddHasAfter(e: Env, x: State, step: Step, k: AddKey, f: AddField)
    requires Enabled(x, step)
    ensures AddHas(Apply(e, x, step), k, f) <==>
            WritingAdd(k, f)(x, step) || (AddHas(x, k, f) && !ClearingAdd(k)(x, step))
  {
    match step
    case Client(_) =>
    case Task(t) => TaskKeepsSubmissions(e, x, t);
    case Batch(t) => AddAfterBatch(x, t, k, f);
    case Chain(c) => AddAfterChain(x, c, k, f);
    case Sweep(c, o) => TurnEffect(e, x, c, o);
    case CleanUp(_) =>
  }

  /**
    Over any run a sub-piece is staged, resolved or promoted if and only if the
    step that did so stands since its failed transaction was last cleared.
   */
  lemma {:induction false} AddHasIff(e: Env, s: State, steps: seq<Step>, k: AddKey, f: AddField)
    requires IsRun(e, s, steps)
    ensures AddHas(After(e, s, steps), k, f) <==>
            Standing(States(e, s, steps), steps, AddHas(s, k, f), WritingAdd(k, f), ClearingAdd(k))
  {
    forall x: State, step: Step, y: State | Next(e)(x, step, y)
      ensures AddHas(y, k, f) <==> WritingAdd(k, f)(x, step) || (AddHas(x, k, f) && !ClearingAdd(k)(x, step))
    {
      AddHasAfter(e, x, step, k, f);
    }
    LawOverRuns(Next(e), States(e, s, steps), steps, (x: State) => AddHas(x, k, f), WritingAdd(k, f),
                ClearingAdd(k));
  }

  // ----------------------------------------------------------- on-chain rows

  /** What an on-chain row holds: its root and sub-piece, a deletion's transaction, or that it is removed. */
  datatype RowField = OfPiece(root: Root, sub: Piece) | Deletion(tx: TxHash) | Removed

  ghost predicate ChainHas(x: State, k: ChainKey, f: RowField) {
    && k in x.chain
    && match f
       case OfPiece(r, p) => x.chain[k].root == r && x.chain[k].sub == p
       case Deletion(tx) => x.chain[k].rmHash == Some(tx)
       case Removed => x.chain[k].removed
  }

  ghost predicate WritesChain(x: State, step: Step, k: ChainKey, f: RowField) {
    match f
    case OfPiece(r, p) =>
      && step.Chain? && step.chain.Promote? && step.chain.key == k.root && k.offset in step.chain.rows
      && step.chain.rows[k.offset].root == r && step.chain.rows[k.offset].sub == p
    case Deletion(tx) => step == Chain(RemoveRoot(k.root, tx)) && k in x.chain
    case Removed => step == Chain(ConfirmRemoval(k.root)) && k in x.chain && x.chain[k].rmHash.Some?
  }

  /** The row is overwritten, its stamp cleared, or it goes with the removal of a blob of its piece. */
  ghost predicate ClearsChain(x: State, step: Step, k: ChainKey, f: RowField) {
    || (step.Chain? && step.chain.Promote? && step.chain.key == k.root && k.offset in step.chain.rows)
    || (f.Deletion? && step.Chain? && (step.chain.RemoveRoot? || step.chain.ClearStamp?) && step.chain.key == k.root)
    || (&& step.Sweep? && Removes(x, step, step.blob) && step.blob in x.commp
        && k in x.chain && x.chain[k].sub == x.commp[step.blob] && x.chain[k].removed)
  }

  ghost function WritingChain(k: ChainKey, f: RowField): (State, Step) -> bool {
    (x: State, step: Step) => WritesChain(x, step, k, f)
  }

  ghost function ClearingChain(k: ChainKey, f: RowField): (State, Step) -> bool {
    (x: State, step: Step) => ClearsChain(x, step, k, f)
  }

  lemma {:induction false} RowAfterChain(x: State, step: ChainStep, k: ChainKey, f: RowField)
    requires ChainEnabled(x, step)
    ensures ChainHas(ChainApply(x, step), k, f) <==>
            WritesChain(x, Chain(step), k, f) || (ChainHas(x, k, f) && !ClearsChain(x, Chain(step), k, f))
  {
  }

  lemma {:induction false} ChainHasAfter(e: Env, x: State, step: Step, k: ChainKey, f: RowField)
    requires Enabled(x, step)
    ensures ChainHas(Apply(e, x, step), k, f) <==>
            WritingChain(k, f)(x, step) || (ChainHas(x, k, f) && !ClearingChain(k, f)(x, step))
  {
    match step
    case Client(_) =>
    case Task(t) => TaskKeepsRows(e, x, t);
    case Batch(t) => BatchKeepsRows(x, t);
    case Chain(c) => RowAfterChain(x, c, k, f);
    case Sweep(c, o) => TurnEffect(e, x, c, o);
    case CleanUp(_) =>
  }

  /** Over any run an on-chain row holds a value if and only if the step that wrote it stands. */
  lemma {:induction false} ChainHasIff(e: Env, s: State, steps: seq<Step>, k: ChainKey, f: RowField)
    requires IsRun(e, s, steps)
    ensures ChainHas(After(e, s, steps), k, f) <==>
            Standing(States(e, s, steps), steps, ChainHas(s, k, f), WritingChain(k, f), ClearingChain(k, f))
  {
    forall x: State, step: Step, y: State | Next(e)(x, step, y)
      ensures ChainHas(y, k, f) <==>
              WritingChain(k, f)(x, step) || (ChainHas(x, k, f) && !ClearingChain(k, f)(x, step))
    {
      ChainHasAfter(e, x, step, k, f);
    }
    LawOverRuns(Next(e), States(e, s, steps), steps, (x: State) => ChainHas(x, k, f), WritingChain(k, f),
                ClearingChain(k, f));
  }
}
