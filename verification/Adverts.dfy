/**
  The IPNI advert queue: claims are queued, claimed in batches by publish
  tasks, published and retired in one transaction, withdrawn, and reclaimed
  from tasks the engine gave up on. Every time a claim is queued is an instance
  of its own.
 */
module Adverts {
  import opened Common
  import opened Sets
  import opened Collecting
  import opened Histories

  type Claim(==, !new)
  type TaskId(==, !new)
  type Spec(!new)

  /** A row of ipni_pending_adverts; instances are numbered in creation order. */
  datatype Row = Row(inst: nat, spec: Option<Spec>, task: Option<TaskId>)

  /** What became of an instance that left the queue; Lost is a row retired without having been loaded. */
  datatype Fate = Published | Skipped | Withdrawn | Lost

  /** A batch being published: it holds the publishing lock and its rows' locks. */
  datatype Publishing = Publishing(task: TaskId, loaded: set<Claim>)

  datatype State = State(
    rows: map<Claim, Row>,
    next: nat,                  // instances queued so far
    fates: map<nat, Fate>,
    live: set<TaskId>,          // harmony_task
    issued: set<TaskId>,        // every id it ever gave out
    withdrawing: set<Claim>,    // rows deleted by a release that has not committed
    publishing: Option<Publishing>,
    batches: seq<set<nat>>)     // the instances each committed batch published or skipped

  const Init := State(map[], 0, map[], {}, {}, {}, None, [])

  const BATCH_SIZE := 1000

  predicate Locked(s: State, c: Claim) {
    c in s.withdrawing || (s.publishing.Some? && c in s.publishing.value.loaded)
  }

  function Stamped(s: State, id: TaskId): set<Claim> {
    set c | c in s.rows && s.rows[c].task == Some(id)
  }

  predicate Orphan(s: State, c: Claim) {
    c in s.rows && s.rows[c].task.Some? && s.rows[c].task.value !in s.live
  }

  /** Up to BATCH_SIZE unclaimed rows, oldest first. */
  ghost predicate IsBatch(s: State, chosen: set<Claim>) {
    && chosen != {} && |chosen| <= BATCH_SIZE
    && (forall c :: c in chosen ==> c in s.rows && s.rows[c].task == None)
    && (forall c, d :: c in chosen && d in s.rows && s.rows[d].task == None && d !in chosen ==>
          |chosen| == BATCH_SIZE && s.rows[c].inst < s.rows[d].inst)
  }

  // ------------------------------------------------------------------ steps

  datatype Step =
    | Enqueue(claim: Claim, spec: Option<Spec>)
    | WithdrawBegin(claim: Claim)
    | WithdrawCommit(claim: Claim)
    | WithdrawAbort(claim: Claim)
    | ClaimBatch(id: TaskId, chosen: set<Claim>)
    | Load(id: TaskId)
    | Commit(usable: set<Claim>)
    | Abort
    | Reclaim
    | EndTask(id: TaskId)

  /** A statement on a row another transaction has locked waits for it. */
  ghost predicate Enabled(s: State, step: Step) {
    match step
    case Enqueue(c, _) => c !in s.withdrawing
    case WithdrawBegin(c) => s.publishing == None && c in s.rows && c !in s.withdrawing
    case WithdrawCommit(c) => c in s.withdrawing
    case WithdrawAbort(c) => c in s.withdrawing
    case ClaimBatch(id, chosen) => id !in s.issued && IsBatch(s, chosen) && chosen !! s.withdrawing
    case Load(id) => s.publishing == None && id in s.issued && Stamped(s, id) !! s.withdrawing
    case Commit(_) => s.publishing.Some?
    case Abort => s.publishing.Some?
    case Reclaim => forall c :: c in s.rows && Orphan(s, c) ==> !Locked(s, c)
    case EndTask(_) => true
  }

  function FateOf(p: Publishing, c: Claim, usable: set<Claim>): Fate {
    if c !in p.loaded then Lost else if c in usable then Published else Skipped
  }

  function Insts(s: State, cs: set<Claim>): set<nat>
    requires forall c :: c in cs ==> c in s.rows
  {
    set c | c in cs :: s.rows[c].inst
  }

  /** The claim of an instance that is queued. */
  ghost predicate QueuedAs(s: State, i: nat, c: Claim) {
    c in s.rows && s.rows[c].inst == i
  }

  /** Retires every row stamped with the batch's id, loaded or not. */
  ghost function Committed(s: State, p: Publishing, usable: set<Claim>): State {
    var retired := Stamped(s, p.task);
    s.(rows := s.rows - retired,
       fates := map i | i in s.fates.Keys + Insts(s, retired) ::
                  if i in s.fates then s.fates[i]
                  else FateOf(p, ClaimOf(s, retired, i), usable),
       publishing := None,
       batches := s.batches + [Insts(s, retired)])
  }

  ghost function ClaimOf(s: State, cs: set<Claim>, i: nat): Claim
    requires forall c :: c in cs ==> c in s.rows
    requires i in Insts(s, cs)
  {
    var c :| c in cs && s.rows[c].inst == i; c
  }

  ghost function Apply(s: State, step: Step): State
    requires Enabled(s, step)
  {
    match step
    case Enqueue(c, spec) =>
      if c in s.rows then s else s.(rows := s.rows[c := Row(s.next, spec, None)], next := s.next + 1)
    case WithdrawBegin(c) => s.(withdrawing := s.withdrawing + {c})
    case WithdrawCommit(c) =>
      if c !in s.rows then s.(withdrawing := s.withdrawing - {c})
      else s.(withdrawing := s.withdrawing - {c}, rows := s.rows - {c}, fates := s.fates[s.rows[c].inst := Withdrawn])
    case WithdrawAbort(c) => s.(withdrawing := s.withdrawing - {c})
    case ClaimBatch(id, chosen) =>
      s.(rows := map c | c in s.rows :: if c in chosen then s.rows[c].(task := Some(id)) else s.rows[c],
         live := s.live + {id}, issued := s.issued + {id})
    case Load(id) => s.(publishing := Some(Publishing(id, Stamped(s, id))))
    case Commit(usable) => Committed(s, s.publishing.value, usable)
    case Abort => s.(publishing := None)
    case Reclaim => s.(rows := map c | c in s.rows :: if Orphan(s, c) then s.rows[c].(task := None) else s.rows[c])
    case EndTask(id) => s.(live := s.live - {id})
  }

  // -------------------------------------------------------------- invariants

  ghost predicate Queued(s: State, i: nat) {
    exists c :: QueuedAs(s, i, c)
  }

  /** Every instance ever queued is in exactly one of queued, published, withdrawn and skipped. */
  ghost predicate Conserved(s: State) {
    && (forall i: nat :: i < s.next <==> Queued(s, i) || i in s.fates)
    && (forall i: nat :: Queued(s, i) ==> i !in s.fates)
    && (forall i :: i in s.fates ==> s.fates[i] != Lost)
    && (forall i, c, d :: QueuedAs(s, i, c) && QueuedAs(s, i, d) ==> c == d)
  }

  ghost predicate InBatch(s: State, i: nat) {
    exists j :: 0 <= j < |s.batches| && i in s.batches[j]
  }

  /** No instance is in two batches, and those in a batch are the published and the skipped ones. */
  ghost predicate BatchesApart(s: State) {
    && (forall i :: i in s.fates && (s.fates[i].Published? || s.fates[i].Skipped?) ==> InBatch(s, i))
    && (forall j, i :: 0 <= j < |s.batches| && i in s.batches[j] ==>
          i in s.fates && (s.fates[i].Published? || s.fates[i].Skipped?))
    && (forall j, k :: 0 <= j < k < |s.batches| ==> s.batches[j] !! s.batches[k])
  }

  /** A batch being published holds exactly the rows stamped with its id. */
  ghost predicate LocksHeld(s: State) {
    && s.live <= s.issued
    && (forall c :: c in s.rows && s.rows[c].task.Some? ==> s.rows[c].task.value in s.issued)
    && (forall c :: c in s.withdrawing ==> c in s.rows)
    && (s.publishing.Some? ==>
          && s.publishing.value.task in s.issued
          && s.publishing.value.loaded == Stamped(s, s.publishing.value.task)
          && s.publishing.value.loaded !! s.withdrawing)
  }

  ghost predicate Inv(s: State) {
    Conserved(s) && BatchesApart(s) && LocksHeld(s)
  }

  // ------------------------------------------------------------ preservation

  /** The same instances are queued under the same claims. */
  ghost predicate SameQueue(s: State, s': State) {
    && s'.next == s.next && s'.fates == s.fates && s'.batches == s.batches
    && forall c, i :: QueuedAs(s', i, c) <==> QueuedAs(s, i, c)
  }

  lemma {:induction false} SameQueueKeeps(s: State, s': State)
    requires Conserved(s) && BatchesApart(s) && SameQueue(s, s')
    ensures Conserved(s') && BatchesApart(s')
  {
    forall i: nat ensures Queued(s', i) <==> Queued(s, i) {
      if Queued(s, i) { var c :| QueuedAs(s, i, c); assert QueuedAs(s', i, c); }
      if Queued(s', i) { var c :| QueuedAs(s', i, c); assert QueuedAs(s, i, c); }
    }
    forall i | InBatch(s, i) ensures InBatch(s', i) {
    }
  }

  lemma {:induction false} EnqueueKeepsConserved(s: State, c: Claim, spec: Option<Spec>)
    requires Inv(s) && Enabled(s, Enqueue(c, spec)) && c !in s.rows
    ensures Conserved(Apply(s, Enqueue(c, spec)))
  {
    var s' := Apply(s, Enqueue(c, spec));
    forall i, d ensures QueuedAs(s', i, d) <==> QueuedAs(s, i, d) || (d == c && i == s.next) {
    }
    forall i: nat ensures Queued(s', i) <==> Queued(s, i) || i == s.next {
      if Queued(s, i) { var d :| QueuedAs(s, i, d); assert QueuedAs(s', i, d); }
      assert QueuedAs(s', s.next, c);
      if Queued(s', i) { var d :| QueuedAs(s', i, d); assert QueuedAs(s, i, d) || i == s.next; }
    }
    assert !(s.next < s.next);
    forall i, a, b | QueuedAs(s', i, a) && QueuedAs(s', i, b) ensures a == b {
      if i == s.next {
        assert QueuedAs(s, i, a) ==> Queued(s, i);
        assert QueuedAs(s, i, b) ==> Queued(s, i);
      }
    }
  }

  lemma {:induction false} WithdrawKeepsConserved(s: State, c: Claim)
    requires Inv(s) && Enabled(s, WithdrawCommit(c))
    ensures Conserved(Apply(s, WithdrawCommit(c))) && BatchesApart(Apply(s, WithdrawCommit(c)))
  {
    var s' := Apply(s, WithdrawCommit(c));
    var n := s.rows[c].inst;
    assert QueuedAs(s, n, c) && Queued(s, n);
    forall i, d ensures QueuedAs(s', i, d) <==> QueuedAs(s, i, d) && i != n {
      if QueuedAs(s, n, d) { assert d == c; }
    }
    forall i: nat ensures Queued(s', i) <==> Queued(s, i) && i != n {
      if Queued(s, i) && i != n { var d :| QueuedAs(s, i, d); assert QueuedAs(s', i, d); }
      if Queued(s', i) { var d :| QueuedAs(s', i, d); assert QueuedAs(s, i, d); }
    }
  }

  /** The committed batch retires its loaded rows, so each of their instances is published or skipped. */
  lemma {:induction false} CommitKeepsConserved(s: State, usable: set<Claim>)
    requires Inv(s) && Enabled(s, Commit(usable))
    ensures Conserved(Apply(s, Commit(usable)))
  {
    var s', p := Apply(s, Commit(usable)), s.publishing.value;
    var retired := Stamped(s, p.task);
    forall i, c ensures QueuedAs(s', i, c) <==> QueuedAs(s, i, c) && i !in Insts(s, retired) {
      if QueuedAs(s, i, c) && i in Insts(s, retired) {
        var d :| d in retired && s.rows[d].inst == i;
        assert QueuedAs(s, i, d);
      }
    }
    forall i: nat ensures Queued(s', i) <==> Queued(s, i) && i !in Insts(s, retired) {
      if Queued(s, i) && i !in Insts(s, retired) { var c :| QueuedAs(s, i, c); assert QueuedAs(s', i, c); }
      if Queued(s', i) { var c :| QueuedAs(s', i, c); assert QueuedAs(s, i, c); }
    }
    forall i | i in Insts(s, retired) ensures Queued(s, i) {
      var d :| d in retired && s.rows[d].inst == i;
      assert QueuedAs(s, i, d);
    }
  }

  lemma {:induction false} CommitKeepsBatches(s: State, usable: set<Claim>)
    requires Inv(s) && Enabled(s, Commit(usable))
    ensures BatchesApart(Apply(s, Commit(usable)))
  {
    var s', p := Apply(s, Commit(usable)), s.publishing.value;
    var retired := Stamped(s, p.task);
    forall i | i in Insts(s, retired)
      ensures i !in s.fates && i in s'.fates && s'.fates[i] != Withdrawn && s'.fates[i] != Lost
    {
      var d :| d in retired && s.rows[d].inst == i;
      assert QueuedAs(s, i, d) && Queued(s, i);
    }
    forall j, k | 0 <= j < k < |s'.batches| ensures s'.batches[j] !! s'.batches[k] {
      if k == |s.batches| {
        assert forall i :: i in s.batches[j] ==> i in s.fates;
      }
    }
    forall i | i in s'.fates && (s'.fates[i].Published? || s'.fates[i].Skipped?) ensures InBatch(s', i) {
      if i in s.fates {
        var j :| 0 <= j < |s.batches| && i in s.batches[j];
        assert s'.batches[j] == s.batches[j];
      } else {
        assert i in s'.batches[|s.batches|];
      }
    }
  }

  lemma {:induction false} StepKeepsLocks(s: State, step: Step)
    requires Inv(s) && Enabled(s, step)
    ensures LocksHeld(Apply(s, step))
  {
  }

  lemma {:induction false} StepKeepsInv(s: State, step: Step)
    requires Inv(s) && Enabled(s, step)
    ensures Inv(Apply(s, step))
  {
    StepKeepsLocks(s, step);
    match step
    case Enqueue(c, spec) => if c !in s.rows { EnqueueKeepsConserved(s, c, spec); }
    case WithdrawCommit(c) => WithdrawKeepsConserved(s, c);
    case Commit(usable) => CommitKeepsConserved(s, usable); CommitKeepsBatches(s, usable);
    case _ => SameQueueKeeps(s, Apply(s, step));
  }

  // ------------------------------------------------------------------- runs

  ghost predicate IsRun(s: State, steps: seq<Step>)
    decreases |steps|
  {
    steps == [] || (Enabled(s, steps[0]) && IsRun(Apply(s, steps[0]), steps[1..]))
  }

  ghost function After(s: State, steps: seq<Step>): State
    requires IsRun(s, steps)
    decreases |steps|
  {
    if steps == [] then s else After(Apply(s, steps[0]), steps[1..])
  }

  lemma {:induction false} RunKeepsInv(s: State, steps: seq<Step>)
    requires Inv(s) && IsRun(s, steps)
    ensures Inv(After(s, steps))
    decreases |steps|
  {
    if steps != [] {
      StepKeepsInv(s, steps[0]);
      RunKeepsInv(Apply(s, steps[0]), steps[1..]);
    }
  }

  /** At all times every queued instance has one place, none is lost, and no two batches share one. */
  lemma {:induction false} AdvertsConserved(steps: seq<Step>)
    requires IsRun(Init, steps)
    ensures Conserved(After(Init, steps)) && BatchesApart(After(Init, steps))
  {
    RunKeepsInv(Init, steps);
  }

  /** Rows of a live task are never reclaimed, nor claimed by another: only its own batch or a withdrawal takes them. */
  lemma {:induction false} LiveRowsKept(s: State, step: Step, c: Claim)
    requires Inv(s) && Enabled(s, step)
    requires c in s.rows && s.rows[c].task.Some? && s.rows[c].task.value in s.live
    ensures var s' := Apply(s, step);
            || (c in s'.rows && s'.rows[c] == s.rows[c])
            || (step == WithdrawCommit(c))
            || (step.Commit? && s.publishing.value.task == s.rows[c].task.value)
  {
  }

  /** `c` is neither queued nor in the batch being published. */
  ghost predicate Absent(s: State, c: Claim) {
    c !in s.rows && !(s.publishing.Some? && c in s.publishing.value.loaded)
  }

  /** The instances of `c` that were published or will be by the batch in progress. */
  ghost predicate Publishes(s: State, step: Step, c: Claim) {
    step.Commit? && s.publishing.Some? && c in Stamped(s, s.publishing.value.task)
  }

  ghost predicate NeverPublishes(s: State, steps: seq<Step>, c: Claim)
    requires IsRun(s, steps)
    decreases |steps|
  {
    steps == [] || (!Publishes(s, steps[0], c) && NeverPublishes(Apply(s, steps[0]), steps[1..], c))
  }

  /** A committed withdrawal leaves the claim out of the queue and out of any batch. */
  lemma {:induction false} WithdrawnIsAbsent(s: State, c: Claim)
    requires Inv(s) && Enabled(s, WithdrawCommit(c))
    ensures Absent(Apply(s, WithdrawCommit(c)), c)
  {
  }

  /** After a committed withdrawal no batch publishes the claim unless it is queued again. */
  lemma {:induction false} WithdrawnStaysUnpublished(s: State, steps: seq<Step>, c: Claim)
    requires Inv(s) && IsRun(s, steps) && Absent(s, c)
    requires forall i :: 0 <= i < |steps| ==> !(steps[i].Enqueue? && steps[i].claim == c)
    ensures NeverPublishes(s, steps, c) && Absent(After(s, steps), c)
    decreases |steps|
  {
    if steps != [] {
      StepKeepsInv(s, steps[0]);
      assert !(steps[0].Enqueue? && steps[0].claim == c);
      AbsentStays(s, steps[0], c);
      WithdrawnStaysUnpublished(Apply(s, steps[0]), steps[1..], c);
    }
  }

  lemma {:induction false} AbsentStays(s: State, step: Step, c: Claim)
    requires Inv(s) && Enabled(s, step) && Absent(s, c) && !(step.Enqueue? && step.claim == c)
    ensures !Publishes(s, step, c) && Absent(Apply(s, step), c)
  {
  }

  /** A batch of fewer than a thousand rows leaves no row unclaimed. */
  lemma {:induction false} ShortBatchTakesAll(s: State, id: TaskId, chosen: set<Claim>, c: Claim)
    requires Enabled(s, ClaimBatch(id, chosen)) && |chosen| < 1000
    requires c in Apply(s, ClaimBatch(id, chosen)).rows
    ensures Apply(s, ClaimBatch(id, chosen)).rows[c].task.Some?
  {
    var d :| d in chosen;
    assert d in s.rows && c in s.rows;
  }

  // ------------------------------------------------------- what a run leaves

  ghost function Next(): (State, Step, State) -> bool {
    (x: State, step: Step, y: State) => Inv(x) && Enabled(x, step) && y == Apply(x, step)
  }

  /** The states a run goes through. */
  ghost function States(s: State, steps: seq<Step>): (r: seq<State>)
    requires Inv(s) && IsRun(s, steps)
    ensures |r| == |steps| + 1 && r[0] == s && r[|steps|] == After(s, steps)
    ensures Traces(Next(), r, steps)
    decreases |steps|
  {
    if steps == [] then [s]
    else
      StepKeepsInv(s, steps[0]);
      var rest := States(Apply(s, steps[0]), steps[1..]);
      TracesFrom(Next(), s, steps[0], rest, steps[1..]);
      assert [steps[0]] + steps[1..] == steps;
      [s] + rest
  }

  /** The claim is queued as instance `i` with this spec. */
  ghost predicate QueuedWith(x: State, c: Claim, i: nat, spec: Option<Spec>) {
    c in x.rows && x.rows[c].inst == i && x.rows[c].spec == spec
  }

  ghost function Enqueuing(c: Claim, i: nat, spec: Option<Spec>): (State, Step) -> bool {
    (x: State, step: Step) => step == Enqueue(c, spec) && c !in x.rows && x.next == i
  }

  /** Its withdrawal commits, or the batch it is in. */
  ghost predicate Dequeues(x: State, step: Step, c: Claim) {
    || step == WithdrawCommit(c)
    || (step.Commit? && x.publishing.Some? && c in x.rows && x.rows[c].task == Some(x.publishing.value.task))
  }

  ghost function Dequeuing(c: Claim): (State, Step) -> bool {
    (x: State, step: Step) => Dequeues(x, step, c)
  }

  /**
    Over any run a claim is queued with a spec if and only if the enqueue that
    gave it that spec stands, neither withdrawn nor in a committed batch.
   */
  lemma {:induction false} QueuedIff(s: State, steps: seq<Step>, c: Claim, i: nat, spec: Option<Spec>)
    requires Inv(s) && IsRun(s, steps)
    ensures QueuedWith(After(s, steps), c, i, spec) <==>
            Standing(States(s, steps), steps, QueuedWith(s, c, i, spec), Enqueuing(c, i, spec), Dequeuing(c))
  {
    forall x: State, step: Step, y: State | Next()(x, step, y)
      ensures QueuedWith(y, c, i, spec) <==>
              Enqueuing(c, i, spec)(x, step) || (QueuedWith(x, c, i, spec) && !Dequeuing(c)(x, step))
    {
      QueuedAfter(x, step, c, i, spec);
    }
    LawOverRuns(Next(), States(s, steps), steps, (x: State) => QueuedWith(x, c, i, spec), Enqueuing(c, i, spec),
                Dequeuing(c));
  }

  lemma {:induction false} QueuedAfter(x: State, step: Step, c: Claim, i: nat, spec: Option<Spec>)
    requires Inv(x) && Enabled(x, step)
    ensures QueuedWith(Apply(x, step), c, i, spec) <==>
            Enqueuing(c, i, spec)(x, step) || (QueuedWith(x, c, i, spec) && !Dequeues(x, step, c))
  {
  }

  ghost predicate ClaimedBy(x: State, c: Claim, id: TaskId) {
    c in x.rows && x.rows[c].task == Some(id)
  }

  ghost function Claiming(c: Claim, id: TaskId): (State, Step) -> bool {
    (x: State, step: Step) => step.ClaimBatch? && step.id == id && c in step.chosen
  }

  /** It leaves the queue, or is reclaimed from a task that is gone. */
  ghost function Unclaiming(c: Claim, id: TaskId): (State, Step) -> bool {
    (x: State, step: Step) => Dequeues(x, step, c) || (step.Reclaim? && id !in x.live)
  }

  /** Over any run a row is a task's if and only if that one claimed it and was not gone at a reclaim since. */
  lemma {:induction false} ClaimedIff(s: State, steps: seq<Step>, c: Claim, id: TaskId)
    requires Inv(s) && IsRun(s, steps)
    ensures ClaimedBy(After(s, steps), c, id) <==>
            Standing(States(s, steps), steps, ClaimedBy(s, c, id), Claiming(c, id), Unclaiming(c, id))
  {
    forall x: State, step: Step, y: State | Next()(x, step, y)
      ensures ClaimedBy(y, c, id) <==> Claiming(c, id)(x, step) || (ClaimedBy(x, c, id) && !Unclaiming(c, id)(x, step))
    {
      ClaimedAfter(x, step, c, id);
    }
    LawOverRuns(Next(), States(s, steps), steps, (x: State) => ClaimedBy(x, c, id), Claiming(c, id),
                Unclaiming(c, id));
  }

  lemma {:induction false} ClaimedAfter(x: State, step: Step, c: Claim, id: TaskId)
    requires Inv(x) && Enabled(x, step)
    ensures ClaimedBy(Apply(x, step), c, id) <==>
            Claiming(c, id)(x, step) || (ClaimedBy(x, c, id) && !Unclaiming(c, id)(x, step))
  {
  }

  ghost function Starting(id: TaskId): (State, Step) -> bool {
    (x: State, step: Step) => step.ClaimBatch? && step.id == id
  }

  ghost function Ending(id: TaskId): (State, Step) -> bool {
    (x: State, step: Step) => step == EndTask(id)
  }

  /** Over any run a task is alive if and only if it was started by a batch and has not ended. */
  lemma {:induction false} LiveIff(s: State, steps: seq<Step>, id: TaskId)
    requires Inv(s) && IsRun(s, steps)
    ensures id in After(s, steps).live <==>
            Standing(States(s, steps), steps, id in s.live, Starting(id), Ending(id))
  {
    forall x: State, step: Step, y: State | Next()(x, step, y)
      ensures id in y.live <==> Starting(id)(x, step) || (id in x.live && !Ending(id)(x, step))
    {
      assert Enabled(x, step) && y == Apply(x, step);
    }
    LawOverRuns(Next(), States(s, steps), steps, (x: State) => id in x.live, Starting(id), Ending(id));
  }

  ghost predicate HasFate(x: State, i: nat, f: Fate) {
    i in x.fates && x.fates[i] == f
  }

  /** The instance leaves the queue: withdrawn, or in the batch that commits, published when its spec is usable. */
  ghost predicate Ends(x: State, step: Step, i: nat, c: Claim, f: Fate) {
    && QueuedAs(x, i, c) && Dequeues(x, step, c)
    && f == if step.WithdrawCommit? then Withdrawn else if c in step.usable then Published else Skipped
  }

  ghost function Deciding(i: nat, f: Fate): (State, Step) -> bool {
    (x: State, step: Step) => exists c :: Ends(x, step, i, c, f)
  }

  ghost function Never(): (State, Step) -> bool {
    (x: State, step: Step) => false
  }

  lemma {:induction false} FateAfterCommit(x: State, usable: set<Claim>, i: nat, f: Fate)
    requires Inv(x) && Enabled(x, Commit(usable))
    ensures HasFate(Apply(x, Commit(usable)), i, f) <==>
            (exists c :: Ends(x, Commit(usable), i, c, f)) || HasFate(x, i, f)
  {
    var p := x.publishing.value;
    var retired := Stamped(x, p.task);
    if i in Insts(x, retired) {
      var c := ClaimOf(x, retired, i);
      assert QueuedAs(x, i, c) && Queued(x, i) && c in retired;
      forall d | QueuedAs(x, i, d) ensures d == c {
      }
      var g := if c in usable then Published else Skipped;
      assert Ends(x, Commit(usable), i, c, g) && FateOf(p, c, usable) == g;
    } else {
      forall c ensures !Ends(x, Commit(usable), i, c, f) {
        assert QueuedAs(x, i, c) && x.rows[c].task == Some(p.task) ==> c in retired;
      }
    }
  }

  lemma {:induction false} FateAfter(x: State, step: Step, i: nat, f: Fate)
    requires Inv(x) && Enabled(x, step)
    ensures HasFate(Apply(x, step), i, f) <==> (exists c :: Ends(x, step, i, c, f)) || HasFate(x, i, f)
  {
    if step.Commit? {
      FateAfterCommit(x, step.usable, i, f);
    } else if step.WithdrawCommit? {
      var c := step.claim;
      assert c in x.rows && QueuedAs(x, x.rows[c].inst, c) && Queued(x, x.rows[c].inst);
      if i == x.rows[c].inst && f == Withdrawn { assert Ends(x, step, i, c, f); }
    }
  }

  /**
    Over any run an instance was published, skipped or withdrawn if and only
    if the step that took it out of the queue did that.
   */
  lemma {:induction false} FateIff(s: State, steps: seq<Step>, i: nat, f: Fate)
    requires Inv(s) && IsRun(s, steps)
    ensures HasFate(After(s, steps), i, f) <==>
            Standing(States(s, steps), steps, HasFate(s, i, f), Deciding(i, f), Never())
  {
    forall x: State, step: Step, y: State | Next()(x, step, y)
      ensures HasFate(y, i, f) <==> Deciding(i, f)(x, step) || (HasFate(x, i, f) && !Never()(x, step))
    {
      FateAfter(x, step, i, f);
    }
    LawOverRuns(Next(), States(s, steps), steps, (x: State) => HasFate(x, i, f), Deciding(i, f), Never());
  }

  // ---------------------------------------------------------- PublishClaimed

  predicate Usable(rows: map<Claim, Row>, metaOk: Spec -> bool, c: Claim) {
    c in rows && rows[c].spec.Some? && metaOk(rows[c].spec.value)
  }

  function UsableOf(rows: map<Claim, Row>, metaOk: Spec -> bool, cs: seq<Claim>): set<Claim> {
    set c | c in cs && Usable(rows, metaOk, c)
  }

  /** The advertisement a row makes, if its spec is usable. */
  ghost function SpecOf(rows: map<Claim, Row>, metaOk: Spec -> bool): Claim -> Option<Spec> {
    (c: Claim) => if c in rows && rows[c].spec.Some? && metaOk(rows[c].spec.value) then rows[c].spec else None
  }

  ghost predicate SpecsUpTo(rows: map<Claim, Row>, order: seq<Claim>, metaOk: Spec -> bool, n: nat, specs: seq<Spec>)
    requires n <= |order|
  {
    Collects(order[..n], SpecOf(rows, metaOk), specs) && |specs| == |UsableOf(rows, metaOk, order[..n])|
  }

  lemma {:induction false} SpecsNext(rows: map<Claim, Row>, order: seq<Claim>, metaOk: Spec -> bool, n: nat,
                                     specs: seq<Spec>)
    requires n < |order| && forall i, j :: 0 <= i < j < |order| ==> order[i] != order[j]
    requires SpecsUpTo(rows, order, metaOk, n, specs)
    ensures SpecsUpTo(rows, order, metaOk, n + 1,
                      if Usable(rows, metaOk, order[n]) then specs + [rows[order[n]].spec.value] else specs)
  {
    var pick := SpecOf(rows, metaOk);
    var taken := if Usable(rows, metaOk, order[n]) then [rows[order[n]].spec.value] else [];
    UsableGrows(rows, metaOk, order, n);
    PrefixGrows(order, n);
    assert Collects([order[n]], pick, taken) by {
      assert Rank([order[n]], pick, 1) == |taken|;
    }
    CollectsConcat(order[..n], [order[n]], pick, specs, taken);
  }

  /** The advertisements of the batch: those of the rows with a usable spec, in order. */
  method Specs(rows: map<Claim, Row>, order: seq<Claim>, metaOk: Spec -> bool) returns (specs: seq<Spec>)
    requires forall i, j :: 0 <= i < j < |order| ==> order[i] != order[j]
    requires forall c :: c in order ==> c in rows
    ensures Collects(order, SpecOf(rows, metaOk), specs) && |specs| == |UsableOf(rows, metaOk, order)|
  {
    specs := [];
    for i := 0 to |order|
      invariant SpecsUpTo(rows, order, metaOk, i, specs)
    {
      SpecsNext(rows, order, metaOk, i, specs);
      var row := rows[order[i]];
      if row.spec == None {
        continue;
      }
      if !metaOk(row.spec.value) {
        continue;
      }
      specs := specs + [row.spec.value];
    }
    WholePrefix(order);
  }

  class Publisher {
    var rows: map<Claim, Row>
    ghost var s: State

    ghost predicate Valid()
      reads this
    {
      Inv(s) && rows == s.rows
    }

    constructor ()
      ensures Valid() && s == Init
    {
      rows, s := map[], Init;
    }

    /**
      Loads the batch's rows, oldest first in `order`, publishes those with a
      usable spec and retires them all; a failure to publish or to commit
      leaves the queue as it was.
     */
    method PublishClaimed(id: TaskId, order: seq<Claim>, metaOk: Spec -> bool, publishFails: bool, commitFails: bool)
      returns (loaded: nat, published: nat, ok: bool, specs: seq<Spec>)
      requires Valid() && Enabled(s, Load(id))
      requires forall i, j :: 0 <= i < j < |order| ==> order[i] != order[j]
      requires forall c :: c in order <==> c in Stamped(s, id)
      modifies this
      ensures Valid()
      ensures loaded == |Stamped(old(s), id)|
      ensures Collects(order, SpecOf(old(rows), metaOk), specs)
      ensures !ok ==> s == Apply(Apply(old(s), Load(id)), Abort)
      ensures ok ==> s == Apply(Apply(old(s), Load(id)), Commit(UsableOf(old(rows), metaOk, order)))
      ensures published == if publishFails then 0 else |UsableOf(old(rows), metaOk, order)|
      ensures ok <==> !commitFails && (publishFails ==> UsableOf(old(rows), metaOk, order) == {})
    {
      StepKeepsInv(s, Load(id));
      s := Apply(s, Load(id));
      ghost var held := s;
      assert Stamped(old(s), id) == set c | c in order;
      DistinctSize(order);
      loaded := |order|;
      forall c | c in order ensures c in rows {
        assert c in Stamped(old(s), id);
      }
      specs := Specs(rows, order, metaOk);
      published := 0;
      var failed := false;
      if |specs| > 0 {
        if publishFails {
          failed := true;
        } else {
          published := |specs|;
        }
      }
      if failed || commitFails {
        StepKeepsInv(s, Abort);
        s := Apply(s, Abort);
        return loaded, published, false, specs;
      }
      ghost var usable := UsableOf(rows, metaOk, order);
      StepKeepsInv(s, Commit(usable));
      s := Apply(s, Commit(usable));
      rows := rows - set c | c in order;
      return loaded, published, true, specs;
    }
  }

  lemma {:induction false} UsableGrows(rows: map<Claim, Row>, metaOk: Spec -> bool, order: seq<Claim>, i: nat)
    requires i < |order| && forall j, k :: 0 <= j < k < |order| ==> order[j] != order[k]
    ensures |UsableOf(rows, metaOk, order[..i + 1])|
         == |UsableOf(rows, metaOk, order[..i])| + if Usable(rows, metaOk, order[i]) then 1 else 0
  {
    PrefixGrows(order, i);
    var a, b := UsableOf(rows, metaOk, order[..i]), UsableOf(rows, metaOk, order[..i + 1]);
    if Usable(rows, metaOk, order[i]) {
      assert b == a + {order[i]} && order[i] !in a;
    } else {
      assert b == a;
    }
  }
}
