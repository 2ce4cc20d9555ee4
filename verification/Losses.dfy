/**
  The other half of `Safety`: after a hazardous sweep turn or a careless
  clean-up the node can go on to refer to bytes that are gone. When a mapping
  is only ever written together with its piece reference, the turns that lose
  bytes in the end are exactly those that take a shared piece's references away.
 */
module Losses {
  import opened Common
  import opened Pipeline
  import opened Lifecycle
  import opened Stages
  import opened Safety

  /** The step writes a mapping only together with its piece reference. */
  predicate Undivided(step: Step) {
    step.Task? ==> !step.task.Hash? && !step.task.Park? && !step.task.Stamp? && !step.task.Calculate?
  }

  /** The turn of `b` comes to its deletions and commits. */
  predicate Finalizes(s: State, b: Blob) {
    b in s.pending && !Claimed(s, b) && Unreferenced(CancelEntry(s, b), b)
  }

  /** The turn takes away piece references that the mapping of another blob shares. */
  ghost predicate Strips(s: State, c: Blob, o: Outcome) {
    Finalizes(s, c) && o == Committed && c in s.commp && exists b :: b != c && b in s.commp && s.commp[b] == s.commp[c]
  }

  /** The step is undivided, strips no shared piece and is no careless clean-up. */
  ghost predicate Orderly(e: Env, s: State, step: Step) {
    && Undivided(step)
    && (step.Sweep? ==> !Strips(s, step.blob, step.outcome))
    && (step.CleanUp? ==> !Careless(e, s, step.blob))
  }

  ghost predicate AllOrderly(e: Env, s: State, steps: seq<Step>)
    requires IsRun(e, s, steps)
    decreases |steps|
  {
    steps == [] || (Orderly(e, s, steps[0]) && AllOrderly(e, Apply(e, s, steps[0]), steps[1..]))
  }

  /** The step is harmless or, when `u`, orderly. */
  ghost predicate Allowed(e: Env, s: State, step: Step, u: bool) {
    if u then Orderly(e, s, step) else Harmless(e, s, step)
  }

  ghost predicate AllAllowed(e: Env, s: State, steps: seq<Step>, u: bool)
    requires IsRun(e, s, steps)
  {
    if u then AllOrderly(e, s, steps) else AllHarmless(e, s, steps)
  }

  /** Some harmless continuation, or orderly one when `u`, leaves a reference to bytes that are gone. */
  ghost predicate Losing(e: Env, s: State, u: bool) {
    exists steps :: IsRun(e, s, steps) && AllAllowed(e, s, steps, u) && !Safe(e, After(e, s, steps))
  }

  lemma {:induction false} LostNow(e: Env, s: State, u: bool)
    requires !Safe(e, s)
    ensures Losing(e, s, u)
  {
    assert IsRun(e, s, []) && AllAllowed(e, s, [], u) && After(e, s, []) == s;
  }

  lemma {:induction false} LosesAfter(e: Env, s: State, step: Step, u: bool)
    requires Enabled(s, step) && Allowed(e, s, step, u) && Losing(e, Apply(e, s, step), u)
    ensures Losing(e, s, u)
  {
    var s1 := Apply(e, s, step);
    var rest :| IsRun(e, s1, rest) && AllAllowed(e, s1, rest, u) && !Safe(e, After(e, s1, rest));
    var steps := [step] + rest;
    assert steps[1..] == rest;
    assert IsRun(e, s, steps) && AllAllowed(e, s, steps, u) && !Safe(e, After(e, s, steps));
  }

  /** An aggregate of the single piece of `b`, as the fold makes of a large enough piece. */
  ghost predicate AloneIn(e: Env, b: Blob, a: Aggregate) {
    |a.pieces| == 1 && a.pieces[0].link == e.commP(b)
  }

  // ------------------------------------------------------ rows without bytes

  lemma {:induction false} FoldsWithoutBytes(e: Env, s: State, b: Blob, a: Aggregate, u: bool)
    requires AloneIn(e, b, a) && b in s.pipeline && b !in s.bytes
    requires s.pipeline[b].commp == Some(e.commP(b)) && s.pipeline[b].slot == None
    ensures Losing(e, s, u)
  {
    assert Fits(s.pipeline, a, 0, [b][0]);
    var s' := BatchApply(s, Fold(a, [b]));
    assert [b][0] in s'.pipeline && s'.pipeline[b].slot.Some?;
    LostNow(e, s', u);
    LosesAfter(e, s, Batch(Fold(a, [b])), u);
  }

  /** A commP run past its mapping write parks and stamps whether or not the bytes are there. */
  lemma {:induction false} StampsWithoutBytes(e: Env, s: State, b: Blob, id: TaskId, a: Aggregate)
    requires AloneIn(e, b, a) && b in s.pipeline && b !in s.bytes && s.pipeline[b].slot == None
    requires id in s.tasks.working && s.tasks.working[id].blob == b && s.tasks.working[id].piece == e.commP(b)
    ensures Losing(e, s, false)
  {
    var s1 := Parked(s, id);
    FoldsWithoutBytes(e, Stamped(s1, id), b, a, false);
    LosesAfter(e, s1, Task(Stamp(id)), false);
    LosesAfter(e, s, Task(Park(id)), false);
  }

  /** A mapping left behind lets a commP run record a piece without reading the bytes. */
  lemma {:induction false} HashesWithoutBytes(e: Env, s: State, b: Blob, id: TaskId, a: Aggregate, u: bool)
    requires AloneIn(e, b, a) && b !in s.bytes
    requires CanHash(s, b, id) && s.pipeline[b].slot == None && b in s.commp && s.commp[b] == e.commP(b)
    ensures Losing(e, s, u)
  {
    var s' := TaskApply(e, s, HashParkStamp(b, id));
    FoldsWithoutBytes(e, s', b, a, u);
    LosesAfter(e, s, Task(HashParkStamp(b, id)), u);
  }

  /** A row that is not pending is settled and claimed by a commP task. */
  lemma {:induction false} SpawnsWithoutBytes(e: Env, s: State, b: Blob, id: TaskId, a: Aggregate, u: bool)
    requires AloneIn(e, b, a) && b in s.pipeline && b !in s.bytes && b !in s.pending && id !in s.tasks.issued
    requires id !in s.tasks.working && b in s.commp && s.commp[b] == e.commP(b)
    requires s.pipeline[b].slot == None && s.pipeline[b].commp == None && s.pipeline[b].commpTask == None
    ensures Losing(e, s, u)
  {
    var s1 := TaskApply(e, s, Settle(b));
    var s2 := TaskApply(e, s1, SpawnCommP(b, id));
    HashesWithoutBytes(e, s2, b, id, a, u);
    LosesAfter(e, s1, Task(SpawnCommP(b, id)), u);
    LosesAfter(e, s, Task(Settle(b)), u);
  }

  /** A claim revives a pending row: the next turn only drops the request. */
  lemma {:induction false} RevivesWithoutBytes(e: Env, s: State, b: Blob, id: TaskId, sp: Space, a: Aggregate, u: bool)
    requires AloneIn(e, b, a) && b in s.pipeline && b !in s.bytes && id !in s.tasks.issued
    requires id !in s.tasks.working && b in s.commp && s.commp[b] == e.commP(b)
    requires s.pipeline[b].slot == None && s.pipeline[b].commp == None && s.pipeline[b].commpTask == None
    ensures Losing(e, s, u)
  {
    var s1 := ClientApply(s, Allocate(b, sp));
    assert Claim(b, sp) in s1.claims.allocations && Claim(b, sp).blob == b;
    var s2 := SweepBlob(s1, b, Untouched);
    SpawnsWithoutBytes(e, s2, b, id, a, u);
    LosesAfter(e, s1, Sweep(b, Untouched), u);
    LosesAfter(e, s, Client(Allocate(b, sp)), u);
  }

  /** What makes a row whose bytes are gone dangerous: it is folded, hashed, being hashed, or can still be. */
  ghost predicate CanProgress(s: State, b: Blob)
    requires b in s.pipeline
  {
    s.pipeline[b].slot.Some? || Working(s, b) || (b in s.commp && !Stuck(s, b))
  }

  /** A row that can still be folded and whose bytes are gone ends in an aggregate without bytes. */
  lemma {:induction false} RowWithoutBytesLoses(e: Env, s: State, b: Blob, unused: TaskId, sp: Space, a: Aggregate,
                                                u: bool)
    requires Staged(s) && RowsTrue(e, s) && AloneIn(e, b, a) && unused !in s.tasks.issued
    requires b in s.pipeline && b !in s.bytes && CanProgress(s, b) && (u ==> s.tasks.working == map[])
    ensures Losing(e, s, u)
  {
    var row := s.pipeline[b];
    if row.slot.Some? {
      LostNow(e, s, u);
    } else if row.commp.Some? {
      FoldsWithoutBytes(e, s, b, a, u);
    } else if Working(s, b) {
      var id :| id in s.tasks.working && s.tasks.working[id].blob == b;
      StampsWithoutBytes(e, s, b, id, a);
    } else if row.commpTask.Some? {
      HashesWithoutBytes(e, s, b, row.commpTask.value, a, u);
    } else {
      RevivesWithoutBytes(e, s, b, unused, sp, a, u);
    }
  }

  /** Mappings, rows and runs name the pieces of their blobs. */
  ghost predicate RowsTrue(e: Env, s: State) {
    && (forall b :: b in s.commp ==> s.commp[b] == e.commP(b))
    && (forall b :: b in s.pipeline && s.pipeline[b].commp.Some? ==> s.pipeline[b].commp == Some(e.commP(b)))
    && (forall id :: id in s.tasks.working ==> s.tasks.working[id].piece == e.commP(s.tasks.working[id].blob))
  }

  lemma {:induction false} TaskKeepsRowsTrue(e: Env, s: State, step: TaskStep)
    requires RowsTrue(e, s) && TaskEnabled(s, step)
    ensures RowsTrue(e, TaskApply(e, s, step))
  {
  }

  lemma {:induction false} BatchKeepsRowsTrue(e: Env, s: State, step: BatchStep)
    requires RowsTrue(e, s) && BatchEnabled(s, step)
    ensures RowsTrue(e, BatchApply(s, step))
  {
    if step.Fold? { FoldKeepsPieces(s.pipeline, step.aggregate, step.digests); }
  }

  lemma {:induction false} SweepKeepsRowsTrue(e: Env, s: State, b: Blob, o: Outcome)
    requires RowsTrue(e, s)
    ensures RowsTrue(e, SweepBlob(s, b, o))
  {
  }

  /** Harm or not, mappings, rows and runs name the pieces of their blobs. */
  lemma {:induction false} StepKeepsRowsTrue(e: Env, s: State, step: Step)
    requires RowsTrue(e, s) && Enabled(s, step)
    ensures RowsTrue(e, Apply(e, s, step))
  {
    match step
    case Client(c) =>
    case Task(t) => TaskKeepsRowsTrue(e, s, t);
    case Batch(b) => BatchKeepsRowsTrue(e, s, b);
    case Chain(c) =>
    case Sweep(b, o) => SweepKeepsRowsTrue(e, s, b, o);
    case CleanUp(b) =>
  }

  // ---------------------------------------------------------- the two causes

  /** After any hazardous turn the node can go on, without another, to store an aggregate whose bytes are gone. */
  lemma {:induction false} HazardLosesBytes(e: Env, s: State, b: Blob, o: Outcome, a: Aggregate, unused: TaskId,
                                            sp: Space)
    requires Grounded(e, s) && Hazard(s, b, o) && AloneIn(e, b, a) && unused !in s.tasks.issued
    ensures Losing(e, SweepBlob(s, b, o), false)
  {
    var s' := SweepBlob(s, b, o);
    assert CancelEntry(s, b) == s;
    StepKeepsStaged(e, s, Sweep(b, o));
    RowWithoutBytesLoses(e, s', b, unused, sp, a, false);
  }

  // --------------------------------------------------- removing a blob for good

  ghost function ClaimsOn(s: State, b: Blob): set<Claim> {
    set c | c in s.claims.acceptances + s.claims.allocations && c.blob == b
  }

  /** Every space has released `b`, and its removal is requested. */
  ghost function Freed(s: State, b: Blob): State {
    s.(claims := Claims(s.claims.acceptances - ClaimsOn(s, b), s.claims.allocations - ClaimsOn(s, b)),
       pending := s.pending + {b})
  }

  lemma {:induction false} ReleaseThenFree(s: State, b: Blob, c: Claim)
    requires c in ClaimsOn(s, b)
    ensures var s' := ClientApply(s, Release(b, c.space));
            ClaimsOn(s', b) == ClaimsOn(s, b) - {c} && Freed(s', b) == Freed(s, b)
  {
    assert c == Claim(b, c.space);
  }

  lemma {:induction false} FreedLoses(e: Env, s: State, b: Blob, u: bool)
    requires Losing(e, Freed(s, b), u)
    ensures Losing(e, s, u)
    decreases |ClaimsOn(s, b)|
  {
    if c :| c in ClaimsOn(s, b) {
      var s1 := ClientApply(s, Release(b, c.space));
      ReleaseThenFree(s, b, c);
      FreedLoses(e, s1, b, u);
      LosesAfter(e, s, Client(Release(b, c.space)), u);
    } else {
      assert Freed(s, b) == ClientApply(s, RemovePiece(b));
      LosesAfter(e, s, Client(RemovePiece(b)), u);
    }
  }

  lemma {:induction false} FreedIsUnclaimed(s: State, b: Blob)
    ensures b in Freed(s, b).pending && !Claimed(Freed(s, b), b)
  {
    var s' := Freed(s, b);
    forall c | c in s'.claims.acceptances || c in s'.claims.allocations ensures c.blob != b {
      assert c !in ClaimsOn(s, b);
    }
  }

  /** The blobs that hold piece `p`. */
  ghost function Holders(e: Env, s: State, p: Piece): set<Blob> {
    set b | b in s.bytes && e.commP(b) == p
  }

  /** `p` is needed, but no mapped blob holds it any more; rows without a mapping are not hashed. */
  ghost predicate Orphaned(e: Env, s: State, p: Piece) {
    && Needed(s, p)
    && (forall c :: c in s.bytes && e.commP(c) == p ==> c !in s.commp)
    && (forall c :: c in s.pipeline && c !in s.commp ==> s.pipeline[c].commp == None && s.pipeline[c].slot == None)
  }

  /** The row of `c`, if it has one, is settled and its commP task is gone. */
  ghost function Idle(s: State, c: Blob): State {
    if c !in s.pipeline then s
    else
      var s1 := s.(pipeline := s.pipeline[c := s.pipeline[c].(staged := false)]);
      if s.pipeline[c].commpTask == None then s1
      else
        var id := s.pipeline[c].commpTask.value;
        s1.(tasks := Stopped(s.tasks, id).(live := s.tasks.live - {id}), batches := Forgotten(s.batches, id))
  }

  lemma {:induction false} IdleLoses(e: Env, s: State, c: Blob, u: bool)
    requires Losing(e, Idle(s, c), u)
    ensures Losing(e, s, u)
  {
    if c in s.pipeline {
      var settle := Task(Settle(c));
      var s1 := Apply(e, s, settle);
      if s.pipeline[c].commpTask.Some? {
        LosesAfter(e, s1, Task(EndTask(s.pipeline[c].commpTask.value)), u);
      }
      LosesAfter(e, s, settle, u);
    }
  }

  /** An unmapped blob whose row is not hashed is removed for good. */
  ghost function Vanished(s: State, c: Blob): State {
    SweepBlob(Freed(Idle(s, c), c), c, Committed)
  }

  lemma {:induction false} VanishedLoses(e: Env, s: State, c: Blob, u: bool)
    requires c !in s.commp && (c in s.pipeline ==> s.pipeline[c].slot == None) && Losing(e, Vanished(s, c), u)
    ensures Losing(e, s, u)
  {
    var s1 := Idle(s, c);
    var s2 := Freed(s1, c);
    assert c !in CancelEntry(s2, c).pipeline;
    LosesAfter(e, s2, Sweep(c, Committed), u);
    FreedLoses(e, s1, c, u);
    IdleLoses(e, s, c, u);
  }

  lemma {:induction false} VanishedTables(s: State, c: Blob)
    requires c !in s.commp && (c in s.pipeline ==> s.pipeline[c].slot == None)
    ensures var t := Vanished(s, c);
            && t.bytes == s.bytes - {c} && t.pipeline == s.pipeline - {c}
            && t.commp == s.commp && t.adds == s.adds && t.chain == s.chain
  {
    var s2 := Freed(Idle(s, c), c);
    FreedIsUnclaimed(Idle(s, c), c);
    assert s2.pipeline - {c} == s.pipeline - {c} && s.commp - {c} == s.commp;
    assert CancelEntry(s2, c).pipeline == s2.pipeline - {c};
  }

  lemma {:induction false} VanishKeepsOrphaned(e: Env, s: State, c: Blob, p: Piece)
    requires Orphaned(e, s, p) && c in Holders(e, s, p)
    ensures Orphaned(e, Vanished(s, c), p) && Holders(e, Vanished(s, c), p) == Holders(e, s, p) - {c}
  {
    VanishedTables(s, c);
    assert Needed(Vanished(s, c), p);
  }

  /** The blobs that still have the piece's bytes are unmapped, so their removals are harmless, one after the other. */
  lemma {:induction false} OrphanLoses(e: Env, s: State, p: Piece, u: bool)
    requires Orphaned(e, s, p)
    ensures Losing(e, s, u)
    decreases |Holders(e, s, p)|
  {
    if c :| c in Holders(e, s, p) {
      VanishKeepsOrphaned(e, s, c, p);
      OrphanLoses(e, Vanished(s, c), p, u);
      VanishedLoses(e, s, c, u);
    } else {
      assert forall b :: b in s.bytes ==> b !in Holders(e, s, p);
      LostNow(e, s, u);
    }
  }

  /** After any careless clean-up some continuation without another refers to bytes that are gone. */
  lemma {:induction false} CarelessLosesBytes(
    e: Env, s: State, b: Blob, a: Aggregate, unused: TaskId, sp: Space, u: bool)
    requires Grounded(e, s) && Careless(e, s, b) && AloneIn(e, b, a) && unused !in s.tasks.issued
    requires u ==> s.tasks.working == map[]
    ensures Losing(e, s.(bytes := s.bytes - {b}), u)
  {
    var s' := s.(bytes := s.bytes - {b});
    StepKeepsStaged(e, s, CleanUp(b));
    if b in s.commp && b in s.pipeline && !Stuck(s, b) {
      RowWithoutBytesLoses(e, s', b, unused, sp, a, u);
    } else {
      var p :| Needed(s, p) && forall c :: c in s.bytes && c in s.commp && e.commP(c) == p ==> c == b;
      assert Needed(s', p);
      OrphanLoses(e, s', p, u);
    }
  }

  /**
    A step leads to a loss that no other hazardous turn or careless clean-up is
    needed for if and only if it is one itself.
   */
  lemma {:induction false} LosesIff(
    e: Env, s: State, step: Step, unused: TaskId, sp: Space, root: Root, proof: Proof)
    requires Grounded(e, s) && Enabled(s, step) && unused !in s.tasks.issued
    ensures Losing(e, Apply(e, s, step), false) <==> !Harmless(e, s, step)
  {
    if Harmless(e, s, step) {
      StepKeepsGrounded(e, s, step);
      GroundedNeverLoses(e, Apply(e, s, step));
    } else {
      var a := Aggregate(root, [AggregatePiece(e.commP(step.blob), proof)]);
      if step.Sweep? {
        HazardLosesBytes(e, s, step.blob, step.outcome, a, unused, sp);
      } else {
        CarelessLosesBytes(e, s, step.blob, a, unused, sp, false);
      }
    }
  }

  lemma {:induction false} GroundedNeverLoses(e: Env, s: State)
    requires Grounded(e, s)
    ensures !Losing(e, s, false)
  {
    forall steps | IsRun(e, s, steps) && AllAllowed(e, s, steps, false) ensures Safe(e, After(e, s, steps)) {
      RunKeepsGrounded(e, s, steps);
      GroundedIsSafe(e, After(e, s, steps));
    }
  }

  // ------------------------------------------------ commP runs in one step

  /** No commP run is under way, and every mapping has its piece reference. */
  ghost predicate MappedAreParked(s: State) {
    s.tasks.working == map[] && forall b :: b in s.commp ==> s.commp[b] in s.refs
  }

  lemma {:induction false} UndividedTaskKeepsParked(e: Env, s: State, step: TaskStep)
    requires MappedAreParked(s) && TaskEnabled(s, step) && Undivided(Task(step))
    ensures MappedAreParked(TaskApply(e, s, step))
  {
    if step.HashParkStamp? { assert TaskApply(e, s, step).tasks.working.Keys == {}; }
  }

  lemma {:induction false} FinalizeKeepsParkedIff(s: State, b: Blob, o: Outcome)
    requires MappedAreParked(s)
    ensures MappedAreParked(Finalize(s, b, o)) <==>
            !(o == Committed && b in s.commp && exists c :: c != b && c in s.commp && s.commp[c] == s.commp[b])
  {
    if o == Committed && b in s.commp {
      var s' := Finalize(s, b, o);
      if c :| c != b && c in s.commp && s.commp[c] == s.commp[b] {
        assert c in s'.commp && s'.commp[c] !in s'.refs;
      }
    }
  }

  /**
    Nothing is hazardous while every mapping is parked, and a turn keeps that
    if and only if it strips no shared piece.
   */
  lemma {:induction false} SweepKeepsParkedIff(s: State, b: Blob, o: Outcome)
    requires MappedAreParked(s)
    ensures !Hazard(s, b, o)
    ensures MappedAreParked(SweepBlob(s, b, o)) <==> !Strips(s, b, o)
  {
    if Finalizes(s, b) {
      FinalizeKeepsParkedIff(CancelEntry(s, b), b, o);
    }
  }

  lemma {:induction false} OrderlyKeepsParked(e: Env, s: State, step: Step)
    requires MappedAreParked(s) && Enabled(s, step) && Orderly(e, s, step)
    ensures Harmless(e, s, step) && MappedAreParked(Apply(e, s, step))
  {
    match step
    case Client(c) => assert SameRuns(s, ClientApply(s, c));
    case Task(t) => UndividedTaskKeepsParked(e, s, t);
    case Batch(b) => assert BatchApply(s, b).tasks.working == s.tasks.working;
    case Chain(c) =>
    case Sweep(b, o) => SweepKeepsParkedIff(s, b, o);
    case CleanUp(b) =>
  }

  /** With commP runs in one step, every run that strips no shared piece is harmless, wherever finalizations stop. */
  lemma {:induction false} OrderlyRunsAreSafe(e: Env, s: State, steps: seq<Step>)
    requires Grounded(e, s) && MappedAreParked(s) && IsRun(e, s, steps) && AllOrderly(e, s, steps)
    ensures AllHarmless(e, s, steps) && Safe(e, After(e, s, steps))
    decreases |steps|
  {
    if steps == [] {
      GroundedIsSafe(e, s);
    } else {
      OrderlyKeepsParked(e, s, steps[0]);
      StepKeepsGrounded(e, s, steps[0]);
      OrderlyRunsAreSafe(e, Apply(e, s, steps[0]), steps[1..]);
    }
  }

  // --------------------------------------- a stripped piece loses its bytes

  /** `b` is mapped, nothing but its own row refers to its piece, and no commP run is under way. */
  ghost predicate Bare(e: Env, s: State, b: Blob) {
    && Staged(s) && RowsTrue(e, s) && s.tasks.working == map[]
    && b in s.commp && e.commP(b) !in s.refs && !Needed(s, e.commP(b))
  }

  /** Nothing that `Bare` reads besides the rows changes. */
  ghost predicate SameMappings(s: State, s': State) {
    && s'.commp == s.commp && s'.refs == s.refs && s'.adds == s.adds && s'.chain == s.chain
    && s'.tasks.working == s.tasks.working
  }

  lemma {:induction false} StaysBare(e: Env, s: State, step: Step, b: Blob)
    requires Bare(e, s, b) && Enabled(s, step) && SameMappings(s, Apply(e, s, step))
    requires forall c :: c in Apply(e, s, step).pipeline ==>
               || (c in s.pipeline && Apply(e, s, step).pipeline[c].commp == s.pipeline[c].commp)
               || Apply(e, s, step).pipeline[c].commp == None
    ensures Bare(e, Apply(e, s, step), b)
  {
    StepKeepsStaged(e, s, step);
  }

  lemma {:induction false} FreedIsBare(e: Env, s: State, b: Blob)
    requires Bare(e, s, b)
    ensures var s' := Freed(s, b); Bare(e, s', b) && b in s'.pending && !Claimed(s', b)
  {
    var s' := Freed(s, b);
    assert Staged(s') by {
      assert SameRuns(s, s') && s'.pipeline == s.pipeline;
      SameBatches(s, s');
    }
    FreedIsUnclaimed(s, b);
  }

  /** A turn that does not commit deletes the bytes of an unclaimed, bare row it cannot cancel. */
  lemma {:induction false} HeldRowLoses(e: Env, s: State, b: Blob, unused: TaskId, sp: Space, a: Aggregate)
    requires Bare(e, s, b) && AloneIn(e, b, a) && unused !in s.tasks.issued
    requires b in s.pipeline && !Cancellable(s, s.pipeline[b]) && !Stuck(s, b)
    ensures Losing(e, s, true)
  {
    FreedIsBare(e, s, b);
    var s1 := Freed(s, b);
    var s2 := SweepBlob(s1, b, BytesOnly);
    assert s2 == s1.(bytes := s1.bytes - {b});
    StepKeepsStaged(e, s1, Sweep(b, BytesOnly));
    RowWithoutBytesLoses(e, s2, b, unused, sp, a, true);
    LosesAfter(e, s1, Sweep(b, BytesOnly), true);
    FreedLoses(e, s, b, true);
  }

  /** A settled row that waits for hashing is claimed by a task, which holds it. */
  lemma {:induction false} WaitingRowLoses(
    e: Env, s: State, b: Blob, id: TaskId, unused: TaskId, sp: Space, a: Aggregate)
    requires Bare(e, s, b) && AloneIn(e, b, a) && id !in s.tasks.issued && unused !in s.tasks.issued && id != unused
    requires b in s.pipeline && s.pipeline[b] == NewRow && b !in s.pending
    ensures Losing(e, s, true)
  {
    var step := Task(SpawnCommP(b, id));
    StaysBare(e, s, step, b);
    HeldRowLoses(e, Apply(e, s, step), b, unused, sp, a);
    LosesAfter(e, s, step, true);
  }

  /** Its next turn drops the request for removal of a claimed row. */
  lemma {:induction false} ClaimedRowLoses(
    e: Env, s: State, b: Blob, id: TaskId, unused: TaskId, sp: Space, a: Aggregate)
    requires Bare(e, s, b) && AloneIn(e, b, a) && id !in s.tasks.issued && unused !in s.tasks.issued && id != unused
    requires b in s.pipeline && s.pipeline[b] == NewRow && Claimed(s, b)
    ensures Losing(e, s, true)
  {
    var turn := Sweep(b, Untouched);
    StaysBare(e, s, turn, b);
    WaitingRowLoses(e, Apply(e, s, turn), b, id, unused, sp, a);
    LosesAfter(e, s, turn, true);
  }

  /** An upload and an acceptance give a bare blob without a row a new one. */
  lemma {:induction false} NoRowLoses(
    e: Env, s: State, b: Blob, id: TaskId, unused: TaskId, sp: Space, a: Aggregate)
    requires Bare(e, s, b) && AloneIn(e, b, a) && id !in s.tasks.issued && unused !in s.tasks.issued && id != unused
    requires b !in s.pipeline
    ensures Losing(e, s, true)
  {
    var upload, accept := Client(Upload(b)), Client(Accept(b, sp, false));
    StaysBare(e, s, upload, b);
    var s1 := Apply(e, s, upload);
    assert !Carried(s1, b);
    StaysBare(e, s1, accept, b);
    var s2 := Apply(e, s1, accept);
    assert Claim(b, sp) in s2.claims.acceptances && Claim(b, sp).blob == b;
    ClaimedRowLoses(e, s2, b, id, unused, sp, a);
    LosesAfter(e, s1, accept, true);
    LosesAfter(e, s, upload, true);
  }

  /** A bare row that is not folded and not held by a task is cancelled by a turn that then stops. */
  lemma {:induction false} IdleRowLoses(
    e: Env, s: State, b: Blob, id: TaskId, unused: TaskId, sp: Space, a: Aggregate)
    requires Bare(e, s, b) && AloneIn(e, b, a) && id !in s.tasks.issued && unused !in s.tasks.issued && id != unused
    requires b in s.pipeline && Cancellable(s, s.pipeline[b])
    ensures Losing(e, s, true)
  {
    FreedIsBare(e, s, b);
    var s1, turn := Freed(s, b), Sweep(b, Untouched);
    StaysBare(e, s1, turn, b);
    NoRowLoses(e, Apply(e, s1, turn), b, id, unused, sp, a);
    LosesAfter(e, s1, turn, true);
    FreedLoses(e, s, b, true);
  }

  lemma {:induction false} BareLoses(
    e: Env, s: State, b: Blob, id: TaskId, unused: TaskId, sp: Space, a: Aggregate)
    requires Bare(e, s, b) && AloneIn(e, b, a) && id !in s.tasks.issued && unused !in s.tasks.issued && id != unused
    ensures Losing(e, s, true)
  {
    if b !in s.pipeline {
      NoRowLoses(e, s, b, id, unused, sp, a);
    } else {
      var step := Task(Settle(b));
      StaysBare(e, s, step, b);
      var s1 := Apply(e, s, step);
      if Cancellable(s1, s1.pipeline[b]) {
        IdleRowLoses(e, s1, b, id, unused, sp, a);
      } else {
        HeldRowLoses(e, s1, b, unused, sp, a);
      }
      LosesAfter(e, s, step, true);
    }
  }

  lemma {:induction false} StrippedIsBare(e: Env, s: State, c: Blob, o: Outcome, b: Blob)
    requires Grounded(e, s) && MappedAreParked(s) && Strips(s, c, o)
    requires b != c && b in s.commp && s.commp[b] == s.commp[c]
    ensures Bare(e, SweepBlob(s, c, o), b)
  {
    var s' := SweepBlob(s, c, o);
    StepKeepsStaged(e, s, Sweep(c, o));
    assert !Needed(CancelEntry(s, c), e.commP(b));
    assert !Needed(s', e.commP(b));
  }

  /**
    After any turn that strips a shared piece, the node can go on, with commP
    runs in one step throughout, to store an aggregate whose bytes are gone.
   */
  lemma {:induction false} StripLosesBytes(
    e: Env, s: State, c: Blob, o: Outcome, b: Blob, id: TaskId, unused: TaskId, sp: Space, a: Aggregate)
    requires Grounded(e, s) && MappedAreParked(s) && Strips(s, c, o)
    requires b != c && b in s.commp && s.commp[b] == s.commp[c]
    requires AloneIn(e, b, a) && id !in s.tasks.issued && unused !in s.tasks.issued && id != unused
    ensures Losing(e, SweepBlob(s, c, o), true)
  {
    StrippedIsBare(e, s, c, o, b);
    BareLoses(e, SweepBlob(s, c, o), b, id, unused, sp, a);
  }

  /**
    Where mappings are written with their piece references, a step leads to a
    loss over orderly steps if and only if it is not orderly itself.
   */
  lemma {:induction false} OrderlyLosesIff(
    e: Env, s: State, step: Step, id: TaskId, unused: TaskId, sp: Space, root: Root, proof: Proof)
    requires Grounded(e, s) && MappedAreParked(s) && Enabled(s, step) && Undivided(step)
    requires id !in s.tasks.issued && unused !in s.tasks.issued && id != unused
    ensures Losing(e, Apply(e, s, step), true) <==> !Orderly(e, s, step)
  {
    if Orderly(e, s, step) {
      OrderlyKeepsParked(e, s, step);
      StepKeepsGrounded(e, s, step);
      ParkedNeverLoses(e, Apply(e, s, step));
    } else if step.Sweep? {
      var c := step.blob;
      var b :| b != c && b in s.commp && s.commp[b] == s.commp[c];
      StripLosesBytes(e, s, c, step.outcome, b, id, unused, sp, Aggregate(root, [AggregatePiece(e.commP(b), proof)]));
    } else {
      var b := step.blob;
      CarelessLosesBytes(e, s, b, Aggregate(root, [AggregatePiece(e.commP(b), proof)]), unused, sp, true);
    }
  }

  lemma {:induction false} ParkedNeverLoses(e: Env, s: State)
    requires Grounded(e, s) && MappedAreParked(s)
    ensures !Losing(e, s, true)
  {
    forall steps | IsRun(e, s, steps) && AllAllowed(e, s, steps, true) ensures Safe(e, After(e, s, steps)) {
      OrderlyRunsAreSafe(e, s, steps);
    }
  }
}
