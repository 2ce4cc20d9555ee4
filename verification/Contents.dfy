/**
  What each table of the lifecycle holds after any run, told by the steps that
  put it there and took it away.
 */
module Contents {
  import opened Common
  import opened Pipeline
  import opened Lifecycle
  import opened RootRows
  import opened SweepTurn
  import opened Histories

  // ---------------------------------------------------------------- histories

  ghost function Next(e: Env): (State, Step, State) -> bool {
    (x: State, step: Step, y: State) => Enabled(x, step) && y == Apply(e, x, step)
  }

  /** The states a run goes through. */
  ghost function States(e: Env, s: State, steps: seq<Step>): (r: seq<State>)
    requires IsRun(e, s, steps)
    ensures |r| == |steps| + 1 && r[0] == s && r[|steps|] == After(e, s, steps)
    ensures Traces(Next(e), r, steps)
    decreases |steps|
  {
    if steps == [] then [s]
    else
      var rest := States(e, Apply(e, s, steps[0]), steps[1..]);
      TracesFrom(Next(e), s, steps[0], rest, steps[1..]);
      assert [steps[0]] + steps[1..] == steps;
      [s] + rest
  }

  // ----------------------------------------------------------------- claims

  /** The claim is an acceptance or, if not `accepted`, an allocation. */
  ghost predicate HasClaim(x: State, c: Claim, accepted: bool) {
    if accepted then c in x.claims.acceptances else c in x.claims.allocations
  }

  ghost function Claiming(c: Claim, accepted: bool): (State, Step) -> bool {
    (x: State, step: Step) =>
      && step.Client? && (if accepted then step.client.Accept? else step.client.Allocate?)
      && step.client.blob == c.blob && step.client.space == c.space
  }

  ghost function Releasing(c: Claim): (State, Step) -> bool {
    (x: State, step: Step) => step == Client(Release(c.blob, c.space))
  }

  lemma {:induction false} ClaimAfterClient(x: State, step: ClientStep, c: Claim, accepted: bool)
    requires ClientEnabled(x, step)
    ensures HasClaim(ClientApply(x, step), c, accepted) <==>
            Claiming(c, accepted)(x, Client(step)) || (HasClaim(x, c, accepted) && !Releasing(c)(x, Client(step)))
  {
  }

  lemma {:induction false} ClaimAfter(e: Env, x: State, step: Step, c: Claim, accepted: bool)
    requires Enabled(x, step)
    ensures HasClaim(Apply(e, x, step), c, accepted) <==>
            Claiming(c, accepted)(x, step) || (HasClaim(x, c, accepted) && !Releasing(c)(x, step))
  {
    match step
    case Client(t) => ClaimAfterClient(x, t, c, accepted);
    case Task(t) => TaskKeepsRows(e, x, t);
    case Batch(t) => BatchKeepsRows(x, t);
    case Chain(_) =>
    case Sweep(b, o) => TurnEffect(e, x, b, o);
    case CleanUp(_) =>
  }

  /** Over any run a space has accepted, or allocated, a blob if and only if that accept, or allocation, stands. */
  lemma {:induction false} ClaimIff(e: Env, s: State, steps: seq<Step>, c: Claim, accepted: bool)
    requires IsRun(e, s, steps)
    ensures HasClaim(After(e, s, steps), c, accepted) <==>
            Standing(States(e, s, steps), steps, HasClaim(s, c, accepted), Claiming(c, accepted), Releasing(c))
  {
    forall x: State, step: Step, y: State | Next(e)(x, step, y)
      ensures HasClaim(y, c, accepted) <==>
              Claiming(c, accepted)(x, step) || (HasClaim(x, c, accepted) && !Releasing(c)(x, step))
    {
      ClaimAfter(e, x, step, c, accepted);
    }
    LawOverRuns(Next(e), States(e, s, steps), steps, (x: State) => HasClaim(x, c, accepted), Claiming(c, accepted),
                Releasing(c));
  }

  // --------------------------------------------------------------- requests

  ghost function Requested(b: Blob): State -> bool {
    (x: State) => b in x.pending
  }

  /** RemovePiece, or the release of the last claim. */
  ghost predicate Requests(x: State, step: Step, b: Blob) {
    && step.Client?
    && (|| step.client == RemovePiece(b)
        || (&& step.client.Release? && step.client.blob == b
            && forall sp :: Held(x, b, sp) ==> sp == step.client.space))
  }

  ghost function Requesting(b: Blob): (State, Step) -> bool {
    (x: State, step: Step) => Requests(x, step, b)
  }

  /** A turn that finds the blob claimed, or commits its removal. */
  ghost function Answering(b: Blob): (State, Step) -> bool {
    (x: State, step: Step) => step.Sweep? && step.blob == b && (Claimed(x, b) || Removes(x, step, b))
  }

  lemma {:induction false} RequestAfterClient(x: State, step: ClientStep, b: Blob)
    ensures b in ClientApply(x, step).pending <==> Requests(x, Client(step), b) || b in x.pending
  {
    if step.Release? && step.blob == b {
      var sp := step.space;
      var y := ClientApply(x, step);
      assert forall q :: Held(y, b, q) <==> Held(x, b, q) && q != sp;
      if Claimed(y, b) {
        var c :| (c in y.claims.acceptances || c in y.claims.allocations) && c.blob == b;
        assert Held(y, b, c.space);
      }
      if q :| Held(x, b, q) && q != sp { assert Held(y, b, q); }
    }
  }

  lemma {:induction false} RequestAfter(e: Env, x: State, step: Step, b: Blob)
    requires Enabled(x, step)
    ensures Requested(b)(Apply(e, x, step)) <==>
            Requesting(b)(x, step) || (Requested(b)(x) && !Answering(b)(x, step))
  {
    match step
    case Client(c) => RequestAfterClient(x, c, b);
    case Task(t) => TaskKeepsRows(e, x, t);
    case Batch(t) => BatchKeepsRows(x, t);
    case Chain(_) =>
    case Sweep(c, o) => TurnEffect(e, x, c, o);
    case CleanUp(_) =>
  }

  /**
    Over any run a blob is to be removed if and only if a request for it, a
    RemovePiece or the release of its last claim, stands since the last turn
    that found it claimed or committed its removal.
   */
  lemma {:induction false} PendingIff(e: Env, s: State, steps: seq<Step>, b: Blob)
    requires IsRun(e, s, steps)
    ensures b in After(e, s, steps).pending <==>
            Standing(States(e, s, steps), steps, b in s.pending, Requesting(b), Answering(b))
  {
    forall x: State, step: Step, y: State | Next(e)(x, step, y)
      ensures Requested(b)(y) <==>
              Requesting(b)(x, step) || (Requested(b)(x) && !Answering(b)(x, step))
    {
      RequestAfter(e, x, step, b);
    }
    LawOverRuns(Next(e), States(e, s, steps), steps, Requested(b), Requesting(b), Answering(b));
  }

  // ------------------------------------------------------------------ bytes

  ghost function Stored(b: Blob): State -> bool {
    (x: State) => b in x.bytes
  }

  ghost function Uploading(b: Blob): (State, Step) -> bool {
    (x: State, step: Step) => step == Client(Upload(b))
  }

  /** A turn that deletes the bytes, or a failed upload's clean-up. */
  ghost function Deleting(b: Blob): (State, Step) -> bool {
    (x: State, step: Step) => step == CleanUp(b) || Deletes(x, step, b)
  }

  lemma {:induction false} TaskKeepsBlobs(e: Env, x: State, step: TaskStep)
    requires TaskEnabled(x, step)
    ensures TaskApply(e, x, step).bytes == x.bytes && TaskApply(e, x, step).pipeline.Keys == x.pipeline.Keys
  {
  }

  lemma {:induction false} BatchKeepsPieces(x: State, step: BatchStep)
    requires BatchEnabled(x, step)
    ensures var y := BatchApply(x, step); y.bytes == x.bytes && y.commp == x.commp && y.refs == x.refs
  {
  }

  lemma {:induction false} BytesAfter(e: Env, x: State, step: Step, b: Blob)
    requires Enabled(x, step)
    ensures Stored(b)(Apply(e, x, step)) <==> Uploading(b)(x, step) || (Stored(b)(x) && !Deleting(b)(x, step))
  {
    match step
    case Client(_) =>
    case Task(t) => TaskKeepsBlobs(e, x, t);
    case Batch(t) => BatchKeepsPieces(x, t);
    case Chain(_) =>
    case Sweep(c, o) => TurnEffect(e, x, c, o);
    case CleanUp(_) =>
  }

  /**
    Over any run a blob is stored if and only if an upload of it stands since
    the last clean-up and the last turn that deleted it, unclaimed and unneeded.
   */
  lemma {:induction false} StoredIff(e: Env, s: State, steps: seq<Step>, b: Blob)
    requires IsRun(e, s, steps)
    ensures b in After(e, s, steps).bytes <==>
            Standing(States(e, s, steps), steps, b in s.bytes, Uploading(b), Deleting(b))
  {
    forall x: State, step: Step, y: State | Next(e)(x, step, y)
      ensures Stored(b)(y) <==> Uploading(b)(x, step) || (Stored(b)(x) && !Deleting(b)(x, step))
    {
      BytesAfter(e, x, step, b);
    }
    LawOverRuns(Next(e), States(e, s, steps), steps, Stored(b), Uploading(b), Deleting(b));
  }

  // ------------------------------------------------------------ pipeline rows

  ghost function Queued(b: Blob): State -> bool {
    (x: State) => b in x.pipeline
  }

  /** No add of the blob's piece is alive, and every on-chain row of it is removed or being removed. */
  ghost predicate Idle(x: State, b: Blob) {
    b in x.commp ==>
      && (forall k :: k in x.adds && k.sub == x.commp[b] ==> x.adds[k].promoted || x.adds[k].ok == Some(false))
      && (forall k :: k in x.chain && x.chain[k].sub == x.commp[b] ==> x.chain[k].removed || x.chain[k].rmHash.Some?)
  }

  ghost function Enqueuing(b: Blob): (State, Step) -> bool {
    (x: State, step: Step) => step.Client? && step.client.Accept? && step.client.blob == b && Idle(x, b)
  }

  /** A turn that finds the row free, or the retirement of its root. */
  ghost predicate Leaves(x: State, step: Step, b: Blob) {
    || (step.Sweep? && step.blob == b && Doomed(x, b) && !RowStays(x, b))
    || (&& step.Batch? && step.batch.Retire? && step.batch.id in x.batches.loaded
        && b in x.pipeline && x.pipeline[b].slot.Some?
        && x.pipeline[b].slot.value.root in x.batches.loaded[step.batch.id])
  }

  ghost function Leaving(b: Blob): (State, Step) -> bool {
    (x: State, step: Step) => Leaves(x, step, b)
  }

  lemma {:induction false} CarriedIff(x: State, b: Blob)
    ensures Carried(x, b) <==> !Idle(x, b)
  {
  }

  lemma {:induction false} RowAfterBatch(x: State, step: BatchStep, b: Blob)
    requires BatchEnabled(x, step)
    ensures b in BatchApply(x, step).pipeline <==> b in x.pipeline && !Leaves(x, Batch(step), b)
  {
  }

  lemma {:induction false} RowAfter(e: Env, x: State, step: Step, b: Blob)
    requires Enabled(x, step)
    ensures Queued(b)(Apply(e, x, step)) <==> Enqueuing(b)(x, step) || (Queued(b)(x) && !Leaving(b)(x, step))
  {
    match step
    case Client(c) => CarriedIff(x, b);
    case Task(t) => TaskKeepsBlobs(e, x, t);
    case Batch(t) => RowAfterBatch(x, t, b);
    case Chain(_) =>
    case Sweep(c, o) => TurnEffect(e, x, c, o);
    case CleanUp(_) =>
  }

  /**
    Over any run a blob has a pipeline row if and only if an accept that found
    no live add or row of its piece stands since it was last taken out: by a
    turn that found the row free, or with its root.
   */
  lemma {:induction false} QueuedIff(e: Env, s: State, steps: seq<Step>, b: Blob)
    requires IsRun(e, s, steps)
    ensures b in After(e, s, steps).pipeline <==>
            Standing(States(e, s, steps), steps, b in s.pipeline, Enqueuing(b), Leaving(b))
  {
    forall x: State, step: Step, y: State | Next(e)(x, step, y)
      ensures Queued(b)(y) <==> Enqueuing(b)(x, step) || (Queued(b)(x) && !Leaving(b)(x, step))
    {
      RowAfter(e, x, step, b);
    }
    LawOverRuns(Next(e), States(e, s, steps), steps, Queued(b), Enqueuing(b), Leaving(b));
  }

  // ------------------------------------------------ mappings and piece references

  ghost function HasMapping(b: Blob): State -> bool {
    (x: State) => b in x.commp
  }

  ghost predicate Maps(step: Step, b: Blob) {
    step.Task? && (step.task == Calculate(b)
                   || (step.task.Hash? && step.task.blob == b) || (step.task.HashParkStamp? && step.task.blob == b))
  }

  ghost function Mapping(b: Blob): (State, Step) -> bool {
    (x: State, step: Step) => Maps(step, b)
  }

  ghost function Removing(b: Blob): (State, Step) -> bool {
    (x: State, step: Step) => Removes(x, step, b)
  }

  /** An existing mapping is reused; a new one is that of the blob's bytes. */
  lemma {:induction false} MappingAfterTask(e: Env, x: State, step: TaskStep, b: Blob)
    requires TaskEnabled(x, step)
    ensures var y := TaskApply(e, x, step);
            && (b in y.commp <==> Maps(Task(step), b) || b in x.commp)
            && (b in y.commp ==> y.commp[b] == if b in x.commp then x.commp[b] else e.commP(b))
  {
  }

  lemma {:induction false} MappingAfter(e: Env, x: State, step: Step, b: Blob)
    requires Enabled(x, step)
    ensures HasMapping(b)(Apply(e, x, step)) <==> Mapping(b)(x, step) || (HasMapping(b)(x) && !Removing(b)(x, step))
  {
    match step
    case Client(_) =>
    case Task(t) => MappingAfterTask(e, x, t, b);
    case Batch(t) => BatchKeepsPieces(x, t);
    case Chain(_) =>
    case Sweep(c, o) => TurnEffect(e, x, c, o);
    case CleanUp(_) =>
  }

  /** Over any run a blob has a mapping if and only if one was written since its removal last committed. */
  lemma {:induction false} MappedIff(e: Env, s: State, steps: seq<Step>, b: Blob)
    requires IsRun(e, s, steps)
    ensures b in After(e, s, steps).commp <==>
            Standing(States(e, s, steps), steps, b in s.commp, Mapping(b), Removing(b))
  {
    forall x: State, step: Step, y: State | Next(e)(x, step, y)
      ensures HasMapping(b)(y) <==> Mapping(b)(x, step) || (HasMapping(b)(x) && !Removing(b)(x, step))
    {
      MappingAfter(e, x, step, b);
    }
    LawOverRuns(Next(e), States(e, s, steps), steps, HasMapping(b), Mapping(b), Removing(b));
  }

  ghost function HasReference(p: Piece): State -> bool {
    (x: State) => p in x.refs
  }

  /** The run's second write: the reference of the piece it has mapped. */
  ghost predicate Parks(e: Env, x: State, step: Step, p: Piece) {
    && step.Task?
    && (|| (step.task.Park? && step.task.id in x.tasks.working && x.tasks.working[step.task.id].piece == p)
        || (step.task.HashParkStamp?
            && p == if step.task.blob in x.commp then x.commp[step.task.blob] else e.commP(step.task.blob)))
  }

  ghost function Parking(e: Env, p: Piece): (State, Step) -> bool {
    (x: State, step: Step) => Parks(e, x, step, p)
  }

  ghost function Unparking(p: Piece): (State, Step) -> bool {
    (x: State, step: Step) =>
      step.Sweep? && Removes(x, step, step.blob) && step.blob in x.commp && x.commp[step.blob] == p
  }

  lemma {:induction false} ReferenceAfterTask(e: Env, x: State, step: TaskStep, p: Piece)
    requires TaskEnabled(x, step)
    ensures p in TaskApply(e, x, step).refs <==> Parks(e, x, Task(step), p) || p in x.refs
  {
  }

  lemma {:induction false} ReferenceAfter(e: Env, x: State, step: Step, p: Piece)
    requires Enabled(x, step)
    ensures HasReference(p)(Apply(e, x, step)) <==>
            Parking(e, p)(x, step) || (HasReference(p)(x) && !Unparking(p)(x, step))
  {
    match step
    case Client(_) =>
    case Task(t) => ReferenceAfterTask(e, x, t, p);
    case Batch(t) => BatchKeepsPieces(x, t);
    case Chain(_) =>
    case Sweep(c, o) => TurnEffect(e, x, c, o);
    case CleanUp(_) =>
  }

  /**
    Over any run a piece has its reference if and only if a commP run parked it
    since the removal of a blob mapped to it last committed.
   */
  lemma {:induction false} ReferencedIff(e: Env, s: State, steps: seq<Step>, p: Piece)
    requires IsRun(e, s, steps)
    ensures p in After(e, s, steps).refs <==>
            Standing(States(e, s, steps), steps, p in s.refs, Parking(e, p), Unparking(p))
  {
    forall x: State, step: Step, y: State | Next(e)(x, step, y)
      ensures HasReference(p)(y) <==>
              Parking(e, p)(x, step) || (HasReference(p)(x) && !Unparking(p)(x, step))
    {
      ReferenceAfter(e, x, step, p);
    }
    LawOverRuns(Next(e), States(e, s, steps), steps, HasReference(p), Parking(e, p), Unparking(p));
  }
}
