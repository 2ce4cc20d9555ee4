/**
  Uploads whose digest is not known until their last byte, as a protocol over
  the upload rows, the staging area and the staging index. Uploads, discards,
  the reaper and the staging store's own operations interleave at every
  statement, and any of them may stop between two of its statements.
 */
module Uploads {
  import opened Common

  type Id(==, !new)     // upload id, a fresh UUID per allocation
  type Digest(==, !new) // blob multihash

  /** How far the PUT holding an upload's lock has got. */
  datatype Phase =
    | Receiving                // before Stage returns
    | Received(digest: Digest) // staged, before the check for held content
    | Unheld(digest: Digest)   // before the completing transaction
    | Duplicate                // its data is to be dropped
    | DuplicateDropped         // its row is to be deleted
    | Discarded                // as Duplicate, once the row was found marked
    | DiscardedDropped

  /** pdp_piece_uploads and what the running PUTs, discards and reaps remember. */
  datatype Rows = Rows(
    marked: map<Id, bool>, // the rows, and whether discarded_at is set
    issued: set<Id>,       // every id ever allocated
    puts: map<Id, Phase>,
    dropping: set<Id>,     // discards that drop data once committed
    listed: set<Id>,       // uploads a reap has listed
    cleared: set<Id>)      // listed uploads whose data the reap has dropped

  /** A Settle or Delete holding a digest's lock. */
  datatype Op = Settling(placed: bool) | Deleting

  /** The staging store: staged objects, pdp_staged_blobs and the blobs at their digests. */
  datatype Store = Store(
    staged: set<Id>,
    index: map<Digest, Id>,
    keyed: set<Digest>,
    busy: map<Digest, Op>,
    removing: set<Digest>) // digests with an unfinished Delete since their entry was recorded

  datatype State = State(rows: Rows, store: Store)

  const Init := State(Rows(map[], {}, map[], {}, {}, {}), Store({}, map[], {}, map[], {}))

  /** The index records that `id` holds some digest. */
  ghost predicate Named(index: map<Digest, Id>, id: Id) {
    exists d :: d in index && index[d] == id
  }

  // ------------------------------------------------------------------ steps

  /** One statement of uploadUnhashedPiece, or its end. */
  datatype PutStep =
    | Begin
    | Write(digest: Digest)
    | WriteFails(dropped: bool)
    | Find(held: bool)
    | Complete
    | DropDuplicate
    | DeleteRow
    | DropDiscarded
    | DeleteDiscarded
    | Stop

  datatype DiscardStep =
    | Discard
    | DropData
    | ReapList
    | ReapDrop
    | ReapDelete

  datatype StoreStep =
    | PutBlob
    | SettleBegin
    | SettleMove
    | SettleCopy
    | SettleUnstage
    | SettleForget
    | DeleteBegin
    | DeleteUnstage
    | DeleteForget
    | DeleteNone
    | Unlock

  datatype Step =
    | Allocate(id: Id)
    | Put(id: Id, put: PutStep)
    | Drop(id: Id, drop: DiscardStep)
    | OnStore(digest: Digest, op: StoreStep)

  predicate PutEnabled(s: State, id: Id, step: PutStep) {
    match step
    case Begin => id !in s.rows.puts && id in s.rows.marked && !s.rows.marked[id]
    case Write(_) => id in s.rows.puts && s.rows.puts[id].Receiving?
    case WriteFails(_) => id in s.rows.puts && s.rows.puts[id].Receiving?
    case Find(_) => id in s.rows.puts && s.rows.puts[id].Received?
    case Complete => id in s.rows.puts && s.rows.puts[id].Unheld?
    case DropDuplicate => id in s.rows.puts && s.rows.puts[id].Duplicate?
    case DeleteRow => id in s.rows.puts && s.rows.puts[id].DuplicateDropped?
    case DropDiscarded => id in s.rows.puts && s.rows.puts[id].Discarded?
    case DeleteDiscarded => id in s.rows.puts && s.rows.puts[id].DiscardedDropped?
    case Stop => id in s.rows.puts
  }

  function At(r: Rows, id: Id, p: Phase): Rows {
    r.(puts := r.puts[id := p])
  }

  function Done(r: Rows, id: Id): Rows {
    r.(puts := r.puts - {id})
  }

  function Unstaged(t: Store, id: Id): Store {
    t.(staged := t.staged - {id})
  }

  /** The row `DELETE ... WHERE discarded_at IS NULL` matches. */
  predicate Unmarked(r: Rows, id: Id) {
    id in r.marked && !r.marked[id]
  }

  /** The completing transaction: delete the unmarked row and record the digest, or neither. */
  function Completed(s: State, id: Id, d: Digest): State {
    if !Unmarked(s.rows, id) then s.(rows := At(s.rows, id, Discarded))
    else if d in s.store.index then s.(rows := At(s.rows, id, Duplicate))
    else State(Done(s.rows, id).(marked := s.rows.marked - {id}), Recorded(s.store, d, id))
  }

  function Recorded(t: Store, d: Digest, id: Id): Store {
    t.(index := t.index[d := id], removing := if d in t.busy then t.removing else t.removing - {d})
  }

  function PutApply(s: State, id: Id, step: PutStep): State
    requires PutEnabled(s, id, step)
  {
    match step
    case Begin => s.(rows := At(s.rows, id, Receiving))
    case Write(d) => State(At(s.rows, id, Received(d)), s.store.(staged := s.store.staged + {id}))
    case WriteFails(dropped) =>
      State(Done(s.rows, id),
            if dropped then Unstaged(s.store, id) else s.store.(staged := s.store.staged + {id}))
    case Find(held) => s.(rows := At(s.rows, id, if held then Duplicate else Unheld(s.rows.puts[id].digest)))
    case Complete => Completed(s, id, s.rows.puts[id].digest)
    case DropDuplicate => State(At(s.rows, id, DuplicateDropped), Unstaged(s.store, id))
    case DeleteRow =>
      if Unmarked(s.rows, id) then s.(rows := Done(s.rows, id).(marked := s.rows.marked - {id}))
      else s.(rows := At(s.rows, id, Discarded))
    case DropDiscarded => State(At(s.rows, id, DiscardedDropped), Unstaged(s.store, id))
    case DeleteDiscarded => s.(rows := Done(s.rows, id).(marked := s.rows.marked - {id}))
    case Stop => s.(rows := Done(s.rows, id))
  }

  predicate DropEnabled(s: State, id: Id, step: DiscardStep) {
    match step
    case Discard => id in s.rows.issued
    case DropData => id in s.rows.dropping
    case ReapList => id in s.rows.marked && s.rows.marked[id]
    case ReapDrop => id in s.rows.listed
    case ReapDelete => id in s.rows.cleared
  }

  function DropApply(s: State, id: Id, step: DiscardStep): State
    requires DropEnabled(s, id, step)
  {
    match step
    case Discard =>
      var rows := if id in s.rows.marked then s.rows.(marked := s.rows.marked[id := true]) else s.rows;
      if exists d :: d in s.store.index && s.store.index[d] == id then s.(rows := rows)
      else s.(rows := rows.(dropping := rows.dropping + {id}))
    case DropData => s.(store := Unstaged(s.store, id))
    case ReapList => s.(rows := s.rows.(listed := s.rows.listed + {id}))
    case ReapDrop => State(s.rows.(cleared := s.rows.cleared + {id}), Unstaged(s.store, id))
    case ReapDelete => s.(rows := s.rows.(marked := s.rows.marked - {id}))
  }

  predicate StoreEnabled(t: Store, d: Digest, step: StoreStep) {
    match step
    case PutBlob => true
    case SettleBegin => d !in t.busy && d in t.index
    case SettleMove => d in t.busy && t.busy[d] == Settling(false) && d in t.index
      && (t.index[d] in t.staged || d in t.keyed)
    case SettleCopy => d in t.busy && t.busy[d] == Settling(false) && d in t.index
      && (t.index[d] in t.staged || d in t.keyed)
    case SettleUnstage => d in t.busy && t.busy[d] == Settling(true) && d in t.index
    case SettleForget => d in t.busy && t.busy[d] == Settling(true) && d in t.index && t.index[d] !in t.staged
    case DeleteBegin => d !in t.busy
    case DeleteUnstage => d in t.busy && t.busy[d] == Deleting && d in t.index
    case DeleteForget => d in t.busy && t.busy[d] == Deleting && d in t.index && t.index[d] !in t.staged
    case DeleteNone => d in t.busy && t.busy[d] == Deleting && d !in t.index
    case Unlock => true
  }

  function Forgotten(t: Store, d: Digest): Store {
    t.(index := t.index - {d}, busy := t.busy - {d}, removing := t.removing - {d})
  }

  function StoreApply(t: Store, d: Digest, step: StoreStep): Store
    requires StoreEnabled(t, d, step)
  {
    match step
    case PutBlob => t.(keyed := t.keyed + {d})
    case SettleBegin => t.(busy := t.busy[d := Settling(false)])
    case SettleMove => Unstaged(t, t.index[d]).(keyed := t.keyed + {d}, busy := t.busy[d := Settling(true)])
    case SettleCopy => t.(keyed := t.keyed + {d}, busy := t.busy[d := Settling(true)])
    case SettleUnstage => Unstaged(t, t.index[d])
    case SettleForget => Forgotten(t, d)
    case DeleteBegin => t.(keyed := t.keyed - {d}, busy := t.busy[d := Deleting], removing := t.removing + {d})
    case DeleteUnstage => Unstaged(t, t.index[d])
    case DeleteForget => Forgotten(t, d)
    case DeleteNone => Forgotten(t, d)
    case Unlock => t.(busy := t.busy - {d})
  }

  predicate Enabled(s: State, step: Step) {
    match step
    case Allocate(id) => id !in s.rows.issued
    case Put(id, p) => PutEnabled(s, id, p)
    case Drop(id, p) => DropEnabled(s, id, p)
    case OnStore(d, op) => StoreEnabled(s.store, d, op)
  }

  function Apply(s: State, step: Step): State
    requires Enabled(s, step)
  {
    match step
    case Allocate(id) => s.(rows := s.rows.(marked := s.rows.marked[id := false], issued := s.rows.issued + {id}))
    case Put(id, p) => PutApply(s, id, p)
    case Drop(id, p) => DropApply(s, id, p)
    case OnStore(d, op) => s.(store := StoreApply(s.store, d, op))
  }

  /** The reaper lists an upload whose data is still being received. */
  predicate Early(s: State, step: Step) {
    step.Drop? && step.drop.ReapList? && step.id in s.rows.puts && s.rows.puts[step.id].Receiving?
  }

  // ------------------------------------------------------------- invariants

  /** Every index entry leads to bytes, unless a Delete of its digest is under way. */
  ghost predicate EntriesHeld(t: Store) {
    forall d :: d in t.index ==> t.index[d] in t.staged || d in t.keyed || d in t.removing
  }

  ghost predicate StoreOk(t: Store) {
    && EntriesHeld(t)
    && (forall d, c :: d in t.index && c in t.index && t.index[d] == t.index[c] ==> d == c)
    && (forall d :: d in t.busy && t.busy[d].Settling? ==> d in t.index && (t.busy[d].placed ==> d in t.keyed))
    && (forall d :: d in t.busy && t.busy[d].Deleting? ==> d in t.removing)
  }

  /** An upload never both has a row and holds a digest. */
  ghost predicate RowOrEntry(s: State) {
    forall id :: id in s.rows.marked ==> !Named(s.store.index, id)
  }

  /** All staged data is named by a row or by the index. */
  ghost predicate StagedNamed(s: State) {
    forall id :: id in s.store.staged ==> id in s.rows.marked || Named(s.store.index, id)
  }

  predicate HasData(p: Phase) {
    p.Received? || p.Unheld?
  }

  predicate HasDropped(p: Phase) {
    p.DuplicateDropped? || p.DiscardedDropped?
  }

  /** A PUT's row stays until it is reaped; unless it was discarded, what it staged is still there. */
  ghost predicate PutOk(s: State, id: Id)
    requires id in s.rows.puts
  {
    && (id in s.rows.marked || id in s.rows.listed)
    && (HasData(s.rows.puts[id]) && Unmarked(s.rows, id) ==> id in s.store.staged)
    && (HasDropped(s.rows.puts[id]) ==> id !in s.store.staged)
  }

  /** An upload being dropped can no longer come to hold a digest. */
  ghost predicate Doomed(s: State, id: Id) {
    id in s.rows.issued && !Named(s.store.index, id) && !Unmarked(s.rows, id)
  }

  ghost predicate Consistent(s: State) {
    && StoreOk(s.store) && RowOrEntry(s) && StagedNamed(s)
    && (forall id :: id in s.rows.puts ==> PutOk(s, id))
    && (forall id :: id in s.rows.dropping ==> Doomed(s, id))
    && (forall id :: id in s.rows.listed ==> Doomed(s, id) && !(id in s.rows.puts && s.rows.puts[id].Receiving?))
    && (forall id :: id in s.rows.cleared ==> id in s.rows.listed && id !in s.store.staged)
    && (forall id :: id in s.rows.marked ==> id in s.rows.issued)
    && (forall d :: d in s.store.index ==> s.store.index[d] in s.rows.issued)
  }

  // ------------------------------------------------------------ preservation

  /** Recording `d` for `id` names `id` and nothing else new. */
  lemma {:induction false} RecordNames(index: map<Digest, Id>, d: Digest, id: Id, x: Id)
    requires d !in index
    ensures Named(index[d := id], x) <==> Named(index, x) || x == id
  {
    if Named(index, x) {
      var c :| c in index && index[c] == x;
      assert index[d := id][c] == x;
    }
    assert index[d := id][d] == id;
  }

  lemma {:induction false} CompleteKeepsConsistent(s: State, id: Id)
    requires Consistent(s) && PutEnabled(s, id, Complete)
    ensures Consistent(PutApply(s, id, Complete))
  {
    var d := s.rows.puts[id].digest;
    assert PutOk(s, id);
    if Unmarked(s.rows, id) && d !in s.store.index {
      forall x ensures Named(s.store.index[d := id], x) <==> Named(s.store.index, x) || x == id {
        RecordNames(s.store.index, d, id, x);
      }
    }
  }

  lemma {:induction false} PutKeepsConsistent(s: State, id: Id, step: PutStep)
    requires Consistent(s) && PutEnabled(s, id, step)
    ensures Consistent(PutApply(s, id, step))
  {
    if step.Complete? {
      CompleteKeepsConsistent(s, id);
    } else if !step.Begin? {
      assert PutOk(s, id);
    }
  }

  lemma {:induction false} DropKeepsConsistent(s: State, id: Id, step: DiscardStep)
    requires Consistent(s) && DropEnabled(s, id, step) && !Early(s, Drop(id, step))
    ensures Consistent(DropApply(s, id, step))
  {
  }

  /** Forgetting `d` un-names only the upload it named. */
  lemma {:induction false} ForgetNames(index: map<Digest, Id>, d: Digest, x: Id)
    ensures Named(index - {d}, x) ==> Named(index, x)
    ensures Named(index, x) && (d in index ==> index[d] != x) ==> Named(index - {d}, x)
  {
    if Named(index - {d}, x) {
      var c :| c in index - {d} && (index - {d})[c] == x;
      assert index[c] == x;
    }
    if Named(index, x) && (d in index ==> index[d] != x) {
      var c :| c in index && index[c] == x;
      assert (index - {d})[c] == x;
    }
  }

  lemma {:induction false} StoreKeepsOk(t: Store, d: Digest, step: StoreStep)
    requires StoreOk(t) && StoreEnabled(t, d, step)
    ensures StoreOk(StoreApply(t, d, step))
  {
  }

  lemma {:induction false} StoreKeepsConsistent(s: State, d: Digest, step: StoreStep)
    requires Consistent(s) && StoreEnabled(s.store, d, step)
    ensures Consistent(s.(store := StoreApply(s.store, d, step)))
  {
    var t := StoreApply(s.store, d, step);
    StoreKeepsOk(s.store, d, step);
    forall x ensures Named(t.index, x) ==> Named(s.store.index, x)
      ensures x in t.staged && Named(s.store.index, x) ==> Named(t.index, x)
    {
      if t.index != s.store.index {
        ForgetNames(s.store.index, d, x);
      }
    }
  }

  lemma {:induction false} StepKeepsConsistent(s: State, step: Step)
    requires Consistent(s) && Enabled(s, step) && !Early(s, step)
    ensures Consistent(Apply(s, step))
  {
    match step
    case Allocate(id) =>
    case Put(id, p) => PutKeepsConsistent(s, id, p);
    case Drop(id, p) => DropKeepsConsistent(s, id, p);
    case OnStore(d, op) => StoreKeepsConsistent(s, d, op);
  }

  // ------------------------------------------------------------------- runs

  ghost predicate IsRun(s: State, steps: seq<Step>)
    decreases |steps|
  {
    steps == [] || (Enabled(s, steps[0]) && IsRun(Apply(s, steps[0]), steps[1..]))
  }

  ghost function After(s: State, steps: seq<Step>): State
    requires IsRun(s, steps)
    decreases |steps|
  {
    if steps == [] then s else After(Apply(s, steps[0]), steps[1..])
  }

  /** The reaper reaches only uploads whose PUT has received everything or stopped. */
  ghost predicate Patient(s: State, steps: seq<Step>)
    requires IsRun(s, steps)
    decreases |steps|
  {
    steps == [] || (!Early(s, steps[0]) && Patient(Apply(s, steps[0]), steps[1..]))
  }

  lemma {:induction false} Append(s: State, steps: seq<Step>, step: Step)
    requires IsRun(s, steps) && Enabled(After(s, steps), step)
    ensures IsRun(s, steps + [step]) && After(s, steps + [step]) == Apply(After(s, steps), step)
    ensures Patient(s, steps) && !Early(After(s, steps), step) ==> Patient(s, steps + [step])
    decreases |steps|
  {
    if steps == [] {
      assert steps + [step] == [step];
      assert [step][1..] == [];
      assert IsRun(Apply(s, step), []);
    } else {
      Append(Apply(s, steps[0]), steps[1..], step);
      assert (steps + [step])[1..] == steps[1..] + [step];
    }
  }

  lemma {:induction false} RunKeepsConsistent(s: State, steps: seq<Step>)
    requires Consistent(s) && IsRun(s, steps) && Patient(s, steps)
    ensures Consistent(After(s, steps))
    decreases |steps|
  {
    if steps != [] {
      StepKeepsConsistent(s, steps[0]);
      RunKeepsConsistent(Apply(s, steps[0]), steps[1..]);
    }
  }

  /**
    At every point of every interleaving: an upload never both has a row and
    holds a digest, every index entry leads to bytes unless its blob is being
    deleted, and all staged data is named by a row or by the index.
   */
  lemma {:induction false} PatientRunsAreConsistent(steps: seq<Step>)
    requires IsRun(Init, steps) && Patient(Init, steps)
    ensures var s := After(Init, steps); RowOrEntry(s) && EntriesHeld(s.store) && StagedNamed(s)
  {
    RunKeepsConsistent(Init, steps);
  }

  /** Staged data the index names goes only once it is at its digest, or in a Delete of that digest. */
  lemma {:induction false} DropsNothingNamed(s: State, step: Step, d: Digest)
    requires Consistent(s) && Enabled(s, step) && !Early(s, step)
    requires d in s.store.index && s.store.index[d] in s.store.staged
    ensures var t := Apply(s, step).store;
            || s.store.index[d] in t.staged
            || (step.OnStore? && step.digest == d && (d in t.keyed || step.op.DeleteUnstage?))
  {
  }

  /** The entry an upload records never breaks the one-entry-per-upload constraint. */
  lemma {:induction false} EntryIsItsFirst(s: State, id: Id)
    requires Consistent(s) && PutEnabled(s, id, Complete) && Unmarked(s.rows, id)
    ensures forall d :: d in s.store.index ==> s.store.index[d] != id
  {
  }

  /** After an early listing, some continuation without another leaves staged data nothing names. */
  lemma {:induction false} EarlyReapOrphans(s: State, step: Step, d: Digest) returns (more: seq<Step>)
    requires Consistent(s) && Enabled(s, step) && Early(s, step)
    ensures IsRun(Apply(s, step), more) && Patient(Apply(s, step), more) && !StagedNamed(After(Apply(s, step), more))
  {
    var id := step.id;
    var s1 := Apply(s, step);
    Append(s1, [], Drop(id, ReapDrop));
    Append(s1, [] + [Drop(id, ReapDrop)], Drop(id, ReapDelete));
    Append(s1, [] + [Drop(id, ReapDrop)] + [Drop(id, ReapDelete)], Put(id, Write(d)));
    more := [] + [Drop(id, ReapDrop)] + [Drop(id, ReapDelete)] + [Put(id, Write(d))];
    var s4 := After(s1, more);
    assert PutOk(s, id);
    assert id in s4.store.staged && id !in s4.rows.marked && !Named(s4.store.index, id);
  }

  /** Some patient continuation leaves staged data nothing names. */
  ghost predicate Orphaning(s: State) {
    exists more :: IsRun(s, more) && Patient(s, more) && !StagedNamed(After(s, more))
  }

  /** A step leads to data nothing names, without another early listing, if and only if it is one itself. */
  lemma {:induction false} OrphansIff(s: State, step: Step, d: Digest)
    requires Consistent(s) && Enabled(s, step)
    ensures Orphaning(Apply(s, step)) <==> Early(s, step)
  {
    if Early(s, step) {
      var more := EarlyReapOrphans(s, step, d);
    } else {
      StepKeepsConsistent(s, step);
      forall more | IsRun(Apply(s, step), more) && Patient(Apply(s, step), more)
        ensures StagedNamed(After(Apply(s, step), more))
      {
        RunKeepsConsistent(Apply(s, step), more);
      }
    }
  }

  /** An early listing can be reached: an upload is discarded while its data is received. */
  lemma {:induction false} EarlyReapIsReachable(id: Id)
    ensures exists steps :: IsRun(Init, steps) && Patient(Init, steps)
              && Enabled(After(Init, steps), Drop(id, ReapList)) && Early(After(Init, steps), Drop(id, ReapList))
  {
    Append(Init, [], Allocate(id));
    Append(Init, [] + [Allocate(id)], Put(id, Begin));
    Append(Init, [] + [Allocate(id)] + [Put(id, Begin)], Drop(id, Discard));
  }
}
