/**
  The life of a blob as a transition system over the shared tables. Every
  committed transaction is one step, a process that dies between two of its
  transactions simply takes no further step, and a commP run's three writes
  (mapping, piece reference, row) are separate steps. One blob's turn in a
  removal sweep is one step.
 */
module Lifecycle {
  import opened Common
  import opened Pipeline

  type Space(==, !new)
  type TxHash(==, !new)

  datatype Claim = Claim(blob: Blob, space: Space)
  /** What a commP run holds in memory between its writes. */
  datatype Work = Work(blob: Blob, piece: Piece, parked: bool)
  datatype RootKey = RootKey(dataSet: int, pieceId: int)
  datatype ChainKey = ChainKey(root: RootKey, offset: nat)
  datatype ChainRow = ChainRow(root: Root, sub: Piece, rmHash: Option<TxHash>, removed: bool)
  datatype AddKey = AddKey(tx: TxHash, root: Root, sub: Piece)
  datatype AddRow = AddRow(ok: Option<bool>, promoted: bool)

  /** Who holds a claim on a blob. */
  datatype Claims = Claims(acceptances: set<Claim>, allocations: set<Claim>)
  /** harmony_task, every id it ever gave out, and what running commP tasks hold in memory. */
  datatype Tasks = Tasks(live: set<TaskId>, issued: set<TaskId>, working: map<TaskId, Work>)
  /** What an AddRoots call sent: its transaction, the roots it recorded, and those it found completed. */
  datatype Sent = Sent(tx: TxHash, added: set<Root>, done: set<Root>)
  /**
    pdp_root_submissions, the aggregates running AddRoots tasks have read, what
    their calls sent, and the history of every root: the aggregates folded under
    it since its last retirement, and ever.
   */
  datatype Batches = Batches(
    submissions: map<Root, Option<TaskId>>,
    loaded: map<TaskId, map<Root, seq<Piece>>>,
    sent: map<TaskId, Sent>,
    stored: map<Root, set<Aggregate>>,
    ever: map<Root, set<Aggregate>>)

  const NoBatches := Batches(map[], map[], map[], map[], map[])

  datatype State = State(
    bytes: set<Blob>,               // blob store, staged or settled
    claims: Claims,
    pipeline: Table,                // pdp_blob_pipeline
    tasks: Tasks,
    commp: map<Blob, Piece>,        // pdp_piece_mh_to_commp
    refs: set<Piece>,               // pdp_piecerefs
    batches: Batches,
    adds: map<AddKey, AddRow>,      // pdp_data_set_piece_adds
    chain: map<ChainKey, ChainRow>, // pdp_data_set_pieces
    keys: set<RootKey>,             // every root the chain ever numbered
    pending: set<Blob>)             // pdp_pending_piece_removals

  /** commP of each blob's bytes. Two blobs can share a piece. */
  datatype Env = Env(commP: Blob -> Piece)

  const Init :=
    State({}, Claims({}, {}), map[], Tasks({}, {}, map[]), map[], {}, NoBatches, map[], map[], {}, {})

  // ---------------------------------------------------------------- queries

  predicate Claimed(s: State, b: Blob) {
    || (exists c :: c in s.claims.acceptances && c.blob == b)
    || (exists c :: c in s.claims.allocations && c.blob == b)
  }

  predicate LiveAdd(r: AddRow) {
    !r.promoted && r.ok != Some(false)
  }

  predicate HasLiveAdd(s: State, p: Piece) {
    exists k :: k in s.adds && k.sub == p && LiveAdd(s.adds[k])
  }

  predicate OnChain(s: State, p: Piece) {
    exists k :: k in s.chain && s.chain[k].sub == p && !s.chain[k].removed
  }

  /** Enqueue's liveness check: an unremoved, unstamped row or a live add. */
  predicate Carried(s: State, b: Blob) {
    && b in s.commp
    && (|| HasLiveAdd(s, s.commp[b])
        || exists k :: k in s.chain && s.chain[k].sub == s.commp[b] && !s.chain[k].removed && s.chain[k].rmHash == None)
  }

  // ------------------------------------------------------ the removal sweep

  predicate Cancellable(s: State, r: Row) {
    && r.slot == None
    && (r.commp.Some? || r.commpTask == None || r.commpTask.value !in s.tasks.live)
    && !(r.staged && r.settleTask.Some? && r.settleTask.value in s.tasks.live)
  }

  function CancelEntry(s: State, b: Blob): State {
    if b in s.pipeline && Cancellable(s, s.pipeline[b]) then s.(pipeline := s.pipeline - {b}) else s
  }

  /** The classification after cancelPipelineEntry: nothing references the bytes. */
  predicate Unreferenced(s: State, b: Blob) {
    if b !in s.commp then b !in s.pipeline
    else
      && !HasLiveAdd(s, s.commp[b])
      && !OnChain(s, s.commp[b])
      && (s.commp[b] !in s.refs || b !in s.pipeline)
  }

  /** `r` differs from `s` in no task, run, batch or staged add. */
  predicate SameRuns(s: State, r: State) {
    r.tasks == s.tasks && r.batches == s.batches && r.adds == s.adds
  }

  /** How far finalizeRemoval gets: not at all, past the byte delete only, or to its commit. */
  datatype Outcome = Untouched | BytesOnly | Committed

  function Finalize(s: State, b: Blob, o: Outcome): (r: State)
    ensures r.pipeline == s.pipeline && SameRuns(s, r) && r.claims == s.claims
  {
    match o
    case Untouched => s
    case BytesOnly => s.(bytes := s.bytes - {b})
    case Committed =>
      var s1 := s.(bytes := s.bytes - {b}, pending := s.pending - {b}, commp := s.commp - {b});
      if b !in s.commp then s1
      else s1.(refs := s.refs - {s.commp[b]},
               chain := map k | k in s.chain && !(s.chain[k].sub == s.commp[b] && s.chain[k].removed) :: s.chain[k])
  }

  /** One blob's turn in processPendingRemovals. */
  function SweepBlob(s: State, b: Blob, o: Outcome): (r: State)
    ensures r.pipeline == s.pipeline || r.pipeline == CancelEntry(s, b).pipeline
    ensures SameRuns(s, r) && r.claims == s.claims
  {
    if b !in s.pending then s
    else if Claimed(s, b) then s.(pending := s.pending - {b})
    else
      var s1 := CancelEntry(s, b);
      if Unreferenced(s1, b) then Finalize(s1, b, o) else s1
  }

  ghost predicate Working(s: State, b: Blob) {
    exists id :: id in s.tasks.working && s.tasks.working[id].blob == b
  }

  /**
    The turn finalizes a blob whose pipeline row is still there, and the row is
    folded, a commP run is past its mapping write, or the transaction does not
    commit.
   */
  ghost predicate Hazard(s: State, b: Blob, o: Outcome) {
    && b in s.pending && !Claimed(s, b)
    && b in CancelEntry(s, b).pipeline
    && Unreferenced(CancelEntry(s, b), b)
    && o != Untouched
    && (o == BytesOnly || s.pipeline[b].slot.Some? || Working(s, b))
  }

  // ------------------------------------------------------------------ steps

  /** Uploads and the UCAN handlers. */
  datatype ClientStep =
    | Upload(blob: Blob)
    | Allocate(blob: Blob, space: Space)
    | Accept(blob: Blob, space: Space, staged: bool)
    | Release(blob: Blob, space: Space)
    | RemovePiece(blob: Blob)

  /** The settle and commP tasks; HashParkStamp is a commP run nothing interleaves with. */
  datatype TaskStep =
    | SpawnSettle(blob: Blob, id: TaskId)
    | Settle(blob: Blob)
    | SpawnCommP(blob: Blob, id: TaskId)
    | Calculate(blob: Blob)
    | Hash(blob: Blob, id: TaskId)
    | Park(id: TaskId)
    | Stamp(id: TaskId)
    | HashParkStamp(blob: Blob, id: TaskId)
    | StopRun(id: TaskId)
    | EndTask(id: TaskId)

  /** The aggregation fold and the AddRoots batches. */
  datatype BatchStep =
    | Fold(aggregate: Aggregate, digests: seq<Blob>)
    | Submit(root: Root)
    | ClaimRoots(roots: set<Root>, id: TaskId)
    | Load(id: TaskId, found: map<Root, seq<AggregatePiece>>)
    | Record(id: TaskId, tx: TxHash, roots: set<Root>)
    | Retire(id: TaskId)

  /** The chain watchers and RemoveRoot. */
  datatype ChainStep =
    | Resolve(tx: TxHash, success: bool)
    | ClearDead(tx: TxHash)
    | Promote(tx: TxHash, root: Root, rows: map<nat, AddKey>, key: RootKey) // the sub-pieces of one root, by offset
    | RemoveRoot(key: RootKey, tx: TxHash)
    | ConfirmRemoval(key: RootKey)
    | ClearStamp(key: RootKey)

  datatype Step =
    | Client(client: ClientStep)
    | Task(task: TaskStep)
    | Batch(batch: BatchStep)
    | Chain(chain: ChainStep)
    | Sweep(blob: Blob, outcome: Outcome)
    | CleanUp(blob: Blob) // a failed upload deletes the bytes of its digest

  predicate ClientEnabled(s: State, step: ClientStep) {
    step.Accept? ==> step.blob in s.bytes
  }

  const NewRow := Row(false, None, None, None, None)

  function ClientApply(s: State, step: ClientStep): (r: State)
    ensures SameRuns(s, r) && r.commp == s.commp && r.refs == s.refs && r.chain == s.chain
    ensures s.bytes <= r.bytes
    ensures || r.pipeline == s.pipeline
            || (step.Accept? && step.blob !in s.pipeline
                && r.pipeline == s.pipeline[step.blob := NewRow.(staged := step.staged)])
  {
    match step
    case Upload(b) => s.(bytes := s.bytes + {b})
    case Allocate(b, sp) => s.(claims := s.claims.(allocations := s.claims.allocations + {Claim(b, sp)}))
    case Accept(b, sp, staged) =>
      var s1 := s.(claims := s.claims.(acceptances := s.claims.acceptances + {Claim(b, sp)}));
      if Carried(s, b) || b in s.pipeline then s1
      else s1.(pipeline := s.pipeline[b := NewRow.(staged := staged)])
    case Release(b, sp) =>
      var s1 := s.(claims := Claims(s.claims.acceptances - {Claim(b, sp)}, s.claims.allocations - {Claim(b, sp)}));
      if Claimed(s1, b) then s1 else s1.(pending := s.pending + {b})
    case RemovePiece(b) => s.(pending := s.pending + {b})
  }

  predicate CanHash(s: State, b: Blob, id: TaskId) {
    && id in s.tasks.live && id !in s.tasks.working
    && b in s.pipeline && s.pipeline[b].commpTask == Some(id) && s.pipeline[b].commp == None
    && (b in s.commp || b in s.bytes)
  }

  predicate TaskEnabled(s: State, step: TaskStep) {
    match step
    case SpawnSettle(b, id) =>
      id !in s.tasks.issued && b in s.pipeline && s.pipeline[b].staged && s.pipeline[b].settleTask == None
    case Settle(b) => b in s.pipeline
    case SpawnCommP(b, id) =>
      && id !in s.tasks.issued && b in s.pipeline && s.pipeline[b].commpTask == None
      && !s.pipeline[b].staged && b !in s.pending
    case Calculate(b) => b in s.commp || b in s.bytes
    case Hash(b, id) => CanHash(s, b, id)
    case HashParkStamp(b, id) => CanHash(s, b, id)
    case Park(id) => id in s.tasks.working
    case Stamp(id) => id in s.tasks.working && s.tasks.working[id].parked
    case StopRun(_) => true
    case EndTask(_) => true
  }

  function Started(t: Tasks, id: TaskId): Tasks {
    t.(live := t.live + {id}, issued := t.issued + {id})
  }

  function Stopped(t: Tasks, id: TaskId): Tasks {
    t.(working := t.working - {id})
  }

  /** What an AddRoots run held in memory is gone. */
  function Forgotten(b: Batches, id: TaskId): Batches {
    b.(loaded := b.loaded - {id}, sent := b.sent - {id})
  }

  /** CalculateCommP: an existing mapping is reused, else the bytes are hashed. */
  function Mapped(e: Env, s: State, b: Blob): State {
    s.(commp := s.commp[b := if b in s.commp then s.commp[b] else e.commP(b)])
  }

  function Hashed(e: Env, s: State, b: Blob, id: TaskId): State {
    var s1 := Mapped(e, s, b);
    s1.(tasks := s.tasks.(working := s.tasks.working[id := Work(b, s1.commp[b], false)]))
  }

  function Parked(s: State, id: TaskId): State
    requires id in s.tasks.working
  {
    s.(refs := s.refs + {s.tasks.working[id].piece},
       tasks := s.tasks.(working := s.tasks.working[id := s.tasks.working[id].(parked := true)]))
  }

  function Stamped(s: State, id: TaskId): State
    requires id in s.tasks.working
  {
    var w := s.tasks.working[id];
    s.(tasks := Stopped(s.tasks, id),
       pipeline := if w.blob in s.pipeline
                   then s.pipeline[w.blob := s.pipeline[w.blob].(commp := Some(w.piece))] else s.pipeline)
  }

  function TaskApply(e: Env, s: State, step: TaskStep): State
    requires TaskEnabled(s, step)
  {
    match step
    case SpawnSettle(b, id) =>
      s.(tasks := Started(s.tasks, id),
         pipeline := s.pipeline[b := s.pipeline[b].(settleTask := Some(id))])
    case Settle(b) => s.(pipeline := s.pipeline[b := s.pipeline[b].(staged := false)])
    case SpawnCommP(b, id) =>
      s.(tasks := Started(s.tasks, id),
         pipeline := s.pipeline[b := s.pipeline[b].(commpTask := Some(id))])
    case Calculate(b) => Mapped(e, s, b)
    case Hash(b, id) => Hashed(e, s, b, id)
    case Park(id) => Parked(s, id)
    case Stamp(id) => Stamped(s, id)
    case HashParkStamp(b, id) => Stamped(Parked(Hashed(e, s, b, id), id), id)
    case StopRun(id) => s.(tasks := Stopped(s.tasks, id), batches := Forgotten(s.batches, id))
    case EndTask(id) =>
      s.(tasks := Stopped(s.tasks, id).(live := s.tasks.live - {id}), batches := Forgotten(s.batches, id))
  }

  predicate InRoot(t: Table, b: Blob, r: Root)
    requires b in t
  {
    t[b].slot.Some? && t[b].slot.value.root == r
  }

  predicate HasRoot(t: Table, r: Root) {
    exists b :: b in t && InRoot(t, b, r)
  }

  function ClaimedBy(s: State, id: TaskId): set<Root> {
    set r | r in s.batches.submissions && s.batches.submissions[r] == Some(id)
  }

  function Links(a: Aggregate): seq<Piece> {
    LinksOf(a.pieces)
  }

  /** The row stores the piece of `ps` at its position. */
  predicate StoresOf(r: Row, ps: seq<AggregatePiece>)
    requires r.slot.Some?
  {
    var i := r.slot.value.position;
    i < |ps| && r.commp == Some(ps[i].link) && r.slot.value.proof == ps[i].proof
  }

  /** Some row of `root` stores the piece of `ps` at position `i`. */
  predicate Filled(t: Table, root: Root, ps: seq<AggregatePiece>, i: nat) {
    exists b :: b in t && InRoot(t, b, root) && t[b].slot.value.position == i && StoresOf(t[b], ps)
  }

  /** loadAggregate rebuilds `ps`: the rows of the root are exactly the pieces of `ps`, at every position. */
  predicate Loads(t: Table, root: Root, ps: seq<AggregatePiece>) {
    && ps != []
    && (forall b :: b in t && InRoot(t, b, root) ==> StoresOf(t[b], ps))
    && (forall i: nat :: i < |ps| ==> Filled(t, root, ps, i))
  }

  function LinksOf(ps: seq<AggregatePiece>): seq<Piece> {
    seq(|ps|, i requires 0 <= i < |ps| => ps[i].link)
  }

  function Under(m: map<Root, set<Aggregate>>, r: Root): set<Aggregate> {
    if r in m then m[r] else {}
  }

  /** The histories once `a` is folded. */
  function Remembered(b: Batches, a: Aggregate): Batches {
    b.(stored := b.stored[a.root := Under(b.stored, a.root) + {a}],
       ever := b.ever[a.root := Under(b.ever, a.root) + {a}])
  }

  /** Some add of the root did not fail, promoted or not. */
  predicate HasAdd(s: State, r: Root) {
    exists k :: k in s.adds && k.root == r && s.adds[k].ok != Some(false)
  }

  /** The root has an on-chain row, removed or not. */
  predicate HasRow(s: State, r: Root) {
    exists k :: k in s.chain && s.chain[k].root == r
  }

  /** The roots an AddRoots call submits: those neither completed nor in flight. */
  function NewRoots(s: State, rs: set<Root>): set<Root> {
    set r | r in rs && !HasAdd(s, r) && !HasRow(s, r)
  }

  function CompletedRoots(s: State, rs: set<Root>): set<Root> {
    set r | r in rs && HasRow(s, r)
  }

  /** An add of the root is confirmed as successful, under `tx` if that is given. */
  predicate Confirmed(s: State, r: Root, tx: Option<TxHash>) {
    exists k :: k in s.adds && k.root == r && s.adds[k].ok == Some(true) && (tx == None || k.tx == tx.value)
  }

  /**
    The AddRoots call returned without an error: what it recorded is confirmed
    or, when it recorded nothing, so is what it found in flight.
   */
  predicate Returned(s: State, id: TaskId)
    requires id in s.batches.loaded && id in s.batches.sent
  {
    var sent := s.batches.sent[id];
    if sent.added != {} then forall r :: r in sent.added ==> Confirmed(s, r, Some(sent.tx))
    else forall r :: r in s.batches.loaded[id] && r !in sent.done ==> Confirmed(s, r, None)
  }

  /** An AddRoots run records the new roots under a transaction no row has yet. */
  predicate BatchEnabled(s: State, step: BatchStep) {
    match step
    case Fold(a, ds) => |a.pieces| > 0 && Foldable(s.pipeline, a, ds)
    case Submit(r) => true
    case ClaimRoots(rs, id) =>
      id !in s.tasks.issued && forall r :: r in rs ==> r in s.batches.submissions && s.batches.submissions[r] == None
    case Load(id, found) =>
      && id in s.tasks.live && found.Keys == ClaimedBy(s, id)
      && forall r :: r in found ==> Loads(s.pipeline, r, found[r])
    case Record(id, tx, rs) =>
      && id in s.batches.loaded && id !in s.batches.sent
      && rs == NewRoots(s, s.batches.loaded[id].Keys) && forall k :: k in s.adds ==> k.tx != tx
    case Retire(id) => id in s.batches.loaded && id in s.batches.sent && Returned(s, id)
  }

  function BatchApply(s: State, step: BatchStep): State
    requires BatchEnabled(s, step)
  {
    match step
    case Fold(a, ds) =>
      s.(pipeline := Folded(s.pipeline, a, ds, |ds|),
         batches := Remembered(s.batches, a))
    case Submit(r) =>
      if r in s.batches.submissions then s
      else s.(batches := s.batches.(submissions := s.batches.submissions[r := None]))
    case ClaimRoots(rs, id) =>
      s.(tasks := Started(s.tasks, id),
         batches := s.batches.(submissions := map r | r in s.batches.submissions ::
                                 if r in rs then Some(id) else s.batches.submissions[r]))
    case Load(id, found) =>
      s.(batches := Forgotten(s.batches, id).(
           loaded := s.batches.loaded[id := map r | r in found :: LinksOf(found[r])]))
    case Record(id, tx, rs) =>
      s.(adds := s.adds + NewAdds(s.batches.loaded[id], tx, rs),
         batches := s.batches.(
           sent := s.batches.sent[id := Sent(tx, rs, CompletedRoots(s, s.batches.loaded[id].Keys))]))
    case Retire(id) =>
      s.(pipeline := map b | b in s.pipeline && !RootIn(s.pipeline[b], s.batches.loaded[id].Keys) :: s.pipeline[b],
         batches := Forgotten(s.batches, id).(
           submissions := map r | r in s.batches.submissions && s.batches.submissions[r] != Some(id)
                            :: s.batches.submissions[r],
           stored := s.batches.stored - s.batches.loaded[id].Keys))
  }

  /** One add per piece of each recorded root. */
  function NewAdds(loaded: map<Root, seq<Piece>>, tx: TxHash, rs: set<Root>): (m: map<AddKey, AddRow>)
    requires rs <= loaded.Keys
    ensures forall k :: k in m <==> k.tx == tx && k.root in rs && k.sub in loaded[k.root]
    ensures forall k :: k in m ==> m[k] == AddRow(None, false)
  {
    map r, i | r in rs && 0 <= i < |loaded[r]| :: AddKey(tx, r, loaded[r][i]) := AddRow(None, false)
  }

  /** The adds of one root under one transaction. */
  function AddsOf(s: State, tx: TxHash, r: Root): set<AddKey> {
    set k | k in s.adds && k.tx == tx && k.root == r
  }

  function NewRows(rows: map<nat, AddKey>, key: RootKey): (m: map<ChainKey, ChainRow>)
    ensures forall k :: k in m <==> k.root == key && k.offset in rows
    ensures forall k :: k in m ==> m[k] == ChainRow(rows[k.offset].root, rows[k.offset].sub, None, false)
  {
    map o | o in rows :: ChainKey(key, o) := ChainRow(rows[o].root, rows[o].sub, None, false)
  }

  /** The rows of a root are inserted together, under a key the chain never used before. */
  predicate ChainEnabled(s: State, step: ChainStep) {
    step.Promote? ==>
      && step.key !in s.keys && step.rows.Values == AddsOf(s, step.tx, step.root)
      && forall o :: o in step.rows ==> step.rows[o] in s.adds && s.adds[step.rows[o]] == AddRow(Some(true), false)
  }

  function ChainApply(s: State, step: ChainStep): (r: State)
    requires ChainEnabled(s, step)
    ensures r == s.(adds := r.adds, chain := r.chain, keys := r.keys)
  {
    match step
    case Resolve(tx, ok) =>
      s.(adds := map k | k in s.adds ::
           if k.tx == tx && s.adds[k].ok == None then s.adds[k].(ok := Some(ok)) else s.adds[k])
    case ClearDead(tx) =>
      s.(adds := map k | k in s.adds && !(k.tx == tx && s.adds[k].ok == Some(false)) :: s.adds[k])
    case Promote(_, _, rows, key) =>
      s.(adds := map k | k in s.adds :: if k in rows.Values then s.adds[k].(promoted := true) else s.adds[k],
         chain := s.chain + NewRows(rows, key),
         keys := s.keys + {key})
    case RemoveRoot(r, tx) =>
      s.(chain := map k | k in s.chain :: if k.root == r then s.chain[k].(rmHash := Some(tx)) else s.chain[k])
    case ConfirmRemoval(r) =>
      s.(chain := map k | k in s.chain ::
           if k.root == r && s.chain[k].rmHash.Some? then s.chain[k].(removed := true) else s.chain[k])
    case ClearStamp(r) =>
      s.(chain := map k | k in s.chain :: if k.root == r then s.chain[k].(rmHash := None) else s.chain[k])
  }

  predicate Enabled(s: State, step: Step) {
    match step
    case Client(c) => ClientEnabled(s, c)
    case Task(t) => TaskEnabled(s, t)
    case Batch(b) => BatchEnabled(s, b)
    case Chain(c) => ChainEnabled(s, c)
    case Sweep(_, _) => true
    case CleanUp(_) => true
  }

  function Apply(e: Env, s: State, step: Step): State
    requires Enabled(s, step)
  {
    match step
    case Client(c) => ClientApply(s, c)
    case Task(t) => TaskApply(e, s, t)
    case Batch(b) => BatchApply(s, b)
    case Chain(c) => ChainApply(s, c)
    case Sweep(b, o) => SweepBlob(s, b, o)
    case CleanUp(b) => s.(bytes := s.bytes - {b})
  }

  predicate RootIn(r: Row, rs: set<Root>) {
    r.slot.Some? && r.slot.value.root in rs
  }

  // ------------------------------------------------------------------- runs

  ghost predicate IsRun(e: Env, s: State, steps: seq<Step>)
    decreases |steps|
  {
    steps == [] || (Enabled(s, steps[0]) && IsRun(e, Apply(e, s, steps[0]), steps[1..]))
  }

  ghost function After(e: Env, s: State, steps: seq<Step>): State
    requires IsRun(e, s, steps)
    decreases |steps|
  {
    if steps == [] then s else After(e, Apply(e, s, steps[0]), steps[1..])
  }

  lemma {:induction false} Append(e: Env, s: State, steps: seq<Step>, step: Step)
    requires IsRun(e, s, steps) && Enabled(After(e, s, steps), step)
    ensures IsRun(e, s, steps + [step])
    ensures After(e, s, steps + [step]) == Apply(e, After(e, s, steps), step)
    decreases |steps|
  {
    if steps == [] {
      assert steps + [step] == [step];
    } else {
      Append(e, Apply(e, s, steps[0]), steps[1..], step);
      assert (steps + [step])[1..] == steps[1..] + [step];
    }
  }

  lemma {:induction false} Concat(e: Env, s: State, steps: seq<Step>, more: seq<Step>)
    requires IsRun(e, s, steps) && IsRun(e, After(e, s, steps), more)
    ensures IsRun(e, s, steps + more) && After(e, s, steps + more) == After(e, After(e, s, steps), more)
    decreases |steps|
  {
    if steps == [] {
      assert steps + more == more;
    } else {
      Concat(e, Apply(e, s, steps[0]), steps[1..], more);
      assert (steps + more)[1..] == steps[1..] + more;
    }
  }
}
