/**
  An accepted blob is on its way to being proven or is proven: it has a
  pipeline row, or its piece is in a staged add or an unremoved on-chain row.
  Three steps can break this, and for each the condition is exact.
 */
module Tracking {
  import opened Common
  import opened Pipeline
  import opened Lifecycle
  import opened Stages
  import opened Safety
  import opened RootRows
  import opened RootGroups
  import opened Losses

  predicate Accepted(s: State, b: Blob) {
    exists c :: c in s.claims.acceptances && c.blob == b
  }

  ghost predicate Tracked(s: State, b: Blob) {
    b in s.pipeline || (b in s.commp && Needed(s, s.commp[b]))
  }

  ghost predicate AllTracked(s: State) {
    forall b :: Accepted(s, b) ==> Tracked(s, b)
  }

  /** Every live add of `p` waits for transaction `tx`. */
  ghost predicate OnlyAddedBy(s: State, p: Piece, tx: TxHash) {
    forall k :: k in s.adds && k.sub == p && LiveAdd(s.adds[k]) ==> k.tx == tx && s.adds[k].ok == None
  }

  /** Every unremoved row of `p` is a stamped row of root `key`. */
  ghost predicate OnlyIn(s: State, p: Piece, key: RootKey) {
    forall k :: k in s.chain && s.chain[k].sub == p && !s.chain[k].removed ==> k.root == key && s.chain[k].rmHash.Some?
  }

  // ----------------------------------------------------- what a root carries

  /** A live add or an unremoved row of root `r` has piece `p`. */
  ghost predicate Shows(s: State, r: Root, p: Piece) {
    || (exists k :: k in s.adds && k.root == r && k.sub == p && LiveAdd(s.adds[k]))
    || (exists k :: k in s.chain && s.chain[k].root == r && s.chain[k].sub == p && !s.chain[k].removed)
  }

  ghost predicate LiveRoot(s: State, r: Root) {
    exists p :: Shows(s, r, p)
  }

  ghost predicate Elsewhere(s: State, r: Root, p: Piece) {
    exists q :: q != r && Shows(s, q, p)
  }

  /** `a` is what is staged under the root by a live transaction, or on chain under an unremoved number. */
  ghost predicate LiveAs(s: State, r: Root, a: Aggregate) {
    || (exists tx, p :: AddGroup(s, tx, r, a) && AddKey(tx, r, p) in s.adds && LiveAdd(s.adds[AddKey(tx, r, p)]))
    || (exists k :: k in s.chain && RowGroup(s, k.root, r, a))
  }

  /**
    Nothing that is left carries `p` once its rows under `r` go: no other root
    does, and `r` has neither a live add nor an unremoved row, or only those of
    aggregates without `p`.
   */
  ghost predicate Dropped(s: State, r: Root, p: Piece) {
    && !Elsewhere(s, r, p)
    && (!LiveRoot(s, r) || forall a :: a in Under(s.batches.ever, r) && LiveAs(s, r, a) ==> p !in Links(a))
  }

  /** A live root shows every piece of an aggregate it is live as. */
  lemma {:induction false} LiveShows(s: State, r: Root, a: Aggregate, p: Piece)
    requires LiveAs(s, r, a) && p in Links(a)
    ensures Shows(s, r, p)
  {
    if tx, q :| AddGroup(s, tx, r, a) && AddKey(tx, r, q) in s.adds && LiveAdd(s.adds[AddKey(tx, r, q)]) {
      assert AddKey(tx, r, p) in s.adds && s.adds[AddKey(tx, r, p)] == s.adds[AddKey(tx, r, q)];
    } else {
      var k :| k in s.chain && RowGroup(s, k.root, r, a);
      assert HasSub(s, k.root, p);
      var l :| l in s.chain && l.root == k.root && s.chain[l].sub == p;
    }
  }

  /** What a root shows is of an aggregate folded under it, which it shows as a whole. */
  lemma {:induction false} ShownAs(s: State, r: Root, p: Piece) returns (a: Aggregate)
    requires Grouped(s) && Shows(s, r, p)
    ensures a in Under(s.batches.ever, r) && LiveAs(s, r, a) && p in Links(a)
  {
    if k :| k in s.adds && k.root == r && k.sub == p && LiveAdd(s.adds[k]) {
      assert IsAddGroup(s, k.tx, r) && k == AddKey(k.tx, r, p);
      a :| a in Under(s.batches.ever, r) && AddGroup(s, k.tx, r, a);
    } else {
      var k :| k in s.chain && s.chain[k].root == r && s.chain[k].sub == p && !s.chain[k].removed;
      assert IsRowGroup(s, k.root, r);
      a :| a in Under(s.batches.ever, r) && RowGroup(s, k.root, r, a);
      assert HasSub(s, k.root, p);
    }
  }

  lemma {:induction false} NeededIsShown(s: State, p: Piece)
    ensures Needed(s, p) <==> exists r :: Shows(s, r, p)
  {
    if HasLiveAdd(s, p) {
      var k :| k in s.adds && k.sub == p && LiveAdd(s.adds[k]);
      assert Shows(s, k.root, p);
    } else if OnChain(s, p) {
      var k :| k in s.chain && s.chain[k].sub == p && !s.chain[k].removed;
      assert Shows(s, s.chain[k].root, p);
    }
  }

  lemma {:induction false} DroppedIff(s: State, r: Root, p: Piece)
    requires Grouped(s)
    ensures Dropped(s, r, p) <==> !Needed(s, p)
  {
    NeededIsShown(s, p);
    if Shows(s, r, p) {
      var a := ShownAs(s, r, p);
    } else if LiveRoot(s, r) {
      forall a | a in Under(s.batches.ever, r) && LiveAs(s, r, a) ensures p !in Links(a) {
        if p in Links(a) { LiveShows(s, r, a, p); }
      }
    }
  }

  /** When one aggregate only was ever folded under the root, its being live decides. */
  lemma {:induction false} UnsharedDroppedIff(s: State, r: Root, p: Piece, only: Aggregate)
    requires Grouped(s) && (forall a :: a in Under(s.batches.ever, r) ==> a == only) && p in Links(only)
    ensures Dropped(s, r, p) <==> !Elsewhere(s, r, p) && !LiveRoot(s, r)
  {
    if q :| Shows(s, r, q) {
      var a := ShownAs(s, r, q);
      assert a == only;
    }
  }

  // ------------------------------------------------------------ losing track

  /**
    The step loses track of `b`: it retires its row although nothing that is
    left carries its piece, the only adds of its piece fail, or the only root
    its piece is in is removed.
   */
  ghost predicate Untracks(s: State, step: Step, b: Blob)
    requires Enabled(s, step)
  {
    match step
    case Batch(Retire(id)) =>
      && b in s.pipeline && RootIn(s.pipeline[b], s.batches.loaded[id].Keys)
      && (b in s.commp ==> Dropped(s, s.pipeline[b].slot.value.root, s.commp[b]))
    case Chain(Resolve(tx, ok)) =>
      !ok && b !in s.pipeline && b in s.commp && !OnChain(s, s.commp[b]) && OnlyAddedBy(s, s.commp[b], tx)
    case Chain(ConfirmRemoval(key)) =>
      b !in s.pipeline && b in s.commp && !HasLiveAdd(s, s.commp[b]) && OnlyIn(s, s.commp[b], key)
    case _ => false
  }

  // -------------------------------------------------------- by kind of step

  /** Whatever was tracked still is. */
  ghost predicate TracksOn(s: State, t: State) {
    forall b :: Tracked(s, b) ==> Tracked(t, b)
  }

  lemma {:induction false} SameTracked(s: State, t: State)
    requires AllTracked(s) && TracksOn(s, t) && t.claims.acceptances <= s.claims.acceptances
    ensures AllTracked(t)
  {
    forall b | Accepted(t, b) ensures Tracked(t, b) {
      assert Accepted(s, b) && Tracked(s, b);
    }
  }

  lemma {:induction false} MoreTracked(s: State, t: State)
    requires s.pipeline.Keys <= t.pipeline.Keys && t.chain == s.chain
    requires forall k :: k in s.adds ==> k in t.adds && t.adds[k] == s.adds[k]
    requires forall b :: b in s.commp ==> b in t.commp && t.commp[b] == s.commp[b]
    ensures TracksOn(s, t)
  {
    forall b | Tracked(s, b) ensures Tracked(t, b) {
      if b !in s.pipeline {
        var p := s.commp[b];
        if HasLiveAdd(s, p) {
          var k :| k in s.adds && k.sub == p && LiveAdd(s.adds[k]);
          assert k in t.adds && LiveAdd(t.adds[k]);
        }
        assert OnChain(s, p) ==> OnChain(t, p);
      }
    }
  }

  lemma {:induction false} ClientKeepsTracked(s: State, step: ClientStep)
    requires AllTracked(s) && ClientEnabled(s, step)
    ensures AllTracked(ClientApply(s, step))
  {
    var t := ClientApply(s, step);
    MoreTracked(s, t);
    forall b | Accepted(t, b) ensures Tracked(t, b) {
      if Accepted(s, b) {
        assert Tracked(s, b);
      } else {
        var c :| c in t.claims.acceptances && c.blob == b;
        assert step.Accept? && step.blob == b;
        assert Carried(s, b) ==> Tracked(s, b);
      }
    }
  }

  lemma {:induction false} TaskKeepsTracked(e: Env, s: State, step: TaskStep)
    requires AllTracked(s) && TaskEnabled(s, step)
    ensures AllTracked(TaskApply(e, s, step))
  {
    var t := TaskApply(e, s, step);
    TaskKeepsRows(e, s, step);
    assert t.adds == s.adds && t.pipeline.Keys == s.pipeline.Keys;
    MoreTracked(s, t);
    SameTracked(s, t);
  }

  lemma {:induction false} RetireKeepsTrackedIff(s: State, id: TaskId)
    requires Grouped(s) && AllTracked(s) && BatchEnabled(s, Retire(id))
    ensures AllTracked(BatchApply(s, Retire(id))) <==>
            !exists b :: Accepted(s, b) && Untracks(s, Batch(Retire(id)), b)
  {
    var t := BatchApply(s, Retire(id));
    forall b ensures Accepted(t, b) <==> Accepted(s, b) {
    }
    forall b | Accepted(s, b) ensures Tracked(t, b) <==> !Untracks(s, Batch(Retire(id)), b) {
      assert Tracked(s, b);
      if b in s.commp {
        assert Needed(s, s.commp[b]) <==> Needed(t, s.commp[b]);
        if b in s.pipeline && s.pipeline[b].slot.Some? {
          DroppedIff(s, s.pipeline[b].slot.value.root, s.commp[b]);
        }
      }
    }
  }

  /**
    A root that is retired without being live was on chain before: the call
    found it completed by rows that are removed, or an add of it was promoted -
    unless the call left it to another one that was in flight and has failed.
   */
  lemma {:induction false} RetiredDeadRoot(s: State, id: TaskId, r: Root)
    requires BatchEnabled(s, Retire(id)) && r in s.batches.loaded[id] && !LiveRoot(s, r)
    ensures forall k :: k in s.chain && s.chain[k].root == r ==> s.chain[k].removed
    ensures var sent := s.batches.sent[id];
            || r in sent.done || (exists k :: k in s.adds && k.root == r && s.adds[k].promoted)
            || (sent.added != {} && r !in sent.added)
  {
    forall k | k in s.chain && s.chain[k].root == r ensures s.chain[k].removed {
      assert !Shows(s, r, s.chain[k].sub);
    }
    forall k | k in s.adds && k.root == r ensures !LiveAdd(s.adds[k]) {
      assert !Shows(s, r, k.sub);
    }
  }

  lemma {:induction false} BatchKeepsTracked(s: State, step: BatchStep)
    requires AllTracked(s) && BatchEnabled(s, step) && !step.Retire?
    ensures AllTracked(BatchApply(s, step))
  {
    var t := BatchApply(s, step);
    BatchKeepsRows(s, step);
    MoreTracked(s, t);
    SameTracked(s, t);
  }

  lemma {:induction false} ResolveKeepsTrackedIff(s: State, tx: TxHash, ok: bool)
    requires AllTracked(s)
    ensures AllTracked(ChainApply(s, Resolve(tx, ok))) <==>
            !exists b :: Accepted(s, b) && Untracks(s, Chain(Resolve(tx, ok)), b)
  {
    var t := ChainApply(s, Resolve(tx, ok));
    forall b ensures Accepted(t, b) <==> Accepted(s, b) {
    }
    forall b | Accepted(s, b) ensures Tracked(t, b) <==> !Untracks(s, Chain(Resolve(tx, ok)), b) {
      assert Tracked(s, b);
      if b in s.commp {
        LiveAfterResolve(s, tx, ok, s.commp[b]);
      }
    }
  }

  lemma {:induction false} LiveAfterResolve(s: State, tx: TxHash, ok: bool, p: Piece)
    ensures var t := ChainApply(s, Resolve(tx, ok));
            && (OnChain(t, p) <==> OnChain(s, p))
            && (HasLiveAdd(t, p) <==> HasLiveAdd(s, p) && (ok || !OnlyAddedBy(s, p, tx)))
  {
    var t := ChainApply(s, Resolve(tx, ok));
    forall k | k in s.adds
      ensures LiveAdd(t.adds[k]) <==> LiveAdd(s.adds[k]) && (ok || !(k.tx == tx && s.adds[k].ok == None)) {
    }
    if HasLiveAdd(s, p) && (ok || !OnlyAddedBy(s, p, tx)) {
      var k :| k in s.adds && k.sub == p && LiveAdd(s.adds[k]) && (ok || !(k.tx == tx && s.adds[k].ok == None));
      assert k in t.adds && LiveAdd(t.adds[k]);
    }
    if HasLiveAdd(t, p) {
      var k :| k in t.adds && k.sub == p && LiveAdd(t.adds[k]);
      assert k in s.adds && LiveAdd(s.adds[k]);
    }
  }

  lemma {:induction false} ConfirmKeepsTrackedIff(s: State, key: RootKey)
    requires AllTracked(s)
    ensures AllTracked(ChainApply(s, ConfirmRemoval(key))) <==>
            !exists b :: Accepted(s, b) && Untracks(s, Chain(ConfirmRemoval(key)), b)
  {
    var t := ChainApply(s, ConfirmRemoval(key));
    forall b ensures Accepted(t, b) <==> Accepted(s, b) {
    }
    forall b | Accepted(s, b) ensures Tracked(t, b) <==> !Untracks(s, Chain(ConfirmRemoval(key)), b) {
      assert Tracked(s, b);
      if b in s.commp {
        OnChainAfterConfirm(s, key, s.commp[b]);
        assert HasLiveAdd(t, s.commp[b]) <==> HasLiveAdd(s, s.commp[b]);
      }
    }
  }

  lemma {:induction false} OnChainAfterConfirm(s: State, key: RootKey, p: Piece)
    ensures OnChain(ChainApply(s, ConfirmRemoval(key)), p) <==> !OnlyIn(s, p, key)
  {
    var t := ChainApply(s, ConfirmRemoval(key));
    forall k | k in s.chain
      ensures !t.chain[k].removed <==> !s.chain[k].removed && !(k.root == key && s.chain[k].rmHash.Some?) {
    }
    if !OnlyIn(s, p, key) {
      var k :| k in s.chain && s.chain[k].sub == p && !s.chain[k].removed
        && !(k.root == key && s.chain[k].rmHash.Some?);
      assert k in t.chain && t.chain[k].sub == p && !t.chain[k].removed;
    }
    if OnChain(t, p) {
      var k :| k in t.chain && t.chain[k].sub == p && !t.chain[k].removed;
      assert k in s.chain && s.chain[k].sub == p && !s.chain[k].removed;
    }
  }

  lemma {:induction false} ChainKeepsTracked(s: State, step: ChainStep)
    requires Rooted(s) && AllTracked(s) && ChainEnabled(s, step) && !step.Resolve? && !step.ConfirmRemoval?
    ensures AllTracked(ChainApply(s, step))
  {
    var t := ChainApply(s, step);
    forall b | Tracked(s, b) ensures Tracked(t, b) {
      if b !in s.pipeline {
        NeededStays(s, step, s.commp[b]);
      }
    }
    SameTracked(s, t);
  }

  /** A promoted add's sub-piece has its row; nothing else takes a live add or an unremoved row away. */
  lemma {:induction false} NeededStays(s: State, step: ChainStep, p: Piece)
    requires Rooted(s) && Needed(s, p) && ChainEnabled(s, step) && !step.Resolve? && !step.ConfirmRemoval?
    ensures Needed(ChainApply(s, step), p)
  {
    var t := ChainApply(s, step);
    if HasLiveAdd(s, p) {
      var k :| k in s.adds && k.sub == p && LiveAdd(s.adds[k]);
      if step.Promote? && k in step.rows.Values {
        var o :| o in step.rows && step.rows[o] == k;
        assert ChainKey(step.key, o) in NewRows(step.rows, step.key);
        assert t.chain[ChainKey(step.key, o)] == ChainRow(k.root, p, None, false);
      } else {
        assert k in t.adds && LiveAdd(t.adds[k]);
      }
    } else {
      var k :| k in s.chain && s.chain[k].sub == p && !s.chain[k].removed;
      assert k in t.chain && t.chain[k].sub == p && !t.chain[k].removed;
    }
  }

  /** A turn deletes only rows that are removed already. */
  lemma {:induction false} SweepKeepsNeeded(s: State, b: Blob, o: Outcome, p: Piece)
    requires Needed(s, p)
    ensures Needed(SweepBlob(s, b, o), p)
  {
    var t := SweepBlob(s, b, o);
    if OnChain(s, p) {
      var k :| k in s.chain && s.chain[k].sub == p && !s.chain[k].removed;
      assert k in t.chain && t.chain[k] == s.chain[k];
    }
  }

  lemma {:induction false} SweepKeepsTracked(s: State, b: Blob, o: Outcome)
    requires AllTracked(s)
    ensures AllTracked(SweepBlob(s, b, o))
  {
    var t := SweepBlob(s, b, o);
    forall c | Accepted(t, c) ensures Tracked(t, c) {
      assert Accepted(s, c) && Tracked(s, c);
      if c == b {
        assert Claimed(s, b);
      } else if c !in s.pipeline {
        SweepKeepsNeeded(s, b, o, s.commp[c]);
      }
    }
  }

  /** A step keeps every accepted blob tracked if and only if it untracks none. */
  lemma {:induction false} StepKeepsTrackedIff(e: Env, s: State, step: Step)
    requires Rooted(s) && Grouped(s) && AllTracked(s) && Enabled(s, step)
    ensures AllTracked(Apply(e, s, step)) <==> !exists b :: Accepted(s, b) && Untracks(s, step, b)
  {
    match step
    case Client(c) => ClientKeepsTracked(s, c);
    case Task(t) => TaskKeepsTracked(e, s, t);
    case Batch(b) =>
      if b.Retire? { RetireKeepsTrackedIff(s, b.id); } else { BatchKeepsTracked(s, b); }
    case Chain(c) =>
      if c.Resolve? {
        ResolveKeepsTrackedIff(s, c.tx, c.success);
      } else if c.ConfirmRemoval? {
        ConfirmKeepsTrackedIff(s, c.key);
      } else {
        ChainKeepsTracked(s, c);
      }
    case Sweep(b, o) => SweepKeepsTracked(s, b, o);
    case CleanUp(b) =>
      MoreTracked(s, s.(bytes := s.bytes - {b}));
      SameTracked(s, s.(bytes := s.bytes - {b}));
  }

  ghost predicate NoneUntracked(e: Env, s: State, steps: seq<Step>)
    requires IsRun(e, s, steps)
    decreases |steps|
  {
    steps == [] || ((forall b :: Accepted(s, b) ==> !Untracks(s, steps[0], b))
                    && NoneUntracked(e, Apply(e, s, steps[0]), steps[1..]))
  }

  /** Throughout every run without such a step, an accepted blob is queued, staged or on chain. */
  lemma {:induction false} RunKeepsTracked(e: Env, s: State, steps: seq<Step>)
    requires Staged(s) && Rooted(s) && Grouped(s) && AllTracked(s)
    requires IsRun(e, s, steps) && NoneUntracked(e, s, steps)
    ensures AllTracked(After(e, s, steps))
    decreases |steps|
  {
    if steps != [] {
      StepKeepsStaged(e, s, steps[0]);
      StepIsLater(e, s, steps[0]);
      StepKeepsGrouped(e, s, steps[0]);
      StepKeepsTrackedIff(e, s, steps[0]);
      RunKeepsTracked(e, Apply(e, s, steps[0]), steps[1..]);
    }
  }

  // ------------------------------------------------- retirements, over any run

  lemma {:induction false} RunKeepsAll(e: Env, s: State, steps: seq<Step>)
    requires Staged(s) && Rooted(s) && Grouped(s) && RowsTrue(e, s) && IsRun(e, s, steps)
    ensures var t := After(e, s, steps); Staged(t) && Rooted(t) && Grouped(t) && RowsTrue(e, t)
    decreases |steps|
  {
    if steps != [] {
      StepKeepsStaged(e, s, steps[0]);
      StepIsLater(e, s, steps[0]);
      StepKeepsGrouped(e, s, steps[0]);
      StepKeepsRowsTrue(e, s, steps[0]);
      RunKeepsAll(e, Apply(e, s, steps[0]), steps[1..]);
    }
  }

  /** The row of `b` stores its piece of the only aggregate ever folded under its root. */
  lemma {:induction false} RowIsOfOnly(e: Env, s: State, b: Blob, only: Aggregate)
    requires Staged(s) && Grouped(s) && RowsTrue(e, s) && b in s.pipeline && s.pipeline[b].slot.Some?
    requires forall a :: a in Under(s.batches.ever, s.pipeline[b].slot.value.root) ==> a == only
    ensures e.commP(b) in Links(only)
  {
    var r := s.pipeline[b].slot.value.root;
    assert InOrder(s.pipeline[b]) && IsStored(s.pipeline[b], s.batches.stored);
    var a :| a in s.batches.stored[r] && StoresOf(s.pipeline[b], a.pieces);
    assert a == only && Links(a)[s.pipeline[b].slot.value.position] == e.commP(b);
  }

  /**
    In every reachable state, for a blob whose root only one aggregate was ever
    folded under: the retirement keeps track of it if and only if the root has a
    live add or an unremoved row, or its piece is in another root that has.
   */
  lemma {:induction false} UnsharedRetireIff(e: Env, steps: seq<Step>, id: TaskId, b: Blob, only: Aggregate)
    requires IsRun(e, Init, steps) && BatchEnabled(After(e, Init, steps), Retire(id))
    requires var s := After(e, Init, steps);
             && b in s.commp && b in s.pipeline && RootIn(s.pipeline[b], s.batches.loaded[id].Keys)
             && forall a :: a in Under(s.batches.ever, s.pipeline[b].slot.value.root) ==> a == only
    ensures var s := After(e, Init, steps); var r := s.pipeline[b].slot.value.root;
            Tracked(BatchApply(s, Retire(id)), b) <==> LiveRoot(s, r) || Elsewhere(s, r, e.commP(b))
  {
    var s := After(e, Init, steps);
    RunKeepsAll(e, Init, steps);
    RowIsOfOnly(e, s, b, only);
    RetiredIsNeeded(s, id, b);
    UnsharedDroppedIff(s, s.pipeline[b].slot.value.root, e.commP(b), only);
    DroppedIff(s, s.pipeline[b].slot.value.root, e.commP(b));
  }

  lemma {:induction false} RetiredIsNeeded(s: State, id: TaskId, b: Blob)
    requires BatchEnabled(s, Retire(id)) && b in s.commp && b in s.pipeline
    requires RootIn(s.pipeline[b], s.batches.loaded[id].Keys)
    ensures Tracked(BatchApply(s, Retire(id)), b) <==> Needed(s, s.commp[b])
  {
    var t := BatchApply(s, Retire(id));
    assert b !in t.pipeline && t.commp == s.commp && t.adds == s.adds && t.chain == s.chain;
  }
}
