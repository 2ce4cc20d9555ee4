/**
  What other work does to the on-chain rows and the claims between two
  statements of a removal pass: the live sub-pieces of a root stay as they are
  until all of them go at once, and claims come and go with client steps only.
 */
module RootRows {
  import opened Common
  import opened Pipeline
  import opened Lifecycle

  predicate Unremoved(s: State, k: ChainKey) {
    k in s.chain && !s.chain[k].removed
  }

  /** The live sub-pieces of a root: the DISTINCT sub_piece of its unremoved rows. */
  function LiveSubs(s: State, r: RootKey): set<Piece> {
    set k | k in s.chain && Unremoved(s, k) && k.root == r :: s.chain[k].sub
  }

  /** The rows of a root are stamped and removed together, under a number the chain gave out. */
  ghost predicate Rooted(s: State) {
    && (forall k :: k in s.chain ==> k.root in s.keys)
    && (forall k, l :: k in s.chain && l in s.chain && k.root == l.root ==>
          s.chain[k].rmHash == s.chain[l].rmHash && s.chain[k].removed == s.chain[l].removed)
  }

  /** Every root of `s` has in `t` the live sub-pieces it had, or none. */
  ghost predicate Later(s: State, t: State) {
    s.keys <= t.keys && forall r :: r in s.keys ==> LiveSubs(t, r) == LiveSubs(s, r) || LiveSubs(t, r) == {}
  }

  lemma {:induction false} LaterTrans(s: State, t: State, u: State)
    requires Later(s, t) && Later(t, u)
    ensures Later(s, u)
  {
  }

  lemma {:induction false} SameSubs(s: State, t: State, r: RootKey)
    requires forall k: ChainKey :: k.root == r ==> (Unremoved(t, k) <==> Unremoved(s, k))
    requires forall k: ChainKey :: k.root == r && Unremoved(s, k) && Unremoved(t, k) ==>
               t.chain[k].sub == s.chain[k].sub
    ensures LiveSubs(t, r) == LiveSubs(s, r)
  {
    forall p ensures p in LiveSubs(t, r) <==> p in LiveSubs(s, r) {
      if p in LiveSubs(t, r) {
        var k :| k in t.chain && Unremoved(t, k) && k.root == r && t.chain[k].sub == p;
        assert Unremoved(s, k);
      }
      if p in LiveSubs(s, r) {
        var k :| k in s.chain && Unremoved(s, k) && k.root == r && s.chain[k].sub == p;
        assert Unremoved(t, k);
      }
    }
  }

  lemma {:induction false} ConfirmIsLater(s: State, key: RootKey)
    requires Rooted(s)
    ensures var t := ChainApply(s, ConfirmRemoval(key)); Rooted(t) && Later(s, t)
  {
    var t := ChainApply(s, ConfirmRemoval(key));
    forall r | r in s.keys ensures LiveSubs(t, r) == LiveSubs(s, r) || LiveSubs(t, r) == {} {
      if k :| k in s.chain && k.root == r && r == key && s.chain[k].rmHash.Some? {
        assert forall l :: l in t.chain && l.root == r ==> !Unremoved(t, l);
      } else {
        SameSubs(s, t, r);
      }
    }
  }

  lemma {:induction false} PromoteIsLater(s: State, tx: TxHash, root: Root, rows: map<nat, AddKey>, key: RootKey)
    requires Rooted(s) && ChainEnabled(s, Promote(tx, root, rows, key))
    ensures var t := ChainApply(s, Promote(tx, root, rows, key)); Rooted(t) && Later(s, t)
  {
    var t := ChainApply(s, Promote(tx, root, rows, key));
    forall r | r in s.keys ensures LiveSubs(t, r) == LiveSubs(s, r) {
      SameSubs(s, t, r);
    }
  }

  lemma {:induction false} StampIsLater(s: State, key: RootKey, stamp: Option<TxHash>, t: State)
    requires Rooted(s) && t.keys == s.keys
    requires t.chain == map k | k in s.chain :: if k.root == key then s.chain[k].(rmHash := stamp) else s.chain[k]
    ensures Rooted(t) && Later(s, t)
  {
    forall r | r in s.keys ensures LiveSubs(t, r) == LiveSubs(s, r) {
      SameSubs(s, t, r);
    }
  }

  lemma {:induction false} ChainIsLater(s: State, step: ChainStep)
    requires Rooted(s) && ChainEnabled(s, step)
    ensures Rooted(ChainApply(s, step)) && Later(s, ChainApply(s, step))
  {
    var t := ChainApply(s, step);
    match step
    case Promote(tx, root, rows, key) => PromoteIsLater(s, tx, root, rows, key);
    case RemoveRoot(key, tx) => StampIsLater(s, key, Some(tx), t);
    case ConfirmRemoval(key) => ConfirmIsLater(s, key);
    case ClearStamp(key) => StampIsLater(s, key, None, t);
    case _ => SameRows(s, t);
  }

  lemma {:induction false} FinalizeIsLater(s: State, b: Blob, o: Outcome)
    requires Rooted(s)
    ensures Rooted(Finalize(s, b, o)) && Later(s, Finalize(s, b, o))
  {
    var t := Finalize(s, b, o);
    forall r | r in s.keys ensures LiveSubs(t, r) == LiveSubs(s, r) {
      SameSubs(s, t, r);
    }
  }

  lemma {:induction false} SameRows(s: State, t: State)
    requires Rooted(s) && t.chain == s.chain && t.keys == s.keys
    ensures Rooted(t) && Later(s, t)
  {
    forall r ensures LiveSubs(t, r) == LiveSubs(s, r) {
      SameSubs(s, t, r);
    }
  }

  /** Tasks and batches leave the on-chain rows, the claims and the requests alone. */
  lemma {:induction false} TaskKeepsRows(e: Env, s: State, step: TaskStep)
    requires TaskEnabled(s, step)
    ensures var t := TaskApply(e, s, step);
            t.chain == s.chain && t.keys == s.keys && t.claims == s.claims && t.pending == s.pending
  {
  }

  lemma {:induction false} BatchKeepsRows(s: State, step: BatchStep)
    requires BatchEnabled(s, step)
    ensures var t := BatchApply(s, step);
            t.chain == s.chain && t.keys == s.keys && t.claims == s.claims && t.pending == s.pending
  {
  }

  lemma {:induction false} SweepIsLater(s: State, b: Blob, o: Outcome)
    requires Rooted(s)
    ensures Rooted(SweepBlob(s, b, o)) && Later(s, SweepBlob(s, b, o))
  {
    var s1, t := CancelEntry(s, b), SweepBlob(s, b, o);
    SameRows(s, s1);
    if t == Finalize(s1, b, o) {
      FinalizeIsLater(s1, b, o);
      LaterTrans(s, s1, t);
    } else {
      SameRows(s, t);
    }
  }

  lemma {:induction false} StepIsLater(e: Env, s: State, step: Step)
    requires Rooted(s) && Enabled(s, step)
    ensures Rooted(Apply(e, s, step)) && Later(s, Apply(e, s, step))
  {
    match step
    case Client(c) => SameRows(s, ClientApply(s, c));
    case Task(t) =>
      TaskKeepsRows(e, s, t);
      SameRows(s, TaskApply(e, s, t));
    case Batch(b) =>
      BatchKeepsRows(s, b);
      SameRows(s, BatchApply(s, b));
    case Chain(c) => ChainIsLater(s, c);
    case Sweep(b, o) => SweepIsLater(s, b, o);
    case CleanUp(b) => SameRows(s, s.(bytes := s.bytes - {b}));
  }

  lemma {:induction false} RunIsLater(e: Env, s: State, steps: seq<Step>)
    requires Rooted(s) && IsRun(e, s, steps)
    ensures Rooted(After(e, s, steps)) && Later(s, After(e, s, steps))
    decreases |steps|
  {
    if steps == [] {
      SameRows(s, s);
    } else {
      var s1 := Apply(e, s, steps[0]);
      StepIsLater(e, s, steps[0]);
      RunIsLater(e, s1, steps[1..]);
      LaterTrans(s, s1, After(e, s, steps));
    }
  }

  /** In every reachable state the rows of a root are stamped and removed together. */
  lemma {:induction false} ReachableIsRooted(e: Env, steps: seq<Step>)
    requires IsRun(e, Init, steps)
    ensures Rooted(After(e, Init, steps))
  {
    RunIsLater(e, Init, steps);
  }

  lemma {:induction false} KeepsPending(e: Env, s: State, step: Step)
    requires Enabled(s, step) && !step.Sweep?
    ensures s.pending <= Apply(e, s, step).pending
  {
    if step.Task? { TaskKeepsRows(e, s, step.task); }
    if step.Batch? { BatchKeepsRows(s, step.batch); }
  }

  // ----------------------------------------------------------------- claims

  /** The step claims `b` for `sp`. */
  predicate ClaimsFor(step: Step, b: Blob, sp: Space) {
    && step.Client?
    && (step.client == Allocate(b, sp) || (step.client.Accept? && step.client.blob == b && step.client.space == sp))
  }

  /** The step at `i` claims `b` for `sp`, and no later one releases it. */
  ghost predicate Stands(steps: seq<Step>, i: nat, b: Blob, sp: Space) {
    && i < |steps| && ClaimsFor(steps[i], b, sp)
    && forall j :: i < j < |steps| ==> steps[j] != Client(Release(b, sp))
  }

  predicate Held(s: State, b: Blob, sp: Space) {
    Claim(b, sp) in s.claims.acceptances || Claim(b, sp) in s.claims.allocations
  }

  lemma {:induction false} HeldAfterStep(e: Env, s: State, step: Step, b: Blob, sp: Space)
    requires Enabled(s, step)
    ensures Held(Apply(e, s, step), b, sp) <==>
            ClaimsFor(step, b, sp) || (Held(s, b, sp) && step != Client(Release(b, sp)))
  {
    if step.Task? { TaskKeepsRows(e, s, step.task); }
    if step.Batch? { BatchKeepsRows(s, step.batch); }
  }

  /** A space holds a claim after a run exactly when one stands, or it held one and did not release it. */
  lemma {:induction false} HeldIff(e: Env, s: State, steps: seq<Step>, b: Blob, sp: Space)
    requires IsRun(e, s, steps)
    ensures Held(After(e, s, steps), b, sp) <==>
            || (exists i: nat :: Stands(steps, i, b, sp))
            || (Held(s, b, sp) && Client(Release(b, sp)) !in steps)
    decreases |steps|
  {
    if steps != [] {
      var s1, rest := Apply(e, s, steps[0]), steps[1..];
      HeldIff(e, s1, rest, b, sp);
      HeldAfterStep(e, s, steps[0], b, sp);
      assert steps == [steps[0]] + rest;
      if i: nat :| Stands(rest, i, b, sp) {
        assert Stands(steps, i + 1, b, sp);
      }
      if i: nat :| Stands(steps, i, b, sp) {
        if i > 0 { assert Stands(rest, i - 1, b, sp); }
      }
      if ClaimsFor(steps[0], b, sp) && Client(Release(b, sp)) !in rest {
        assert Stands(steps, 0, b, sp);
      }
    }
  }

  /**
    A blob nobody claimed is claimed after a run if and only if an accept or an
    allocation of it in that run was not released since.
   */
  lemma {:induction false} ClaimedIff(e: Env, s: State, steps: seq<Step>, b: Blob)
    requires IsRun(e, s, steps) && !Claimed(s, b)
    ensures Claimed(After(e, s, steps), b) <==> exists i: nat, sp :: Stands(steps, i, b, sp)
  {
    var t := After(e, s, steps);
    if Claimed(t, b) {
      var c :| (c in t.claims.acceptances || c in t.claims.allocations) && c.blob == b;
      assert c == Claim(b, c.space) && Held(t, b, c.space);
      HeldIff(e, s, steps, b, c.space);
    }
    if i: nat, sp :| Stands(steps, i, b, sp) {
      HeldIff(e, s, steps, b, sp);
    }
  }

  // ----------------------------------------------------------------- stamps

  /** A deletion of the root is in flight. */
  predicate BeingRemoved(s: State, r: RootKey) {
    exists k :: k in s.chain && k.root == r && !s.chain[k].removed && s.chain[k].rmHash.Some?
  }

  predicate Stamps(step: Step, r: RootKey) {
    step.Chain? && step.chain.RemoveRoot? && step.chain.key == r
  }

  /** The step at `i` stamps the root, and no later one clears the stamp. */
  ghost predicate StampStands(steps: seq<Step>, i: nat, r: RootKey) {
    && i < |steps| && Stamps(steps[i], r)
    && forall j :: i < j < |steps| ==> steps[j] != Chain(ClearStamp(r))
  }

  lemma {:induction false} StampedAfterChain(s: State, step: ChainStep, r: RootKey)
    requires Rooted(s) && r in s.keys && ChainEnabled(s, step) && LiveSubs(ChainApply(s, step), r) != {}
    ensures BeingRemoved(ChainApply(s, step), r) <==>
            Stamps(Chain(step), r) || (BeingRemoved(s, r) && step != ClearStamp(r))
  {
    var t := ChainApply(s, step);
    var p :| p in LiveSubs(t, r);
    var k :| k in t.chain && Unremoved(t, k) && k.root == r && t.chain[k].sub == p;
    if BeingRemoved(s, r) {
      var l :| l in s.chain && l.root == r && !s.chain[l].removed && s.chain[l].rmHash.Some?;
      assert k in s.chain && l in t.chain && s.chain[k].rmHash == s.chain[l].rmHash;
    }
  }

  lemma {:induction false} StampedAfterSweep(s: State, b: Blob, o: Outcome, r: RootKey)
    ensures BeingRemoved(SweepBlob(s, b, o), r) <==> BeingRemoved(s, r)
  {
    var t := SweepBlob(s, b, o);
    if k :| k in s.chain && k.root == r && !s.chain[k].removed && s.chain[k].rmHash.Some? {
      assert k in t.chain && t.chain[k] == s.chain[k];
    }
  }

  lemma {:induction false} StampedAfterStep(e: Env, s: State, step: Step, r: RootKey)
    requires Rooted(s) && r in s.keys && Enabled(s, step) && LiveSubs(Apply(e, s, step), r) != {}
    ensures BeingRemoved(Apply(e, s, step), r) <==>
            Stamps(step, r) || (BeingRemoved(s, r) && step != Chain(ClearStamp(r)))
  {
    match step
    case Client(c) => assert ClientApply(s, c).chain == s.chain;
    case Task(t) => TaskKeepsRows(e, s, t);
    case Batch(b) => BatchKeepsRows(s, b);
    case Chain(c) => StampedAfterChain(s, c, r);
    case Sweep(b, o) => StampedAfterSweep(s, b, o, r);
    case CleanUp(_) =>
  }

  lemma {:induction false} StandsShift(steps: seq<Step>, r: RootKey)
    requires steps != []
    ensures (exists i: nat :: StampStands(steps, i, r)) <==>
            || (exists i: nat :: StampStands(steps[1..], i, r))
            || (Stamps(steps[0], r) && Chain(ClearStamp(r)) !in steps[1..])
    ensures Chain(ClearStamp(r)) in steps <==> steps[0] == Chain(ClearStamp(r)) || Chain(ClearStamp(r)) in steps[1..]
  {
    var rest := steps[1..];
    assert steps == [steps[0]] + rest;
    if i: nat :| StampStands(rest, i, r) {
      assert StampStands(steps, i + 1, r);
    }
    if i: nat :| StampStands(steps, i, r) {
      if i > 0 { assert StampStands(rest, i - 1, r); }
    }
    if Stamps(steps[0], r) && Chain(ClearStamp(r)) !in rest {
      assert StampStands(steps, 0, r);
    }
  }

  /** A root that is still live after a run has a deletion in flight exactly when a stamp stands, old or new. */
  lemma {:induction false} StampedIff(e: Env, s: State, steps: seq<Step>, r: RootKey)
    requires Rooted(s) && r in s.keys && IsRun(e, s, steps) && LiveSubs(After(e, s, steps), r) != {}
    ensures BeingRemoved(After(e, s, steps), r) <==>
            || (exists i: nat :: StampStands(steps, i, r))
            || (BeingRemoved(s, r) && Chain(ClearStamp(r)) !in steps)
    decreases |steps|
  {
    if steps != [] {
      var s1, rest := Apply(e, s, steps[0]), steps[1..];
      StepIsLater(e, s, steps[0]);
      RunIsLater(e, s1, rest);
      StampedIff(e, s1, rest, r);
      StampedAfterStep(e, s, steps[0], r);
      StandsShift(steps, r);
    }
  }
}
