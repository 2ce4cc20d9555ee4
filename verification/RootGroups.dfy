/**
  Roots are staged and put on chain whole: over every run the adds of a root
  under one transaction, and the rows of a root under one number, are those of
  one aggregate that was folded under the root, and change together.
 */
module RootGroups {
  import opened Common
  import opened Pipeline
  import opened Lifecycle
  import opened Stages
  import opened RootRows

  /** The adds of `r` under `tx` are one for each piece of `a`, all of one status. */
  ghost predicate AddGroup(s: State, tx: TxHash, r: Root, a: Aggregate) {
    && (forall p :: AddKey(tx, r, p) in s.adds <==> p in Links(a))
    && (forall p, q :: AddKey(tx, r, p) in s.adds && AddKey(tx, r, q) in s.adds ==>
          s.adds[AddKey(tx, r, p)] == s.adds[AddKey(tx, r, q)])
  }

  ghost predicate HasSub(s: State, key: RootKey, p: Piece) {
    exists k :: k in s.chain && k.root == key && s.chain[k].sub == p
  }

  /** The rows under `key` are unremoved rows of root `r`, with the pieces of `a`. */
  ghost predicate RowGroup(s: State, key: RootKey, r: Root, a: Aggregate) {
    && (forall k :: k in s.chain && k.root == key ==> s.chain[k].root == r && !s.chain[k].removed)
    && (forall p :: HasSub(s, key, p) <==> p in Links(a))
  }

  ghost predicate IsAddGroup(s: State, tx: TxHash, r: Root) {
    exists a :: a in Under(s.batches.ever, r) && AddGroup(s, tx, r, a)
  }

  ghost predicate IsRowGroup(s: State, key: RootKey, r: Root) {
    exists a :: a in Under(s.batches.ever, r) && RowGroup(s, key, r, a)
  }

  ghost predicate IsEver(b: Batches, r: Root, ps: seq<Piece>) {
    exists a :: a in Under(b.ever, r) && Links(a) == ps
  }

  ghost predicate AddsGrouped(s: State) {
    forall k :: k in s.adds ==> IsAddGroup(s, k.tx, k.root)
  }

  ghost predicate RowsGrouped(s: State) {
    forall k :: k in s.chain && !s.chain[k].removed ==> IsRowGroup(s, k.root, s.chain[k].root)
  }

  /** What is loaded, and what is stored since the last retirement, was folded some time. */
  ghost predicate HistoryKept(b: Batches) {
    && (forall id, r :: id in b.loaded && r in b.loaded[id] ==> IsEver(b, r, b.loaded[id][r]))
    && (forall r :: r in b.stored ==> b.stored[r] <= Under(b.ever, r))
  }

  ghost predicate Grouped(s: State) {
    AddsGrouped(s) && RowsGrouped(s) && HistoryKept(s.batches)
  }

  // ---------------------------------------------------------------- histories

  /** `t` has the adds and rows of `s`, and forgets nothing that was folded. */
  ghost predicate SameGroups(s: State, t: State) {
    && t.adds == s.adds && t.chain == s.chain
    && forall r :: Under(s.batches.ever, r) <= Under(t.batches.ever, r)
  }

  lemma {:induction false} SameKeepsGroups(s: State, t: State)
    requires AddsGrouped(s) && RowsGrouped(s) && SameGroups(s, t)
    ensures AddsGrouped(t) && RowsGrouped(t)
  {
    forall k | k in t.adds ensures IsAddGroup(t, k.tx, k.root) {
      assert IsAddGroup(s, k.tx, k.root);
      var a :| a in Under(s.batches.ever, k.root) && AddGroup(s, k.tx, k.root, a);
      assert AddGroup(t, k.tx, k.root, a);
    }
    forall k | k in t.chain && !t.chain[k].removed ensures IsRowGroup(t, k.root, t.chain[k].root) {
      assert IsRowGroup(s, k.root, s.chain[k].root);
      var a :| a in Under(s.batches.ever, s.chain[k].root) && RowGroup(s, k.root, s.chain[k].root, a);
      assert forall p :: HasSub(t, k.root, p) <==> HasSub(s, k.root, p);
      assert RowGroup(t, k.root, t.chain[k].root, a);
    }
  }

  lemma {:induction false} HistoryGrows(b: Batches, b': Batches)
    requires HistoryKept(b) && forall r :: Under(b.ever, r) <= Under(b'.ever, r)
    requires forall id :: id in b'.loaded ==> id in b.loaded && b'.loaded[id] == b.loaded[id]
    requires forall r :: r in b'.stored ==> b'.stored[r] <= Under(b.stored, r) + Under(b'.ever, r)
    ensures HistoryKept(b')
  {
    forall id, r | id in b'.loaded && r in b'.loaded[id] ensures IsEver(b', r, b'.loaded[id][r]) {
      assert IsEver(b, r, b.loaded[id][r]);
      var a :| a in Under(b.ever, r) && Links(a) == b.loaded[id][r];
      assert a in Under(b'.ever, r);
    }
  }

  lemma {:induction false} LoadKeepsHistory(s: State, id: TaskId, found: map<Root, seq<AggregatePiece>>)
    requires Staged(s) && HistoryKept(s.batches) && BatchEnabled(s, Load(id, found))
    ensures HistoryKept(BatchApply(s, Load(id, found)).batches)
  {
    var b' := BatchApply(s, Load(id, found)).batches;
    forall i, r | i in b'.loaded && r in b'.loaded[i] ensures IsEver(b', r, b'.loaded[i][r]) {
      if i == id {
        LoadedIsEver(s, r, found[r]);
        var a :| a in Under(s.batches.ever, r) && Links(a) == LinksOf(found[r]);
      } else {
        assert IsEver(s.batches, r, s.batches.loaded[i][r]);
        var a :| a in Under(s.batches.ever, r) && Links(a) == s.batches.loaded[i][r];
      }
    }
  }

  /** What loads under a root is one of the aggregates folded under it. */
  lemma {:induction false} LoadedIsEver(s: State, r: Root, ps: seq<AggregatePiece>)
    requires Staged(s) && HistoryKept(s.batches) && Loads(s.pipeline, r, ps)
    ensures IsEver(s.batches, r, LinksOf(ps))
  {
    var t, stored := s.pipeline, s.batches.stored;
    assert Filled(t, r, ps, 0);
    var b :| b in t && InRoot(t, b, r) && StoresOf(t[b], ps);
    assert IsStored(t[b], stored);
    LoadsIff(t, stored, r, ps);
    var a: Aggregate :| a in stored[r] && a.pieces == ps;
    assert a in Under(s.batches.ever, r) && Links(a) == LinksOf(ps);
  }

  // --------------------------------------------------------------- the steps

  lemma {:induction false} BatchKeepsHistory(s: State, step: BatchStep)
    requires Staged(s) && HistoryKept(s.batches) && BatchEnabled(s, step)
    ensures HistoryKept(BatchApply(s, step).batches)
    ensures forall r :: Under(s.batches.ever, r) <= Under(BatchApply(s, step).batches.ever, r)
  {
    if step.Load? {
      LoadKeepsHistory(s, step.id, step.found);
    } else {
      HistoryGrows(s.batches, BatchApply(s, step).batches);
    }
  }

  lemma {:induction false} RecordKeepsAdds(s: State, id: TaskId, tx: TxHash, rs: set<Root>)
    requires AddsGrouped(s) && HistoryKept(s.batches) && BatchEnabled(s, Record(id, tx, rs))
    ensures AddsGrouped(BatchApply(s, Record(id, tx, rs)))
  {
    var t := BatchApply(s, Record(id, tx, rs));
    forall k | k in t.adds ensures IsAddGroup(t, k.tx, k.root) {
      if k.tx == tx {
        assert k in NewAdds(s.batches.loaded[id], tx, rs);
        assert IsEver(s.batches, k.root, s.batches.loaded[id][k.root]);
        var a :| a in Under(s.batches.ever, k.root) && Links(a) == s.batches.loaded[id][k.root];
        assert forall p :: AddKey(tx, k.root, p) !in s.adds;
        assert AddGroup(t, tx, k.root, a);
      } else {
        assert k in s.adds && IsAddGroup(s, k.tx, k.root);
        var a :| a in Under(s.batches.ever, k.root) && AddGroup(s, k.tx, k.root, a);
        assert forall p :: AddKey(k.tx, k.root, p) !in NewAdds(s.batches.loaded[id], tx, rs);
        assert AddGroup(t, k.tx, k.root, a);
      }
    }
  }

  lemma {:induction false} RecordKeepsRows(s: State, t: State)
    requires RowsGrouped(s) && t.chain == s.chain && t.batches.ever == s.batches.ever
    ensures RowsGrouped(t)
  {
    forall k | k in t.chain && !t.chain[k].removed ensures IsRowGroup(t, k.root, t.chain[k].root) {
      SameRowGroup(s, t, k);
    }
  }

  lemma {:induction false} SameRowGroup(s: State, t: State, k: ChainKey)
    requires k in s.chain && IsRowGroup(s, k.root, s.chain[k].root)
    requires t.chain == s.chain && t.batches.ever == s.batches.ever
    ensures IsRowGroup(t, k.root, t.chain[k].root)
  {
    var a :| a in Under(s.batches.ever, s.chain[k].root) && RowGroup(s, k.root, s.chain[k].root, a);
    assert forall p :: HasSub(t, k.root, p) <==> HasSub(s, k.root, p);
    assert RowGroup(t, k.root, t.chain[k].root, a);
  }

  /** A change of status that treats equal adds of one root and transaction alike keeps the groups. */
  lemma {:induction false} StatusKeepsAdds(s: State, t: State)
    requires AddsGrouped(s) && t.adds.Keys == s.adds.Keys && t.batches.ever == s.batches.ever
    requires forall k, l :: k in s.adds && l in s.adds && k.tx == l.tx && k.root == l.root && s.adds[k] == s.adds[l] ==>
               t.adds[k] == t.adds[l]
    ensures AddsGrouped(t)
  {
    forall k | k in t.adds ensures IsAddGroup(t, k.tx, k.root) {
      assert k in s.adds && IsAddGroup(s, k.tx, k.root);
      var a :| a in Under(s.batches.ever, k.root) && AddGroup(s, k.tx, k.root, a);
      assert AddGroup(t, k.tx, k.root, a);
    }
  }

  lemma {:induction false} ClearKeepsAdds(s: State, tx: TxHash)
    requires AddsGrouped(s)
    ensures AddsGrouped(ChainApply(s, ClearDead(tx)))
  {
    var t := ChainApply(s, ClearDead(tx));
    forall k | k in t.adds ensures IsAddGroup(t, k.tx, k.root) {
      assert k in s.adds && IsAddGroup(s, k.tx, k.root);
      var a :| a in Under(s.batches.ever, k.root) && AddGroup(s, k.tx, k.root, a);
      forall p ensures AddKey(k.tx, k.root, p) in t.adds <==> AddKey(k.tx, k.root, p) in s.adds {
        assert k == AddKey(k.tx, k.root, k.sub);
      }
      assert AddGroup(t, k.tx, k.root, a);
    }
  }

  /** The rows of a key nothing touched are as they were. */
  lemma {:induction false} UntouchedRows(s: State, t: State, key: RootKey, r: Root)
    requires IsRowGroup(s, key, r) && t.batches.ever == s.batches.ever
    requires forall k: ChainKey :: k.root == key ==> (k in t.chain <==> k in s.chain)
    requires forall k :: k in s.chain && k.root == key && k in t.chain ==>
               t.chain[k].root == s.chain[k].root && t.chain[k].sub == s.chain[k].sub && !t.chain[k].removed
    ensures IsRowGroup(t, key, r)
  {
    var a :| a in Under(s.batches.ever, r) && RowGroup(s, key, r, a);
    forall p ensures HasSub(t, key, p) <==> HasSub(s, key, p) {
      if HasSub(s, key, p) {
        var k :| k in s.chain && k.root == key && s.chain[k].sub == p;
        assert k in t.chain && t.chain[k].sub == p;
      }
      if HasSub(t, key, p) {
        var k :| k in t.chain && k.root == key && t.chain[k].sub == p;
        assert k in s.chain && s.chain[k].sub == p;
      }
    }
    assert RowGroup(t, key, r, a);
  }

  /** The new rows of a whole group of adds. */
  lemma {:induction false} PromotedGroup(
    s: State, t: State, tx: TxHash, root: Root, rows: map<nat, AddKey>, key: RootKey, a: Aggregate)
    requires AddGroup(s, tx, root, a) && rows.Values == AddsOf(s, tx, root)
    requires forall k :: k in s.chain ==> k.root != key
    requires t.chain == s.chain + NewRows(rows, key)
    ensures RowGroup(t, key, root, a)
  {
    forall l | l in t.chain && l.root == key ensures t.chain[l].root == root && !t.chain[l].removed {
      assert rows[l.offset] in rows.Values;
    }
    forall p ensures HasSub(t, key, p) <==> p in Links(a) {
      if HasSub(t, key, p) {
        var l :| l in t.chain && l.root == key && t.chain[l].sub == p;
        assert rows[l.offset] in rows.Values && rows[l.offset] == AddKey(tx, root, p);
      }
      if p in Links(a) {
        assert AddKey(tx, root, p) in rows.Values;
        var o :| o in rows && rows[o] == AddKey(tx, root, p);
        assert ChainKey(key, o) in t.chain && t.chain[ChainKey(key, o)].sub == p;
      }
    }
  }

  lemma {:induction false} PromoteKeepsGroups(s: State, tx: TxHash, root: Root, rows: map<nat, AddKey>, key: RootKey)
    requires Rooted(s) && AddsGrouped(s) && RowsGrouped(s) && ChainEnabled(s, Promote(tx, root, rows, key))
    ensures var t := ChainApply(s, Promote(tx, root, rows, key)); AddsGrouped(t) && RowsGrouped(t)
  {
    var t := ChainApply(s, Promote(tx, root, rows, key));
    forall k | k in s.adds ensures k in rows.Values <==> k.tx == tx && k.root == root {
    }
    StatusKeepsAdds(s, t);
    forall k | k in t.chain && !t.chain[k].removed ensures IsRowGroup(t, k.root, t.chain[k].root) {
      if k in NewRows(rows, key) {
        assert rows[k.offset] in rows.Values && IsAddGroup(s, tx, root);
        var a :| a in Under(s.batches.ever, root) && AddGroup(s, tx, root, a);
        PromotedGroup(s, t, tx, root, rows, key, a);
      } else {
        OldGroup(s, t, rows, key, k);
      }
    }
  }

  lemma {:induction false} OldGroup(s: State, t: State, rows: map<nat, AddKey>, key: RootKey, k: ChainKey)
    requires RowsGrouped(s) && k in s.chain && !s.chain[k].removed && k.root != key
    requires t.chain == s.chain + NewRows(rows, key) && t.batches.ever == s.batches.ever
    ensures IsRowGroup(t, k.root, t.chain[k].root)
  {
    assert IsRowGroup(s, k.root, s.chain[k].root);
    UntouchedRows(s, t, k.root, s.chain[k].root);
  }

  lemma {:induction false} ChainKeepsGroups(s: State, step: ChainStep)
    requires Rooted(s) && AddsGrouped(s) && RowsGrouped(s) && ChainEnabled(s, step)
    ensures AddsGrouped(ChainApply(s, step)) && RowsGrouped(ChainApply(s, step))
  {
    var t := ChainApply(s, step);
    match step
    case Promote(tx, root, rows, key) => PromoteKeepsGroups(s, tx, root, rows, key);
    case Resolve(tx, ok) =>
      StatusKeepsAdds(s, t);
      RecordKeepsRows(s, t);
    case ClearDead(tx) =>
      ClearKeepsAdds(s, tx);
      RecordKeepsRows(s, t);
    case _ =>
      StatusKeepsAdds(s, t);
      RowStepKeepsRows(s, step);
  }

  lemma {:induction false} RowStepKeepsRows(s: State, step: ChainStep)
    requires Rooted(s) && RowsGrouped(s) && (step.RemoveRoot? || step.ConfirmRemoval? || step.ClearStamp?)
    ensures RowsGrouped(ChainApply(s, step))
  {
    var t := ChainApply(s, step);
    forall k | k in t.chain && !t.chain[k].removed ensures IsRowGroup(t, k.root, t.chain[k].root) {
      assert IsRowGroup(s, k.root, s.chain[k].root);
      UntouchedRows(s, t, k.root, s.chain[k].root);
    }
  }

  /** A turn deletes only removed rows. */
  lemma {:induction false} SweepRows(s: State, b: Blob, o: Outcome)
    ensures var t := SweepBlob(s, b, o);
            && (forall k :: k in t.chain ==> k in s.chain && t.chain[k] == s.chain[k])
            && (forall k :: k in s.chain && !s.chain[k].removed ==> k in t.chain)
  {
  }

  lemma {:induction false} SweepKeepsGroups(s: State, b: Blob, o: Outcome)
    requires Rooted(s) && AddsGrouped(s) && RowsGrouped(s)
    ensures AddsGrouped(SweepBlob(s, b, o)) && RowsGrouped(SweepBlob(s, b, o))
  {
    SweepRows(s, b, o);
    FewerRows(s, SweepBlob(s, b, o));
  }

  lemma {:induction false} FewerRows(s: State, t: State)
    requires Rooted(s) && AddsGrouped(s) && RowsGrouped(s) && t.adds == s.adds && t.batches == s.batches
    requires forall k :: k in t.chain ==> k in s.chain && t.chain[k] == s.chain[k]
    requires forall k :: k in s.chain && !s.chain[k].removed ==> k in t.chain
    ensures AddsGrouped(t) && RowsGrouped(t)
  {
    StatusKeepsAdds(s, t);
    forall k | k in t.chain && !t.chain[k].removed ensures IsRowGroup(t, k.root, t.chain[k].root) {
      assert IsRowGroup(s, k.root, s.chain[k].root);
      UntouchedRows(s, t, k.root, s.chain[k].root);
    }
  }

  lemma {:induction false} BatchKeepsGrouped(s: State, step: BatchStep)
    requires Staged(s) && Grouped(s) && BatchEnabled(s, step)
    ensures Grouped(BatchApply(s, step))
  {
    var t := BatchApply(s, step);
    BatchKeepsHistory(s, step);
    BatchKeepsRows(s, step);
    if step.Record? {
      RecordKeepsAdds(s, step.id, step.tx, step.roots);
      RecordKeepsRows(s, t);
    } else {
      SameKeepsGroups(s, t);
    }
  }

  lemma {:induction false} StepKeepsGrouped(e: Env, s: State, step: Step)
    requires Staged(s) && Rooted(s) && Grouped(s) && Enabled(s, step)
    ensures Grouped(Apply(e, s, step))
  {
    var t := Apply(e, s, step);
    match step
    case Client(c) => SameKeepsGroups(s, t);
    case Task(c) =>
      TaskKeepsRows(e, s, c);
      TaskKeepsAdds(e, s, c);
      SameKeepsGroups(s, t);
      HistoryGrows(s.batches, t.batches);
    case Batch(c) => BatchKeepsGrouped(s, c);
    case Chain(c) => ChainKeepsGroups(s, c);
    case Sweep(b, o) => SweepKeepsGroups(s, b, o);
    case CleanUp(b) => SameKeepsGroups(s, t);
  }

  lemma {:induction false} TaskKeepsAdds(e: Env, s: State, step: TaskStep)
    requires TaskEnabled(s, step)
    ensures var t := TaskApply(e, s, step);
            && t.adds == s.adds && t.batches.ever == s.batches.ever && t.batches.stored == s.batches.stored
            && forall id :: id in t.batches.loaded ==>
                 id in s.batches.loaded && t.batches.loaded[id] == s.batches.loaded[id]
  {
  }

  /** Over every run the adds and rows of roots come and go in whole aggregates. */
  lemma {:induction false} RunKeepsGrouped(e: Env, s: State, steps: seq<Step>)
    requires Staged(s) && Rooted(s) && Grouped(s) && IsRun(e, s, steps)
    ensures Staged(After(e, s, steps)) && Rooted(After(e, s, steps)) && Grouped(After(e, s, steps))
    decreases |steps|
  {
    if steps != [] {
      StepKeepsStaged(e, s, steps[0]);
      StepIsLater(e, s, steps[0]);
      StepKeepsGrouped(e, s, steps[0]);
      RunKeepsGrouped(e, Apply(e, s, steps[0]), steps[1..]);
    }
  }
}
