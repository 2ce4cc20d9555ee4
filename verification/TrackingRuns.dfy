/**
  Runs after which an accepted blob is neither queued nor proven: one whose root
  is removed by a pass that overlooks the acceptance, and one that is folded
  under a root that already counts as completed.
 */
module TrackingRuns {
  import opened Common
  import opened Pipeline
  import opened Lifecycle
  import opened Stages
  import opened Safety
  import opened Losses
  import opened LossRuns
  import opened RootRows
  import opened Tracking

  /** The aggregate of `b` is submitted, staged, confirmed and on chain; then `b` is released. */
  function Proving(b: Blob, id: TaskId, task: TaskId, sp: Space, a: Aggregate, tx: TxHash, key: RootKey): seq<Step>
    requires |a.pieces| == 1
  {
    Folding(b, id, sp, a)
    + ([Batch(Submit(a.root)), Batch(ClaimRoots({a.root}, task)), Batch(Load(task, map[a.root := a.pieces]))]
       + ([Batch(Record(task, tx, {a.root})), Chain(Resolve(tx, true)), Batch(Retire(task))]
          + [Chain(Promote(tx, a.root, map[0 := AddKey(tx, a.root, a.pieces[0].link)], key)), Client(Release(b, sp))]))
  }

  /** The node once `b` is hashed, but for what each stage adds. */
  function Mid(e: Env, b: Blob, id: TaskId, task: TaskId): State {
    Init.(bytes := {b}, tasks := Tasks({id, task}, {id, task}, map[]), commp := map[b := e.commP(b)],
          refs := {e.commP(b)})
  }

  function Submitted(e: Env, b: Blob, id: TaskId, task: TaskId, sp: Space, a: Aggregate): State
    requires |a.pieces| == 1
  {
    Mid(e, b, id, task).(
      claims := Claims({Claim(b, sp)}, {}),
      pipeline := map[b := HashedRow(e, b, id).(slot := Some(SlotAt(a, 0)))],
      batches := Batches(map[a.root := Some(task)], map[task := map[a.root := [a.pieces[0].link]]], map[],
                         map[a.root := {a}], map[a.root := {a}]))
  }

  function StagedState(e: Env, b: Blob, id: TaskId, task: TaskId, sp: Space, key: AddKey, a: Aggregate): State {
    Mid(e, b, id, task).(claims := Claims({Claim(b, sp)}, {}), adds := map[key := AddRow(Some(true), false)],
                         batches := NoBatches.(ever := map[a.root := {a}]))
  }

  function AggregatedState(e: Env, b: Blob, id: TaskId, sp: Space, a: Aggregate): State
    requires |a.pieces| == 1
  {
    Init.(bytes := {b}, claims := Claims({Claim(b, sp)}, {}),
          pipeline := map[b := HashedRow(e, b, id).(slot := Some(SlotAt(a, 0)))],
          tasks := Tasks({id}, {id}, map[]), commp := map[b := e.commP(b)], refs := {e.commP(b)},
          batches := NoBatches.(stored := map[a.root := {a}], ever := map[a.root := {a}]))
  }

  lemma {:induction false} IsAggregatedState(e: Env, b: Blob, id: TaskId, sp: Space, a: Aggregate)
    requires |a.pieces| == 1
    ensures Aggregated(e, Init, b, id, sp, a) == AggregatedState(e, b, id, sp, a)
  {
    assert {} + {a} == {a};
  }

  lemma {:induction false} IsSubmitted(e: Env, b: Blob, id: TaskId, task: TaskId, sp: Space, a: Aggregate)
    requires AloneIn(e, b, a) && id != task
    ensures Leads(e, Aggregated(e, Init, b, id, sp, a),
                  [Batch(Submit(a.root)), Batch(ClaimRoots({a.root}, task)),
                   Batch(Load(task, map[a.root := a.pieces]))],
                  Submitted(e, b, id, task, sp, a))
  {
    var s := AggregatedState(e, b, id, sp, a);
    var submit, claim, load :=
      Batch(Submit(a.root)), Batch(ClaimRoots({a.root}, task)), Batch(Load(task, map[a.root := a.pieces]));
    AloneLoads(e, b, id, sp, a);
    IsAggregatedState(e, b, id, sp, a);
    var s1 := s.(batches := s.batches.(submissions := map[a.root := None]));
    assert Apply(e, s, submit) == s1;
    OneClaimed(s1, task, a.root);
    var s2 := Apply(e, s1, claim);
    OneLoaded(s2, task, a);
    Three(e, s, submit, claim, load);
  }

  lemma {:induction false} OneClaimed(s: State, task: TaskId, root: Root)
    requires s.batches.submissions == map[root := None] && task !in s.tasks.issued
    ensures BatchEnabled(s, ClaimRoots({root}, task))
    ensures BatchApply(s, ClaimRoots({root}, task)) ==
            s.(tasks := Started(s.tasks, task), batches := s.batches.(submissions := map[root := Some(task)]))
  {
    assert BatchApply(s, ClaimRoots({root}, task)).batches.submissions == map[root := Some(task)];
  }

  lemma {:induction false} OneLoaded(s: State, task: TaskId, a: Aggregate)
    requires s.batches.submissions == map[a.root := Some(task)] && task in s.tasks.live
    requires s.batches.loaded == map[] && s.batches.sent == map[]
    requires |a.pieces| == 1 && Loads(s.pipeline, a.root, a.pieces)
    ensures var load := Load(task, map[a.root := a.pieces]);
            && BatchEnabled(s, load)
            && BatchApply(s, load) ==
               s.(batches := s.batches.(loaded := map[task := map[a.root := [a.pieces[0].link]]]))
  {
    var found := map[a.root := a.pieces];
    assert ClaimedBy(s, task) == {a.root} && s.batches.sent - {task} == map[];
    assert LinksOf(a.pieces) == [a.pieces[0].link];
    assert (map r | r in found :: LinksOf(found[r])) == map[a.root := [a.pieces[0].link]];
    assert BatchApply(s, Load(task, found)).batches.loaded == map[task := map[a.root := [a.pieces[0].link]]];
  }

  lemma {:induction false} AloneLoads(e: Env, b: Blob, id: TaskId, sp: Space, a: Aggregate)
    requires AloneIn(e, b, a)
    ensures Loads(Aggregated(e, Init, b, id, sp, a).pipeline, a.root, a.pieces)
  {
    var t := Aggregated(e, Init, b, id, sp, a).pipeline;
    assert t.Keys == {b} && InRoot(t, b, a.root) && StoresOf(t[b], a.pieces);
    forall i: nat | i < |a.pieces| ensures Filled(t, a.root, a.pieces, i) {
      assert t[b].slot.value.position == i;
    }
  }

  function OnChainState(e: Env, b: Blob, id: TaskId, task: TaskId, add: AddKey, key: RootKey, a: Aggregate): State {
    Mid(e, b, id, task).(
      adds := map[add := AddRow(Some(true), true)], batches := NoBatches.(ever := map[a.root := {a}]),
      chain := map[ChainKey(key, 0) := ChainRow(add.root, add.sub, None, false)], keys := {key}, pending := {b})
  }

  lemma {:induction false} OneRecorded(s: State, task: TaskId, tx: TxHash, root: Root, p: Piece)
    requires s.batches.loaded == map[task := map[root := [p]]] && s.batches.sent == map[]
    requires s.adds == map[] && s.chain == map[]
    ensures BatchEnabled(s, Record(task, tx, {root}))
    ensures BatchApply(s, Record(task, tx, {root})) ==
            s.(adds := map[AddKey(tx, root, p) := AddRow(None, false)],
               batches := s.batches.(sent := map[task := Sent(tx, {root}, {})]))
  {
    assert s.batches.loaded[task].Keys == {root} && NewRoots(s, {root}) == {root} && CompletedRoots(s, {root}) == {};
    var t := BatchApply(s, Record(task, tx, {root}));
    assert forall k :: k in t.adds <==> k == AddKey(tx, root, p);
    assert t.batches.sent == map[task := Sent(tx, {root}, {})];
  }

  lemma {:induction false} OneRetired(s: State, task: TaskId, b: Blob, key: AddKey, ever: map<Root, set<Aggregate>>)
    requires s.pipeline.Keys == {b} && InRoot(s.pipeline, b, key.root)
    requires s.batches.loaded.Keys == {task} && s.batches.loaded[task].Keys == {key.root}
    requires s.batches.submissions == map[key.root := Some(task)] && s.batches.stored.Keys == {key.root}
    requires s.batches.sent == map[task := Sent(key.tx, {key.root}, {})] && s.batches.ever == ever
    requires s.adds == map[key := AddRow(Some(true), false)]
    ensures BatchEnabled(s, Retire(task))
    ensures BatchApply(s, Retire(task)) == s.(pipeline := map[], batches := NoBatches.(ever := ever))
  {
    assert key in s.adds && Confirmed(s, key.root, Some(key.tx));
    var t := BatchApply(s, Retire(task));
    assert t.pipeline == map[] && t.batches.submissions == map[];
    assert t.batches.loaded == map[] && t.batches.stored == map[] && t.batches.sent == map[];
  }

  lemma {:induction false} OneConfirmed(s: State, tx: TxHash, key: AddKey)
    requires s.adds == map[key := AddRow(None, false)] && key.tx == tx
    ensures ChainApply(s, Resolve(tx, true)) == s.(adds := map[key := AddRow(Some(true), false)])
  {
    assert ChainApply(s, Resolve(tx, true)).adds == map[key := AddRow(Some(true), false)];
  }

  lemma {:induction false} IsStaged(e: Env, b: Blob, id: TaskId, task: TaskId, sp: Space, a: Aggregate, tx: TxHash)
    requires AloneIn(e, b, a)
    ensures Leads(e, Submitted(e, b, id, task, sp, a),
                  [Batch(Record(task, tx, {a.root})), Chain(Resolve(tx, true)), Batch(Retire(task))],
                  StagedState(e, b, id, task, sp, AddKey(tx, a.root, a.pieces[0].link), a))
  {
    var s := Submitted(e, b, id, task, sp, a);
    var rec, resolve, retire := Batch(Record(task, tx, {a.root})), Chain(Resolve(tx, true)), Batch(Retire(task));
    var key := AddKey(tx, a.root, a.pieces[0].link);
    OneRecorded(s, task, tx, a.root, a.pieces[0].link);
    var s1 := s.(adds := map[key := AddRow(None, false)],
                 batches := s.batches.(sent := map[task := Sent(tx, {a.root}, {})]));
    assert Apply(e, s, rec) == s1;
    OneConfirmed(s1, tx, key);
    var s2 := s1.(adds := map[key := AddRow(Some(true), false)]);
    assert Apply(e, s1, resolve) == s2;
    OneRetired(s2, task, b, key, map[a.root := {a}]);
    Three(e, s, rec, resolve, retire);
  }

  lemma {:induction false} IsProven(
    e: Env, b: Blob, id: TaskId, task: TaskId, sp: Space, add: AddKey, key: RootKey, a: Aggregate)
    ensures Leads(e, StagedState(e, b, id, task, sp, add, a),
                  [Chain(Promote(add.tx, add.root, map[0 := add], key)), Client(Release(b, sp))],
                  OnChainState(e, b, id, task, add, key, a))
  {
    var s := StagedState(e, b, id, task, sp, add, a);
    var rows: map<nat, AddKey> := map[0 := add];
    var promote, release := Chain(Promote(add.tx, add.root, rows, key)), Client(Release(b, sp));
    OnePromoted(s, add, key);
    var s1 := Apply(e, s, promote);
    var t := Apply(e, s1, release);
    assert !Claimed(t, b) && t.claims == Claims({}, {});
    Two(e, s, promote, release);
  }

  lemma {:induction false} OnePromoted(s: State, add: AddKey, key: RootKey)
    requires s.adds == map[add := AddRow(Some(true), false)] && s.chain == map[] && s.keys == {}
    ensures ChainEnabled(s, Promote(add.tx, add.root, map[0 := add], key))
    ensures ChainApply(s, Promote(add.tx, add.root, map[0 := add], key)) ==
            s.(adds := map[add := AddRow(Some(true), true)],
               chain := map[ChainKey(key, 0) := ChainRow(add.root, add.sub, None, false)], keys := {key})
  {
    var rows: map<nat, AddKey> := map[0 := add];
    assert 0 in rows && rows[0] == add;
    assert rows.Values == {add} == AddsOf(s, add.tx, add.root);
    var t := ChainApply(s, Promote(add.tx, add.root, rows, key));
    assert t.adds == map[add := AddRow(Some(true), true)];
    assert NewRows(rows, key).Keys == {ChainKey(key, 0)};
    assert t.chain == map[ChainKey(key, 0) := ChainRow(add.root, add.sub, None, false)];
  }

  lemma {:induction false} ProvingRun(
    e: Env, b: Blob, id: TaskId, task: TaskId, sp: Space, a: Aggregate, tx: TxHash, key: RootKey) returns (t: State)
    requires AloneIn(e, b, a) && id != task
    ensures t == OnChainState(e, b, id, task, AddKey(tx, a.root, a.pieces[0].link), key, a)
    ensures Leads(e, Init, Proving(b, id, task, sp, a, tx, key), t)
  {
    var submit := [Batch(Submit(a.root)), Batch(ClaimRoots({a.root}, task)),
                   Batch(Load(task, map[a.root := a.pieces]))];
    var stage := [Batch(Record(task, tx, {a.root})), Chain(Resolve(tx, true)), Batch(Retire(task))];
    var add := AddKey(tx, a.root, a.pieces[0].link);
    var prove := [Chain(Promote(tx, a.root, map[0 := add], key)), Client(Release(b, sp))];
    IsFolded(e, Init, b, id, sp, a);
    IsSubmitted(e, b, id, task, sp, a);
    IsStaged(e, b, id, task, sp, a, tx);
    IsProven(e, b, id, task, sp, add, key, a);
    t := OnChainState(e, b, id, task, add, key, a);
    Join(e, Submitted(e, b, id, task, sp, a), stage, StagedState(e, b, id, task, sp, add, a), prove, t);
    Join(e, Aggregated(e, Init, b, id, sp, a), submit, Submitted(e, b, id, task, sp, a), stage + prove, t);
    Join(e, Init, Folding(b, id, sp, a), Aggregated(e, Init, b, id, sp, a), submit + (stage + prove), t);
  }

  // ------------------------------------------- a revived root is retired unproven

  /** `b` is accepted again, hashed, folded under its old root, and the root submitted. */
  function Revival(b: Blob, sp: Space, id: TaskId, task: TaskId, a: Aggregate, tx: TxHash): seq<Step> {
    [Client(Accept(b, sp, false)), Task(SpawnCommP(b, id)), Task(HashParkStamp(b, id))]
    + ([Batch(Fold(a, [b])), Batch(Submit(a.root)), Batch(ClaimRoots({a.root}, task))]
       + [Batch(Load(task, map[a.root := a.pieces])), Batch(Record(task, tx, {})), Batch(Retire(task))])
  }

  /** What a revival leaves alone. */
  ghost predicate SameChainTables(s: State, t: State) {
    t.commp == s.commp && t.adds == s.adds && t.chain == s.chain
  }

  lemma {:induction false} IsRequeued(e: Env, s: State, b: Blob, sp: Space, id: TaskId) returns (t: State)
    requires b in s.bytes && b !in s.pipeline && b !in s.pending && b in s.commp && s.commp[b] == e.commP(b)
    requires !Needed(s, e.commP(b)) && id !in s.tasks.issued && s.tasks.working == map[]
    ensures Leads(e, s, [Client(Accept(b, sp, false)), Task(SpawnCommP(b, id)), Task(HashParkStamp(b, id))], t)
    ensures SameChainTables(s, t) && t.batches == s.batches && t.pipeline == s.pipeline[b := HashedRow(e, b, id)]
    ensures Claim(b, sp) in t.claims.acceptances && t.tasks.issued == s.tasks.issued + {id}
  {
    var accept, spawn, hash := Client(Accept(b, sp, false)), Task(SpawnCommP(b, id)), Task(HashParkStamp(b, id));
    assert !Carried(s, b);
    var s1 := Apply(e, s, accept);
    var s2 := Apply(e, s1, spawn);
    t := Apply(e, s2, hash);
    assert s2.pipeline == s.pipeline[b := NewRow.(commpTask := Some(id))] && s2.tasks == Started(s.tasks, id);
    assert t.commp == s.commp && t.pipeline == s.pipeline[b := HashedRow(e, b, id)];
    Three(e, s, accept, spawn, hash);
  }

  lemma {:induction false} IsRefolded(e: Env, s: State, b: Blob, id: TaskId, task: TaskId, a: Aggregate)
    returns (t: State)
    requires AloneIn(e, b, a) && b in s.pipeline && s.pipeline[b] == HashedRow(e, b, id)
    requires a.root !in s.batches.submissions && task !in s.tasks.issued
    ensures Leads(e, s, [Batch(Fold(a, [b])), Batch(Submit(a.root)), Batch(ClaimRoots({a.root}, task))], t)
    ensures SameChainTables(s, t) && t.claims == s.claims && task in t.tasks.live
    ensures t.pipeline == s.pipeline[b := HashedRow(e, b, id).(slot := Some(SlotAt(a, 0)))]
    ensures t.batches.submissions == s.batches.submissions[a.root := Some(task)]
  {
    var fold, submit, claim := Batch(Fold(a, [b])), Batch(Submit(a.root)), Batch(ClaimRoots({a.root}, task));
    OneFolded(e, s, b, a);
    var s1 := Apply(e, s, fold);
    var s2 := s1.(batches := s1.batches.(submissions := s.batches.submissions[a.root := None]));
    assert Apply(e, s1, submit) == s2;
    t := Apply(e, s2, claim);
    assert t.batches.submissions == s.batches.submissions[a.root := Some(task)];
    Three(e, s, fold, submit, claim);
  }

  lemma {:induction false} OneFolded(e: Env, s: State, b: Blob, a: Aggregate)
    requires AloneIn(e, b, a) && b in s.pipeline
    requires s.pipeline[b].commp == Some(e.commP(b)) && s.pipeline[b].slot == None
    ensures BatchEnabled(s, Fold(a, [b]))
    ensures BatchApply(s, Fold(a, [b])) ==
            s.(pipeline := s.pipeline[b := s.pipeline[b].(slot := Some(SlotAt(a, 0)))],
               batches := Remembered(s.batches, a))
  {
    assert Fits(s.pipeline, a, 0, [b][0]) && [b][..1] == [b];
    assert BatchApply(s, Fold(a, [b])).pipeline == s.pipeline[b := s.pipeline[b].(slot := Some(SlotAt(a, 0)))];
  }

  lemma {:induction false} IsRetired(e: Env, s: State, b: Blob, task: TaskId, a: Aggregate, tx: TxHash)
    returns (t: State)
    requires b in s.pipeline && AloneIn(e, b, a) && s.pipeline[b].commp == Some(e.commP(b))
    requires s.pipeline[b].slot == Some(SlotAt(a, 0)) && task in s.tasks.live && HasRow(s, a.root)
    requires forall x :: x in s.pipeline && x != b ==> !InRoot(s.pipeline, x, a.root)
    requires forall r :: r in s.batches.submissions ==> (s.batches.submissions[r] == Some(task) <==> r == a.root)
    requires a.root in s.batches.submissions && forall k :: k in s.adds ==> k.tx != tx
    ensures Leads(e, s, [Batch(Load(task, map[a.root := a.pieces])), Batch(Record(task, tx, {})),
                         Batch(Retire(task))], t)
    ensures SameChainTables(s, t) && t.claims == s.claims && b !in t.pipeline
  {
    var load, rec, retire :=
      Batch(Load(task, map[a.root := a.pieces])), Batch(Record(task, tx, {})), Batch(Retire(task));
    assert ClaimedBy(s, task) == {a.root};
    forall i: nat | i < |a.pieces| ensures Filled(s.pipeline, a.root, a.pieces, i) {
      assert InRoot(s.pipeline, b, a.root) && s.pipeline[b].slot.value.position == i;
    }
    assert Loads(s.pipeline, a.root, a.pieces);
    var s1 := Apply(e, s, load);
    assert HasRow(s1, a.root);
    assert NewRoots(s1, s1.batches.loaded[task].Keys) == {} && CompletedRoots(s1, {a.root}) == {a.root};
    NothingRecorded(s1, task, tx);
    var s2 := Apply(e, s1, rec);
    t := Apply(e, s2, retire);
    Three(e, s, load, rec, retire);
  }

  lemma {:induction false} NothingRecorded(s: State, task: TaskId, tx: TxHash)
    requires BatchEnabled(s, Record(task, tx, {}))
    ensures BatchApply(s, Record(task, tx, {})).adds == s.adds
  {
    assert forall k :: k !in NewAdds(s.batches.loaded[task], tx, {});
  }

  /**
    A blob is accepted again once its piece is nowhere staged or on chain, and
    folded under a root that has a row: of the same aggregate and removed, or of
    another aggregate. The root counts as completed, so the AddRoots run records
    nothing for it and retires its row: the blob is neither queued nor proven.
   */
  lemma {:induction false} RevivedIsUntracked(
    e: Env, s: State, b: Blob, sp: Space, id: TaskId, task: TaskId, a: Aggregate, tx: TxHash) returns (t: State)
    requires b in s.bytes && b !in s.pipeline && b !in s.pending && b in s.commp && s.commp[b] == e.commP(b)
    requires HasRow(s, a.root) && !Needed(s, e.commP(b)) && forall k :: k in s.adds ==> k.tx != tx
    requires AloneIn(e, b, a) && !HasRoot(s.pipeline, a.root) && a.root !in s.batches.submissions
    requires id !in s.tasks.issued && task !in s.tasks.issued && id != task && s.tasks.working == map[]
    requires forall r :: r in s.batches.submissions ==> s.batches.submissions[r] != Some(task)
    ensures Leads(e, s, Revival(b, sp, id, task, a, tx), t) && Accepted(t, b) && !Tracked(t, b)
  {
    var requeue := [Client(Accept(b, sp, false)), Task(SpawnCommP(b, id)), Task(HashParkStamp(b, id))];
    var refold := [Batch(Fold(a, [b])), Batch(Submit(a.root)), Batch(ClaimRoots({a.root}, task))];
    var retire := [Batch(Load(task, map[a.root := a.pieces])), Batch(Record(task, tx, {})), Batch(Retire(task))];
    var s1 := IsRequeued(e, s, b, sp, id);
    var s2 := IsRefolded(e, s1, b, id, task, a);
    forall x | x in s2.pipeline && x != b ensures !InRoot(s2.pipeline, x, a.root) {
      assert x in s.pipeline && s2.pipeline[x] == s.pipeline[x];
      assert !InRoot(s.pipeline, x, a.root);
    }
    assert HasRow(s2, a.root);
    t := IsRetired(e, s2, b, task, a, tx);
    Join(e, s1, refold, s2, retire, t);
    Join(e, s, requeue, s1, refold + retire, t);
    assert Claim(b, sp).blob == b;
    assert Needed(t, e.commP(b)) <==> Needed(s, e.commP(b));
  }
}
