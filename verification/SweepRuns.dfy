/**
  Removal passes that others overtake between a blob's turn and the removal of
  its root: one that leaves an accepted blob untracked, and one that removes a
  root whose deletion is already in flight.
 */
module SweepRuns {
  import opened Common
  import opened Pipeline
  import opened Lifecycle
  import opened Safety
  import opened Losses
  import opened RootRows
  import opened RemovalSweep
  import opened LossRuns
  import opened Tracking
  import opened TrackingRuns

  /** `b` is pending and unclaimed, and its piece is live in root `key` only, alone in it, with nothing in flight. */
  ghost predicate SoleReady(s: State, b: Blob, key: RootKey) {
    && b in s.pending && !Claimed(s, b) && b !in s.pipeline && b in s.commp
    && !HasLiveAdd(s, s.commp[b]) && Settled(s, s.commp[b])
    && LiveSubs(s, key) == {s.commp[b]} && forall r :: s.commp[b] in LiveSubs(s, r) ==> r == key
  }

  /** Nothing fails, and `rm` is the transaction of every removal. */
  function Calm(rm: TxHash): Weather {
    Weather((b: Blob) => Fine, (b: Blob) => Untouched, (r: RootKey) => false, (r: RootKey) => rm)
  }

  /** `step` happens between the count of the only root and its removal, and nothing else. */
  function Between(step: Step): nat -> seq<Step> {
    (k: nat) => if k == 2 then [step] else []
  }

  /** What the pass over `b` alone does: its turn, the others' step, the removal. */
  function Steps(b: Blob, key: RootKey, rm: TxHash, step: Step): seq<Step> {
    [Sweep(b, Untouched), step, Chain(RemoveRoot(key, rm))]
  }

  ghost function States(e: Env, s: State, key: RootKey, rm: TxHash, step: Step): seq<State>
    requires Enabled(s, step)
  {
    [s, s, Apply(e, s, step), ChainApply(Apply(e, s, step), RemoveRoot(key, rm))]
  }

  /** The pass counts the root at its second state and removes it by its third step. */
  ghost predicate IsPass(e: Env, s: State, b: Blob, key: RootKey, rm: TxHash, step: Step)
    requires Enabled(s, step)
  {
    var past, history := Steps(b, key, rm, step), States(e, s, key, rm, step);
    && Trace(e, past, history)
    && TurnsTaken(past, history, Calm(rm), [b], Between(step), [0], [s], 0)
    && Retires(past, history, Calm(rm), [b], [s], {key}, map[key := 1], map[key := 2], NextTurn(Calm(rm), [b], [0], 0))
  }

  lemma {:induction false} PassIsTrace(e: Env, s: State, b: Blob, key: RootKey, rm: TxHash, step: Step)
    requires SoleReady(s, b, key) && Enabled(s, step)
    ensures Trace(e, Steps(b, key, rm, step), States(e, s, key, rm, step))
  {
    assert OnChain(s, s.commp[b]) by {
      assert s.commp[b] in LiveSubs(s, key);
    }
    assert SweepBlob(s, b, Untouched) == s;
  }

  lemma {:induction false} PassCounts(s: State, b: Blob, key: RootKey, rm: TxHash, r: RootKey, p: Piece)
    requires SoleReady(s, b, key)
    ensures Counts([s], [b], Calm(rm), r, p) <==> r == key && p == s.commp[b]
  {
    assert Ready(s, Calm(rm), b);
    assert CountedAt([s], [b], Calm(rm), 0, r, p) <==> p == s.commp[b] && p in LiveSubs(s, r);
  }

  lemma {:induction false} PassTakesTurn(e: Env, s: State, b: Blob, key: RootKey, rm: TxHash, step: Step)
    requires Enabled(s, step)
    ensures TurnsTaken(Steps(b, key, rm, step), States(e, s, key, rm, step), Calm(rm), [b], Between(step), [0], [s], 0)
  {
    var past, history := Steps(b, key, rm, step), States(e, s, key, rm, step);
    assert [0][..0] == [];
    assert TurnTaken(past, history, Calm(rm), [b], Between(step), [0], [s], 0, 0);
  }

  /** It meets every promise of a pass, in every such state and whatever the others do. */
  lemma {:induction false} PassIsMade(e: Env, s: State, b: Blob, key: RootKey, rm: TxHash, step: Step)
    requires SoleReady(s, b, key) && Enabled(s, step)
    ensures IsPass(e, s, b, key, rm, step)
  {
    PassIsTrace(e, s, b, key, rm, step);
    PassTakesTurn(e, s, b, key, rm, step);
    PassRetires(Steps(b, key, rm, step), States(e, s, key, rm, step), s, b, key, rm);
  }

  lemma {:induction false} PassRetires(
    past: seq<Step>, history: seq<State>, s: State, b: Blob, key: RootKey, rm: TxHash)
    requires SoleReady(s, b, key) && |history| > 1 && history[1] == s
    requires |past| > 2 && past[2] == Chain(RemoveRoot(key, rm))
    ensures Retires(past, history, Calm(rm), [b], [s], {key}, map[key := 1], map[key := 2],
                    NextTurn(Calm(rm), [b], [0], 0))
  {
    forall r, p ensures Counts([s], [b], Calm(rm), r, p) <==> r == key && p == s.commp[b] {
      PassCounts(s, b, key, rm, r, p);
    }
    assert AllCounted(s, [s], [b], Calm(rm), key);
    assert RemovedAt(past, Calm(rm), key, 1, 2);
  }

  // ------------------------------------------- an accept overtakes the removal

  /**
    A blob accepted between its turn and the removal of its root is neither
    queued nor proven: its row was live when it was accepted, so it was not
    queued again, and then the pass removed the root.
   */
  lemma {:induction false} OvertakenIsUntracked(e: Env, s: State, b: Blob, sp: Space, key: RootKey, rm: TxHash)
    returns (t: State)
    requires SoleReady(s, b, key) && b in s.bytes
    ensures var accept := Client(Accept(b, sp, false));
            && IsPass(e, s, b, key, rm, accept)
            && Leads(e, s, Steps(b, key, rm, accept) + [Chain(ConfirmRemoval(key))], t)
    ensures Accepted(t, b) && !Tracked(t, b)
  {
    var turn, accept, remove, confirm :=
      Sweep(b, Untouched), Client(Accept(b, sp, false)), Chain(RemoveRoot(key, rm)), Chain(ConfirmRemoval(key));
    PassIsMade(e, s, b, key, rm, accept);
    SoleIsCarried(s, b, key);
    var s1 := Apply(e, s, accept);
    assert s1 == s.(claims := s1.claims) && Claim(b, sp) in s1.claims.acceptances;
    var s2 := Apply(e, s1, remove);
    SoleIsOnlyIn(s, s2, b, key, rm);
    t := Apply(e, s2, confirm);
    OnChainAfterConfirm(s2, key, s.commp[b]);
    assert HasLiveAdd(t, s.commp[b]) <==> HasLiveAdd(s, s.commp[b]);
    assert Claim(b, sp) in t.claims.acceptances && Claim(b, sp).blob == b;
    Three(e, s, accept, remove, confirm);
    Prepend(e, s, turn, [accept, remove, confirm], t);
    assert Steps(b, key, rm, accept) + [confirm] == [turn] + [accept, remove, confirm];
  }

  lemma {:induction false} SoleIsCarried(s: State, b: Blob, key: RootKey)
    requires SoleReady(s, b, key)
    ensures Carried(s, b) && SweepBlob(s, b, Untouched) == s
  {
    assert s.commp[b] in LiveSubs(s, key);
    var k :| k in s.chain && Unremoved(s, k) && k.root == key && s.chain[k].sub == s.commp[b];
    assert s.chain[k].rmHash == None;
  }

  lemma {:induction false} SoleIsOnlyIn(s: State, t: State, b: Blob, key: RootKey, rm: TxHash)
    requires SoleReady(s, b, key) && t.chain == ChainApply(s, RemoveRoot(key, rm)).chain
    ensures OnlyIn(t, s.commp[b], key)
  {
    forall k | k in t.chain && t.chain[k].sub == s.commp[b] && !t.chain[k].removed
      ensures k.root == key && t.chain[k].rmHash.Some?
    {
      assert s.commp[b] in LiveSubs(s, k.root);
    }
  }

  lemma {:induction false} OnChainIsSole(
    e: Env, b: Blob, id: TaskId, task: TaskId, add: AddKey, key: RootKey, a: Aggregate)
    requires add.sub == e.commP(b)
    ensures SoleReady(OnChainState(e, b, id, task, add, key, a), b, key)
  {
    var s := OnChainState(e, b, id, task, add, key, a);
    assert Unremoved(s, ChainKey(key, 0)) && LiveSubs(s, key) == {e.commP(b)};
  }

  /** Such a run from the empty node. */
  lemma {:induction false} OvertakenIsReachable(
    e: Env, b: Blob, id: TaskId, task: TaskId, sp: Space, a: Aggregate, tx: TxHash, key: RootKey, rm: TxHash)
    returns (s: State, t: State)
    requires AloneIn(e, b, a) && id != task
    ensures Leads(e, Init, Proving(b, id, task, sp, a, tx, key), s) && b in s.bytes
    ensures var accept := Client(Accept(b, sp, false));
            && IsPass(e, s, b, key, rm, accept)
            && Leads(e, s, Steps(b, key, rm, accept) + [Chain(ConfirmRemoval(key))], t)
    ensures Accepted(t, b) && !Tracked(t, b)
  {
    s := ProvingRun(e, b, id, task, sp, a, tx, key);
    OnChainIsSole(e, b, id, task, AddKey(tx, a.root, a.pieces[0].link), key, a);
    t := OvertakenIsUntracked(e, s, b, sp, key, rm);
  }

  // ------------------------------------------ a removal overtakes the removal

  /** A root removed by hand after the turn is removed again: its deletion is in flight when the pass removes it. */
  lemma {:induction false} RemovedAgain(
    e: Env, b: Blob, id: TaskId, task: TaskId, sp: Space, a: Aggregate, tx: TxHash, key: RootKey,
    rm: TxHash, other: TxHash)
    returns (s: State)
    requires AloneIn(e, b, a) && id != task
    ensures Leads(e, Init, Proving(b, id, task, sp, a, tx, key), s)
    ensures IsPass(e, s, b, key, rm, Chain(RemoveRoot(key, other)))
    ensures BeingRemoved(States(e, s, key, rm, Chain(RemoveRoot(key, other)))[2], key)
  {
    s := ProvingRun(e, b, id, task, sp, a, tx, key);
    OnChainIsSole(e, b, id, task, AddKey(tx, a.root, a.pieces[0].link), key, a);
    PassIsMade(e, s, b, key, rm, Chain(RemoveRoot(key, other)));
    assert ChainKey(key, 0) in ChainApply(s, RemoveRoot(key, other)).chain;
  }
}
