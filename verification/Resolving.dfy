/**
  What proving reads: a piece is resolved to one of the blobs mapped to it, any
  of them, and the bytes of that blob are read. `Safety` promises that some
  mapped blob has its bytes; this says when every one of them does.
 */
module Resolving {
  import opened Common
  import opened Pipeline
  import opened Lifecycle
  import opened Stages
  import opened Safety
  import opened Losses
  import opened LossRuns
  import opened RootRows
  import opened TrackingRuns

  /** Whichever blob a staged or proven piece is resolved to has its bytes. */
  ghost predicate Resolves(s: State) {
    forall b :: b in s.commp && Needed(s, s.commp[b]) ==> b in s.bytes
  }

  /** A root of `rs` that the AddRoots run has loaded has the piece. */
  ghost predicate Loaded(s: State, id: TaskId, rs: set<Root>, p: Piece)
    requires id in s.batches.loaded && rs <= s.batches.loaded[id].Keys
  {
    exists r :: r in rs && p in s.batches.loaded[id][r]
  }

  /**
    The step leaves `b` mapped to a needed piece without its bytes: a clean-up
    takes them, or an add is recorded for a piece they are already gone of.
   */
  ghost predicate Blinds(s: State, step: Step, b: Blob)
    requires Enabled(s, step)
  {
    match step
    case CleanUp(c) => b == c && b in s.commp && Needed(s, s.commp[b])
    case Batch(Record(id, _, rs)) => b in s.commp && b !in s.bytes && Loaded(s, id, rs, s.commp[b])
    case _ => false
  }

  /** Nothing more is needed, no bytes go, and what is newly mapped has its bytes. */
  lemma {:induction false} NoMoreNeeded(s: State, t: State)
    requires Resolves(s) && s.bytes <= t.bytes && forall p :: Needed(t, p) ==> Needed(s, p)
    requires forall b :: b in t.commp ==> b in t.bytes || (b in s.commp && t.commp[b] == s.commp[b])
    ensures Resolves(t)
  {
  }

  lemma {:induction false} TaskKeepsResolving(e: Env, s: State, step: TaskStep)
    requires Resolves(s) && TaskEnabled(s, step)
    ensures Resolves(TaskApply(e, s, step))
  {
    var t := TaskApply(e, s, step);
    TaskKeepsRows(e, s, step);
    assert t.adds == s.adds && t.bytes == s.bytes;
    forall p ensures Needed(t, p) <==> Needed(s, p) {
    }
    NoMoreNeeded(s, t);
  }

  lemma {:induction false} RecordNeeds(s: State, id: TaskId, tx: TxHash, rs: set<Root>, p: Piece)
    requires BatchEnabled(s, Record(id, tx, rs))
    ensures Needed(BatchApply(s, Record(id, tx, rs)), p) <==> Needed(s, p) || Loaded(s, id, rs, p)
  {
    var t := BatchApply(s, Record(id, tx, rs));
    if Loaded(s, id, rs, p) {
      var r :| r in rs && p in s.batches.loaded[id][r];
      assert AddKey(tx, r, p) in t.adds && LiveAdd(t.adds[AddKey(tx, r, p)]);
    }
    if HasLiveAdd(s, p) {
      var k :| k in s.adds && k.sub == p && LiveAdd(s.adds[k]);
      assert k in t.adds && t.adds[k] == s.adds[k];
    }
    if HasLiveAdd(t, p) {
      var k :| k in t.adds && k.sub == p && LiveAdd(t.adds[k]);
      assert k in s.adds || k in NewAdds(s.batches.loaded[id], tx, rs);
    }
  }

  lemma {:induction false} RecordKeepsResolvingIff(s: State, id: TaskId, tx: TxHash, rs: set<Root>)
    requires Resolves(s) && BatchEnabled(s, Record(id, tx, rs))
    ensures Resolves(BatchApply(s, Record(id, tx, rs))) <==>
            !exists b :: Blinds(s, Batch(Record(id, tx, rs)), b)
  {
    var t := BatchApply(s, Record(id, tx, rs));
    forall b | b in s.commp
      ensures Needed(t, s.commp[b]) <==> Needed(s, s.commp[b]) || Loaded(s, id, rs, s.commp[b])
    {
      RecordNeeds(s, id, tx, rs, s.commp[b]);
    }
    if b :| Blinds(s, Batch(Record(id, tx, rs)), b) {
      assert t.commp == s.commp && t.bytes == s.bytes && Needed(t, t.commp[b]);
    } else {
      forall b | b in t.commp && Needed(t, t.commp[b]) ensures b in t.bytes {
        assert !Blinds(s, Batch(Record(id, tx, rs)), b);
      }
    }
  }

  lemma {:induction false} SweepKeepsResolving(s: State, b: Blob, o: Outcome)
    requires Resolves(s)
    ensures Resolves(SweepBlob(s, b, o))
  {
    var t := SweepBlob(s, b, o);
    forall p | Needed(t, p) ensures Needed(s, p) {
    }
    forall c | c in t.commp && Needed(t, t.commp[c]) ensures c in t.bytes {
      assert c in s.commp && t.commp[c] == s.commp[c] && Needed(s, s.commp[c]);
    }
  }

  /** A step keeps every resolution on bytes if and only if it blinds no mapped blob. */
  lemma {:induction false} StepKeepsResolvingIff(e: Env, s: State, step: Step)
    requires Resolves(s) && Enabled(s, step)
    ensures Resolves(Apply(e, s, step)) <==> !exists b :: Blinds(s, step, b)
  {
    match step
    case Client(c) =>
      forall p ensures Needed(ClientApply(s, c), p) <==> Needed(s, p) {
      }
      NoMoreNeeded(s, ClientApply(s, c));
    case Task(t) => TaskKeepsResolving(e, s, t);
    case Batch(c) =>
      if c.Record? {
        RecordKeepsResolvingIff(s, c.id, c.tx, c.roots);
      } else {
        OtherBatchKeepsResolving(s, c);
      }
    case Chain(c) =>
      forall p | Needed(ChainApply(s, c), p) ensures Needed(s, p) {
        NeededBefore(s, c, p);
      }
      NoMoreNeeded(s, ChainApply(s, c));
    case Sweep(b, o) => SweepKeepsResolving(s, b, o);
    case CleanUp(b) =>
      var t := s.(bytes := s.bytes - {b});
      forall p ensures Needed(t, p) <==> Needed(s, p) {
      }
      if b in s.commp && Needed(s, s.commp[b]) {
        assert Blinds(s, step, b) && b !in t.bytes;
      }
  }

  lemma {:induction false} OtherBatchKeepsResolving(s: State, step: BatchStep)
    requires Resolves(s) && BatchEnabled(s, step) && !step.Record?
    ensures Resolves(BatchApply(s, step))
  {
    var t := BatchApply(s, step);
    assert t.adds == s.adds && t.chain == s.chain && t.bytes == s.bytes && t.commp == s.commp;
    forall p ensures Needed(t, p) <==> Needed(s, p) {
    }
  }

  ghost predicate NoneBlinded(e: Env, s: State, steps: seq<Step>)
    requires IsRun(e, s, steps)
    decreases |steps|
  {
    steps == [] || ((forall b :: !Blinds(s, steps[0], b)) && NoneBlinded(e, Apply(e, s, steps[0]), steps[1..]))
  }

  /** Throughout every run that blinds none, whatever a needed piece resolves to can be read. */
  lemma {:induction false} RunKeepsResolving(e: Env, s: State, steps: seq<Step>)
    requires Resolves(s) && IsRun(e, s, steps) && NoneBlinded(e, s, steps)
    ensures Resolves(After(e, s, steps))
    decreases |steps|
  {
    if steps != [] {
      StepKeepsResolvingIff(e, s, steps[0]);
      RunKeepsResolving(e, Apply(e, s, steps[0]), steps[1..]);
    }
  }

  /**
    A harmless clean-up can blind: the piece is on chain and another blob holds
    it, but it may be resolved to the one whose bytes are gone.
   */
  lemma {:induction false} HarmlessCleanUpBlinds(
    e: Env, b: Blob, c: Blob, id: TaskId, task: TaskId, sp: Space, a: Aggregate, tx: TxHash, key: RootKey)
    returns (t: State)
    requires AloneIn(e, b, a) && id != task && b != c && e.commP(b) == e.commP(c)
    ensures Leads(e, Init, Proving(b, id, task, sp, a, tx, key)
                           + [Client(Upload(c)), Task(Calculate(c)), CleanUp(c)], t)
    ensures !Resolves(t) && Safe(e, t)
  {
    var s := ProvingRun(e, b, id, task, sp, a, tx, key);
    var upload, calculate, clean := Client(Upload(c)), Task(Calculate(c)), CleanUp(c);
    var s1 := Apply(e, s, upload);
    var s2 := Apply(e, s1, calculate);
    assert !Careless(e, s2, c) by {
      assert b in s2.bytes && b in s2.commp && c !in s2.pipeline;
      forall p | Needed(s2, p) ensures p == e.commP(b) {
      }
    }
    t := Apply(e, s2, clean);
    Three(e, s, upload, calculate, clean);
    assert t.chain == s.chain && ChainKey(key, 0) in t.chain && OnChain(t, e.commP(c));
    assert c in t.commp && c !in t.bytes;
    Join(e, Init, Proving(b, id, task, sp, a, tx, key), s, [upload, calculate, clean], t);
    assert b in t.bytes;
  }
}
