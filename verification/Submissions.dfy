/**
  SubmissionManager.flush: the loop that heals lost submission rows and claims
  unclaimed roots in batches, each for a new AddRoots task.
 */
module Submissions {
  import opened Common
  import opened Pipeline
  import opened Lifecycle
  import opened Sets

  function MarkedRoots(t: Table): set<Root> {
    set b | b in t && t[b].slot.Some? :: t[b].slot.value.root
  }

  lemma {:induction false} MarkedIsHasRoot(t: Table, r: Root)
    ensures r in MarkedRoots(t) <==> HasRoot(t, r)
  {
  }

  function Unclaimed(s: State): set<Root> {
    set r | r in s.batches.submissions && s.batches.submissions[r] == None
  }

  /** Any unclaimed roots there are, are fewer than `n`. */
  ghost predicate Fewer(s: State, n: nat) {
    forall rs: set<Root> :: (forall r :: r in rs ==> r in s.batches.submissions && s.batches.submissions[r] == None) ==>
      rs == {} || |rs| < n
  }

  lemma {:induction false} FewerUnclaimed(s: State, n: nat)
    requires Unclaimed(s) == {} || |Unclaimed(s)| < n
    ensures Fewer(s, n)
  {
    forall rs: set<Root> | forall r :: r in rs ==> r in s.batches.submissions && s.batches.submissions[r] == None
      ensures rs == {} || |rs| < n
    {
      assert rs <= Unclaimed(s);
      SubsetSize(rs, Unclaimed(s));
    }
  }

  /** No claimed root changes hands, and none is dropped. */
  ghost predicate ClaimsKept(s: State, s': State) {
    forall r :: r in s.batches.submissions ==>
      r in s'.batches.submissions
        && (s.batches.submissions[r].Some? ==> s'.batches.submissions[r] == s.batches.submissions[r])
  }

  /** Every batch of the run claims at least one root and at most `size`. */
  ghost predicate BatchesFit(steps: seq<Step>, size: nat) {
    forall i :: 0 <= i < |steps| && steps[i].Batch? && steps[i].batch.ClaimRoots? ==> 0 < |steps[i].batch.roots| <= size
  }

  method Take(all: set<Root>, n: nat) returns (some: set<Root>)
    ensures some <= all && |some| == if n < |all| then n else |all|
  {
    some := {};
    var rest := all;
    while |some| < n && rest != {}
      invariant some <= all && rest == all - some && |some| <= n
      decreases |rest|
    {
      var r :| r in rest;
      some, rest := some + {r}, rest - {r};
    }
    if rest == {} {
      assert some == all;
    } else {
      var r :| r in rest;
      Bigger(some, all, r);
    }
  }

  lemma {:induction false} Bigger(a: set<Root>, b: set<Root>, x: Root)
    requires a <= b && x in b && x !in a
    ensures |a| < |b|
  {
    assert b == a + (b - a) && x in b - a;
    assert |b| == |a| + |b - a|;
  }

  class SubmissionManager {
    var db: State

    constructor (s: State)
      ensures db == s
    {
      db := s;
    }

    /** Inserts a row for every root marked on the pipeline that has none. */
    method Heal(ghost e: Env) returns (ghost steps: seq<Step>)
      modifies this
      ensures IsRun(e, old(db), steps) && After(e, old(db), steps) == db
      ensures forall r :: HasRoot(db.pipeline, r) ==> r in db.batches.submissions
      ensures ClaimsKept(old(db), db) && BatchesFit(steps, 0) && db.tasks == old(db).tasks
              && db.pipeline == old(db).pipeline
    {
      steps := [];
      var todo := MarkedRoots(db.pipeline);
      while todo != {}
        invariant todo <= MarkedRoots(old(db).pipeline)
        invariant IsRun(e, old(db), steps) && After(e, old(db), steps) == db && BatchesFit(steps, 0)
        invariant db.pipeline == old(db).pipeline && db.tasks == old(db).tasks && ClaimsKept(old(db), db)
        invariant forall r :: r in MarkedRoots(old(db).pipeline) - todo ==> r in db.batches.submissions
      {
        var r :| r in todo;
        todo := todo - {r};
        Append(e, old(db), steps, Batch(Submit(r)));
        steps := steps + [Batch(Submit(r))];
        if r !in db.batches.submissions {
          db := db.(batches := db.batches.(submissions := db.batches.submissions[r := None]));
        }
      }
      forall r | HasRoot(db.pipeline, r) ensures r in db.batches.submissions {
        MarkedIsHasRoot(db.pipeline, r);
      }
    }

    /** One batch: a new task and its claim, in one transaction. */
    method ClaimOne(ghost e: Env, id: TaskId, batch: set<Root>)
      requires id !in db.tasks.issued && batch <= Unclaimed(db)
      modifies this
      ensures Enabled(old(db), Batch(ClaimRoots(batch, id))) && db == Apply(e, old(db), Batch(ClaimRoots(batch, id)))
      ensures Unclaimed(db) == Unclaimed(old(db)) - batch && ClaimsKept(old(db), db)
      ensures db.tasks == Started(old(db).tasks, id) && db.pipeline == old(db).pipeline
    {
      db := db.(tasks := Started(db.tasks, id),
                batches := db.batches.(submissions := map r | r in db.batches.submissions ::
                                         if r in batch then Some(id) else db.batches.submissions[r]));
    }

    /**
      A run of lifecycle steps after which every marked root has a submission
      row; unless a task could not be added, too few roots are left unclaimed
      for a batch, or none when forced. `ids` are what the engine gives
      out, until adding a task fails.
     */
    method Flush(ghost e: Env, force: bool, batchSize: nat, ids: seq<TaskId>)
      returns (all: bool, claimed: nat, ghost steps: seq<Step>)
      requires (forall i :: 0 <= i < |ids| ==> ids[i] !in db.tasks.issued) && Distinct(ids)
      modifies this
      ensures IsRun(e, old(db), steps) && After(e, old(db), steps) == db
      ensures forall r :: HasRoot(db.pipeline, r) ==> r in db.batches.submissions
      ensures ClaimsKept(old(db), db) && BatchesFit(steps, batchSize)
      ensures all ==> Fewer(db, if force then 0 else batchSize)
      ensures !all ==> batchSize == 0 || claimed == |ids|
    {
      steps := Heal(e);
      claimed := 0;
      while true
        invariant claimed <= |ids| && forall i :: claimed <= i < |ids| ==> ids[i] !in db.tasks.issued
        invariant IsRun(e, old(db), steps) && After(e, old(db), steps) == db
        invariant ClaimsKept(old(db), db) && BatchesFit(steps, batchSize)
        invariant forall r :: HasRoot(db.pipeline, r) ==> r in db.batches.submissions
        decreases |Unclaimed(db)|
      {
        var unclaimed := Unclaimed(db);
        if |unclaimed| == 0 || (!force && |unclaimed| < batchSize) {
          FewerUnclaimed(db, if force then 0 else batchSize);
          return true, claimed, steps;
        }
        if claimed == |ids| || batchSize == 0 {
          return false, claimed, steps;
        }
        var batch := Take(unclaimed, batchSize);
        ClaimOne(e, ids[claimed], batch);
        Append(e, old(db), steps, Batch(ClaimRoots(batch, ids[claimed])));
        steps, claimed := steps + [Batch(ClaimRoots(batch, ids[claimed]))], claimed + 1;
        assert |unclaimed - batch| == |unclaimed| - |batch|;
      }
    }
  }
}
