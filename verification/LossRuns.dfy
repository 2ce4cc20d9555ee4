/**
  Concrete runs from the empty node: to a hazardous turn, to the loss of a
  stored aggregate through another blob with the same piece, to a careless
  clean-up, and to a root that two aggregates share and that cannot be loaded.
 */
module LossRuns {
  import opened Common
  import opened Pipeline
  import opened Lifecycle
  import opened Stages
  import opened Safety
  import opened Losses

  /** A harmless run of `steps` leads from `s` to `t`. */
  ghost predicate Leads(e: Env, s: State, steps: seq<Step>, t: State) {
    IsRun(e, s, steps) && AllHarmless(e, s, steps) && After(e, s, steps) == t
  }

  lemma {:induction false} Prepend(e: Env, s: State, step: Step, rest: seq<Step>, t: State)
    requires Enabled(s, step) && Harmless(e, s, step) && Leads(e, Apply(e, s, step), rest, t)
    ensures Leads(e, s, [step] + rest, t)
  {
    assert ([step] + rest)[1..] == rest;
  }

  lemma {:induction false} Join(e: Env, s: State, steps: seq<Step>, m: State, more: seq<Step>, t: State)
    requires Leads(e, s, steps, m) && Leads(e, m, more, t)
    ensures Leads(e, s, steps + more, t)
    decreases |steps|
  {
    if steps == [] {
      assert steps + more == more;
    } else {
      Join(e, Apply(e, s, steps[0]), steps[1..], m, more, t);
      assert steps + more == [steps[0]] + (steps[1..] + more);
      Prepend(e, s, steps[0], steps[1..] + more, t);
    }
  }

  lemma {:induction false} Two(e: Env, s: State, a: Step, b: Step)
    requires Enabled(s, a) && Harmless(e, s, a)
    requires var s1 := Apply(e, s, a); Enabled(s1, b) && Harmless(e, s1, b)
    ensures Leads(e, s, [a, b], Apply(e, Apply(e, s, a), b))
  {
    var s1 := Apply(e, s, a);
    var t := Apply(e, s1, b);
    assert Leads(e, t, [], t);
    Prepend(e, s1, b, [], t);
    Prepend(e, s, a, [b] + [], t);
    assert [a, b] == [a] + ([b] + []);
  }

  lemma {:induction false} Three(e: Env, s: State, a: Step, b: Step, c: Step)
    requires Enabled(s, a) && Harmless(e, s, a)
    requires var s1 := Apply(e, s, a); Enabled(s1, b) && Harmless(e, s1, b)
    requires var s2 := Apply(e, Apply(e, s, a), b); Enabled(s2, c) && Harmless(e, s2, c)
    ensures Leads(e, s, [a, b, c], Apply(e, Apply(e, Apply(e, s, a), b), c))
  {
    var s1 := Apply(e, s, a);
    Two(e, s1, b, c);
    Prepend(e, s, a, [b, c], Apply(e, Apply(e, s1, b), c));
    assert [a, b, c] == [a] + [b, c];
  }

  // --------------------------------------------------------------- the runs

  /** A blob is uploaded, accepted and claimed for hashing. */
  function Arrival(b: Blob, id: TaskId, sp: Space): seq<Step> {
    [Client(Upload(b)), Client(Accept(b, sp, false)), Task(SpawnCommP(b, id))]
  }

  function Arrived(s: State, b: Blob, id: TaskId, sp: Space): State {
    s.(bytes := s.bytes + {b},
       claims := s.claims.(acceptances := s.claims.acceptances + {Claim(b, sp)}),
       pipeline := s.pipeline[b := NewRow.(commpTask := Some(id))],
       tasks := Started(s.tasks, id))
  }

  lemma {:induction false} Arrives(e: Env, s: State, b: Blob, id: TaskId, sp: Space)
    requires b !in s.pipeline && b !in s.commp && b !in s.pending && id !in s.tasks.issued
    ensures Leads(e, s, Arrival(b, id, sp), Arrived(s, b, id, sp))
  {
    Three(e, s, Client(Upload(b)), Client(Accept(b, sp, false)), Task(SpawnCommP(b, id)));
  }

  /** A hazardous turn is reachable: a release overtakes a commP run between its mapping and its piece reference. */
  lemma {:induction false} HazardIsReachable(e: Env, b: Blob, id: TaskId, sp: Space)
    returns (steps: seq<Step>, s: State)
    ensures steps == Arrival(b, id, sp) + [Task(Hash(b, id)), Client(Release(b, sp))]
    ensures Leads(e, Init, steps, s) && Hazard(s, b, Committed)
  {
    var hash, release := Task(Hash(b, id)), Client(Release(b, sp));
    Arrives(e, Init, b, id, sp);
    var s1 := Arrived(Init, b, id, sp);
    Two(e, s1, hash, release);
    s := Apply(e, Apply(e, s1, hash), release);
    steps := Arrival(b, id, sp) + [hash, release];
    Join(e, Init, Arrival(b, id, sp), s1, [hash, release], s);
    assert s.claims.acceptances == {} && s.claims.allocations == {};
    assert id in s.tasks.working && s.tasks.working[id].blob == b;
  }

  /** The blob arrives and is hashed. */
  function Hashing(b: Blob, id: TaskId, sp: Space): seq<Step> {
    Arrival(b, id, sp) + [Task(HashParkStamp(b, id))]
  }

  function HashedRow(e: Env, b: Blob, id: TaskId): Row {
    NewRow.(commpTask := Some(id), commp := Some(e.commP(b)))
  }

  function Known(e: Env, s: State, b: Blob, id: TaskId, sp: Space): State {
    Arrived(s, b, id, sp).(
      pipeline := s.pipeline[b := HashedRow(e, b, id)],
      commp := s.commp[b := e.commP(b)],
      refs := s.refs + {e.commP(b)})
  }

  lemma {:induction false} IsHashed(e: Env, s: State, b: Blob, id: TaskId, sp: Space)
    requires b !in s.pipeline && b !in s.commp && b !in s.pending && id !in s.tasks.issued && s.tasks.working == map[]
    ensures Leads(e, s, Hashing(b, id, sp), Known(e, s, b, id, sp))
  {
    Arrives(e, s, b, id, sp);
    var s1, hash := Arrived(s, b, id, sp), Task(HashParkStamp(b, id));
    var t := Apply(e, s1, hash);
    assert t.tasks.working == map[] && t.pipeline == Known(e, s, b, id, sp).pipeline;
    assert t == Known(e, s, b, id, sp);
    assert Leads(e, t, [], t);
    Prepend(e, s1, hash, [], t);
    Join(e, s, Arrival(b, id, sp), s1, [hash] + [], t);
    assert [hash] + [] == [hash];
  }

  /** The blob is folded alone. */
  function Folding(b: Blob, id: TaskId, sp: Space, a: Aggregate): seq<Step> {
    Hashing(b, id, sp) + [Batch(Fold(a, [b]))]
  }

  function Aggregated(e: Env, s: State, b: Blob, id: TaskId, sp: Space, a: Aggregate): State
    requires |a.pieces| == 1
  {
    var k := Known(e, s, b, id, sp);
    k.(pipeline := k.pipeline[b := HashedRow(e, b, id).(slot := Some(SlotAt(a, 0)))],
       batches := Remembered(s.batches, a))
  }

  lemma {:induction false} IsFolded(e: Env, s: State, b: Blob, id: TaskId, sp: Space, a: Aggregate)
    requires b !in s.pipeline && b !in s.commp && b !in s.pending && id !in s.tasks.issued && s.tasks.working == map[]
    requires AloneIn(e, b, a)
    ensures Leads(e, s, Folding(b, id, sp, a), Aggregated(e, s, b, id, sp, a))
  {
    IsHashed(e, s, b, id, sp);
    var s1, fold := Known(e, s, b, id, sp), Batch(Fold(a, [b]));
    assert Fits(s1.pipeline, a, 0, [b][0]);
    var t := Apply(e, s1, fold);
    assert [b][..1] == [b];
    assert t.pipeline == Aggregated(e, s, b, id, sp, a).pipeline;
    assert Leads(e, t, [], t);
    Prepend(e, s1, fold, [], t);
    Join(e, s, Hashing(b, id, sp), s1, [fold] + [], t);
    assert [fold] + [] == [fold];
  }

  /** While `b` is in an aggregate, its piece is computed and removed for `c`; then `b` is released. */
  function SharedRun(b: Blob, c: Blob, id: TaskId, sp: Space, a: Aggregate): seq<Step> {
    Folding(b, id, sp, a)
    + ([Client(Upload(c)), Task(Calculate(c)), Client(RemovePiece(c))] + [Sweep(c, Committed), Client(Release(b, sp))])
  }

  /**
    Two blobs with one piece: removing `c` takes away the references of the
    folded `b`, and once `b` is released its turn deletes the bytes of a stored
    aggregate. No step before that turn is harmful.
   */
  lemma {:induction false} SharedPieceLoses(e: Env, b: Blob, c: Blob, id: TaskId, sp: Space, a: Aggregate)
    returns (s: State)
    requires b != c && e.commP(b) == e.commP(c) && AloneIn(e, b, a)
    ensures Leads(e, Init, SharedRun(b, c, id, sp, a), s)
    ensures Hazard(s, b, Committed) && !Safe(e, SweepBlob(s, b, Committed))
  {
    var s1 := Aggregated(e, Init, b, id, sp, a);
    IsFolded(e, Init, b, id, sp, a);
    Three(e, s1, Client(Upload(c)), Task(Calculate(c)), Client(RemovePiece(c)));
    var s2 := s1.(bytes := s1.bytes + {c}, commp := s1.commp[c := e.commP(c)], pending := {c});
    s := StrippedRelease(e, b, c, id, sp, a, s2);
    Join(e, s1, [Client(Upload(c)), Task(Calculate(c)), Client(RemovePiece(c))], s2,
         [Sweep(c, Committed), Client(Release(b, sp))], s);
    Join(e, Init, Folding(b, id, sp, a), s1,
         [Client(Upload(c)), Task(Calculate(c)), Client(RemovePiece(c))]
         + [Sweep(c, Committed), Client(Release(b, sp))],
         s);
  }

  lemma {:induction false} StrippedRelease(
    e: Env, b: Blob, c: Blob, id: TaskId, sp: Space, a: Aggregate, s: State) returns (t: State)
    requires b != c && e.commP(b) == e.commP(c) && AloneIn(e, b, a)
    requires var s1 := Aggregated(e, Init, b, id, sp, a);
             s == s1.(bytes := s1.bytes + {c}, commp := s1.commp[c := e.commP(c)], pending := {c})
    ensures Leads(e, s, [Sweep(c, Committed), Client(Release(b, sp))], t)
    ensures Hazard(t, b, Committed) && !Safe(e, SweepBlob(t, b, Committed))
  {
    var turn, release := Sweep(c, Committed), Client(Release(b, sp));
    assert !Claimed(s, c);
    var s1 := SweepBlob(s, c, Committed);
    assert s1 == s.(bytes := s.bytes - {c}, pending := {}, commp := s.commp - {c}, refs := {}, chain := map[]);
    t := ClientApply(s1, release.client);
    assert t.claims.acceptances == {} && t.claims.allocations == {};
    Two(e, s, turn, release);
    assert t.commp[b] == e.commP(b) && t.refs == {};
    assert b in SweepBlob(t, b, Committed).pipeline;
  }

  ghost predicate AllUndivided(steps: seq<Step>) {
    forall i :: 0 <= i < |steps| ==> Undivided(steps[i])
  }

  /** A shared piece is stripped even when every commP run is one step: `b` and `c` are hashed, then `c` is released. */
  lemma {:induction false} StripIsReachable(e: Env, b: Blob, c: Blob, idB: TaskId, idC: TaskId, sp: Space)
    returns (steps: seq<Step>, s: State)
    requires b != c && e.commP(b) == e.commP(c) && idB != idC
    ensures steps == Hashing(b, idB, sp) + (Hashing(c, idC, sp) + [Client(Release(c, sp))])
    ensures Leads(e, Init, steps, s) && AllUndivided(steps) && MappedAreParked(s) && Strips(s, c, Committed)
  {
    var s1 := Known(e, Init, b, idB, sp);
    IsHashed(e, Init, b, idB, sp);
    var s2 := Known(e, s1, c, idC, sp);
    IsHashed(e, s1, c, idC, sp);
    var release := Client(Release(c, sp));
    s := Apply(e, s2, release);
    assert Leads(e, s, [], s);
    Prepend(e, s2, release, [], s);
    assert [release] + [] == [release];
    Join(e, s1, Hashing(c, idC, sp), s2, [release], s);
    steps := Hashing(b, idB, sp) + (Hashing(c, idC, sp) + [release]);
    Join(e, Init, Hashing(b, idB, sp), s1, Hashing(c, idC, sp) + [release], s);
    assert !Claimed(s, c) by {
      assert s.claims.acceptances <= {Claim(b, sp)} && s.claims.allocations == {};
    }
    assert c in s.commp && b in s.commp && s.commp[b] == s.commp[c];
  }

  /** The clean-up of a second, failed upload deletes the bytes of a stored aggregate. */
  lemma {:induction false} CleanUpLoses(e: Env, b: Blob, id: TaskId, sp: Space, a: Aggregate) returns (s: State)
    requires AloneIn(e, b, a)
    ensures Leads(e, Init, Folding(b, id, sp, a), s)
    ensures Careless(e, s, b) && !Safe(e, Apply(e, s, CleanUp(b)))
  {
    IsFolded(e, Init, b, id, sp, a);
    s := Aggregated(e, Init, b, id, sp, a);
    assert b in Apply(e, s, CleanUp(b)).pipeline;
  }

  // ------------------------------------------------ two aggregates, one root

  /** `c` is folded alone, then `a` and `b` as a pair under the same root. */
  function SharedRootRun(
    a: Blob, b: Blob, c: Blob, ids: (TaskId, TaskId, TaskId), sp: Space, one: Aggregate, two: Aggregate): seq<Step>
  {
    Folding(c, ids.2, sp, one) + (Hashing(a, ids.0, sp) + (Hashing(b, ids.1, sp) + [Batch(Fold(two, [a, b]))]))
  }

  lemma {:induction false} PairFolds(e: Env, s: State, a: Blob, b: Blob, two: Aggregate) returns (t: State)
    requires a != b && a in s.pipeline && b in s.pipeline && s.pipeline[a].slot == None && s.pipeline[b].slot == None
    requires |two.pieces| == 2
    requires s.pipeline[a].commp == Some(two.pieces[0].link) && s.pipeline[b].commp == Some(two.pieces[1].link)
    ensures Leads(e, s, [Batch(Fold(two, [a, b]))], t)
    ensures t.batches.stored == s.batches.stored[two.root := Under(s.batches.stored, two.root) + {two}]
    ensures t.pipeline.Keys == s.pipeline.Keys
    ensures forall x :: x in s.pipeline && x != a && x != b ==> t.pipeline[x] == s.pipeline[x]
    ensures t.pipeline[a] == s.pipeline[a].(slot := Some(SlotAt(two, 0)))
  {
    var fold := Batch(Fold(two, [a, b]));
    assert Fits(s.pipeline, two, 0, [a, b][0]) && Fits(s.pipeline, two, 1, [a, b][1]);
    t := Apply(e, s, fold);
    assert [a, b][..2] == [a, b] && [a, b][0] == a;
    assert Leads(e, t, [], t);
    Prepend(e, s, fold, [], t);
    assert [fold] + [] == [fold];
  }

  /** The root can then not be loaded: whatever pieces it is asked to be, a row contradicts them. */
  lemma {:induction false} SharedRootNeverLoads(
    e: Env, a: Blob, b: Blob, c: Blob, ids: (TaskId, TaskId, TaskId), sp: Space, one: Aggregate, two: Aggregate)
    returns (s: State)
    requires a != b && a != c && b != c && ids.0 != ids.1 && ids.0 != ids.2 && ids.1 != ids.2
    requires one.root == two.root && AloneIn(e, c, one) && e.commP(c) != e.commP(a)
    requires |two.pieces| == 2 && two.pieces[0].link == e.commP(a) && two.pieces[1].link == e.commP(b)
    ensures Leads(e, Init, SharedRootRun(a, b, c, ids, sp, one, two), s)
    ensures Under(s.batches.stored, one.root) == {one, two} && forall ps :: !Loads(s.pipeline, one.root, ps)
  {
    var s1 := Aggregated(e, Init, c, ids.2, sp, one);
    IsFolded(e, Init, c, ids.2, sp, one);
    var s2 := Known(e, s1, a, ids.0, sp);
    IsHashed(e, s1, a, ids.0, sp);
    var s3 := Known(e, s2, b, ids.1, sp);
    IsHashed(e, s2, b, ids.1, sp);
    var fold := Batch(Fold(two, [a, b]));
    s := PairFolds(e, s3, a, b, two);
    Join(e, s2, Hashing(b, ids.1, sp), s3, [fold], s);
    Join(e, s1, Hashing(a, ids.0, sp), s2, Hashing(b, ids.1, sp) + [fold], s);
    Join(e, Init, Folding(c, ids.2, sp, one), s1, Hashing(a, ids.0, sp) + (Hashing(b, ids.1, sp) + [fold]), s);
    var t := s.pipeline;
    assert InRoot(t, c, one.root) && t[c].commp == Some(e.commP(c)) && t[c].slot.value.position == 0;
    assert InRoot(t, a, one.root) && t[a].commp == Some(e.commP(a)) && t[a].slot.value.position == 0;
    forall ps ensures !Loads(t, one.root, ps) {
      assert !(StoresOf(t[c], ps) && StoresOf(t[a], ps));
    }
  }
}
