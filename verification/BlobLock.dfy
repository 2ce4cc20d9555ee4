/**
  Accept, allocate, release and the finalization of a removal as transactions
  that take the blob's lock. A transaction's writes apply when it commits, but
  the bytes a finalizer deletes are gone at once, whatever becomes of its
  transaction. Any transaction can fail, crash or be retried at any statement.
  Two steps of an upload take no lock: the claim it makes once its digest is
  known, and the deletion of its bytes when its transaction fails.
 */
module BlobLock {
  import opened Histories

  type Blob(==, !new)
  type Space(==, !new)
  type Tx(==, !new)

  datatype Claim = Claim(blob: Blob, space: Space)

  datatype Kind = Accept(space: Space) | Allocate(space: Space) | Finalize

  datatype Phase =
    | Waiting  // before LockBlob returns
    | Locked
    | Passed   // an accept found the bytes; a finalizer found no claim
    | Revived  // a finalizer found a claim
    | Deleted  // a finalizer deleted the bytes

  datatype Txn = Txn(kind: Kind, blob: Blob, phase: Phase)

  datatype State = State(
    bytes: set<Blob>,
    acceptances: set<Claim>, // committed
    allocations: set<Claim>, // committed
    pending: set<Blob>,      // removal requests, committed
    txns: map<Tx, Txn>)

  const Init := State({}, {}, {}, {}, map[])

  predicate IsAccepted(s: State, b: Blob) {
    exists c :: c in s.acceptances && c.blob == b
  }

  predicate HasClaims(s: State, b: Blob) {
    IsAccepted(s, b) || exists c :: c in s.allocations && c.blob == b
  }

  predicate HasClaim(s: State, c: Claim) {
    c in s.acceptances || c in s.allocations
  }

  predicate Holds(s: State, t: Tx, b: Blob) {
    t in s.txns && s.txns[t].blob == b && !s.txns[t].phase.Waiting?
  }

  predicate Free(s: State, b: Blob) {
    forall t :: t in s.txns ==> !Holds(s, t, b)
  }

  datatype Step =
    | Upload(blob: Blob)
    | Release(claim: Claim, queue: bool) // a committed release, reject or expiry
    | RemovePiece(blob: Blob)
    | UploadClaim(claim: Claim) // without the lock
    | CleanUp(blob: Blob)       // a failed upload deletes the bytes, without the lock
    | Begin(tx: Tx, kind: Kind, blob: Blob)
    | Lock(tx: Tx)
    | Check(tx: Tx)
    | DeleteBytes(tx: Tx)
    | Commit(tx: Tx)
    | Retry(tx: Tx)
    | Abort(tx: Tx)

  /** A finalizer commits once its claim check or its deletes are done, an accept once it found the bytes. */
  predicate CanCommit(t: Txn) {
    match t.kind
    case Accept(_) => t.phase.Passed?
    case Allocate(_) => t.phase.Locked?
    case Finalize => t.phase.Revived? || t.phase.Deleted?
  }

  predicate Enabled(s: State, step: Step) {
    match step
    case Upload(_) => true
    case Release(_, _) => true
    case RemovePiece(_) => true
    case UploadClaim(_) => true
    case CleanUp(_) => true
    case Begin(t, _, _) => t !in s.txns
    case Lock(t) => t in s.txns && s.txns[t].phase.Waiting? && Free(s, s.txns[t].blob)
    case Check(t) =>
      && t in s.txns && s.txns[t].phase.Locked?
      && (s.txns[t].kind.Accept? ==> s.txns[t].blob in s.bytes) // else the accept fails
      && !s.txns[t].kind.Allocate?
    case DeleteBytes(t) => t in s.txns && s.txns[t].kind.Finalize? && s.txns[t].phase.Passed?
    case Commit(t) => t in s.txns && CanCommit(s.txns[t])
    case Retry(t) => t in s.txns
    case Abort(t) => t in s.txns
  }

  function At(s: State, t: Tx, p: Phase): State
    requires t in s.txns
  {
    s.(txns := s.txns[t := s.txns[t].(phase := p)])
  }

  function Committed(s: State, t: Txn): State {
    match t.kind
    case Accept(sp) => s.(acceptances := s.acceptances + {Claim(t.blob, sp)})
    case Allocate(sp) => s.(allocations := s.allocations + {Claim(t.blob, sp)})
    case Finalize => s.(pending := s.pending - {t.blob})
  }

  function Apply(s: State, step: Step): State
    requires Enabled(s, step)
  {
    match step
    case Upload(b) => s.(bytes := s.bytes + {b})
    case Release(c, queue) =>
      s.(acceptances := s.acceptances - {c}, allocations := s.allocations - {c},
         pending := if queue then s.pending + {c.blob} else s.pending)
    case RemovePiece(b) => s.(pending := s.pending + {b})
    case UploadClaim(c) => s.(allocations := s.allocations + {c})
    case CleanUp(b) => s.(bytes := s.bytes - {b})
    case Begin(t, k, b) => s.(txns := s.txns[t := Txn(k, b, Waiting)])
    case Lock(t) => At(s, t, Locked)
    case Check(t) =>
      At(s, t, if s.txns[t].kind.Finalize? && HasClaims(s, s.txns[t].blob) then Revived else Passed)
    case DeleteBytes(t) => At(s, t, Deleted).(bytes := s.bytes - {s.txns[t].blob})
    case Commit(t) => Committed(s, s.txns[t]).(txns := s.txns - {t})
    case Retry(t) => At(s, t, Waiting)
    case Abort(t) => s.(txns := s.txns - {t})
  }

  // ------------------------------------------------------------- invariants

  ghost predicate AcceptedHasBytes(s: State) {
    forall c :: c in s.acceptances ==> c.blob in s.bytes
  }

  ghost predicate OneHolder(s: State) {
    forall t, u, b :: Holds(s, t, b) && Holds(s, u, b) ==> t == u
  }

  /** What a transaction found under the lock is still so. */
  ghost predicate Found(s: State, t: Txn) {
    && (t.kind.Accept? && t.phase.Passed? ==> t.blob in s.bytes)
    && (t.kind.Finalize? && (t.phase.Passed? || t.phase.Deleted?) ==> !IsAccepted(s, t.blob))
  }

  ghost predicate Inv(s: State) {
    AcceptedHasBytes(s) && OneHolder(s) && forall t :: t in s.txns ==> Found(s, s.txns[t])
  }

  /** A claim committed under the lock is of a blob no other transaction holds. */
  lemma {:induction false} CommitKeepsInv(s: State, t: Tx)
    requires Inv(s) && Enabled(s, Commit(t))
    ensures Inv(Apply(s, Commit(t)))
  {
    var s' := Apply(s, Commit(t));
    assert Holds(s, t, s.txns[t].blob) && Found(s, s.txns[t]);
    forall u | u in s'.txns ensures Found(s', s'.txns[u]) {
      assert Found(s, s.txns[u]);
      if s.txns[u].blob == s.txns[t].blob && !s.txns[u].phase.Waiting? {
        assert Holds(s, u, s.txns[t].blob);
      }
    }
    forall u, v, b | Holds(s', u, b) && Holds(s', v, b) ensures u == v {
      assert Holds(s, u, b) && Holds(s, v, b);
    }
  }

  lemma {:induction false} HoldsAlone(s: State, t: Tx, b: Blob)
    requires OneHolder(s) && Holds(s, t, b)
    ensures forall u :: u in s.txns && s.txns[u].blob == b && !s.txns[u].phase.Waiting? ==> u == t
  {
    forall u | u in s.txns && s.txns[u].blob == b && !s.txns[u].phase.Waiting? ensures u == t {
      assert Holds(s, u, b);
    }
  }

  lemma {:induction false} DeleteKeepsInv(s: State, t: Tx)
    requires Inv(s) && Enabled(s, DeleteBytes(t))
    ensures Inv(Apply(s, DeleteBytes(t)))
  {
    var b := s.txns[t].blob;
    var s' := Apply(s, DeleteBytes(t));
    assert Holds(s, t, b) && Found(s, s.txns[t]);
    HoldsAlone(s, t, b);
    forall u | u in s'.txns ensures Found(s', s'.txns[u]) {
      assert Found(s, s.txns[u]);
    }
    forall u, v, c | Holds(s', u, c) && Holds(s', v, c) ensures u == v {
      assert Holds(s, u, c) && Holds(s, v, c);
    }
  }

  lemma {:induction false} LockKeepsInv(s: State, t: Tx)
    requires Inv(s) && Enabled(s, Lock(t))
    ensures Inv(Apply(s, Lock(t)))
  {
    var s' := Apply(s, Lock(t));
    forall u, b | u != t ensures Holds(s', u, b) <==> Holds(s, u, b) {
    }
    forall u | u in s'.txns ensures Found(s', s'.txns[u]) {
      assert Found(s, s.txns[u]);
    }
  }

  /** The blob is accepted, or an accept has found its bytes and not committed yet. */
  ghost predicate Relied(s: State, b: Blob) {
    || IsAccepted(s, b)
    || exists t :: t in s.txns && s.txns[t].kind.Accept? && s.txns[t].blob == b && s.txns[t].phase.Passed?
  }

  /** A clean-up keeps the invariant if and only if no acceptance relies on the bytes. */
  lemma {:induction false} CleanUpKeepsInvIff(s: State, b: Blob)
    requires Inv(s)
    ensures Inv(Apply(s, CleanUp(b))) <==> !Relied(s, b)
  {
    var s' := Apply(s, CleanUp(b));
    if Relied(s, b) {
      if !IsAccepted(s, b) {
        var t :| t in s.txns && s.txns[t].kind.Accept? && s.txns[t].blob == b && s.txns[t].phase.Passed?;
        assert !Found(s', s'.txns[t]);
      }
    } else {
      forall u | u in s'.txns ensures Found(s', s'.txns[u]) {
        assert Found(s, s.txns[u]);
      }
      forall u, v, c | Holds(s', u, c) && Holds(s', v, c) ensures u == v {
        assert Holds(s, u, c) && Holds(s, v, c);
      }
    }
  }

  /** Every step but a clean-up of bytes that are relied on. */
  ghost predicate Careful(s: State, step: Step) {
    step.CleanUp? ==> !Relied(s, step.blob)
  }

  lemma {:induction false} StepKeepsInv(s: State, step: Step)
    requires Inv(s) && Enabled(s, step) && Careful(s, step)
    ensures Inv(Apply(s, step))
  {
    var s' := Apply(s, step);
    match step
    case Lock(t) => LockKeepsInv(s, t);
    case Commit(t) => CommitKeepsInv(s, t);
    case DeleteBytes(t) => DeleteKeepsInv(s, t);
    case CleanUp(b) => CleanUpKeepsInvIff(s, b);
    case _ =>
      forall u | u in s'.txns ensures Found(s', s'.txns[u]) {
        if u in s.txns {
          assert Found(s, s.txns[u]);
        }
      }
      forall u, v, b | Holds(s', u, b) && Holds(s', v, b) ensures u == v {
        assert Holds(s, u, b) && Holds(s, v, b);
      }
  }

  // ------------------------------------------------------------------- runs

  ghost predicate IsRun(s: State, steps: seq<Step>)
    decreases |steps|
  {
    steps == [] || (Enabled(s, steps[0]) && IsRun(Apply(s, steps[0]), steps[1..]))
  }

  ghost function After(s: State, steps: seq<Step>): State
    requires IsRun(s, steps)
    decreases |steps|
  {
    if steps == [] then s else After(Apply(s, steps[0]), steps[1..])
  }

  lemma {:induction false} Prepend(s: State, step: Step, rest: seq<Step>)
    requires Enabled(s, step) && IsRun(Apply(s, step), rest)
    ensures IsRun(s, [step] + rest) && After(s, [step] + rest) == After(Apply(s, step), rest)
  {
    assert ([step] + rest)[1..] == rest;
  }

  lemma {:induction false} Pair(s: State, a: Step, b: Step)
    requires Enabled(s, a) && Enabled(Apply(s, a), b)
    ensures IsRun(s, [a, b]) && After(s, [a, b]) == Apply(Apply(s, a), b)
  {
    Prepend(Apply(s, a), b, []);
    Prepend(s, a, [b] + []);
    assert [a, b] == [a] + ([b] + []);
  }

  ghost predicate AllCareful(s: State, steps: seq<Step>)
    requires IsRun(s, steps)
    decreases |steps|
  {
    steps == [] || (Careful(s, steps[0]) && AllCareful(Apply(s, steps[0]), steps[1..]))
  }

  lemma {:induction false} RunKeepsInv(s: State, steps: seq<Step>)
    requires Inv(s) && IsRun(s, steps) && AllCareful(s, steps)
    ensures Inv(After(s, steps))
    decreases |steps|
  {
    if steps != [] {
      StepKeepsInv(s, steps[0]);
      RunKeepsInv(Apply(s, steps[0]), steps[1..]);
    }
  }

  /**
    In every interleaving, with crashes and retries, an accepted blob has its
    bytes, as long as no failed upload cleans up bytes that are relied on.
   */
  lemma {:induction false} AcceptedBlobsKeepBytes(steps: seq<Step>)
    requires IsRun(Init, steps) && AllCareful(Init, steps)
    ensures AcceptedHasBytes(After(Init, steps))
  {
    RunKeepsInv(Init, steps);
  }

  /** After any other clean-up an accepted blob is without its bytes, at once or at the next commit. */
  lemma {:induction false} CarelessCleanUpLoses(s: State, b: Blob) returns (steps: seq<Step>)
    requires Relied(s, b)
    ensures var s' := Apply(s, CleanUp(b));
            && |steps| <= 1 && IsRun(s', steps) && AllCareful(s', steps)
            && !AcceptedHasBytes(After(s', steps)) && (steps == [] <==> IsAccepted(s, b))
  {
    var s' := Apply(s, CleanUp(b));
    if IsAccepted(s, b) {
      steps := [];
    } else {
      var t :| t in s.txns && s.txns[t].kind.Accept? && s.txns[t].blob == b && s.txns[t].phase.Passed?;
      steps := [Commit(t)];
      var s2 := Apply(s', Commit(t));
      assert Claim(b, s.txns[t].kind.space) in s2.acceptances && b !in s2.bytes;
      assert steps[1..] == [];
    }
  }

  /** Two uploads of one digest: the first is accepted, then the second's transaction fails and deletes the bytes. */
  lemma {:induction false} SecondUploadLoses(b: Blob, sp: Space, t: Tx)
    ensures var steps := [Upload(b), Begin(t, Accept(sp), b), Lock(t), Check(t), Commit(t), Upload(b), CleanUp(b)];
            IsRun(Init, steps) && !AcceptedHasBytes(After(Init, steps))
  {
    var s1 := Apply(Init, Upload(b));
    var s2 := Apply(s1, Begin(t, Accept(sp), b));
    var s3 := Apply(s2, Lock(t));
    var s4 := Apply(s3, Check(t));
    var s5 := Apply(s4, Commit(t));
    var s6 := Apply(Apply(s5, Upload(b)), CleanUp(b));
    assert Claim(b, sp) in s6.acceptances && b !in s6.bytes;
    Pair(s5, Upload(b), CleanUp(b));
    Prepend(s4, Commit(t), [Upload(b), CleanUp(b)]);
    Prepend(s3, Check(t), [Commit(t)] + [Upload(b), CleanUp(b)]);
    Prepend(s2, Lock(t), [Check(t)] + ([Commit(t)] + [Upload(b), CleanUp(b)]));
    Prepend(s1, Begin(t, Accept(sp), b), [Lock(t)] + ([Check(t)] + ([Commit(t)] + [Upload(b), CleanUp(b)])));
    var steps := [Upload(b), Begin(t, Accept(sp), b), Lock(t), Check(t), Commit(t), Upload(b), CleanUp(b)];
    assert steps[1..] ==
      [Begin(t, Accept(sp), b)] + ([Lock(t)] + ([Check(t)] + ([Commit(t)] + [Upload(b), CleanUp(b)])));
  }

  /** A finalizer's bytes go only while nobody has accepted them, although the deletion precedes its commit. */
  lemma {:induction false} DeletesOnlyUnaccepted(s: State, t: Tx)
    requires Inv(s) && Enabled(s, DeleteBytes(t))
    ensures !IsAccepted(s, s.txns[t].blob) && !Relied(Apply(s, DeleteBytes(t)), s.txns[t].blob)
  {
    var b := s.txns[t].blob;
    assert Found(s, s.txns[t]) && Holds(s, t, b);
    HoldsAlone(s, t, b);
  }

  // --------------------------------------------------- claims without the lock

  ghost function ClaimsOn(s: State, b: Blob): set<Claim> {
    set c | c in s.acceptances + s.allocations && c.blob == b
  }

  lemma {:induction false} StepKeepsOneHolder(s: State, step: Step)
    requires OneHolder(s) && Enabled(s, step)
    ensures OneHolder(Apply(s, step))
  {
    var s' := Apply(s, step);
    if step.Lock? {
      forall u, b | u != step.tx ensures Holds(s', u, b) <==> Holds(s, u, b) {
      }
    } else {
      forall u, v, b | Holds(s', u, b) && Holds(s', v, b) ensures u == v {
        assert Holds(s, u, b) && Holds(s, v, b);
      }
    }
  }

  lemma {:induction false} RunKeepsOneHolder(s: State, steps: seq<Step>)
    requires OneHolder(s) && IsRun(s, steps)
    ensures OneHolder(After(s, steps))
    decreases |steps|
  {
    if steps != [] {
      StepKeepsOneHolder(s, steps[0]);
      RunKeepsOneHolder(Apply(s, steps[0]), steps[1..]);
    }
  }

  lemma {:induction false} RunFront(s: State, steps: seq<Step>)
    requires IsRun(s, steps) && steps != []
    ensures var n := |steps| - 1;
            && IsRun(s, steps[..n]) && Enabled(After(s, steps[..n]), steps[n])
            && After(s, steps) == Apply(After(s, steps[..n]), steps[n])
    decreases |steps|
  {
    var n := |steps| - 1;
    if n > 0 {
      RunFront(Apply(s, steps[0]), steps[1..]);
      assert steps[..n][1..] == steps[1..][..n - 1];
    }
  }

  predicate OfTx(step: Step) {
    step.Begin? || step.Lock? || step.Check? || step.DeleteBytes? || step.Commit? || step.Retry? || step.Abort?
  }

  /** What was done since the last step of `t`. */
  ghost function SinceLast(steps: seq<Step>, t: Tx): seq<Step> {
    if steps == [] then []
    else
      var n := |steps| - 1;
      if OfTx(steps[n]) && steps[n].tx == t then [] else SinceLast(steps[..n], t) + [steps[n]]
  }

  /** The claims on `b` that uploads made in these steps and nobody released since. */
  ghost function Uploaded(steps: seq<Step>, b: Blob): set<Claim> {
    if steps == [] then {}
    else
      var n := |steps| - 1;
      var before := Uploaded(steps[..n], b);
      match steps[n]
      case UploadClaim(c) => if c.blob == b then before + {c} else before
      case Release(c, _) => before - {c}
      case _ => before
  }

  /** The claim was made by an upload at `i` and is not released after it. */
  ghost predicate Stands(steps: seq<Step>, i: nat, c: Claim) {
    && i < |steps| && steps[i] == UploadClaim(c)
    && forall j :: i < j < |steps| ==> !(steps[j].Release? && steps[j].claim == c)
  }

  lemma {:induction false} UploadedIff(steps: seq<Step>, b: Blob, c: Claim)
    ensures c in Uploaded(steps, b) <==> c.blob == b && exists i: nat :: Stands(steps, i, c)
    decreases |steps|
  {
    if steps != [] {
      var n := |steps| - 1;
      UploadedIff(steps[..n], b, c);
      if c.blob == b && steps[n] == UploadClaim(c) {
        assert Stands(steps, n, c);
      }
      if i: nat :| Stands(steps[..n], i, c) {
        assert !(steps[n].Release? && steps[n].claim == c) ==> Stands(steps, i, c);
      }
      if i: nat :| Stands(steps, i, c) {
        assert i < n ==> Stands(steps[..n], i, c);
      }
    }
  }

  /** While `t` holds the lock, a step of another transaction changes the claims on its blob only without it. */
  lemma {:induction false} OthersClaim(s: State, t: Tx, step: Step, b: Blob)
    requires OneHolder(s) && Holds(s, t, b) && Enabled(s, step) && !(OfTx(step) && step.tx == t)
    ensures ClaimsOn(Apply(s, step), b) ==
            match step
            case UploadClaim(c) => if c.blob == b then ClaimsOn(s, b) + {c} else ClaimsOn(s, b)
            case Release(c, _) => ClaimsOn(s, b) - {c}
            case _ => ClaimsOn(s, b)
  {
    if step.Commit? {
      assert Holds(s, step.tx, s.txns[step.tx].blob);
    }
  }

  /**
    Between a finalizer's check and its deletion, the claims on its blob are
    those that uploads made and nobody released.
   */
  lemma {:induction false} ClaimsSinceCheck(steps: seq<Step>, t: Tx)
    requires IsRun(Init, steps) && t in After(Init, steps).txns
    requires var u := After(Init, steps).txns[t]; u.kind.Finalize? && u.phase.Passed?
    ensures var s := After(Init, steps); ClaimsOn(s, s.txns[t].blob) == Uploaded(SinceLast(steps, t), s.txns[t].blob)
    decreases |steps|
  {
    var n := |steps| - 1;
    RunFront(Init, steps);
    var before := After(Init, steps[..n]);
    var b := After(Init, steps).txns[t].blob;
    if OfTx(steps[n]) && steps[n].tx == t {
      assert steps[n] == Check(t) && !HasClaims(before, b);
    } else {
      ClaimsSinceCheck(steps[..n], t);
      RunKeepsOneHolder(Init, steps[..n]);
      assert Holds(before, t, b);
      OthersClaim(before, t, steps[n], b);
      var since := SinceLast(steps[..n], t);
      assert (since + [steps[n]])[..|since|] == since;
    }
  }

  /**
    In every run, a finalizer deletes bytes that are claimed if and only if an
    upload claimed them without the lock since its check, and nobody released
    that claim.
   */
  lemma {:induction false} DeletesClaimedIff(steps: seq<Step>, t: Tx)
    requires IsRun(Init, steps) && Enabled(After(Init, steps), DeleteBytes(t))
    ensures var s := After(Init, steps);
            HasClaims(s, s.txns[t].blob) <==>
            exists c: Claim, i: nat :: c.blob == s.txns[t].blob && Stands(SinceLast(steps, t), i, c)
  {
    var s := After(Init, steps);
    var b, since := s.txns[t].blob, SinceLast(steps, t);
    ClaimsSinceCheck(steps, t);
    forall c: Claim ensures c in ClaimsOn(s, b) <==> c.blob == b && exists i: nat :: Stands(since, i, c) {
      UploadedIff(since, b, c);
    }
    assert HasClaims(s, b) <==> exists c :: c in ClaimsOn(s, b) by {
      assert forall c :: c in s.acceptances && c.blob == b ==> c in ClaimsOn(s, b);
      assert forall c :: c in s.allocations && c.blob == b ==> c in ClaimsOn(s, b);
    }
  }

  /** An upload claims its content between a finalizer's check and its deletion: the claim is left without bytes. */
  lemma {:induction false} ClaimOvertakesDelete(c: Claim, t: Tx)
    ensures var steps := [Upload(c.blob), Begin(t, Finalize, c.blob), Lock(t), Check(t), UploadClaim(c)];
            && IsRun(Init, steps) && Enabled(After(Init, steps), DeleteBytes(t))
            && HasClaims(After(Init, steps), c.blob)
            && c.blob !in Apply(After(Init, steps), DeleteBytes(t)).bytes
  {
    var s1 := Apply(Init, Upload(c.blob));
    var s2 := Apply(s1, Begin(t, Finalize, c.blob));
    var s3 := Apply(s2, Lock(t));
    assert !HasClaims(s3, c.blob);
    assert c in Apply(Apply(s3, Check(t)), UploadClaim(c)).allocations;
    Pair(s3, Check(t), UploadClaim(c));
    Prepend(s2, Lock(t), [Check(t), UploadClaim(c)]);
    Prepend(s1, Begin(t, Finalize, c.blob), [Lock(t)] + [Check(t), UploadClaim(c)]);
    var steps := [Upload(c.blob), Begin(t, Finalize, c.blob), Lock(t), Check(t), UploadClaim(c)];
    assert steps[1..] == [Begin(t, Finalize, c.blob)] + ([Lock(t)] + [Check(t), UploadClaim(c)]);
  }

  // ------------------------------------------------- what a run leaves behind

  ghost function Next(): (State, Step, State) -> bool {
    (x: State, step: Step, y: State) => Enabled(x, step) && y == Apply(x, step)
  }

  /** The states a run goes through. */
  ghost function States(s: State, steps: seq<Step>): (r: seq<State>)
    requires IsRun(s, steps)
    ensures |r| == |steps| + 1 && r[0] == s && r[|steps|] == After(s, steps)
    ensures Traces(Next(), r, steps)
    decreases |steps|
  {
    if steps == [] then [s]
    else
      var rest := States(Apply(s, steps[0]), steps[1..]);
      TracesFrom(Next(), s, steps[0], rest, steps[1..]);
      assert [steps[0]] + steps[1..] == steps;
      [s] + rest
  }

  /** The step commits a transaction of this kind on `b`. */
  ghost predicate Commits(x: State, step: Step, k: Kind, b: Blob) {
    step.Commit? && step.tx in x.txns && x.txns[step.tx].kind == k && x.txns[step.tx].blob == b
  }

  /** An allocate's commit, or an upload's claim. */
  ghost function Allocating(c: Claim): (State, Step) -> bool {
    (x: State, step: Step) => step == UploadClaim(c) || Commits(x, step, Allocate(c.space), c.blob)
  }

  ghost function Accepting(c: Claim): (State, Step) -> bool {
    (x: State, step: Step) => Commits(x, step, Accept(c.space), c.blob)
  }

  ghost function Releasing(c: Claim): (State, Step) -> bool {
    (x: State, step: Step) => step.Release? && step.claim == c
  }

  /** Over any run a claim is allocated if and only if an allocate that committed, or an upload, stands unreleased. */
  lemma {:induction false} AllocatedIff(s: State, steps: seq<Step>, c: Claim)
    requires IsRun(s, steps)
    ensures c in After(s, steps).allocations <==>
            Standing(States(s, steps), steps, c in s.allocations, Allocating(c), Releasing(c))
  {
    forall x: State, step: Step, y: State | Next()(x, step, y)
      ensures c in y.allocations <==> Allocating(c)(x, step) || (c in x.allocations && !Releasing(c)(x, step))
    {
      assert Enabled(x, step) && y == Apply(x, step);
    }
    LawOverRuns(Next(), States(s, steps), steps, (x: State) => c in x.allocations, Allocating(c), Releasing(c));
  }

  /** Over any run a claim is accepted if and only if an accept that committed stands unreleased. */
  lemma {:induction false} AcceptedIff(s: State, steps: seq<Step>, c: Claim)
    requires IsRun(s, steps)
    ensures c in After(s, steps).acceptances <==>
            Standing(States(s, steps), steps, c in s.acceptances, Accepting(c), Releasing(c))
  {
    forall x: State, step: Step, y: State | Next()(x, step, y)
      ensures c in y.acceptances <==> Accepting(c)(x, step) || (c in x.acceptances && !Releasing(c)(x, step))
    {
      assert Enabled(x, step) && y == Apply(x, step);
    }
    LawOverRuns(Next(), States(s, steps), steps, (x: State) => c in x.acceptances, Accepting(c), Releasing(c));
  }

  ghost function Requesting(b: Blob): (State, Step) -> bool {
    (x: State, step: Step) => step == RemovePiece(b) || (step.Release? && step.queue && step.claim.blob == b)
  }

  ghost function Finalizing(b: Blob): (State, Step) -> bool {
    (x: State, step: Step) => Commits(x, step, Finalize, b)
  }

  /** Over any run a removal is pending if and only if a request for it stands since a finalizer last committed. */
  lemma {:induction false} PendingIff(s: State, steps: seq<Step>, b: Blob)
    requires IsRun(s, steps)
    ensures b in After(s, steps).pending <==>
            Standing(States(s, steps), steps, b in s.pending, Requesting(b), Finalizing(b))
  {
    forall x: State, step: Step, y: State | Next()(x, step, y)
      ensures b in y.pending <==> Requesting(b)(x, step) || (b in x.pending && !Finalizing(b)(x, step))
    {
      assert Enabled(x, step) && y == Apply(x, step);
    }
    LawOverRuns(Next(), States(s, steps), steps, (x: State) => b in x.pending, Requesting(b), Finalizing(b));
  }

  ghost function Uploading(b: Blob): (State, Step) -> bool {
    (x: State, step: Step) => step == Upload(b)
  }

  ghost function Deleting(b: Blob): (State, Step) -> bool {
    (x: State, step: Step) =>
      step == CleanUp(b) || (step.DeleteBytes? && step.tx in x.txns && x.txns[step.tx].blob == b)
  }

  /** Over any run the bytes are there if and only if an upload stands since they were last deleted. */
  lemma {:induction false} StoredIff(s: State, steps: seq<Step>, b: Blob)
    requires IsRun(s, steps)
    ensures b in After(s, steps).bytes <==>
            Standing(States(s, steps), steps, b in s.bytes, Uploading(b), Deleting(b))
  {
    forall x: State, step: Step, y: State | Next()(x, step, y)
      ensures b in y.bytes <==> Uploading(b)(x, step) || (b in x.bytes && !Deleting(b)(x, step))
    {
      assert Enabled(x, step) && y == Apply(x, step);
    }
    LawOverRuns(Next(), States(s, steps), steps, (x: State) => b in x.bytes, Uploading(b), Deleting(b));
  }

  /** The transaction is of kind `k` on `b`, and in phase `p`. */
  ghost predicate InPhase(x: State, t: Tx, k: Kind, b: Blob, p: Phase) {
    t in x.txns && x.txns[t] == Txn(k, b, p)
  }

  /** The step takes transaction `t`, of kind `k` on `b`, to phase `p`. */
  ghost predicate Reaches(x: State, step: Step, t: Tx, k: Kind, b: Blob, p: Phase) {
    || (p.Waiting? && step == Begin(t, k, b))
    || (&& t in x.txns && x.txns[t].kind == k && x.txns[t].blob == b
        && match p
           case Waiting => step == Retry(t)
           case Locked => step == Lock(t)
           case Revived => step == Check(t) && k.Finalize? && ClaimsOn(x, b) != {}
           case Passed => step == Check(t) && !(k.Finalize? && ClaimsOn(x, b) != {})
           case Deleted => step == DeleteBytes(t))
  }

  ghost function Reaching(t: Tx, k: Kind, b: Blob, p: Phase): (State, Step) -> bool {
    (x: State, step: Step) => Reaches(x, step, t, k, b, p)
  }

  ghost function Moving(t: Tx): (State, Step) -> bool {
    (x: State, step: Step) => OfTx(step) && step.tx == t
  }

  lemma {:induction false} HasClaimsIff(x: State, b: Blob)
    ensures HasClaims(x, b) <==> ClaimsOn(x, b) != {}
  {
    if c :| c in ClaimsOn(x, b) { assert HasClaims(x, b); }
    assert forall c :: c in x.acceptances && c.blob == b ==> c in ClaimsOn(x, b);
    assert forall c :: c in x.allocations && c.blob == b ==> c in ClaimsOn(x, b);
  }

  lemma {:induction false} PhaseAfter(x: State, step: Step, t: Tx, k: Kind, b: Blob, p: Phase)
    requires Enabled(x, step)
    ensures InPhase(Apply(x, step), t, k, b, p) <==>
            Reaches(x, step, t, k, b, p) || (InPhase(x, t, k, b, p) && !(OfTx(step) && step.tx == t))
  {
    HasClaimsIff(x, b);
    var y := Apply(x, step);
    if OfTx(step) && step.tx == t {
      assert step.Commit? || step.Abort? ==> t !in y.txns;
    } else {
      assert t in y.txns <==> t in x.txns;
      assert t in x.txns ==> y.txns[t] == x.txns[t];
    }
  }

  /**
    Over any run a transaction is in the phase that its own last step took it
    to: a finalizer is revived exactly when its check found a claim.
   */
  lemma {:induction false} PhaseIff(s: State, steps: seq<Step>, t: Tx, k: Kind, b: Blob, p: Phase)
    requires IsRun(s, steps)
    ensures InPhase(After(s, steps), t, k, b, p) <==>
            Standing(States(s, steps), steps, InPhase(s, t, k, b, p), Reaching(t, k, b, p), Moving(t))
  {
    forall x: State, step: Step, y: State | Next()(x, step, y)
      ensures InPhase(y, t, k, b, p) <==>
              Reaches(x, step, t, k, b, p) || (InPhase(x, t, k, b, p) && !(OfTx(step) && step.tx == t))
    {
      assert Enabled(x, step) && y == Apply(x, step);
      PhaseAfter(x, step, t, k, b, p);
    }
    LawOverRuns(Next(), States(s, steps), steps, (x: State) => InPhase(x, t, k, b, p), Reaching(t, k, b, p), Moving(t));
  }

  /**
    A finalizer's check revives the blob if and only if an allocate or an
    accept that committed before it, or an upload's claim, stands unreleased.
   */
  lemma {:induction false} CheckRevivesIff(steps: seq<Step>, t: Tx, b: Blob)
    requires IsRun(Init, steps) && Enabled(After(Init, steps), Check(t))
    requires InPhase(After(Init, steps), t, Finalize, b, Locked)
    ensures Apply(After(Init, steps), Check(t)).txns[t].phase == Revived <==>
            exists c: Claim :: c.blob == b &&
              (|| Standing(States(Init, steps), steps, false, Allocating(c), Releasing(c))
               || Standing(States(Init, steps), steps, false, Accepting(c), Releasing(c)))
  {
    var s := After(Init, steps);
    forall c: Claim
      ensures c in s.allocations <==> Standing(States(Init, steps), steps, false, Allocating(c), Releasing(c))
      ensures c in s.acceptances <==> Standing(States(Init, steps), steps, false, Accepting(c), Releasing(c))
    {
      AllocatedIff(Init, steps, c);
      AcceptedIff(Init, steps, c);
    }
  }

  // ------------------------------------------------------ finalizeRemoval

  lemma {:induction false} Append(s: State, steps: seq<Step>, step: Step)
    requires IsRun(s, steps) && Enabled(After(s, steps), step)
    ensures IsRun(s, steps + [step]) && After(s, steps + [step]) == Apply(After(s, steps), step)
    decreases |steps|
  {
    if steps == [] {
      assert steps + [step] == [step];
    } else {
      Append(Apply(s, steps[0]), steps[1..], step);
      assert (steps + [step])[1..] == steps[1..] + [step];
    }
  }

  /** No step of transaction `t`. */
  ghost predicate OfOthers(t: Tx, steps: seq<Step>) {
    forall i :: 0 <= i < |steps| ==> !(OfTx(steps[i]) && steps[i].tx == t)
  }

  /** `t` deleted no bytes in the steps from `n` on. */
  ghost predicate NoDelete(t: Tx, past: seq<Step>, n: nat) {
    forall i :: n <= i < |past| ==> past[i] != DeleteBytes(t)
  }

  datatype Outcome = Finalized | Cancelled | Failed

  /** One attempt at the transaction: what happens before each statement, and which of them fails. */
  datatype Attempt = Attempt(others: nat -> seq<Step>, failsAt: nat)

  /** Step `n` is the claim check of `t`, and there was a claim on `b` exactly when `claimed`. */
  ghost predicate CheckedAt(start: State, past: seq<Step>, n: nat, t: Tx, b: Blob, claimed: bool) {
    && n < |past| && past[n] == Check(t) && IsRun(start, past[..n])
    && (claimed <==> exists c: Claim :: c.blob == b && HasClaim(After(start, past[..n]), c))
  }

  lemma {:induction false} CheckedEarlier(start: State, past: seq<Step>, more: seq<Step>, n: nat, t: Tx, b: Blob,
                                          claimed: bool)
    requires past <= more && CheckedAt(start, past, n, t, b, claimed)
    ensures CheckedAt(start, more, n, t, b, claimed)
  {
    assert more[..n] == past[..n];
  }

  class Node {
    ghost const start: State
    ghost var past: seq<Step>
    var s: State

    ghost predicate Valid()
      reads this
    {
      IsRun(start, past) && After(start, past) == s
    }

    constructor (initial: State)
      ensures Valid() && s == initial == start && past == []
    {
      s, start, past := initial, initial, [];
    }

    method Take(step: Step)
      requires Valid() && Enabled(s, step)
      modifies this
      ensures Valid() && s == Apply(old(s), step) && past == old(past) + [step]
    {
      Append(start, past, step);
      past := past + [step];
      s := Apply(s, step);
    }

    method Others(t: Tx, steps: seq<Step>)
      requires Valid() && OfOthers(t, steps) && t in s.txns
      modifies this
      ensures Valid() && old(past) <= past && t in s.txns && s.txns[t] == old(s).txns[t]
      ensures NoDelete(t, past, |old(past)|)
    {
      for i := 0 to |steps|
        invariant Valid() && old(past) <= past && t in s.txns && s.txns[t] == old(s).txns[t]
        invariant NoDelete(t, past, |old(past)|)
      {
        if Enabled(s, steps[i]) {
          Take(steps[i]);
        }
      }
    }

    /** The claim check, and what others do after it. */
    method CheckClaims(t: Tx, b: Blob, others: seq<Step>)
      requires Valid() && t in s.txns && s.txns[t] == Txn(Finalize, b, Locked) && OfOthers(t, others)
      modifies this
      ensures Valid() && old(past) <= past && NoDelete(t, past, |old(past)|)
      ensures t in s.txns && s.txns[t] == Txn(Finalize, b, if s.txns[t].phase.Revived? then Revived else Passed)
      ensures CheckedAt(start, past, |old(past)|, t, b, s.txns[t].phase.Revived?)
    {
      Take(Check(t));
      Others(t, others);
      assert past[..|old(past)|] == old(past);
    }

    /** One attempt, up to the statement that fails; the lock is held from the claim check to the commit. */
    method AttemptRemoval(t: Tx, b: Blob, w: Attempt) returns (r: Outcome, blocked: bool)
      requires Valid() && t in s.txns && s.txns[t] == Txn(Finalize, b, Waiting)
      requires forall k :: OfOthers(t, w.others(k))
      modifies this
      ensures Valid() && old(past) <= past
      ensures r.Failed? ==> t in s.txns && s.txns[t].kind == Finalize && s.txns[t].blob == b
      ensures !r.Failed? ==> t !in s.txns && b !in s.pending
      ensures r.Finalized? ==> exists n :: |old(past)| <= n < |past| && past[n] == DeleteBytes(t)
      ensures r.Cancelled? ==> NoDelete(t, past, |old(past)|)
      ensures r.Failed? ==> w.failsAt <= 4 || (blocked && !Free(s, b))
      ensures !r.Failed? ==> exists n :: |old(past)| <= n < |past| && CheckedAt(start, past, n, t, b, r.Cancelled?)
    {
      r, blocked := Failed, false;
      Others(t, w.others(0));
      if !Free(s, b) {
        blocked := true;
        return;
      }
      if w.failsAt == 0 {
        return;
      }
      Take(Lock(t));
      if w.failsAt == 1 {
        return;
      }
      Others(t, w.others(1));
      ghost var n := |past|;
      CheckClaims(t, b, w.others(2));
      ghost var checked := past;
      if s.txns[t].phase.Revived? {
        if w.failsAt == 2 {
          return;
        }
        Take(Commit(t));
        CheckedEarlier(start, checked, past, n, t, b, true);
        return Cancelled, false;
      }
      r := DeleteAndCommit(t, b, w);
      CheckedEarlier(start, checked, past, n, t, b, false);
    }

    /** The deletions of an unclaimed blob, bytes first. */
    method DeleteAndCommit(t: Tx, b: Blob, w: Attempt) returns (r: Outcome)
      requires Valid() && t in s.txns && s.txns[t] == Txn(Finalize, b, Passed)
      requires forall k :: OfOthers(t, w.others(k))
      modifies this
      ensures Valid() && old(past) <= past && !r.Cancelled?
      ensures r.Failed? ==> t in s.txns && s.txns[t].kind == Finalize && s.txns[t].blob == b
      ensures r.Finalized? ==> t !in s.txns && b !in s.pending
      ensures r.Failed? ==> w.failsAt <= 4
      ensures r.Finalized? ==> exists n :: |old(past)| <= n < |past| && past[n] == DeleteBytes(t)
    {
      if w.failsAt == 3 {
        return Failed;
      }
      ghost var n := |past|;
      Take(DeleteBytes(t));
      Others(t, w.others(3));
      if w.failsAt == 4 {
        return Failed;
      }
      Take(Commit(t));
      assert past[n] == DeleteBytes(t);
      return Finalized;
    }

    /** finalizeRemoval: attempts until one commits or none is left, then gives up. */
    method FinalizeRemoval(t: Tx, b: Blob, attempts: seq<Attempt>) returns (r: Outcome)
      requires Valid() && t !in s.txns
      requires forall i, k :: 0 <= i < |attempts| ==> OfOthers(t, attempts[i].others(k))
      modifies this
      ensures Valid() && old(past) <= past && t !in s.txns
      ensures !r.Failed? ==> b !in s.pending
      ensures r.Finalized? ==> exists n :: |old(past)| <= n < |past| && past[n] == DeleteBytes(t)
    {
      Take(Begin(t, Finalize, b));
      for i := 0 to |attempts|
        invariant Valid() && old(past) <= past && t in s.txns && s.txns[t] == Txn(Finalize, b, Waiting)
      {
        var blocked;
        r, blocked := AttemptRemoval(t, b, attempts[i]);
        if !r.Failed? {
          return;
        }
        Take(Retry(t));
      }
      Take(Abort(t));
      return Failed;
    }
  }
}
