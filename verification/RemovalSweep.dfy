/**
  processPendingRemovals: one pass over the pending removals, then the
  retirement of the on-chain roots whose every live sub-piece is pending.
  Anything but another pass can happen before every turn, before every count
  of a root's sub-pieces and before every root removal.
 */
module RemovalSweep {
  import opened Common
  import opened Pipeline
  import opened Lifecycle
  import opened RootRows
  import opened Sets
  import SweepTurn

  /** Where a blob's turn hits a database error: nowhere, before its row is cancelled, or after. */
  datatype Fault = Fine | BeforeCancel | AfterCancel

  /** What the environment does to a pass: errors, how far finalizations get, failing root removals. */
  datatype Weather = Weather(fault: Blob -> Fault, outcome: Blob -> Outcome, fails: RootKey -> bool,
                             tx: RootKey -> TxHash)

  function TurnOutcome(w: Weather, b: Blob): Outcome {
    if w.fault(b) == AfterCancel then Untouched else w.outcome(b)
  }

  function Turn(s: State, w: Weather, b: Blob): State {
    if w.fault(b) == BeforeCancel then s else SweepBlob(s, b, TurnOutcome(w, b))
  }

  /** What a turn leaves: everything as it was, or what a whole turn or one that stops after the cancel leaves. */
  ghost predicate Took(s: State, t: State, w: Weather, b: Blob) {
    match w.fault(b)
    case BeforeCancel => t == s
    case AfterCancel => SweepTurn.Turned(s, t, b, Untouched) && SweepTurn.PieceTurned(s, t, b, Untouched)
    case Fine => SweepTurn.Turned(s, t, b, w.outcome(b)) && SweepTurn.PieceTurned(s, t, b, w.outcome(b))
  }

  lemma {:induction false} TurnTook(s: State, w: Weather, b: Blob)
    ensures Took(s, Turn(s, w, b), w, b)
  {
    if w.fault(b) != BeforeCancel {
      SweepTurn.TurnLeaves(s, b, TurnOutcome(w, b));
    }
  }

  // ---------------------------------------------------------- specification

  /** No deletion of a row of `p` is in flight. */
  predicate Settled(s: State, p: Piece) {
    forall k :: k in s.chain && Unremoved(s, k) && s.chain[k].sub == p ==> s.chain[k].rmHash == None
  }

  /** The pass counts `b`'s piece as pending: unclaimed, mapped, no add staged, no deletion in flight. */
  predicate Ready(s: State, w: Weather, b: Blob) {
    && w.fault(b) == Fine && b in s.pending && !Claimed(s, b)
    && b in s.commp && !HasLiveAdd(s, s.commp[b]) && Settled(s, s.commp[b])
  }

  ghost predicate ReadyPiece(s: State, w: Weather, p: Piece) {
    exists b :: Ready(s, w, b) && s.commp[b] == p
  }

  /** The roots to retire: live ones whose every live sub-piece is the piece of a ready blob. */
  ghost predicate Retirable(s: State, w: Weather, r: RootKey) {
    LiveSubs(s, r) != {} && forall p :: p in LiveSubs(s, r) ==> ReadyPiece(s, w, p)
  }

  /** A root with a deletion in flight is not retired again until its stamp clears. */
  lemma {:induction false} StampedNotRetirable(s: State, w: Weather, k: ChainKey)
    requires Unremoved(s, k) && s.chain[k].rmHash.Some?
    ensures !Retirable(s, w, k.root)
  {
    assert !Settled(s, s.chain[k].sub);
    assert !ReadyPiece(s, w, s.chain[k].sub);
    assert s.chain[k].sub in LiveSubs(s, k.root);
  }

  // -------------------------------------------------------- the two loops

  function Subs(m: map<RootKey, set<Piece>>, r: RootKey): set<Piece> {
    if r in m then m[r] else {}
  }

  /** What the turn of `b` adds to `m`: its piece, under every root it is live in. */
  ghost predicate Counted(s: State, w: Weather, b: Blob, m: map<RootKey, set<Piece>>, m': map<RootKey, set<Piece>>) {
    forall r :: Subs(m', r) ==
      Subs(m, r) + (if Ready(s, w, b) && s.commp[b] in LiveSubs(s, r) then {s.commp[b]} else {})
  }

  lemma {:induction false} LiveRootsAreOnChain(s: State, p: Piece, live: set<RootKey>)
    requires forall r :: r in live <==> p in LiveSubs(s, r)
    ensures live == {} <==> !OnChain(s, p)
  {
    if k :| k in s.chain && s.chain[k].sub == p && Unremoved(s, k) {
      assert p in LiveSubs(s, k.root);
    }
  }

  /** Once the row is cancelled, the rest of an unclaimed blob's turn reads only the remaining tables. */
  lemma {:induction false} AfterCancelling(s: State, w: Weather, b: Blob)
    requires w.fault(b) == Fine && b in s.pending && !Claimed(s, b)
    ensures var s1 := CancelEntry(s, b);
            && Turn(s, w, b) == (if Unreferenced(s1, b) then Finalize(s1, b, w.outcome(b)) else s1)
            && s1.commp == s.commp && s1.adds == s.adds && s1.chain == s.chain
            && (Ready(s, w, b) <==> b in s1.commp && !HasLiveAdd(s1, s1.commp[b]) && Settled(s1, s1.commp[b]))
            && forall r :: LiveSubs(s1, r) == LiveSubs(s, r)
  {
  }

  // ------------------------------------------------------------- the history

  /** `history` is every state the steps of `past` go through. */
  ghost predicate Trace(e: Env, past: seq<Step>, history: seq<State>) {
    && |history| == |past| + 1
    && forall i :: 0 <= i < |past| ==> Enabled(history[i], past[i]) && history[i + 1] == Apply(e, history[i], past[i])
  }

  lemma {:induction false} TraceGrows(e: Env, past: seq<Step>, history: seq<State>, step: Step)
    requires Trace(e, past, history) && Enabled(history[|past|], step)
    ensures Trace(e, past + [step], history + [Apply(e, history[|past|], step)])
  {
  }

  /** Any stretch of the history is a run. */
  lemma {:induction false} TraceIsRun(e: Env, past: seq<Step>, history: seq<State>, i: nat, j: nat)
    requires Trace(e, past, history) && i <= j <= |past|
    ensures IsRun(e, history[i], past[i..j]) && After(e, history[i], past[i..j]) == history[j]
    decreases j - i
  {
    if i < j {
      TraceIsRun(e, past, history, i + 1, j);
      assert past[i..j][1..] == past[i + 1..j];
    }
  }

  /** At its turn, the blob at `i` of `listed` was ready, its piece was `p`, and `p` was live in `r`. */
  ghost predicate CountedAt(turns: seq<State>, listed: seq<Blob>, w: Weather, i: nat, r: RootKey, p: Piece) {
    && i < |turns| && i < |listed| && Ready(turns[i], w, listed[i])
    && turns[i].commp[listed[i]] == p && p in LiveSubs(turns[i], r)
  }

  /** Some blob's turn counted `p` for `r`. */
  ghost predicate Counts(turns: seq<State>, listed: seq<Blob>, w: Weather, r: RootKey, p: Piece) {
    exists i: nat :: CountedAt(turns, listed, w, i, r, p)
  }

  /** `m` is what the turns so far counted. */
  ghost predicate CountedBy(turns: seq<State>, listed: seq<Blob>, w: Weather, m: map<RootKey, set<Piece>>) {
    && (forall r :: r in m ==> m[r] != {})
    && forall r, p :: p in Subs(m, r) <==> Counts(turns, listed, w, r, p)
  }

  lemma {:induction false} CountOneMore(turns: seq<State>, s: State, listed: seq<Blob>, w: Weather,
                                        m: map<RootKey, set<Piece>>, m': map<RootKey, set<Piece>>)
    requires |turns| < |listed| && CountedBy(turns, listed, w, m) && Counted(s, w, listed[|turns|], m, m')
    requires forall r :: r in m' ==> m'[r] != {}
    ensures CountedBy(turns + [s], listed, w, m')
  {
    var n, turns' := |turns|, turns + [s];
    forall r, p ensures p in Subs(m', r) <==> Counts(turns', listed, w, r, p) {
      assert p in Subs(m, r) <==> Counts(turns, listed, w, r, p);
      forall i: nat | i < n ensures CountedAt(turns', listed, w, i, r, p) <==> CountedAt(turns, listed, w, i, r, p) {
      }
      assert CountedAt(turns', listed, w, n, r, p) <==>
        Ready(s, w, listed[n]) && s.commp[listed[n]] == p && p in LiveSubs(s, r);
    }
  }

  /** What was counted for a root is among its live sub-pieces, if it still has any. */
  ghost predicate Current(m: map<RootKey, set<Piece>>, s: State) {
    forall r :: r in m ==> r in s.keys && (m[r] <= LiveSubs(s, r) || LiveSubs(s, r) == {})
  }

  lemma {:induction false} StaysCurrent(m: map<RootKey, set<Piece>>, s: State, t: State)
    requires Current(m, s) && Later(s, t)
    ensures Current(m, t)
  {
  }

  lemma {:induction false} CountIsCurrent(s: State, w: Weather, b: Blob,
                                          m: map<RootKey, set<Piece>>, m': map<RootKey, set<Piece>>)
    requires Rooted(s) && Current(m, s) && Counted(s, w, b, m, m')
    requires forall r :: r in m' ==> m'[r] != {}
    ensures Current(m', s)
  {
    forall r | r in m' ensures r in s.keys && (m'[r] <= LiveSubs(s, r) || LiveSubs(s, r) == {}) {
      assert m'[r] == Subs(m', r);
      if Ready(s, w, b) && s.commp[b] in LiveSubs(s, r) {
        var k :| k in s.chain && Unremoved(s, k) && k.root == r && s.chain[k].sub == s.commp[b];
      }
    }
  }

  /** The comparison of the two sizes is an inclusion of sets. */
  lemma {:induction false} SizesCompareSets(m: map<RootKey, set<Piece>>, s: State, r: RootKey)
    requires Current(m, s) && r in m
    ensures |m[r]| >= |LiveSubs(s, r)| <==> LiveSubs(s, r) <= m[r]
  {
    var live := LiveSubs(s, r);
    if live <= m[r] { SubsetSize(live, m[r]); }
    if |m[r]| >= |live| && live != {} { SameSize(m[r], live); }
  }

  function TurnSteps(w: Weather, b: Blob): nat {
    if w.fault(b) == BeforeCancel then 0 else 1
  }

  /** The pass took the turn of `b` at `at`, and no other step. */
  ghost predicate OwnTurn(past: seq<Step>, before: set<nat>, own: set<nat>, w: Weather, b: Blob, at: nat) {
    if w.fault(b) == BeforeCancel then own == before
    else own == before + {at} && at < |past| && past[at] == Sweep(b, TurnOutcome(w, b))
  }

  /** The step at `n` removes the root, at or after `from`. */
  ghost predicate RemovedAt(past: seq<Step>, w: Weather, r: RootKey, from: nat, n: nat) {
    from <= n < |past| && past[n] == Chain(RemoveRoot(r, w.tx(r)))
  }

  /**
    The roots counted so far, each at the state `counted` names: exactly those
    whose live sub-pieces were all in `m` then are removed, where `removals` says.
   */
  ghost predicate Retirements(history: seq<State>, past: seq<Step>, w: Weather, m: map<RootKey, set<Piece>>,
                              retired: set<RootKey>, counted: map<RootKey, nat>, removals: map<RootKey, nat>,
                              from: nat) {
    && removals.Keys == retired && retired <= counted.Keys <= m.Keys
    && (forall r :: r in counted ==> from <= counted[r] < |history|)
    && (forall r :: r in counted ==> (r in retired <==> !w.fails(r) && LiveSubs(history[counted[r]], r) <= m[r]))
    && (forall r :: r in retired ==> RemovedAt(past, w, r, counted[r], removals[r]))
  }

  lemma {:induction false} RetireNext(
    history: seq<State>, past: seq<Step>, history': seq<State>, past': seq<Step>,
    w: Weather, m: map<RootKey, set<Piece>>,
    retired: set<RootKey>, counted: map<RootKey, nat>, removals: map<RootKey, nat>, from: nat,
    r: RootKey, removed: bool, at: nat, n: nat)
    requires Retirements(history, past, w, m, retired, counted, removals, from) && r in m && r !in counted
    requires history <= history' && past <= past' && from <= at < |history'|
    requires removed <==> !w.fails(r) && LiveSubs(history'[at], r) <= m[r]
    requires removed ==> RemovedAt(past', w, r, at, n)
    ensures Retirements(history', past', w, m, if removed then retired + {r} else retired, counted[r := at],
                        if removed then removals[r := n] else removals, from)
  {
  }

  lemma {:induction false} NewValue<K, V>(m: map<K, V>, k: K, v: V, others: set<V>)
    requires k !in m
    ensures others + m[k := v].Values == (others + m.Values) + {v}
  {
    var m' := m[k := v];
    assert k in m' && m'[k] == v;
    forall x | x in m.Values ensures x in m'.Values {
      var l :| l in m && m[l] == x;
      assert l in m' && m'[l] == x;
    }
  }

  lemma {:induction false} TurnKeepsOthersPending(s: State, w: Weather, b: Blob)
    ensures s.pending - {b} <= Turn(s, w, b).pending
  {
  }

  /** Where the next turn starts when nobody else does anything. */
  ghost function NextTurn(w: Weather, listed: seq<Blob>, at: seq<nat>, from: nat): nat
    requires |at| <= |listed|
  {
    if at == [] then from else at[|at| - 1] + TurnSteps(w, listed[|at| - 1])
  }

  /** The turn at `at[i]` is that of `listed[i]`, right after the one before unless others came between. */
  ghost predicate TurnTaken(past: seq<Step>, history: seq<State>, w: Weather, listed: seq<Blob>,
                            others: nat -> seq<Step>,
                            at: seq<nat>, turns: seq<State>, from: nat, i: nat)
    requires i < |at| <= |listed| && |turns| == |at|
  {
    && NextTurn(w, listed, at[..i], from) <= at[i] < |history| && history[at[i]] == turns[i]
    && (others(i) == [] ==> at[i] == NextTurn(w, listed, at[..i], from))
    && (w.fault(listed[i]) != BeforeCancel ==>
          at[i] < |past| && past[at[i]] == Sweep(listed[i], TurnOutcome(w, listed[i])))
  }

  ghost predicate TurnsTaken(past: seq<Step>, history: seq<State>, w: Weather, listed: seq<Blob>,
                             others: nat -> seq<Step>,
                             at: seq<nat>, turns: seq<State>, from: nat) {
    && |turns| == |at| <= |listed|
    && forall i: nat :: i < |at| ==> TurnTaken(past, history, w, listed, others, at, turns, from, i)
  }

  lemma {:induction false} TurnsKept(
    past: seq<Step>, history: seq<State>, past': seq<Step>, history': seq<State>, w: Weather, listed: seq<Blob>,
    others: nat -> seq<Step>, at: seq<nat>, turns: seq<State>, from: nat)
    requires TurnsTaken(past, history, w, listed, others, at, turns, from) && past <= past' && history <= history'
    ensures TurnsTaken(past', history', w, listed, others, at, turns, from)
  {
    forall i: nat | i < |at| ensures TurnTaken(past', history', w, listed, others, at, turns, from, i) {
      assert TurnTaken(past, history, w, listed, others, at, turns, from, i);
    }
  }

  lemma {:induction false} TurnNext(
    past: seq<Step>, history: seq<State>, past': seq<Step>, history': seq<State>, w: Weather, listed: seq<Blob>,
    others: nat -> seq<Step>, at: seq<nat>, turns: seq<State>, from: nat, n: nat)
    requires TurnsTaken(past, history, w, listed, others, at, turns, from) && past <= past' && history <= history'
    requires |at| < |listed| && |past| == NextTurn(w, listed, at, from) <= n < |history'|
    requires others(|at|) == [] ==> n == |past|
    requires w.fault(listed[|at|]) != BeforeCancel ==>
               n < |past'| && past'[n] == Sweep(listed[|at|], TurnOutcome(w, listed[|at|]))
    ensures TurnsTaken(past', history', w, listed, others, at + [n], turns + [history'[n]], from)
  {
    TurnsKept(past, history, past', history', w, listed, others, at, turns, from);
    var at', turns' := at + [n], turns + [history'[n]];
    forall i: nat | i < |at'| ensures TurnTaken(past', history', w, listed, others, at', turns', from, i) {
      if i < |at| {
        assert TurnTaken(past', history', w, listed, others, at, turns, from, i);
        assert at'[..i] == at[..i];
      } else {
        assert at'[..i] == at;
      }
    }
  }

  /** The steps of the turns: a turn that fails at once takes none. */
  ghost function OwnTurns(w: Weather, listed: seq<Blob>, at: seq<nat>): set<nat> {
    set i | 0 <= i < |at| && i < |listed| && w.fault(listed[i]) != BeforeCancel :: at[i]
  }

  lemma {:induction false} OwnTurnsGrow(
    past: seq<Step>, before: set<nat>, own: set<nat>, w: Weather, listed: seq<Blob>, at: seq<nat>, n: nat)
    requires |at| < |listed| && OwnTurn(past, before + OwnTurns(w, listed, at), own, w, listed[|at|], n)
    ensures own == before + OwnTurns(w, listed, at + [n])
  {
    var at' := at + [n];
    forall x ensures x in OwnTurns(w, listed, at') <==>
                     x in OwnTurns(w, listed, at) || (x == n && w.fault(listed[|at|]) != BeforeCancel) {
      if x in OwnTurns(w, listed, at) {
        var i :| 0 <= i < |at| && i < |listed| && w.fault(listed[i]) != BeforeCancel && at[i] == x;
        assert at'[i] == x;
      }
      if x == n && w.fault(listed[|at|]) != BeforeCancel { assert at'[|at|] == x; }
    }
  }

  /**
    The pass retires a root exactly when, at the state its sub-pieces are
    counted, every live one was counted by the turn of some blob; and it counts
    the roots of which a turn counted something.
   */
  ghost predicate Retires(past: seq<Step>, history: seq<State>, w: Weather, listed: seq<Blob>, turns: seq<State>,
                          retired: set<RootKey>, counted: map<RootKey, nat>, removals: map<RootKey, nat>, from: nat) {
    && (forall r :: r in counted <==> exists p :: Counts(turns, listed, w, r, p))
    && (forall r :: r in counted ==> from <= counted[r] < |history|)
    && (forall r :: r in retired <==>
          r in counted && !w.fails(r) && AllCounted(history[counted[r]], turns, listed, w, r))
    && removals.Keys == retired
    && (forall r :: r in retired ==> RemovedAt(past, w, r, counted[r], removals[r]))
  }

  ghost predicate AllCounted(s: State, turns: seq<State>, listed: seq<Blob>, w: Weather, r: RootKey) {
    forall p :: p in LiveSubs(s, r) ==> Counts(turns, listed, w, r, p)
  }

  lemma {:induction false} RetiresByTurns(
    past: seq<Step>, history: seq<State>, w: Weather, listed: seq<Blob>, turns: seq<State>, m: map<RootKey, set<Piece>>,
    retired: set<RootKey>, counted: map<RootKey, nat>, removals: map<RootKey, nat>, from: nat)
    requires CountedBy(turns, listed, w, m) && counted.Keys == m.Keys
    requires Retirements(history, past, w, m, retired, counted, removals, from)
    ensures Retires(past, history, w, listed, turns, retired, counted, removals, from)
  {
    forall r ensures r in counted <==> exists p :: Counts(turns, listed, w, r, p) {
      if r in counted {
        assert m[r] != {};
        var p :| p in m[r];
        assert p in Subs(m, r);
      }
      if p :| Counts(turns, listed, w, r, p) {
        assert p in Subs(m, r);
      }
    }
    forall r | r in counted
      ensures LiveSubs(history[counted[r]], r) <= m[r] <==> AllCounted(history[counted[r]], turns, listed, w, r)
    {
      assert m[r] == Subs(m, r);
    }
  }

  // -------------------------------------------- claims made during the pass

  /**
    A blob that was counted, and so unclaimed at its turn, is claimed at a later
    state of the history - that of a root removal, say - if and only if an
    accept or allocation of it since its turn has not been released.
   */
  lemma {:induction false} CountedClaimedIff(
    e: Env, past: seq<Step>, history: seq<State>, w: Weather, listed: seq<Blob>, others: nat -> seq<Step>,
    at: seq<nat>, turns: seq<State>, from: nat, i: nat, r: RootKey, p: Piece, n: nat)
    requires Trace(e, past, history) && TurnsTaken(past, history, w, listed, others, at, turns, from)
    requires CountedAt(turns, listed, w, i, r, p) && at[i] <= n <= |past|
    ensures Claimed(history[n], listed[i]) <==> exists j: nat, sp :: Stands(past[at[i]..n], j, listed[i], sp)
  {
    assert TurnTaken(past, history, w, listed, others, at, turns, from, i);
    TraceIsRun(e, past, history, at[i], n);
    ClaimedIff(e, history[at[i]], past[at[i]..n], listed[i]);
  }

  /** At its turn, the root of a counted piece has no deletion in flight. */
  lemma {:induction false} CountedIsUnstamped(
    turns: seq<State>, listed: seq<Blob>, w: Weather, i: nat, r: RootKey, p: Piece)
    requires CountedAt(turns, listed, w, i, r, p) && Rooted(turns[i])
    ensures r in turns[i].keys && !BeingRemoved(turns[i], r)
  {
    var s := turns[i];
    var k :| k in s.chain && Unremoved(s, k) && k.root == r && s.chain[k].sub == p;
    assert s.chain[k].rmHash == None;
  }

  /**
    A root that a turn counted, and so unstamped then, is stamped at a later
    state of the history - that of its own removal by the pass, say - if and
    only if it is still live and another removal has stamped it since that turn
    and the stamp was not cleared.
   */
  lemma {:induction false} CountedStampedIff(
    e: Env, past: seq<Step>, history: seq<State>, w: Weather, listed: seq<Blob>, others: nat -> seq<Step>,
    at: seq<nat>, turns: seq<State>, from: nat, i: nat, r: RootKey, p: Piece, n: nat)
    requires Trace(e, past, history) && Rooted(history[0])
    requires TurnsTaken(past, history, w, listed, others, at, turns, from)
    requires CountedAt(turns, listed, w, i, r, p) && at[i] <= n <= |past|
    ensures BeingRemoved(history[n], r) <==>
            LiveSubs(history[n], r) != {} && exists j: nat :: StampStands(past[at[i]..n], j, r)
  {
    assert TurnTaken(past, history, w, listed, others, at, turns, from, i);
    TraceIsRun(e, past, history, 0, at[i]);
    RunIsLater(e, history[0], past[0..at[i]]);
    CountedIsUnstamped(turns, listed, w, i, r, p);
    TraceIsRun(e, past, history, at[i], n);
    var t := history[n];
    forall k | k in t.chain && k.root == r && !t.chain[k].removed ensures t.chain[k].sub in LiveSubs(t, r) {
    }
    if LiveSubs(t, r) != {} {
      StampedIff(e, history[at[i]], past[at[i]..n], r);
    }
  }

  lemma {:induction false} TurnsInOrder(
    past: seq<Step>, history: seq<State>, w: Weather, listed: seq<Blob>, others: nat -> seq<Step>,
    at: seq<nat>, turns: seq<State>, from: nat, i: nat, n: nat)
    requires TurnsTaken(past, history, w, listed, others, at, turns, from) && i < n <= |at|
    ensures at[i] <= NextTurn(w, listed, at[..n], from)
    decreases n
  {
    assert at[..n][..n - 1] == at[..n - 1];
    assert TurnTaken(past, history, w, listed, others, at, turns, from, n - 1);
    if i < n - 1 { TurnsInOrder(past, history, w, listed, others, at, turns, from, i, n - 1); }
  }

  lemma {:induction false} RemovedAfterTurn(
    past: seq<Step>, history: seq<State>, w: Weather, listed: seq<Blob>, others: nat -> seq<Step>,
    at: seq<nat>, turns: seq<State>, from: nat, retired: set<RootKey>, counted: map<RootKey, nat>,
    removals: map<RootKey, nat>, i: nat, r: RootKey)
    requires |at| == |listed| && TurnsTaken(past, history, w, listed, others, at, turns, from) && i < |at|
    requires Retires(past, history, w, listed, turns, retired, counted, removals, NextTurn(w, listed, at, from))
    requires r in retired
    ensures at[i] <= removals[r] < |past|
  {
    assert RemovedAt(past, w, r, counted[r], removals[r]) && at[..|at|] == at;
    TurnsInOrder(past, history, w, listed, others, at, turns, from, i, |at|);
  }

  /**
    The pass removes a root whose deletion is already in flight if and only if
    the root is still live and another removal has stamped it since a turn that
    counted it, whichever that turn, and the stamp was not cleared.
   */
  lemma {:induction false} RemovedAgainIff(
    e: Env, past: seq<Step>, history: seq<State>, w: Weather, listed: seq<Blob>, others: nat -> seq<Step>,
    at: seq<nat>, turns: seq<State>, from: nat, retired: set<RootKey>, counted: map<RootKey, nat>,
    removals: map<RootKey, nat>, i: nat, r: RootKey, p: Piece)
    requires Trace(e, past, history) && Rooted(history[0]) && |at| == |listed|
    requires TurnsTaken(past, history, w, listed, others, at, turns, from)
    requires Retires(past, history, w, listed, turns, retired, counted, removals, NextTurn(w, listed, at, from))
    requires r in retired && CountedAt(turns, listed, w, i, r, p)
    ensures at[i] <= removals[r] < |history|
    ensures var n := removals[r];
            BeingRemoved(history[n], r) <==>
            LiveSubs(history[n], r) != {} && exists j: nat :: StampStands(past[at[i]..n], j, r)
  {
    RemovedAfterTurn(past, history, w, listed, others, at, turns, from, retired, counted, removals, i, r);
    CountedStampedIff(e, past, history, w, listed, others, at, turns, from, i, r, p, removals[r]);
  }

  // --------------------------------------------------- a pass nobody disturbs

  /** `t` has the claims, adds and unremoved rows of `s`, and the mappings of the blobs of `bs`. */
  ghost predicate SamePending(s: State, t: State, bs: set<Blob>) {
    && t.claims == s.claims && t.adds == s.adds
    && (forall k :: Unremoved(s, k) <==> Unremoved(t, k))
    && (forall k :: Unremoved(s, k) ==> t.chain[k] == s.chain[k])
    && (forall b :: b in bs ==> (b in t.pending <==> b in s.pending))
    && (forall b :: b in bs ==> (b in t.commp <==> b in s.commp))
    && (forall b :: b in bs && b in s.commp ==> t.commp[b] == s.commp[b])
  }

  function Elements(bs: seq<Blob>): set<Blob> {
    set b | b in bs
  }

  lemma {:induction false} PendingComposes(s: State, t: State, u: State, bs: set<Blob>, cs: set<Blob>)
    requires SamePending(s, t, bs) && SamePending(t, u, cs) && cs <= bs
    ensures SamePending(s, u, cs)
  {
  }

  lemma {:induction false} TurnKeepsPending(s: State, w: Weather, b: Blob, bs: set<Blob>)
    requires b !in bs
    ensures SamePending(s, Turn(s, w, b), bs)
  {
    if b in s.pending && !Claimed(s, b) && Unreferenced(CancelEntry(s, b), b) {
      FinalizeKeepsPending(CancelEntry(s, b), b, TurnOutcome(w, b), bs);
    }
  }

  lemma {:induction false} FinalizeKeepsPending(s: State, b: Blob, o: Outcome, bs: set<Blob>)
    requires b !in bs
    ensures SamePending(s, Finalize(s, b, o), bs)
  {
  }

  lemma {:induction false} PendingAgree(s: State, t: State, w: Weather, bs: set<Blob>)
    requires SamePending(s, t, bs)
    ensures forall r :: LiveSubs(t, r) == LiveSubs(s, r)
    ensures forall b :: b in bs ==> (Ready(t, w, b) <==> Ready(s, w, b))
  {
  }

  /** Without others between them, each turn starts where the one before ended. */
  lemma {:induction false} AloneTurns(
    e: Env, past: seq<Step>, history: seq<State>, w: Weather, listed: seq<Blob>, others: nat -> seq<Step>,
    at: seq<nat>, turns: seq<State>, from: nat, i: nat)
    requires Trace(e, past, history) && TurnsTaken(past, history, w, listed, others, at, turns, from)
    requires (forall k :: others(k) == []) && i < |at| && from < |history| && Distinct(listed)
    ensures SamePending(history[from], turns[i], Elements(listed[i..]))
    decreases i
  {
    assert TurnTaken(past, history, w, listed, others, at, turns, from, i);
    if i > 0 {
      var b := listed[i - 1];
      AloneTurns(e, past, history, w, listed, others, at, turns, from, i - 1);
      assert TurnTaken(past, history, w, listed, others, at, turns, from, i - 1);
      assert turns[i] == Turn(turns[i - 1], w, b);
      assert b !in listed[i..];
      TurnKeepsPending(turns[i - 1], w, b, Elements(listed[i..]));
      PendingComposes(history[from], turns[i - 1], turns[i], Elements(listed[i - 1..]), Elements(listed[i..]));
    }
  }

  lemma {:induction false} AloneCounts(
    e: Env, past: seq<Step>, history: seq<State>, w: Weather, listed: seq<Blob>, others: nat -> seq<Step>,
    at: seq<nat>, turns: seq<State>, from: nat, r: RootKey, p: Piece)
    requires Trace(e, past, history) && TurnsTaken(past, history, w, listed, others, at, turns, from)
             && |at| == |listed|
    requires (forall k :: others(k) == []) && from < |history| && Distinct(listed)
    requires forall b :: b in history[from].pending ==> b in listed
    ensures Counts(turns, listed, w, r, p) <==> p in LiveSubs(history[from], r) && ReadyPiece(history[from], w, p)
  {
    var s := history[from];
    forall i: nat | i < |at|
      ensures CountedAt(turns, listed, w, i, r, p) <==>
              Ready(s, w, listed[i]) && s.commp[listed[i]] == p && p in LiveSubs(s, r)
    {
      AloneTurns(e, past, history, w, listed, others, at, turns, from, i);
      assert listed[i] in listed[i..];
      PendingAgree(s, turns[i], w, Elements(listed[i..]));
    }
    if p in LiveSubs(s, r) && ReadyPiece(s, w, p) {
      var b :| Ready(s, w, b) && s.commp[b] == p;
      var i :| 0 <= i < |listed| && listed[i] == b;
      assert CountedAt(turns, listed, w, i, r, p);
    }
  }

  lemma {:induction false} RemoveKeepsSubs(s: State, key: RootKey, tx: TxHash, r: RootKey)
    ensures LiveSubs(ChainApply(s, RemoveRoot(key, tx)), r) == LiveSubs(s, r)
  {
    SameSubs(s, ChainApply(s, RemoveRoot(key, tx)), r);
  }

  lemma {:induction false} OwnStepKeepsSubs(e: Env, s: State, step: Step, r: RootKey)
    requires IsOwn(step)
    ensures LiveSubs(Apply(e, s, step), r) == LiveSubs(s, r)
  {
    if step.Sweep? {
      SweepKeepsSubs(s, step.blob, step.outcome, r);
    } else {
      RemoveKeepsSubs(s, step.chain.key, step.chain.tx, r);
    }
  }

  predicate IsOwn(step: Step) {
    step.Sweep? || (step.Chain? && step.chain.RemoveRoot?)
  }

  /** Turns and root removals take no live sub-piece away. */
  lemma {:induction false} OwnStepsKeepSubs(e: Env, s: State, steps: seq<Step>, r: RootKey)
    requires IsRun(e, s, steps) && forall k :: 0 <= k < |steps| ==> IsOwn(steps[k])
    ensures LiveSubs(After(e, s, steps), r) == LiveSubs(s, r)
    decreases |steps|
  {
    if steps != [] {
      OwnStepKeepsSubs(e, s, steps[0], r);
      OwnStepsKeepSubs(e, Apply(e, s, steps[0]), steps[1..], r);
    }
  }

  lemma {:induction false} SweepKeepsSubs(s: State, b: Blob, o: Outcome, r: RootKey)
    ensures LiveSubs(SweepBlob(s, b, o), r) == LiveSubs(s, r)
  {
    SameSubs(s, SweepBlob(s, b, o), r);
  }

  lemma {:induction false} CountedRetirable(
    s: State, now: State, w: Weather, listed: seq<Blob>, turns: seq<State>, r: RootKey)
    requires LiveSubs(now, r) == LiveSubs(s, r) && exists p :: Counts(turns, listed, w, r, p)
    requires forall p :: Counts(turns, listed, w, r, p) <==> p in LiveSubs(s, r) && ReadyPiece(s, w, p)
    ensures AllCounted(now, turns, listed, w, r) <==> Retirable(s, w, r)
  {
    var p :| Counts(turns, listed, w, r, p);
    assert p in LiveSubs(s, r);
  }

  /**
    A pass nobody disturbs retires exactly the roots whose every live sub-piece
    is, at its start, the piece of a ready blob.
   */
  lemma {:induction false} AlonePass(
    e: Env, past: seq<Step>, history: seq<State>, w: Weather, listed: seq<Blob>, others: nat -> seq<Step>,
    at: seq<nat>, turns: seq<State>, from: nat, retired: set<RootKey>, counted: map<RootKey, nat>,
    removals: map<RootKey, nat>, after: nat, r: RootKey)
    requires Trace(e, past, history) && TurnsTaken(past, history, w, listed, others, at, turns, from)
             && |at| == |listed|
    requires (forall k :: others(k) == []) && from < |history| && Distinct(listed)
    requires forall b :: b in history[from].pending ==> b in listed
    requires Retires(past, history, w, listed, turns, retired, counted, removals, after) && from <= after
    requires forall k :: from <= k < |past| ==> IsOwn(past[k])
    ensures r in retired <==> !w.fails(r) && Retirable(history[from], w, r)
  {
    var s := history[from];
    forall p ensures Counts(turns, listed, w, r, p) <==> p in LiveSubs(s, r) && ReadyPiece(s, w, p) {
      AloneCounts(e, past, history, w, listed, others, at, turns, from, r, p);
    }
    if r in counted {
      TraceIsRun(e, past, history, from, counted[r]);
      OwnStepsKeepSubs(e, s, past[from..counted[r]], r);
      CountedRetirable(s, history[counted[r]], w, listed, turns, r);
    } else {
      forall p ensures !(p in LiveSubs(s, r) && ReadyPiece(s, w, p)) {
        assert !Counts(turns, listed, w, r, p);
      }
    }
  }

  /** A pass nobody disturbs retires no root whose deletion is in flight. */
  lemma {:induction false} StampedNotRetired(
    e: Env, past: seq<Step>, history: seq<State>, w: Weather, listed: seq<Blob>, others: nat -> seq<Step>,
    at: seq<nat>, turns: seq<State>, from: nat, retired: set<RootKey>, counted: map<RootKey, nat>,
    removals: map<RootKey, nat>, after: nat, r: RootKey)
    requires Trace(e, past, history) && TurnsTaken(past, history, w, listed, others, at, turns, from)
    requires |at| == |listed| && (forall k :: others(k) == []) && from < |history| && Distinct(listed)
    requires forall b :: b in history[from].pending ==> b in listed
    requires Retires(past, history, w, listed, turns, retired, counted, removals, after) && from <= after
    requires forall k :: from <= k < |past| ==> IsOwn(past[k])
    requires BeingRemoved(history[from], r)
    ensures r !in retired
  {
    var k :| k in history[from].chain && k.root == r && !history[from].chain[k].removed
             && history[from].chain[k].rmHash.Some?;
    StampedNotRetirable(history[from], w, k);
    AlonePass(e, past, history, w, listed, others, at, turns, from, retired, counted, removals, after, r);
  }

  class Sweeper {
    const e: Env
    ghost var past: seq<Step>
    ghost var history: seq<State>
    ghost var own: set<nat> // which steps of `past` the pass itself took
    var db: State

    ghost predicate Valid()
      reads this
    {
      Trace(e, past, history) && history[|past|] == db && Rooted(db) && Rooted(history[0])
      && forall n :: n in own ==> n < |past|
    }

    constructor (env: Env, s: State)
      requires Rooted(s)
      ensures Valid() && e == env && db == s && past == [] && own == {}
    {
      e, db, past, history, own := env, s, [], [s], {};
    }

    /** `db` became `next` by one step of the pass, or of another process. */
    ghost method Record(step: Step, mine: bool, before: State)
      requires Trace(e, past, history) && history[|past|] == before && Rooted(before) && Rooted(history[0])
      requires Enabled(before, step) && db == Apply(e, before, step) && forall n :: n in own ==> n < |past|
      modifies this`past, this`history, this`own
      ensures Valid() && past == old(past) + [step] && history == old(history) + [db] && Later(before, db)
      ensures own == old(own) + if mine then {|old(past)|} else {}
    {
      StepIsLater(e, before, step);
      TraceGrows(e, past, history, step);
      if mine { own := own + {|past|}; }
      past, history := past + [step], history + [db];
    }

    /** What others do meanwhile; passes are one at a time. */
    method Others(steps: seq<Step>)
      requires Valid()
      modifies this
      ensures Valid() && old(past) <= past && old(history) <= history && own == old(own)
      ensures Later(old(db), db) && old(db).pending <= db.pending
      ensures steps == [] ==> past == old(past) && db == old(db)
    {
      for i := 0 to |steps|
        invariant Valid() && old(past) <= past && old(history) <= history && own == old(own)
        invariant Later(old(db), db) && old(db).pending <= db.pending
        invariant i == 0 ==> past == old(past) && db == old(db)
      {
        if !steps[i].Sweep? && Enabled(db, steps[i]) {
          ghost var before := db;
          KeepsPending(e, db, steps[i]);
          db := Apply(e, db, steps[i]);
          Record(steps[i], false, before);
          LaterTrans(old(db), before, db);
        }
      }
    }

    /** The rows of `p`: the roots it is live in, unless a deletion of one of them is in flight. */
    method ClassifyRows(p: Piece) returns (live: set<RootKey>, inFlight: bool)
      ensures inFlight <==> !Settled(db, p)
      ensures !inFlight ==> forall r :: r in live <==> p in LiveSubs(db, r)
    {
      live, inFlight := {}, false;
      var all := set k | k in db.chain && db.chain[k].sub == p;
      var rows := all;
      while rows != {}
        invariant rows <= all
        invariant inFlight <==> exists k :: k in all - rows && Unremoved(db, k) && db.chain[k].rmHash.Some?
        invariant forall r :: r in live <==>
                    exists k :: k in all - rows && k.root == r && Unremoved(db, k) && db.chain[k].rmHash == None
      {
        var k :| k in rows;
        ghost var before := all - rows;
        rows := rows - {k};
        assert all - rows == before + {k};
        if db.chain[k].removed {
          continue;
        }
        if db.chain[k].rmHash.Some? {
          inFlight := true;
          continue;
        }
        live := live + {k.root};
      }
      assert all - rows == all;
    }

    method CountPiece(live: set<RootKey>, p: Piece, m: map<RootKey, set<Piece>>) returns (m': map<RootKey, set<Piece>>)
      ensures forall r :: Subs(m', r) == Subs(m, r) + (if r in live then {p} else {})
      ensures m'.Keys == m.Keys + live
    {
      m' := m;
      var todo := live;
      while todo != {}
        invariant todo <= live
        invariant forall r :: Subs(m', r) == Subs(m, r) + (if r in live - todo then {p} else {})
        invariant m'.Keys == m.Keys + (live - todo)
      {
        var r :| r in todo;
        m' := m'[r := Subs(m', r) + {p}];
        todo := todo - {r};
      }
    }

    method TakeTurn(w: Weather, b: Blob, m: map<RootKey, set<Piece>>) returns (m': map<RootKey, set<Piece>>)
      requires b in db.pending
      modifies this`db
      ensures db == Turn(old(db), w, b) && Took(old(db), db, w, b)
      ensures Counted(old(db), w, b, m, m')
      ensures (forall r :: r in m ==> m[r] != {}) ==> forall r :: r in m' ==> m'[r] != {}
    {
      m' := m;
      TurnTook(db, w, b);
      if w.fault(b) == BeforeCancel {
        return;
      }
      if Claimed(db, b) {
        db := db.(pending := db.pending - {b});
        return;
      }
      db := CancelEntry(db, b);
      var active := b in db.pipeline;
      if w.fault(b) == AfterCancel {
        return;
      }
      AfterCancelling(old(db), w, b);
      if b !in db.commp {
        if !active {
          db := Finalize(db, b, w.outcome(b));
        }
        return;
      }
      var p := db.commp[b];
      if HasLiveAdd(db, p) {
        return;
      }
      var live, inFlight := ClassifyRows(p);
      if inFlight {
        assert OnChain(db, p);
        return;
      }
      assert live == {} <==> !OnChain(db, p) by { LiveRootsAreOnChain(db, p, live); }
      if live == {} {
        if p !in db.refs || !active {
          db := Finalize(db, b, w.outcome(b));
        }
        return;
      }
      m' := CountPiece(live, p, m);
      assert forall r :: r in m' ==> m'[r] == Subs(m', r);
    }

    /** The turn of `b`, as a step of the history. */
    method TurnHere(w: Weather, b: Blob, m: map<RootKey, set<Piece>>, ghost turns: seq<State>, ghost listed: seq<Blob>)
      returns (m': map<RootKey, set<Piece>>)
      requires Valid() && b in db.pending && Current(m, db)
      requires |turns| < |listed| && listed[|turns|] == b && CountedBy(turns, listed, w, m)
      modifies this
      ensures Valid() && old(past) <= past && old(history) <= history && |past| == |old(past)| + TurnSteps(w, b)
      ensures db == Turn(old(db), w, b) && OwnTurn(past, old(own), own, w, b, |old(past)|)
      ensures CountedBy(turns + [old(db)], listed, w, m') && Current(m', db)
    {
      m' := TakeTurn(w, b, m);
      CountOneMore(turns, old(db), listed, w, m, m');
      CountIsCurrent(old(db), w, b, m, m');
      if w.fault(b) != BeforeCancel {
        Record(Sweep(b, TurnOutcome(w, b)), true, old(db));
        StaysCurrent(m', old(db), db);
      }
    }

    /** The turn of `b`, once others have done theirs. */
    method OneTurn(w: Weather, b: Blob, m: map<RootKey, set<Piece>>, others: seq<Step>,
                   ghost turns: seq<State>, ghost listed: seq<Blob>)
      returns (m': map<RootKey, set<Piece>>, ghost at: nat)
      requires Valid() && b in db.pending && Current(m, db)
      requires |turns| < |listed| && listed[|turns|] == b && CountedBy(turns, listed, w, m)
      modifies this
      ensures Valid() && old(past) <= past && old(history) <= history
      ensures |old(past)| <= at && |past| == at + TurnSteps(w, b)
      ensures others == [] ==> at == |old(past)|
      ensures OwnTurn(past, old(own), own, w, b, at)
      ensures CountedBy(turns + [history[at]], listed, w, m') && Current(m', db)
      ensures old(db).pending - {b} <= db.pending
    {
      Others(others);
      StaysCurrent(m, old(db), db);
      at := |past|;
      TurnKeepsOthersPending(db, w, b);
      m' := TurnHere(w, b, m, turns, listed);
    }

    /** The second loop: a root none of whose live sub-pieces is missing from `m` is removed. */
    method RetireRoots(w: Weather, m: map<RootKey, set<Piece>>, others: nat -> seq<Step>)
      returns (retired: set<RootKey>, ghost counted: map<RootKey, nat>, ghost removals: map<RootKey, nat>)
      requires Valid() && Current(m, db)
      modifies this
      ensures Valid() && old(past) <= past && old(history) <= history
      ensures Retirements(history, past, w, m, retired, counted, removals, |old(past)|) && counted.Keys == m.Keys
      ensures own == old(own) + removals.Values
    {
      retired, counted, removals := {}, map[], map[];
      var todo, gap := m.Keys, 0;
      while todo != {}
        invariant todo <= m.Keys && Valid() && Current(m, db) && old(past) <= past && old(history) <= history
        invariant Retirements(history, past, w, m, retired, counted, removals, |old(past)|)
        invariant counted.Keys == m.Keys - todo && own == old(own) + removals.Values
      {
        var r :| r in todo;
        assert m.Keys - todo + {r} == m.Keys - (todo - {r}) && r !in counted;
        retired, counted, removals := RetireNextRoot(
          w, m, r, others(gap), others(gap + 1), retired, counted, removals, |old(past)|, old(own));
        todo, gap := todo - {r}, gap + 2;
      }
    }

    method RetireNextRoot(w: Weather, m: map<RootKey, set<Piece>>, r: RootKey, first: seq<Step>, second: seq<Step>,
                          retired: set<RootKey>, ghost counted: map<RootKey, nat>, ghost removals: map<RootKey, nat>,
                          ghost from: nat, ghost before: set<nat>)
      returns (retired': set<RootKey>, ghost counted': map<RootKey, nat>, ghost removals': map<RootKey, nat>)
      requires Valid() && Current(m, db) && r in m && r !in counted && from <= |past|
      requires Retirements(history, past, w, m, retired, counted, removals, from) && own == before + removals.Values
      modifies this
      ensures Valid() && Current(m, db) && old(past) <= past && old(history) <= history
      ensures Retirements(history, past, w, m, retired', counted', removals', from) && own == before + removals'.Values
      ensures counted'.Keys == counted.Keys + {r}
    {
      var removed;
      ghost var at, n;
      removed, at, n := RetireRoot(w, m, r, first, second);
      RetireNext(old(history), old(past), history, past, w, m, retired, counted, removals, from, r, removed, at, n);
      retired', counted', removals' := retired, counted[r := at], removals;
      if removed {
        NewValue(removals, r, n, before);
        retired', removals' := retired + {r}, removals[r := n];
      }
    }

    /** One root of the second loop: count, compare, remove. */
    method RetireRoot(w: Weather, m: map<RootKey, set<Piece>>, r: RootKey, first: seq<Step>, second: seq<Step>)
      returns (removed: bool, ghost at: nat, ghost n: nat)
      requires Valid() && Current(m, db) && r in m
      modifies this
      ensures Valid() && Current(m, db) && old(past) <= past && old(history) <= history
      ensures |old(past)| <= at <= |past|
      ensures removed <==> !w.fails(r) && LiveSubs(history[at], r) <= m[r]
      ensures removed ==> RemovedAt(past, w, r, at, n) && own == old(own) + {n}
      ensures !removed ==> own == old(own)
    {
      removed := false;
      Others(first);
      StaysCurrent(m, old(db), db);
      at, n := |past|, 0;
      var total := |LiveSubs(db, r)|;
      SizesCompareSets(m, db, r);
      if |m[r]| < total {
        return;
      }
      ghost var now := db;
      Others(second);
      StaysCurrent(m, now, db);
      if w.fails(r) {
        return;
      }
      now, n := db, |past|;
      db := ChainApply(db, RemoveRoot(r, w.tx(r)));
      Record(Chain(RemoveRoot(r, w.tx(r))), true, now);
      StaysCurrent(m, now, db);
      removed := true;
    }

    /** The first loop: every listed blob has its turn. */
    method TakeTurns(w: Weather, listed: seq<Blob>, others: nat -> seq<Step>)
      returns (m: map<RootKey, set<Piece>>, ghost at: seq<nat>, ghost turns: seq<State>)
      requires Valid() && Distinct(listed) && forall i :: 0 <= i < |listed| ==> listed[i] in db.pending
      modifies this
      ensures Valid() && old(past) <= past && old(history) <= history && |at| == |listed|
      ensures TurnsTaken(past, history, w, listed, others, at, turns, |old(past)|)
      ensures |past| == NextTurn(w, listed, at, |old(past)|) && own == old(own) + OwnTurns(w, listed, at)
      ensures CountedBy(turns, listed, w, m) && Current(m, db)
    {
      m, at, turns := map[], [], [];
      for i := 0 to |listed|
        invariant Valid() && old(past) <= past && old(history) <= history && |at| == i
        invariant TurnsTaken(past, history, w, listed, others, at, turns, |old(past)|)
        invariant |past| == NextTurn(w, listed, at, |old(past)|) && own == old(own) + OwnTurns(w, listed, at)
        invariant CountedBy(turns, listed, w, m) && Current(m, db)
        invariant forall j :: i <= j < |listed| ==> listed[j] in db.pending
      {
        m, at, turns := TakeNextTurn(w, listed, i, others, m, at, turns, |old(past)|, old(own));
      }
    }

    method TakeNextTurn(w: Weather, listed: seq<Blob>, i: nat, others: nat -> seq<Step>, m: map<RootKey, set<Piece>>,
                        ghost at: seq<nat>, ghost turns: seq<State>, ghost from: nat, ghost before: set<nat>)
      returns (m': map<RootKey, set<Piece>>, ghost at': seq<nat>, ghost turns': seq<State>)
      requires Valid() && Distinct(listed) && i == |at| < |listed|
      requires TurnsTaken(past, history, w, listed, others, at, turns, from)
      requires |past| == NextTurn(w, listed, at, from) && own == before + OwnTurns(w, listed, at)
      requires CountedBy(turns, listed, w, m) && Current(m, db)
      requires forall j :: i <= j < |listed| ==> listed[j] in db.pending
      modifies this
      ensures Valid() && old(past) <= past && old(history) <= history && |at'| == i + 1
      ensures TurnsTaken(past, history, w, listed, others, at', turns', from)
      ensures |past| == NextTurn(w, listed, at', from) && own == before + OwnTurns(w, listed, at')
      ensures CountedBy(turns', listed, w, m') && Current(m', db)
      ensures forall j :: i < j < |listed| ==> listed[j] in db.pending
    {
      ghost var n;
      m', n := OneTurn(w, listed[i], m, others(i), turns, listed);
      at', turns' := at + [n], turns + [history[n]];
      TurnNext(old(past), old(history), past, history, w, listed, others, at, turns, from, n);
      OwnTurnsGrow(past, before, own, w, listed, at, n);
    }

    /** One pass of the sweep. */
    method ProcessPendingRemovals(w: Weather, listed: seq<Blob>, others: nat -> seq<Step>)
      returns (retired: set<RootKey>, ghost at: seq<nat>, ghost turns: seq<State>,
               ghost counted: map<RootKey, nat>, ghost removals: map<RootKey, nat>)
      requires Valid() && Distinct(listed) && forall b :: b in listed <==> b in db.pending
      modifies this
      ensures Valid() && old(past) <= past && old(history) <= history && |at| == |listed|
      ensures TurnsTaken(past, history, w, listed, others, at, turns, |old(past)|)
      ensures Retires(past, history, w, listed, turns, retired, counted, removals, NextTurn(w, listed, at, |old(past)|))
      ensures own == old(own) + OwnTurns(w, listed, at) + removals.Values
    {
      var m;
      m, at, turns := TakeTurns(w, listed, others);
      ghost var past0, history0 := past, history;
      retired, counted, removals := RetireRoots(w, m, (k: nat) => others(|listed| + k));
      TurnsKept(past0, history0, past, history, w, listed, others, at, turns, |old(past)|);
      RetiresByTurns(past, history, w, listed, turns, m, retired, counted, removals, |past0|);
    }
  }
}
