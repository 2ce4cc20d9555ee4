/**
  harmonytx: a transaction that travels in the context, so that nested calls
  join it, with work deferred until it commits and a retry of the whole
  transaction on a serialization failure.
 */
module Transactions {
  import opened Common
  import opened Sets
  import opened Collecting

  type Write(!new)
  type Callback(==, !new)
  type Reason(==, !new)

  datatype Error = Serialization | Other(reason: Reason)

  /** What one run of a body does: a nested Run whose error the body passes on or drops is a Join. */
  datatype Op = Exec(write: Write) | After(callback: Callback) | Fail(error: Error) | Join(body: Body, drops: bool)
  datatype Body = End | Then(op: Op, rest: Body)

  datatype Effect = Effect(writes: seq<Write>, callbacks: seq<Callback>, error: Option<Error>)

  /** `a` and then, unless it failed, `b`. */
  function Seq(a: Effect, b: Effect): Effect {
    if a.error.Some? then a else Effect(a.writes + b.writes, a.callbacks + b.callbacks, b.error)
  }

  function OpEffect(op: Op): Effect {
    match op
    case Exec(w) => Effect([w], [], None)
    case After(c) => Effect([], [c], None)
    case Fail(e) => Effect([], [], Some(e))
    case Join(body, drops) => var f := BodyEffect(body); if drops then f.(error := None) else f
  }

  function BodyEffect(b: Body): Effect {
    match b
    case End => Effect([], [], None)
    case Then(op, rest) => Seq(OpEffect(op), BodyEffect(rest))
  }

  // ------------------------------------------------- nesting changes nothing

  function Concat(a: Body, b: Body): Body {
    match a
    case End => b
    case Then(op, rest) => Then(op, Concat(rest, b))
  }

  /** The statements of `b` up to its failure, without it. */
  function UpToFailure(b: Body): Body {
    match b
    case End => End
    case Then(op, rest) =>
      if op.Fail? then End
      else if OpEffect(op).error.Some? then Then(op, End)
      else Then(op, UpToFailure(rest))
  }

  /** Every nested Run replaced by what it ran. */
  function Inlined(b: Body): Body {
    match b
    case End => End
    case Then(op, rest) =>
      if op.Join? then Concat(if op.drops then UpToFailure(Inlined(op.body)) else Inlined(op.body), Inlined(rest))
      else Then(op, Inlined(rest))
  }

  predicate Flat(b: Body) {
    match b
    case End => true
    case Then(op, rest) => !op.Join? && Flat(rest)
  }

  lemma {:induction false} SeqAssociates(a: Effect, b: Effect, c: Effect)
    ensures Seq(Seq(a, b), c) == Seq(a, Seq(b, c))
  {
  }

  lemma {:induction false} ConcatEffect(a: Body, b: Body)
    ensures BodyEffect(Concat(a, b)) == Seq(BodyEffect(a), BodyEffect(b))
    ensures Flat(a) && Flat(b) ==> Flat(Concat(a, b))
  {
    match a
    case End =>
    case Then(op, rest) =>
      ConcatEffect(rest, b);
      SeqAssociates(OpEffect(op), BodyEffect(rest), BodyEffect(b));
  }

  lemma {:induction false} UpToFailureEffect(b: Body)
    requires Flat(b)
    ensures Flat(UpToFailure(b)) && BodyEffect(UpToFailure(b)) == BodyEffect(b).(error := None)
  {
    match b
    case End =>
    case Then(op, rest) =>
      if !op.Fail? {
        UpToFailureEffect(rest);
      }
  }

  /** A nested Run has exactly the effect of its statements written in its place. */
  lemma {:induction false} JoiningIsInlining(b: Body)
    ensures Flat(Inlined(b)) && BodyEffect(Inlined(b)) == BodyEffect(b)
  {
    match b
    case End =>
    case Then(op, rest) =>
      JoiningIsInlining(rest);
      if op.Join? {
        JoiningIsInlining(op.body);
        UpToFailureEffect(Inlined(op.body));
        ConcatEffect(if op.drops then UpToFailure(Inlined(op.body)) else Inlined(op.body), Inlined(rest));
      }
  }

  // ------------------------------------------ which writes and callbacks it has

  function WriteOf(op: Op): Option<Write> {
    if op.Exec? then Some(op.write) else None
  }

  function CallbackOf(op: Op): Option<Callback> {
    if op.After? then Some(op.callback) else None
  }

  /** The first Fail statement of a list, or its end. */
  function FailureAt(l: seq<Op>): (n: nat)
    ensures n <= |l| && (n < |l| ==> l[n].Fail?) && forall i :: 0 <= i < n ==> !l[i].Fail?
  {
    if l == [] || l[0].Fail? then 0 else 1 + FailureAt(l[1..])
  }

  /** The statements of a body as a plain list; a nested Run whose error is dropped has those before its failure. */
  function Listing(b: Body): seq<Op> {
    match b
    case End => []
    case Then(op, rest) =>
      var first := if op.Join? then Listing(op.body) else [op];
      (if op.Join? && op.drops then first[..FailureAt(first)] else first) + Listing(rest)
  }

  /**
    The writes are those of the Exec statements before the first Fail, the
    callbacks those of the After statements before it, and the error is its.
   */
  ghost predicate Performs(l: seq<Op>, f: Effect) {
    var n := FailureAt(l);
    && Collects(l[..n], WriteOf, f.writes) && Collects(l[..n], CallbackOf, f.callbacks)
    && f.error == if n < |l| then Some(l[n].error) else None
  }

  lemma {:induction false} FailureConcat(a: seq<Op>, b: seq<Op>)
    ensures FailureAt(a + b) == if FailureAt(a) < |a| then FailureAt(a) else |a| + FailureAt(b)
  {
    var n := if FailureAt(a) < |a| then FailureAt(a) else |a| + FailureAt(b);
    assert n < |a + b| ==> (a + b)[n].Fail?;
    assert forall i :: 0 <= i < n ==> !(a + b)[i].Fail?;
  }

  lemma {:induction false} PerformsConcat(a: seq<Op>, b: seq<Op>, f: Effect, g: Effect)
    requires Performs(a, f) && Performs(b, g)
    ensures Performs(a + b, Seq(f, g))
  {
    FailureConcat(a, b);
    var m, n := FailureAt(a), FailureAt(b);
    if m < |a| {
      assert (a + b)[..m] == a[..m];
    } else {
      assert a[..m] == a && (a + b)[..m + n] == a + b[..n];
      CollectsConcat(a, b[..n], WriteOf, f.writes, g.writes);
      CollectsConcat(a, b[..n], CallbackOf, f.callbacks, g.callbacks);
    }
  }

  lemma {:induction false} DropsPerforms(l: seq<Op>, f: Effect)
    requires Performs(l, f)
    ensures Performs(l[..FailureAt(l)], f.(error := None))
  {
    var d := l[..FailureAt(l)];
    assert FailureAt(d) == |d| && d[..|d|] == d;
  }

  /** A body has exactly the writes, callbacks and error of its statements up to the first failure. */
  lemma {:induction false} BodyPerforms(b: Body)
    ensures Performs(Listing(b), BodyEffect(b))
  {
    match b
    case End =>
    case Then(op, rest) =>
      BodyPerforms(rest);
      if op.Join? {
        var l := Listing(op.body);
        BodyPerforms(op.body);
        DropsPerforms(l, BodyEffect(op.body));
        PerformsConcat(if op.drops then l[..FailureAt(l)] else l, Listing(rest), OpEffect(op), BodyEffect(rest));
      } else {
        OnePerforms(op);
        PerformsConcat([op], Listing(rest), OpEffect(op), BodyEffect(rest));
      }
  }

  lemma {:induction false} OnePerforms(op: Op)
    requires !op.Join?
    ensures Performs([op], OpEffect(op))
  {
    assert [op][..1] == [op];
    assert Rank([op], WriteOf, 1) == if op.Exec? then 1 else 0;
    assert Rank([op], CallbackOf, 1) == if op.After? then 1 else 0;
  }

  // ------------------------------------------------------------------ Run

  datatype CommitResult = CommitOk | CommitFails(error: Error)

  /** One attempt: what the body does this time, and what becomes of its commit. */
  datatype Attempt = NoBegin(error: Error) | Try(body: Body, commit: CommitResult)

  predicate Commits(a: Attempt) {
    a.Try? && BodyEffect(a.body).error == None && a.commit.CommitOk?
  }

  /** The attempt ends in a serialization failure, so there is another. */
  predicate Retried(a: Attempt) {
    match a
    case NoBegin(e) => e.Serialization?
    case Try(body, commit) =>
      if BodyEffect(body).error.Some? then BodyEffect(body).error.value.Serialization?
      else commit.CommitFails? && commit.error.Serialization?
  }

  /** The error of the last body that ran in the first `n` attempts, if it failed. */
  ghost function LastBodyError(attempts: seq<Attempt>, n: nat): Option<Error>
    requires n <= |attempts|
  {
    if n == 0 then None
    else if attempts[n - 1].Try? then BodyEffect(attempts[n - 1].body).error
    else LastBodyError(attempts, n - 1)
  }

  /** What a run that ends with attempt `n` returns: the body's error, even of an earlier attempt, before any other. */
  ghost predicate Reports(attempts: seq<Attempt>, n: nat, e: Error)
    requires n < |attempts|
  {
    if LastBodyError(attempts, n + 1).Some? then LastBodyError(attempts, n + 1) == Some(e)
    else match attempts[n]
         case NoBegin(x) => e == x
         case Try(_, commit) => commit == CommitFails(e)
  }

  datatype Event = Committed(writes: seq<Write>) | Ran(callback: Callback)

  /** `log` is `before` followed by each of the callbacks, once and in order. */
  ghost predicate RanAll(before: seq<Event>, log: seq<Event>, cs: seq<Callback>) {
    && |log| == |before| + |cs| && before <= log
    && forall i :: 0 <= i < |cs| ==> log[|before| + i] == Ran(cs[i])
  }

  datatype RunResult = Retrying | Failed(error: Error) | Done(errors: seq<Error>)

  /** state: the transaction a context carries. */
  class TxState {
    var writes: seq<Write>
    var afterCommit: seq<Callback>

    constructor ()
      ensures writes == [] && afterCommit == []
    {
      writes, afterCommit := [], [];
    }
  }

  class Db {
    var log: seq<Event>

    constructor ()
      ensures log == []
    {
      log := [];
    }

    /** AfterCommit: deferred inside a transaction, run at once outside. */
    method AfterCommit(ctx: TxState?, c: Callback, fails: Callback -> Option<Error>) returns (e: Option<Error>)
      modifies this, ctx
      ensures ctx != null ==>
                && ctx.afterCommit == old(ctx.afterCommit) + [c] && ctx.writes == old(ctx.writes)
                && log == old(log) && e == None
      ensures ctx == null ==> log == old(log) + [Ran(c)] && e == fails(c)
    {
      if ctx != null {
        ctx.afterCommit := ctx.afterCommit + [c];
        return None;
      }
      log := log + [Ran(c)];
      return fails(c);
    }

    /** Runs a body in the transaction `st`; every nested Run finds `st` in its context and joins it. */
    method Do(st: TxState, b: Body, fails: Callback -> Option<Error>) returns (e: Option<Error>)
      modifies this, st
      ensures log == old(log)
      ensures st.writes == old(st.writes) + BodyEffect(b).writes
      ensures st.afterCommit == old(st.afterCommit) + BodyEffect(b).callbacks
      ensures e == BodyEffect(b).error
      decreases b
    {
      match b
      case End => return None;
      case Then(op, rest) =>
        e := None;
        match op {
          case Exec(w) => st.writes := st.writes + [w];
          case After(c) => e := AfterCommit(st, c, fails);
          case Fail(x) => e := Some(x);
          case Join(body, drops) =>
            e := Do(st, body, fails);
            if drops {
              e := None;
            }
        }
        if e.Some? {
          return e;
        }
        e := Do(st, rest, fails);
    }

    /**
      Run outside a transaction. Only the attempt that commits leaves anything:
      its writes, then its callbacks, each once and in registration order, all
      of them even when some fail. A run that fails leaves nothing.
     */
    method Run(attempts: seq<Attempt>, fails: Callback -> Option<Error>) returns (r: RunResult, ghost last: nat)
      modifies this
      ensures last <= |attempts| && forall i :: 0 <= i < last ==> Retried(attempts[i])
      ensures r.Retrying? <==> last == |attempts|
      ensures last < |attempts| ==> !Retried(attempts[last]) && (r.Done? <==> Commits(attempts[last]))
      ensures !r.Done? ==> log == old(log)
      ensures r.Failed? ==> Reports(attempts, last, r.error)
      ensures r.Done? ==>
                var f := BodyEffect(attempts[last].body);
                && Performs(Listing(attempts[last].body), f)
                && RanAll(old(log) + [Committed(f.writes)], log, f.callbacks)
                && Collects(f.callbacks, fails, r.errors)
    {
      last := 0;
      var fErr: Option<Error> := None; // of the last attempt that ran the body
      for n := 0 to |attempts|
        invariant last == n && log == old(log) && fErr == LastBodyError(attempts, n)
        invariant forall i :: 0 <= i < n ==> Retried(attempts[i])
      {
        var a := attempts[n];
        if a.NoBegin? {
          if !a.error.Serialization? {
            return Failed(if fErr.Some? then fErr.value else a.error), n;
          }
        } else {
          var st := new TxState();
          fErr := Do(st, a.body, fails);
          if fErr.Some? {
            if !fErr.value.Serialization? {
              return Failed(fErr.value), n;
            }
          } else if a.commit.CommitFails? {
            if !a.commit.error.Serialization? {
              return Failed(a.commit.error), n;
            }
          } else {
            BodyPerforms(a.body);
            assert st.writes == BodyEffect(a.body).writes && st.afterCommit == BodyEffect(a.body).callbacks;
            log := log + [Committed(st.writes)];
            var errs := RunCallbacks(st.afterCommit, fails);
            return Done(errs), n;
          }
        }
        last := n + 1;
      }
      return Retrying, last;
    }

    method RunCallbacks(cs: seq<Callback>, fails: Callback -> Option<Error>) returns (errs: seq<Error>)
      modifies this
      ensures RanAll(old(log), log, cs) && Collects(cs, fails, errs)
    {
      errs := [];
      for i := 0 to |cs|
        invariant RanAll(old(log), log, cs[..i]) && Collects(cs[..i], fails, errs)
      {
        PrefixGrows(cs, i);
        log := log + [Ran(cs[i])];
        var e := fails(cs[i]);
        CollectsConcat(cs[..i], [cs[i]], fails, errs, if e.Some? then [e.value] else []);
        if e.Some? {
          errs := errs + [e.value];
        }
      }
      assert cs[..|cs|] == cs;
    }
  }
}
