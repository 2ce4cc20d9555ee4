/**
  Storing an aggregate on the pipeline rows of its pieces, the fold that
  matches loaded rows to aggregated pieces, and reading an aggregate back.
 */
module Aggregates {
  import opened Common
  import opened Sets
  import opened Pipeline
  import opened Lifecycle
  import opened Stages

  // -------------------------------------------------- what a fold amounts to

  /** The pieces of `made`, in order. */
  ghost function AllLinks(made: seq<Aggregate>): seq<Piece> {
    if made == [] then [] else AllLinks(made[..|made| - 1]) + Links(made[|made| - 1])
  }

  /** The rows the fold loads: hashed and not yet aggregated. */
  predicate Loadable(t: Table, b: Blob) {
    b in t && t[b].commp.Some? && t[b].slot == None
  }

  /** The piece of each loaded row, in load order. */
  function LoadedPieces(t: Table, order: seq<Blob>): seq<Piece>
    requires forall i :: 0 <= i < |order| ==> Loadable(t, order[i])
  {
    seq(|order|, i requires 0 <= i < |order| && Loadable(t, order[i]) => t[order[i]].commp.value)
  }

  /** `plan[k]` names the rows of aggregate `k`; each is foldable once those before it are folded. */
  ghost predicate Planned(t: Table, made: seq<Aggregate>, plan: seq<seq<Blob>>)
    ensures Planned(t, made, plan) ==> |made| == |plan|
    decreases |made|, 0
  {
    if made == [] then plan == []
    else
      var n := |made| - 1;
      && |plan| == n + 1
      && Planned(t, made[..n], plan[..n])
      && Foldable(FoldedAll(t, made[..n], plan[..n]), made[n], plan[n])
  }

  ghost function FoldedAll(t: Table, made: seq<Aggregate>, plan: seq<seq<Blob>>): (r: Table)
    requires Planned(t, made, plan)
    ensures r.Keys == t.Keys
    decreases |made|, 1
  {
    if made == [] then t
    else
      var n := |made| - 1;
      Folded(FoldedAll(t, made[..n], plan[..n]), made[n], plan[n], |plan[n]|)
  }

  /** Each position of each aggregate is on a row with its piece that was unfolded before. */
  lemma {:induction false} PlanMatches(t: Table, made: seq<Aggregate>, plan: seq<seq<Blob>>, k: nat, i: nat)
    requires Planned(t, made, plan) && k < |made| && i < |plan[k]|
    ensures i < |made[k].pieces| && Fits(t, made[k], i, plan[k][i])
    ensures FoldedAll(t, made, plan)[plan[k][i]] == t[plan[k][i]].(slot := Some(SlotAt(made[k], i)))
    decreases |made|
  {
    var n := |made| - 1;
    var before := FoldedAll(t, made[..n], plan[..n]);
    if k < n {
      PlanMatches(t, made[..n], plan[..n], k, i);
      forall j | 0 <= j < |plan[n]| ensures plan[n][j] != plan[k][i] {
        assert Fits(before, made[n], j, plan[n][j]);
      }
    } else {
      assert Fits(before, made[n], i, plan[n][i]);
      PlanOnlyFills(t, made[..n], plan[..n], plan[n][i]);
    }
  }

  /** A row the plan does not name is unchanged; one it names was unfolded and only gains its slot. */
  lemma {:induction false} PlanOnlyFills(t: Table, made: seq<Aggregate>, plan: seq<seq<Blob>>, b: Blob)
    requires Planned(t, made, plan) && b in t
    ensures FoldedAll(t, made, plan)[b] == t[b].(slot := FoldedAll(t, made, plan)[b].slot)
    ensures FoldedAll(t, made, plan)[b].slot == None ==> t[b].slot == None
    ensures (forall k :: 0 <= k < |plan| ==> b !in plan[k]) ==> FoldedAll(t, made, plan)[b] == t[b]
    decreases |made|
  {
    if made != [] {
      var n := |made| - 1;
      PlanOnlyFills(t, made[..n], plan[..n], b);
      if i :| 0 <= i < |plan[n]| && plan[n][i] == b {
        assert Fits(FoldedAll(t, made[..n], plan[..n]), made[n], i, b);
      }
      if forall k :: 0 <= k < |plan| ==> b !in plan[k] {
        assert forall k :: 0 <= k < n ==> plan[..n][k] == plan[k];
      }
    }
  }

  // --------------------------------------------------------- storeAggregate

  datatype StoreError = LengthMismatch | DuplicateBlob(first: nat, second: nat) | ShortCount(matched: nat)

  /** The fold's transaction: its view of pdp_blob_pipeline. */
  class FoldTx {
    var rows: Table

    constructor (t: Table)
      ensures rows == t
    {
      rows := t;
    }

    /**
      Marks the rows of `digests` with their places in `a`. It succeeds exactly
      when each piece has its own unfolded row; a short count leaves a partial
      update for the caller to roll back.
     */
    method StoreAggregate(a: Aggregate, digests: seq<Blob>) returns (r: Result<(), StoreError>)
      modifies this
      ensures r.Ok? <==> Foldable(old(rows), a, digests)
      ensures r.Ok? ==> rows == Folded(old(rows), a, digests, |digests|)
      ensures r.Err? ==> (r.error.LengthMismatch? <==> |digests| != |a.pieces|)
      ensures r.Err? && |digests| == |a.pieces| ==> (r.error.DuplicateBlob? <==> !Distinct(digests))
    {
      if |digests| != |a.pieces| {
        return Err(LengthMismatch);
      }
      var indexed := IndexDigests(digests);
      if indexed.Err? {
        return Err(indexed.error);
      }
      var matched := Matched(rows, a, indexed.value);
      rows := Updated(rows, a, indexed.value);
      MatchedAll(old(rows), a, digests, indexed.value);
      if |matched| != |a.pieces| {
        return Err(ShortCount(|matched|));
      }
      UpdatedIsFolded(old(rows), a, digests, indexed.value);
      return Ok(());
    }

    /** Matches every aggregate to queued rows and stores it, in order. */
    method StoreAll(made: seq<Aggregate>, queues: Queues) returns (error: Option<FoldError>, ghost plan: seq<seq<Blob>>)
      requires QueuesOf(rows, queues)
      modifies this
      ensures error == None <==> Enough(queues, AllLinks(made))
      ensures error == None ==> Planned(old(rows), made, plan) && rows == FoldedAll(old(rows), made, plan)
      ensures error.Some? ==> error.value.NoLoadedRow?
    {
      var q := queues;
      plan := [];
      for k := 0 to |made|
        invariant FoldedSoFar(old(rows), made[..k], plan, rows, queues, q)
      {
        var a := made[k];
        PrefixGrows(made, k);
        var digests, q' := MatchPieces(rows, a, q);
        if digests == None {
          RunsOut(made, k, queues, q);
          return Some(NoLoadedRow(a.root)), plan;
        }
        FoldNext(old(rows), made[..k], plan, rows, queues, q, a, digests.value, q');
        var stored := StoreAggregate(a, digests.value);
        assert stored.Ok?; // its error return is never taken
        plan, q := plan + [digests.value], q';
      }
      WholePrefix(made);
      PoppedAll(queues, AllLinks(made), q);
      return None, plan;
    }
  }

  /** `index` gives the position of each of `digests`. */
  ghost predicate Indexes(index: map<Blob, nat>, digests: seq<Blob>) {
    && (forall b :: b in index <==> b in digests)
    && (forall b :: b in index ==> index[b] < |digests| && digests[index[b]] == b)
  }

  method IndexDigests(digests: seq<Blob>) returns (r: Result<map<Blob, nat>, StoreError>)
    ensures r.Ok? <==> Distinct(digests)
    ensures r.Ok? ==> Indexes(r.value, digests)
    ensures r.Err? ==> r.error.DuplicateBlob?
  {
    var index: map<Blob, nat> := map[];
    for i := 0 to |digests|
      invariant Indexes(index, digests[..i])
      invariant Distinct(digests[..i])
    {
      var d := digests[i];
      if d in index {
        return Err(DuplicateBlob(index[d], i));
      }
      index := index[d := i];
      assert digests[..i + 1] == digests[..i] + [d];
    }
    assert digests[..|digests|] == digests;
    return Ok(index);
  }

  /** The rows the UPDATE matches. */
  function Matched(t: Table, a: Aggregate, index: map<Blob, nat>): set<Blob>
    requires forall b :: b in index ==> index[b] < |a.pieces|
  {
    set b | b in t && b in index && Fits(t, a, index[b], b)
  }

  /** The UPDATE: every matched row takes its slot. */
  function Updated(t: Table, a: Aggregate, index: map<Blob, nat>): Table
    requires forall b :: b in index ==> index[b] < |a.pieces|
  {
    map b | b in t ::
      if b in index && Fits(t, a, index[b], b) then t[b].(slot := Some(SlotAt(a, index[b]))) else t[b]
  }

  lemma {:induction false} UpdatedIsFolded(t: Table, a: Aggregate, digests: seq<Blob>, index: map<Blob, nat>)
    requires Foldable(t, a, digests) && Indexes(index, digests)
    ensures Updated(t, a, index) == Folded(t, a, digests, |digests|)
  {
  }

  /** The count is short exactly when some piece has no row of its own to take it. */
  lemma {:induction false} MatchedAll(t: Table, a: Aggregate, digests: seq<Blob>, index: map<Blob, nat>)
    requires |digests| == |a.pieces| && Distinct(digests) && Indexes(index, digests)
    ensures |Matched(t, a, index)| == |a.pieces| <==> Foldable(t, a, digests)
  {
    var matched, all := Matched(t, a, index), set b | b in digests;
    DistinctSize(digests);
    SubsetSize(matched, all);
    if |matched| == |digests| {
      SameSize(matched, all);
      forall i | 0 <= i < |digests| ensures Fits(t, a, i, digests[i]) {
        assert digests[i] in matched && index[digests[i]] == i;
      }
    }
    if Foldable(t, a, digests) {
      forall b | b in all ensures b in matched {
        assert Fits(t, a, index[b], digests[index[b]]);
      }
      assert matched == all;
    }
  }

  // ------------------------------------------------------------- the fold

  type Queues = map<Piece, seq<Blob>>

  function Queue(q: Queues, p: Piece): seq<Blob> {
    if p in q then q[p] else []
  }

  /** Each queue holds distinct unfolded rows of its own piece. */
  ghost predicate QueuesOf(t: Table, q: Queues) {
    forall p :: QueueOf(t, p, Queue(q, p))
  }

  ghost predicate QueueOf(t: Table, p: Piece, queue: seq<Blob>) {
    Distinct(queue) && forall b :: b in queue ==> b in t && t[b].commp == Some(p) && t[b].slot == None
  }

  /** The queues hold rows of `seen` only. */
  ghost predicate Within(q: Queues, seen: seq<Blob>) {
    forall p :: forall b :: b in Queue(q, p) ==> b in seen
  }

  /** The queues hold no row of `ds`. */
  ghost predicate Apart(q: Queues, ds: seq<Blob>) {
    forall p :: forall b :: b in Queue(q, p) ==> b !in ds
  }

  lemma {:induction false} PushKeepsQueues(t: Table, q: Queues, seen: seq<Blob>, p: Piece, b: Blob)
    requires QueuesOf(t, q) && Within(q, seen) && b !in seen
    requires Loadable(t, b) && t[b].commp == Some(p)
    ensures QueuesOf(t, q[p := Queue(q, p) + [b]]) && Within(q[p := Queue(q, p) + [b]], seen + [b])
  {
    var q' := q[p := Queue(q, p) + [b]];
    forall x ensures QueueOf(t, x, Queue(q', x)) {
      assert QueueOf(t, x, Queue(q, x));
    }
    forall x, c | c in Queue(q', x) ensures c in seen + [b] {
      assert c in Queue(q, x) || c == b;
    }
  }

  /** A popped row fits its piece, was not taken before, and is in no queue any more. */
  lemma {:induction false} PopKeepsQueues(t: Table, q: Queues, ds: seq<Blob>, p: Piece)
    requires QueuesOf(t, q) && Apart(q, ds) && Queue(q, p) != []
    ensures var b, q' := Queue(q, p)[0], q[p := Queue(q, p)[1..]];
            && QueuesOf(t, q') && Apart(q', ds + [b])
            && b !in ds && Loadable(t, b) && t[b].commp == Some(p)
  {
    var b, q' := Queue(q, p)[0], q[p := Queue(q, p)[1..]];
    assert QueueOf(t, p, Queue(q, p)) && b in Queue(q, p);
    forall x ensures QueueOf(t, x, Queue(q', x)) {
      assert QueueOf(t, x, Queue(q, x));
    }
    forall x, c | c in Queue(q', x) ensures c !in ds + [b] {
      assert QueueOf(t, x, Queue(q, x)) && c in Queue(q, x);
    }
  }

  ghost predicate Counts(q: Queues, pieces: seq<Piece>) {
    forall p :: |Queue(q, p)| == multiset(pieces)[p]
  }

  ghost predicate AllLoadable(t: Table, order: seq<Blob>) {
    forall i :: 0 <= i < |order| ==> Loadable(t, order[i])
  }

  /** `q` queues exactly the rows of `seen`. */
  ghost predicate Queued(t: Table, seen: seq<Blob>, q: Queues) {
    AllLoadable(t, seen) && QueuesOf(t, q) && Within(q, seen) && Counts(q, LoadedPieces(t, seen))
  }

  lemma {:induction false} QueueNext(t: Table, seen: seq<Blob>, q: Queues, b: Blob)
    requires Queued(t, seen, q) && Loadable(t, b) && b !in seen
    ensures var p := t[b].commp.value; Queued(t, seen + [b], q[p := Queue(q, p) + [b]])
  {
    var p := t[b].commp.value;
    assert LoadedPieces(t, seen + [b]) == LoadedPieces(t, seen) + [p];
    PushKeepsQueues(t, q, seen, p, b);
  }

  method BuildQueues(t: Table, order: seq<Blob>) returns (q: Queues)
    requires Distinct(order) && AllLoadable(t, order)
    ensures Queued(t, order, q)
  {
    q := map[];
    for n := 0 to |order|
      invariant Queued(t, order[..n], q)
    {
      PrefixGrows(order, n);
      QueueNext(t, order[..n], q, order[n]);
      var p := t[order[n]].commp.value;
      q := q[p := Queue(q, p) + [order[n]]];
    }
    WholePrefix(order);
  }

  /** `q'` is `q` with one row popped for each of `links`. */
  ghost predicate Popped(q: Queues, links: seq<Piece>, q': Queues) {
    forall p :: |Queue(q', p)| + multiset(links)[p] == |Queue(q, p)|
  }

  lemma {:induction false} PopNext(q: Queues, links: seq<Piece>, n: nat, q': Queues)
    requires n < |links| && Popped(q, links[..n], q')
    ensures Queue(q', links[n]) != [] ==> Popped(q, links[..n + 1], q'[links[n] := Queue(q', links[n])[1..]])
    ensures Queue(q', links[n]) == [] ==> multiset(links)[links[n]] > |Queue(q, links[n])|
  {
    var link := links[n];
    assert links[..n + 1] == links[..n] + [link];
    assert |Queue(q', link)| + multiset(links[..n])[link] == |Queue(q, link)|;
    PrefixCount(links, n + 1, link);
  }

  lemma {:induction false} PoppedAll(q: Queues, links: seq<Piece>, q': Queues)
    requires Popped(q, links, q')
    ensures Enough(q, links)
  {
  }

  /** `ds` are distinct rows that fit the first pieces of `a`. */
  ghost predicate FitsFirst(t: Table, a: Aggregate, ds: seq<Blob>) {
    && |ds| <= |a.pieces| && Distinct(ds)
    && forall j :: 0 <= j < |ds| ==> Fits(t, a, j, ds[j])
  }

  lemma {:induction false} FitsNext(t: Table, a: Aggregate, ds: seq<Blob>, b: Blob)
    requires FitsFirst(t, a, ds) && |ds| < |a.pieces| && b !in ds && Fits(t, a, |ds|, b)
    ensures FitsFirst(t, a, ds + [b])
  {
  }

  /** `ds` are the rows popped for the first pieces of `a`, and `q'` what is left of `q`. */
  ghost predicate Taken(t: Table, a: Aggregate, q: Queues, ds: seq<Blob>, q': Queues) {
    && FitsFirst(t, a, ds) && QueuesOf(t, q') && Apart(q', ds)
    && Popped(q, Links(a)[..|ds|], q')
  }

  lemma {:induction false} TakeNext(t: Table, a: Aggregate, q: Queues, ds: seq<Blob>, q': Queues)
    requires Taken(t, a, q, ds, q') && |ds| < |a.pieces|
    requires Queue(q', a.pieces[|ds|].link) != []
    ensures var link := a.pieces[|ds|].link;
            Taken(t, a, q, ds + [Queue(q', link)[0]], q'[link := Queue(q', link)[1..]])
  {
    var link := a.pieces[|ds|].link;
    PopNext(q, Links(a), |ds|, q');
    PopKeepsQueues(t, q', ds, link);
    FitsNext(t, a, ds, Queue(q', link)[0]);
  }

  lemma {:induction false} NoneLeft(t: Table, a: Aggregate, q: Queues, ds: seq<Blob>, q': Queues)
    requires Taken(t, a, q, ds, q') && |ds| < |a.pieces|
    requires Queue(q', a.pieces[|ds|].link) == []
    ensures !Enough(q, Links(a))
  {
    PopNext(q, Links(a), |ds|, q');
  }

  /** Pops a row for each piece of `a`, in order, or reports that a piece has no loaded row left. */
  method MatchPieces(ghost t: Table, a: Aggregate, q: Queues) returns (digests: Option<seq<Blob>>, q': Queues)
    requires QueuesOf(t, q)
    ensures digests.Some? <==> Enough(q, Links(a))
    ensures digests.Some? ==>
              && Foldable(t, a, digests.value) && QueuesOf(t, q')
              && Popped(q, Links(a), q') && Apart(q', digests.value)
  {
    var ds: seq<Blob> := [];
    q' := q;
    for i := 0 to |a.pieces|
      invariant |ds| == i && Taken(t, a, q, ds, q')
    {
      var link := a.pieces[i].link;
      var queue := Queue(q', link);
      if |queue| == 0 {
        NoneLeft(t, a, q, ds, q');
        return None, q';
      }
      TakeNext(t, a, q, ds, q');
      ds, q' := ds + [queue[0]], q'[link := queue[1..]];
    }
    assert Links(a)[..|a.pieces|] == Links(a);
    PoppedAll(q, Links(a), q');
    digests := Some(ds);
  }

  lemma {:induction false} PrefixCount<T>(s: seq<T>, n: nat, x: T)
    requires n <= |s|
    ensures multiset(s[..n])[x] <= multiset(s)[x]
  {
    assert s == s[..n] + s[n..];
  }

  lemma {:induction false} StoreKeepsQueues(t: Table, a: Aggregate, ds: seq<Blob>, q: Queues)
    requires Foldable(t, a, ds) && QueuesOf(t, q) && Apart(q, ds)
    ensures QueuesOf(Folded(t, a, ds, |ds|), q)
  {
  }

  /** The first aggregates are folded into `rows` as planned, and `q` is what is left of the queues. */
  ghost predicate FoldedSoFar(t: Table, made: seq<Aggregate>, plan: seq<seq<Blob>>, rows: Table, q0: Queues,
                              q: Queues) {
    && Planned(t, made, plan) && rows == FoldedAll(t, made, plan)
    && QueuesOf(rows, q) && Popped(q0, AllLinks(made), q)
  }

  lemma {:induction false} FoldNext(t: Table, made: seq<Aggregate>, plan: seq<seq<Blob>>, rows: Table,
                                    q0: Queues, q: Queues, a: Aggregate, ds: seq<Blob>, q': Queues)
    requires FoldedSoFar(t, made, plan, rows, q0, q) && Foldable(rows, a, ds)
    requires QueuesOf(rows, q') && Popped(q, Links(a), q') && Apart(q', ds)
    ensures FoldedSoFar(t, made + [a], plan + [ds], Folded(rows, a, ds, |ds|), q0, q')
  {
    assert (made + [a])[..|made|] == made && (plan + [ds])[..|plan|] == plan;
    StoreKeepsQueues(rows, a, ds, q');
    PopMore(q0, AllLinks(made), q, Links(a), q');
  }

  lemma {:induction false} PopMore(q0: Queues, done: seq<Piece>, q: Queues, links: seq<Piece>, q': Queues)
    requires Popped(q0, done, q) && Popped(q, links, q')
    ensures Popped(q0, done + links, q')
  {
  }

  /** The queues serve every aggregate exactly when no piece is asked for more often than it was queued. */
  ghost predicate Enough(q: Queues, links: seq<Piece>) {
    forall p :: multiset(links)[p] <= |Queue(q, p)|
  }

  /** An aggregate the remaining queues cannot serve is one the whole batch cannot be served for. */
  lemma {:induction false} RunsOut(made: seq<Aggregate>, k: nat, q0: Queues, q: Queues)
    requires k < |made| && Popped(q0, AllLinks(made[..k]), q) && !Enough(q, Links(made[k]))
    ensures !Enough(q0, AllLinks(made))
  {
    var p :| multiset(Links(made[k]))[p] > |Queue(q, p)|;
    assert |Queue(q, p)| + multiset(AllLinks(made[..k]))[p] == |Queue(q0, p)|;
    AllLinksGrow(made, k);
    assert multiset(AllLinks(made[..k]) + Links(made[k]))[p] > |Queue(q0, p)|;
    assert multiset(AllLinks(made))[p] > |Queue(q0, p)|;
  }

  lemma {:induction false} AllLinksGrow(made: seq<Aggregate>, n: nat)
    requires n < |made|
    ensures AllLinks(made[..n + 1]) == AllLinks(made[..n]) + Links(made[n])
    ensures multiset(AllLinks(made[..n + 1])) <= multiset(AllLinks(made))
    decreases |made| - n
  {
    assert made[..n + 1][..n] == made[..n];
    if n + 1 < |made| {
      AllLinksGrow(made, n + 1);
    } else {
      assert made[..n + 1] == made;
    }
  }

  datatype FoldError = AppendFailed | NoLoadedRow(root: Root)
  datatype FoldResult = Buffered | FoldedInto(roots: seq<Root>) | Failed(error: FoldError)

  function RootsOf(made: seq<Aggregate>): seq<Root> {
    seq(|made|, i requires 0 <= i < |made| => made[i].root)
  }

  class AggregateTask {
    var table: Table

    constructor (t: Table)
      ensures table == t
    {
      table := t;
    }

    /**
      The fold over the loaded rows `order`, for any result of Append. It folds
      exactly when the aggregates ask for no piece more often than it was
      loaded, giving every position its own row and marking no other row;
      otherwise it changes nothing. storeAggregate never fails in it.
     */
    method Fold(order: seq<Blob>, appended: Option<seq<Aggregate>>) returns (r: FoldResult, ghost plan: seq<seq<Blob>>)
      requires Distinct(order) && forall b :: b in order <==> Loadable(table, b)
      modifies this
      ensures r.FoldedInto? <==>
                && order != [] && appended.Some? && appended.value != []
                && multiset(AllLinks(appended.value)) <= multiset(LoadedPieces(old(table), order))
      ensures r.FoldedInto? ==>
                && Planned(old(table), appended.value, plan)
                && table == FoldedAll(old(table), appended.value, plan)
                && r.roots == RootsOf(appended.value)
      ensures r.Buffered? <==> order == [] || appended == Some([])
      ensures r.Failed? ==> (r.error.AppendFailed? <==> appended == None)
      ensures !r.FoldedInto? ==> table == old(table)
    {
      plan := [];
      if order == [] {
        return Buffered, [];
      }
      var q := BuildQueues(table, order);
      if appended == None {
        return Failed(AppendFailed), [];
      }
      if |appended.value| == 0 {
        return Buffered, [];
      }
      var tx := new FoldTx(table);
      var error;
      error, plan := tx.StoreAll(appended.value, q);
      assert Enough(q, AllLinks(appended.value)) <==>
        multiset(AllLinks(appended.value)) <= multiset(LoadedPieces(old(table), order));
      if error.Some? {
        return Failed(error.value), [];
      }
      table := tx.rows;
      return FoldedInto(RootsOf(appended.value)), plan;
    }
  }

  // ------------------------------------------ the fold as lifecycle steps

  ghost function FoldSteps(made: seq<Aggregate>, plan: seq<seq<Blob>>): seq<Step>
    requires |made| == |plan|
  {
    seq(|made|, i requires 0 <= i < |made| => Batch(Fold(made[i], plan[i])))
  }

  lemma {:induction false} FoldStepsGrow(made: seq<Aggregate>, plan: seq<seq<Blob>>)
    requires |made| == |plan| > 0
    ensures var n := |made| - 1;
            FoldSteps(made, plan) == FoldSteps(made[..n], plan[..n]) + [Batch(Fold(made[n], plan[n]))]
  {
  }

  /** The history of the roots once `made` is folded. */
  ghost function StoredAll(b: Batches, made: seq<Aggregate>): Batches {
    if made == [] then b
    else
      var b' := StoredAll(b, made[..|made| - 1]);
      var a := made[|made| - 1];
      Remembered(b', a)
  }

  lemma {:induction false} FoldStep(e: Env, s: State, a: Aggregate, ds: seq<Blob>)
    requires Foldable(s.pipeline, a, ds) && |a.pieces| > 0
    ensures Enabled(s, Batch(Fold(a, ds)))
    ensures Apply(e, s, Batch(Fold(a, ds))) ==
            s.(pipeline := Folded(s.pipeline, a, ds, |ds|),
               batches := Remembered(s.batches, a))
  {
  }

  /** A planned fold is a run of the lifecycle, whatever roots its aggregates have. */
  lemma {:induction false} FoldIsRun(e: Env, s: State, made: seq<Aggregate>, plan: seq<seq<Blob>>)
    requires Planned(s.pipeline, made, plan) && forall a :: a in made ==> |a.pieces| > 0
    ensures IsRun(e, s, FoldSteps(made, plan))
    ensures After(e, s, FoldSteps(made, plan)) ==
            s.(pipeline := FoldedAll(s.pipeline, made, plan), batches := StoredAll(s.batches, made))
    decreases |made|
  {
    if made != [] {
      var n := |made| - 1;
      var a, ds := made[n], plan[n];
      assert a in made;
      var steps := FoldSteps(made[..n], plan[..n]);
      FoldIsRun(e, s, made[..n], plan[..n]);
      FoldStep(e, After(e, s, steps), a, ds);
      Append(e, s, steps, Batch(Fold(a, ds)));
      FoldStepsGrow(made, plan);
    }
  }
}
