/**
  Reading a task history that is never pruned, incrementally: each read covers
  only rows ending after the previous successful read started, less an overlap.
  A row is missed exactly when a successful read started that long after its
  end and queried its task before it was visible.
 */
module TaskHistory {
  import opened Common

  type Name(==, !new)

  /** A success of this host's, and when its insert becomes visible. Times are seconds. */
  datatype Row = Row(name: Name, end: int, visible: int)

  const OVERLAP := 600

  ghost predicate SeenBy(h: iset<Row>, name: Name, at: int, r: Row) {
    r in h && r.name == name && r.visible <= at
  }

  predicate After(end: int, since: Option<int>) {
    since == None || end > since.value
  }

  /** The single-row query at time `at`: the latest end after `since`, if any row ends after it. */
  ghost predicate Answers(h: iset<Row>, name: Name, at: int, since: Option<int>, top: Option<int>) {
    if top == None then forall r :: SeenBy(h, name, at, r) ==> !After(r.end, since)
    else
      && (exists r :: SeenBy(h, name, at, r) && r.end == top.value && After(r.end, since))
      && (forall r :: SeenBy(h, name, at, r) && After(r.end, since) ==> r.end <= top.value)
  }

  function Value(last: map<Name, int>, name: Name): Option<int> {
    if name in last then Some(last[name]) else None
  }

  function Later(last: Option<int>, top: Option<int>): Option<int> {
    if top.Some? && (last == None || top.value > last.value) then top else last
  }

  // ---------------------------------------------------- the queries of a task

  /** A query that was answered: when, from where, and the read it was part of. */
  datatype Past = Past(at: int, since: Option<int>, started: int, ok: bool)

  /** Where the query after the first `k` starts: at the latest successful read, less the overlap. */
  ghost function SinceAt(qs: seq<Past>, k: nat): Option<int>
    requires k <= |qs|
  {
    if k == 0 then None
    else if qs[k - 1].ok then Some(qs[k - 1].started - OVERLAP)
    else SinceAt(qs, k - 1)
  }

  /** The query starts where the reads before it left off, in a read that began after the one before. */
  ghost predicate InTurn(qs: seq<Past>, k: nat)
    requires k < |qs|
  {
    && qs[k].since == SinceAt(qs, k) && qs[k].started <= qs[k].at
    && (k > 0 ==> qs[k - 1].at <= qs[k].started)
  }

  ghost predicate Coherent(qs: seq<Past>) {
    forall k: nat :: k < |qs| ==> InTurn(qs, k)
  }

  lemma {:induction false} InOrder(qs: seq<Past>, j: nat, k: nat)
    requires Coherent(qs) && j < k < |qs|
    ensures qs[j].at <= qs[k].started <= qs[k].at
    decreases k
  {
    assert InTurn(qs, k);
    if j < k - 1 { InOrder(qs, j, k - 1); }
  }

  /** Some query of `qs` covers the row. */
  ghost predicate Caught(qs: seq<Past>, r: Row) {
    exists k :: 0 <= k < |qs| && r.visible <= qs[k].at && After(r.end, qs[k].since)
  }

  /** A successful read started at least the overlap after the row's end, and queried before it was visible. */
  ghost predicate Missed(qs: seq<Past>, r: Row) {
    exists j :: 0 <= j < |qs| && qs[j].ok && r.end + 600 <= qs[j].started && qs[j].at < r.visible
  }

  /** Where a query starts is the latest successful read before it, and no earlier one started later. */
  lemma {:induction false} SinceIsLatest(qs: seq<Past>, k: nat)
    requires Coherent(qs) && k <= |qs|
    ensures SinceAt(qs, k).Some? ==>
              exists j :: 0 <= j < k && qs[j].ok && SinceAt(qs, k) == Some(qs[j].started - OVERLAP)
    ensures forall j :: 0 <= j < k && qs[j].ok ==>
              SinceAt(qs, k).Some? && qs[j].started - OVERLAP <= SinceAt(qs, k).value
  {
    if k > 0 {
      SinceIsLatest(qs, k - 1);
      forall j | 0 <= j < k - 1 ensures qs[j].started <= qs[k - 1].started {
        assert InTurn(qs, j);
        InOrder(qs, j, k - 1);
      }
    }
  }

  /** The first query that can see the row decides. */
  lemma {:induction false} FirstToSee(qs: seq<Past>, r: Row, k: nat) returns (first: nat)
    requires k < |qs| && r.visible <= qs[k].at
    ensures first <= k && r.visible <= qs[first].at && forall j :: 0 <= j < first ==> qs[j].at < r.visible
  {
    first := 0;
    while qs[first].at < r.visible
      invariant first <= k && forall j :: 0 <= j < first ==> qs[j].at < r.visible
      decreases k - first
    {
      first := first + 1;
    }
  }

  /** A row that is visible at the last query was caught by some query if and only if it was not missed. */
  lemma {:induction false} CaughtIff(qs: seq<Past>, r: Row)
    requires Coherent(qs) && qs != [] && r.visible <= qs[|qs| - 1].at
    ensures Caught(qs, r) <==> !Missed(qs, r)
  {
    if j :| 0 <= j < |qs| && qs[j].ok && r.end + 600 <= qs[j].started && qs[j].at < r.visible {
      forall k | 0 <= k < |qs| && r.visible <= qs[k].at ensures !After(r.end, qs[k].since) {
        if k < j { InOrder(qs, k, j); }
        SinceIsLatest(qs, k);
        assert InTurn(qs, k);
      }
    } else {
      var first := FirstToSee(qs, r, |qs| - 1);
      SinceIsLatest(qs, first);
      assert InTurn(qs, first);
    }
  }

  /** `top` is the latest end of the rows of `name` that `qs` caught. */
  ghost predicate LatestCaught(h: iset<Row>, name: Name, qs: seq<Past>, top: Option<int>) {
    if top == None then forall r :: r in h && r.name == name ==> !Caught(qs, r)
    else
      && (exists r :: r in h && r.name == name && Caught(qs, r) && r.end == top.value)
      && (forall r :: r in h && r.name == name && Caught(qs, r) ==> r.end <= top.value)
  }

  lemma {:induction false} CaughtGrows(qs: seq<Past>, q: Past, r: Row)
    ensures Caught(qs + [q], r) <==> Caught(qs, r) || (r.visible <= q.at && After(r.end, q.since))
  {
    var qs' := qs + [q];
    if Caught(qs, r) {
      var k :| 0 <= k < |qs| && r.visible <= qs[k].at && After(r.end, qs[k].since);
      assert qs'[k] == qs[k];
    }
    if r.visible <= q.at && After(r.end, q.since) { assert qs'[|qs|] == q; }
  }

  /** Folding the answer of one more query into the accumulated maximum. */
  lemma {:induction false} QueryCatches(h: iset<Row>, name: Name, qs: seq<Past>, q: Past, last: Option<int>,
                                        top: Option<int>)
    requires LatestCaught(h, name, qs, last) && Answers(h, name, q.at, q.since, top)
    ensures LatestCaught(h, name, qs + [q], Later(last, top))
  {
    forall r ensures Caught(qs + [q], r) <==> Caught(qs, r) || (r.visible <= q.at && After(r.end, q.since)) {
      CaughtGrows(qs, q, r);
    }
    forall r | r in h && r.name == name && r.visible <= q.at ensures SeenBy(h, name, q.at, r) {
    }
  }

  /** A row that is visible at `at` and that no successful read has missed. */
  ghost predicate Counts(h: iset<Row>, name: Name, qs: seq<Past>, at: int, r: Row) {
    SeenBy(h, name, at, r) && !Missed(qs, r)
  }

  /** `top` is the latest end of the rows of `name` that are visible at `at` and were not missed. */
  ghost predicate Latest(h: iset<Row>, name: Name, qs: seq<Past>, at: int, top: Option<int>) {
    if top == None then forall r :: !Counts(h, name, qs, at, r)
    else
      && (exists r :: Counts(h, name, qs, at, r) && r.end == top.value)
      && (forall r :: Counts(h, name, qs, at, r) ==> r.end <= top.value)
  }

  lemma {:induction false} CaughtIsLatest(h: iset<Row>, name: Name, qs: seq<Past>, top: Option<int>)
    requires Coherent(qs) && qs != [] && LatestCaught(h, name, qs, top)
    ensures Latest(h, name, qs, qs[|qs| - 1].at, top)
  {
    var at := qs[|qs| - 1].at;
    forall r | r in h && r.name == name ensures Caught(qs, r) <==> Counts(h, name, qs, at, r) {
      if r.visible <= at {
        CaughtIff(qs, r);
      } else {
        forall k | 0 <= k < |qs| ensures qs[k].at <= at {
          if k < |qs| - 1 { InOrder(qs, k, |qs| - 1); }
        }
      }
    }
  }

  // ----------------------------------------------------------------- the source

  /** What one query comes to: when it runs, and its row unless it fails. */
  datatype Query = Query(at: int, failed: bool, top: Option<int>)

  lemma {:induction false} AppendIsCoherent(qs: seq<Past>, q: Past)
    requires Coherent(qs) && q.since == SinceAt(qs, |qs|) && q.started <= q.at
    requires qs != [] ==> qs[|qs| - 1].at <= q.started
    ensures Coherent(qs + [q])
    ensures SinceAt(qs + [q], |qs| + 1) == if q.ok then Some(q.started - OVERLAP) else SinceAt(qs, |qs|)
  {
    var qs' := qs + [q];
    SinceExtends(qs, [q], |qs|);
    forall k: nat | k < |qs'| ensures InTurn(qs', k) {
      SinceExtends(qs, [q], k);
      if k < |qs| { assert InTurn(qs, k); }
    }
  }

  lemma {:induction false} FrontIsCoherent(qs: seq<Past>)
    requires qs != [] && Coherent(qs)
    ensures var front := qs[..|qs| - 1];
            Coherent(front) && SinceAt(front, |front|) == SinceAt(qs, |front|) && qs == front + [qs[|qs| - 1]]
  {
    var front := qs[..|qs| - 1];
    assert qs == front + [qs[|qs| - 1]];
    SinceExtends(front, [qs[|qs| - 1]], |front|);
    forall k: nat | k < |front| ensures InTurn(front, k) {
      assert InTurn(qs, k);
      SinceExtends(front, [qs[|qs| - 1]], k);
    }
  }

  lemma {:induction false} SinceExtends(qs: seq<Past>, more: seq<Past>, k: nat)
    requires k <= |qs|
    ensures SinceAt(qs + more, k) == SinceAt(qs, k)
  {
    if k > 0 { SinceExtends(qs, more, k - 1); }
  }

  /** The read succeeded: its query counts as successful. */
  ghost function Succeeded(qs: seq<Past>): seq<Past>
    requires qs != []
  {
    qs[..|qs| - 1] + [qs[|qs| - 1].(ok := true)]
  }

  lemma {:induction false} SucceededIsCoherent(h: iset<Row>, name: Name, qs: seq<Past>, top: Option<int>)
    requires qs != [] && Coherent(qs) && LatestCaught(h, name, qs, top)
    ensures Coherent(Succeeded(qs)) && LatestCaught(h, name, Succeeded(qs), top)
    ensures SinceAt(Succeeded(qs), |qs|) == Some(qs[|qs| - 1].started - OVERLAP)
  {
    var n := |qs| - 1;
    var front, q := qs[..n], qs[n].(ok := true);
    FrontIsCoherent(qs);
    assert InTurn(qs, n);
    AppendIsCoherent(front, q);
    forall r ensures Caught(front + [q], r) <==> Caught(qs, r) {
      CaughtGrows(front, qs[n], r);
      CaughtGrows(front, q, r);
    }
  }

  /** What has accumulated for a task is the latest row its queries caught, and the next one starts at `since`. */
  ghost predicate Known(h: iset<Row>, name: Name, qs: seq<Past>, last: Option<int>, since: Option<int>) {
    Coherent(qs) && LatestCaught(h, name, qs, last) && since == SinceAt(qs, |qs|)
  }

  class Source {
    ghost const h: iset<Row> // every success that ever becomes visible
    const names: seq<Name>
    var since: Option<int>
    var last: map<Name, int>
    ghost var log: map<Name, seq<Past>> // the answered queries of each task

    ghost predicate Valid()
      reads this
    {
      && (forall i, j :: 0 <= i < j < |names| ==> names[i] != names[j])
      && forall i :: 0 <= i < |names| ==>
        names[i] in log && Known(h, names[i], log[names[i]], Value(last, names[i]), since)
    }

    constructor (ghost h: iset<Row>, names: seq<Name>)
      requires forall i, j :: 0 <= i < j < |names| ==> names[i] != names[j]
      ensures Valid() && this.h == h && this.names == names && forall name :: name in names ==> log[name] == []
    {
      this.h, this.names := h, names;
      since, last, log := None, map[], map name | name in names :: [];
    }

    /** The query of name `i`, whose answer is folded into the accumulated maximum. */
    method Ask(i: nat, started: int, q: Query)
      requires Valid() && i < |names| && started <= q.at
      requires var qs := log[names[i]]; qs != [] ==> qs[|qs| - 1].at <= started
      requires Answers(h, names[i], q.at, since, q.top)
      modifies this`last, this`log
      ensures Valid() && log == old(log)[names[i] := old(log)[names[i]] + [Past(q.at, since, started, false)]]
    {
      var name := names[i];
      ghost var qs, p, was := log[name], Past(q.at, since, started, false), Value(last, name);
      AppendIsCoherent(qs, p);
      QueryCatches(h, name, qs, p, was, q.top);
      if q.top.Some? && (name !in last || q.top.value > last[name]) {
        last := last[name := q.top.value];
      }
      log := log[name := qs + [p]];
      assert Value(last, name) == Later(was, q.top);
      forall j | 0 <= j < |names| && j != i ensures names[j] != name {
        assert names[if i < j then i else j] != names[if i < j then j else i];
      }
    }

    /**
      One read. When no query fails, the accumulated latest success of every
      task is that of a full scan at its query but for the rows that an earlier
      successful read missed, whatever reads failed before.
     */
    method Read(started: int, queries: seq<Query>) returns (out: Option<map<Name, int>>)
      requires Valid() && |queries| == |names|
      requires forall i :: 0 <= i < |names| ==> started <= queries[i].at
      requires forall i, k :: 0 <= i < |names| && 0 <= k < |log[names[i]]| ==> log[names[i]][k].at <= started
      requires forall i :: 0 <= i < |names| && !queries[i].failed ==>
                 Answers(h, names[i], queries[i].at, since, queries[i].top)
      modifies this
      ensures Valid()
      ensures out.Some? <==> forall i :: 0 <= i < |queries| ==> !queries[i].failed
      ensures out.Some? ==> out.value == last
      ensures out.Some? ==> forall i :: 0 <= i < |names| ==>
                && log[names[i]] == old(log)[names[i]] + [Past(queries[i].at, old(since), started, true)]
                && Latest(h, names[i], log[names[i]], queries[i].at, Value(last, names[i]))
      ensures since == if out.Some? then Some(started - OVERLAP) else old(since)
    {
      for i := 0 to |names|
        invariant Valid() && since == old(since)
        invariant forall j :: 0 <= j < i ==> !queries[j].failed
        invariant forall j :: 0 <= j < i ==>
                    log[names[j]] == old(log)[names[j]] + [Past(queries[j].at, since, started, false)]
        invariant forall j :: i <= j < |names| ==> log[names[j]] == old(log)[names[j]]
      {
        if queries[i].failed {
          return None;
        }
        forall j | 0 <= j < |names| && j != i ensures names[j] != names[i] {
          assert names[if i < j then i else j] != names[if i < j then j else i];
        }
        Ask(i, started, queries[i]);
      }
      Succeed(started, queries, old(log));
      since := Some(started - OVERLAP);
      out := Some(last);
    }

    /** Every query of the read counts as successful. */
    ghost method Succeed(started: int, queries: seq<Query>, before: map<Name, seq<Past>>)
      requires Valid() && |queries| == |names|
      requires forall i :: 0 <= i < |names| ==>
                 names[i] in before && log[names[i]] == before[names[i]] + [Past(queries[i].at, since, started, false)]
      modifies this`log
      ensures forall i :: 0 <= i < |names| ==>
                && names[i] in log && log[names[i]] == before[names[i]] + [Past(queries[i].at, since, started, true)]
                && Known(h, names[i], log[names[i]], Value(last, names[i]), Some(started - OVERLAP))
                && Latest(h, names[i], log[names[i]], queries[i].at, Value(last, names[i]))
    {
      var was := log;
      forall i | 0 <= i < |names|
        ensures var qs := Succeeded(was[names[i]]);
                && qs == before[names[i]] + [Past(queries[i].at, since, started, true)]
                && Known(h, names[i], qs, Value(last, names[i]), Some(started - OVERLAP))
                && Latest(h, names[i], qs, queries[i].at, Value(last, names[i]))
      {
        SucceededIsCoherent(h, names[i], was[names[i]], Value(last, names[i]));
        CaughtIsLatest(h, names[i], Succeeded(was[names[i]]), Value(last, names[i]));
      }
      log := map name | name in names && name in was && was[name] != [] :: Succeeded(was[name]);
    }
  }

  // ------------------------------------------------------------ prompt and late

  /** A row that is visible within the overlap of its end is never missed. */
  lemma {:induction false} PromptNeverMissed(qs: seq<Past>, r: Row)
    requires Coherent(qs) && r.visible <= r.end + 600
    ensures !Missed(qs, r)
  {
    forall j | 0 <= j < |qs| && qs[j].ok && r.end + 600 <= qs[j].started ensures qs[j].at >= r.visible {
      assert InTurn(qs, j);
    }
  }

  /**
    The overlap is tight: whatever the delay beyond it, a read that starts
    OVERLAP after the row's end finds nothing, and no later one looks that far back.
   */
  lemma {:induction false} LateRowMissed(name: Name, delay: nat, at: int)
    requires 600 < delay <= at
    ensures var r := Row(name, 0, delay);
            var qs := [Past(OVERLAP, None, OVERLAP, true), Past(at, Some(0), OVERLAP, false)];
            Coherent(qs) && SeenBy(iset{r}, name, at, r) && Missed(qs, r) && !Caught(qs, r)
  {
    var qs := [Past(OVERLAP, None, OVERLAP, true), Past(at, Some(0), OVERLAP, false)];
    assert SinceAt(qs, 0) == None && SinceAt(qs, 1) == Some(0);
    assert InTurn(qs, 0) && InTurn(qs, 1);
    assert qs[0].ok;
    CaughtIff(qs, Row(name, 0, delay));
  }
}
