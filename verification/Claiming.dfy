/**
  The claim of a batch of rows for a new task, as the root submissions and the
  queued advertisements do it: a subquery picks unclaimed rows, and the update
  around it stamps what was picked without asking again whether it is still
  unclaimed. Updates of one row wait for each other, so a commit is one step.
 */
module Claiming {
  import opened Common
  import opened Histories

  type Row(==, !new)
  type Task(==, !new)

  /** The stamp of every row, and what each running statement has picked. */
  datatype State = State(owners: map<Row, Option<Task>>, picks: map<Task, set<Row>>)

  const Init := State(map[], map[])

  datatype Step =
    | Insert(row: Row)                  // ON CONFLICT DO NOTHING
    | Pick(task: Task, rows: set<Row>)  // the subquery
    | Commit(task: Task)                // the update around it
    | Abort(task: Task)
    | Drop(row: Row)

  predicate IsOwned(s: State, r: Row) {
    r in s.owners && s.owners[r].Some?
  }

  predicate Enabled(s: State, step: Step) {
    match step
    case Insert(_) => true
    case Pick(t, rows) => t !in s.picks && forall r :: r in rows ==> r in s.owners && s.owners[r] == None
    case Commit(t) => t in s.picks
    case Abort(t) => t in s.picks
    case Drop(_) => true
  }

  function Apply(s: State, step: Step): State
    requires Enabled(s, step)
  {
    match step
    case Insert(r) => if r in s.owners then s else s.(owners := s.owners[r := None])
    case Pick(t, rows) => s.(picks := s.picks[t := rows])
    case Commit(t) =>
      State(map r | r in s.owners :: if r in s.picks[t] then Some(t) else s.owners[r], s.picks - {t})
    case Abort(t) => s.(picks := s.picks - {t})
    case Drop(r) => s.(owners := s.owners - {r})
  }

  ghost predicate IsRun(s: State, steps: seq<Step>)
    decreases |steps|
  {
    steps == [] || (Enabled(s, steps[0]) && IsRun(Apply(s, steps[0]), steps[1..]))
  }

  ghost function After(s: State, steps: seq<Step>): State
    requires IsRun(s, steps)
    decreases |steps|
  {
    if steps == [] then s else After(Apply(s, steps[0]), steps[1..])
  }

  lemma {:induction false} RunFront(s: State, steps: seq<Step>)
    requires IsRun(s, steps) && steps != []
    ensures var n := |steps| - 1;
            && IsRun(s, steps[..n]) && Enabled(After(s, steps[..n]), steps[n])
            && After(s, steps) == Apply(After(s, steps[..n]), steps[n])
    decreases |steps|
  {
    var n := |steps| - 1;
    if n > 0 {
      RunFront(Apply(s, steps[0]), steps[1..]);
      assert steps[..n][1..] == steps[1..][..n - 1];
    }
  }

  /** The step stamps `r` with its task. */
  predicate Takes(s: State, step: Step, r: Row) {
    step.Commit? && step.task in s.picks && r in s.picks[step.task] && r in s.owners
  }

  /** The step at `i` of a run from `s` stamps `r`, and `r` is not dropped after it. */
  ghost predicate TakenAt(s: State, steps: seq<Step>, i: nat, r: Row) {
    && i < |steps| && IsRun(s, steps[..i]) && Takes(After(s, steps[..i]), steps[i], r)
    && forall j :: i < j < |steps| ==> steps[j] != Drop(r)
  }

  lemma {:induction false} TakenBefore(s: State, steps: seq<Step>, r: Row)
    requires IsRun(s, steps) && steps != []
    ensures var n := |steps| - 1;
            && IsRun(s, steps[..n])
            && ((exists i: nat :: TakenAt(s, steps, i, r)) <==>
                || Takes(After(s, steps[..n]), steps[n], r)
                || (steps[n] != Drop(r) && exists i: nat :: TakenAt(s, steps[..n], i, r)))
  {
    var n := |steps| - 1;
    RunFront(s, steps);
    var front := steps[..n];
    if i: nat :| TakenAt(s, steps, i, r) {
      if i < n {
        assert front[..i] == steps[..i];
        assert TakenAt(s, front, i, r);
      }
    }
    if i: nat :| TakenAt(s, front, i, r) {
      assert front[..i] == steps[..i];
      assert steps[n] != Drop(r) ==> TakenAt(s, steps, i, r);
    }
    assert Takes(After(s, steps[..n]), steps[n], r) ==> TakenAt(s, steps, n, r);
  }

  /** A row nobody had stamped is stamped after a run exactly when some commit of it took the row. */
  lemma {:induction false} OwnedIff(s: State, steps: seq<Step>, r: Row)
    requires IsRun(s, steps) && !IsOwned(s, r)
    ensures IsOwned(After(s, steps), r) <==> exists i: nat :: TakenAt(s, steps, i, r)
    decreases |steps|
  {
    if steps != [] {
      var n := |steps| - 1;
      RunFront(s, steps);
      OwnedIff(s, steps[..n], r);
      TakenBefore(s, steps, r);
    }
  }

  predicate Of(step: Step, t: Task) {
    (step.Pick? || step.Commit? || step.Abort?) && step.task == t
  }

  /**
    When a task commits its claim, a row it picked changes hands if and only if
    another commit took the row since it was picked.
   */
  lemma {:induction false} ChangesHandsIff(s: State, t: Task, rows: set<Row>, steps: seq<Step>, r: Row)
    requires Enabled(s, Pick(t, rows)) && r in rows && IsRun(Apply(s, Pick(t, rows)), steps)
    requires forall i :: 0 <= i < |steps| ==> !Of(steps[i], t)
    ensures var s1 := Apply(s, Pick(t, rows)); var now := After(s1, steps);
            && Enabled(now, Commit(t))
            && (r in now.owners ==> Apply(now, Commit(t)).owners[r] == Some(t))
            && (IsOwned(now, r) <==> exists i: nat :: TakenAt(s1, steps, i, r))
  {
    var s1 := Apply(s, Pick(t, rows));
    OwnedIff(s1, steps, r);
    StillPicked(s1, t, steps);
  }

  lemma {:induction false} StillPicked(s: State, t: Task, steps: seq<Step>)
    requires IsRun(s, steps) && t in s.picks && forall i :: 0 <= i < |steps| ==> !Of(steps[i], t)
    ensures t in After(s, steps).picks && After(s, steps).picks[t] == s.picks[t]
    decreases |steps|
  {
    if steps != [] {
      StillPicked(Apply(s, steps[0]), t, steps[1..]);
    }
  }

  /** Two tasks pick one row before either commits: the second takes it from the first. */
  lemma {:induction false} SecondTakesOver(r: Row, t: Task, u: Task)
    requires t != u
    ensures var s := Apply(Apply(Apply(Init, Insert(r)), Pick(t, {r})), Pick(u, {r}));
            && Enabled(s, Commit(t)) && Apply(s, Commit(t)).owners[r] == Some(t)
            && Enabled(Apply(s, Commit(t)), Commit(u)) && Apply(Apply(s, Commit(t)), Commit(u)).owners[r] == Some(u)
  {
    var s1 := Apply(Init, Insert(r));
    assert Enabled(s1, Pick(t, {r}));
    assert Enabled(Apply(s1, Pick(t, {r})), Pick(u, {r}));
  }

  // ------------------------------------------------------- what a run leaves

  ghost function Next(): (State, Step, State) -> bool {
    (x: State, step: Step, y: State) => Enabled(x, step) && y == Apply(x, step)
  }

  /** The states a run goes through. */
  ghost function States(s: State, steps: seq<Step>): (r: seq<State>)
    requires IsRun(s, steps)
    ensures |r| == |steps| + 1 && r[0] == s && r[|steps|] == After(s, steps)
    ensures Traces(Next(), r, steps)
    decreases |steps|
  {
    if steps == [] then [s]
    else
      var rest := States(Apply(s, steps[0]), steps[1..]);
      TracesFrom(Next(), s, steps[0], rest, steps[1..]);
      assert [steps[0]] + steps[1..] == steps;
      [s] + rest
  }

  ghost predicate OwnedBy(x: State, r: Row, o: Option<Task>) {
    r in x.owners && x.owners[r] == o
  }

  /** The row is inserted, unclaimed, or the task that picked it commits. */
  ghost function Stamping(r: Row, o: Option<Task>): (State, Step) -> bool {
    (x: State, step: Step) =>
      || (step == Insert(r) && r !in x.owners && o == None)
      || (Takes(x, step, r) && o == Some(step.task))
  }

  ghost function Restamping(r: Row): (State, Step) -> bool {
    (x: State, step: Step) => step == Drop(r) || Takes(x, step, r)
  }

  /** Over any run a row is a task's, or nobody's, exactly as the last commit that took it, or its insert, says. */
  lemma {:induction false} StampIff(s: State, steps: seq<Step>, r: Row, o: Option<Task>)
    requires IsRun(s, steps)
    ensures OwnedBy(After(s, steps), r, o) <==>
            Standing(States(s, steps), steps, OwnedBy(s, r, o), Stamping(r, o), Restamping(r))
  {
    forall x: State, step: Step, y: State | Next()(x, step, y)
      ensures OwnedBy(y, r, o) <==> Stamping(r, o)(x, step) || (OwnedBy(x, r, o) && !Restamping(r)(x, step))
    {
      assert Enabled(x, step) && y == Apply(x, step);
    }
    LawOverRuns(Next(), States(s, steps), steps, (x: State) => OwnedBy(x, r, o), Stamping(r, o), Restamping(r));
  }

  ghost predicate Picked(x: State, t: Task, rows: set<Row>) {
    t in x.picks && x.picks[t] == rows
  }

  ghost function Picking(t: Task, rows: set<Row>): (State, Step) -> bool {
    (x: State, step: Step) => step == Pick(t, rows)
  }

  ghost function Finishing(t: Task): (State, Step) -> bool {
    (x: State, step: Step) => step == Commit(t) || step == Abort(t)
  }

  /** Over any run a statement has picked rows if and only if it picked them and has neither committed nor aborted. */
  lemma {:induction false} PickedIff(s: State, steps: seq<Step>, t: Task, rows: set<Row>)
    requires IsRun(s, steps)
    ensures Picked(After(s, steps), t, rows) <==>
            Standing(States(s, steps), steps, Picked(s, t, rows), Picking(t, rows), Finishing(t))
  {
    forall x: State, step: Step, y: State | Next()(x, step, y)
      ensures Picked(y, t, rows) <==> Picking(t, rows)(x, step) || (Picked(x, t, rows) && !Finishing(t)(x, step))
    {
      assert Enabled(x, step) && y == Apply(x, step);
    }
    LawOverRuns(Next(), States(s, steps), steps, (x: State) => Picked(x, t, rows), Picking(t, rows), Finishing(t));
  }
}
