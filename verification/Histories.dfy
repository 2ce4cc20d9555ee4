/**
  What holds after a run as a matter of its history: something set by one kind
  of step and cleared by another holds exactly when a step that set it stands.
 */
module Histories {

  /** Step `i` sets it, and no later one clears it. */
  ghost predicate SetAt<S, T>(states: seq<S>, steps: seq<T>, sets: (S, T) -> bool, clears: (S, T) -> bool, i: nat)
    requires |states| == |steps| + 1
  {
    i < |steps| && sets(states[i], steps[i]) && Uncleared(states, steps, clears, i + 1)
  }

  /** No step from `i` on clears it. */
  ghost predicate Uncleared<S, T>(states: seq<S>, steps: seq<T>, clears: (S, T) -> bool, i: nat)
    requires |states| == |steps| + 1
  {
    forall j :: i <= j < |steps| ==> !clears(states[j], steps[j])
  }

  /** It was there at the start, or a step of the run set it, and nothing has cleared it since. */
  ghost predicate Standing<S, T>(states: seq<S>, steps: seq<T>, start: bool, sets: (S, T) -> bool,
                               clears: (S, T) -> bool)
    requires |states| == |steps| + 1
  {
    (start && Uncleared(states, steps, clears, 0)) || exists i: nat :: SetAt(states, steps, sets, clears, i)
  }

  /** Whether it holds after each step is decided by whether that step sets it or clears it. */
  ghost predicate Lawful<S, T>(states: seq<S>, steps: seq<T>, holds: S -> bool, sets: (S, T) -> bool,
                               clears: (S, T) -> bool)
    requires |states| == |steps| + 1
  {
    forall i :: 0 <= i < |steps| ==> LawAt(states, steps, holds, sets, clears, i)
  }

  ghost predicate LawAt<S, T>(states: seq<S>, steps: seq<T>, holds: S -> bool, sets: (S, T) -> bool,
                              clears: (S, T) -> bool, i: nat)
    requires |states| == |steps| + 1 && i < |steps|
  {
    holds(states[i + 1]) <==>
    sets(states[i], steps[i]) || (holds(states[i]) && !clears(states[i], steps[i]))
  }

  lemma {:induction false} StandingAfter<S, T>(states: seq<S>, steps: seq<T>, start: bool, sets: (S, T) -> bool,
                                             clears: (S, T) -> bool)
    requires |states| == |steps| + 1 && steps != []
    ensures var n := |steps| - 1;
            Standing(states, steps, start, sets, clears) <==>
            || sets(states[n], steps[n])
            || (Standing(states[..n + 1], steps[..n], start, sets, clears) && !clears(states[n], steps[n]))
  {
    var n := |steps| - 1;
    var before, first := states[..n + 1], steps[..n];
    forall i: nat | i <= n
      ensures Uncleared(states, steps, clears, i) <==>
              Uncleared(before, first, clears, i) && !clears(states[n], steps[n])
    {
      assert forall j :: i <= j < n ==> before[j] == states[j] && first[j] == steps[j];
    }
    if sets(states[n], steps[n]) {
      assert SetAt(states, steps, sets, clears, n);
    }
    if i: nat :| SetAt(before, first, sets, clears, i) && !clears(states[n], steps[n]) {
      assert SetAt(states, steps, sets, clears, i);
    }
    if i: nat :| SetAt(states, steps, sets, clears, i) {
      if i < n { assert SetAt(before, first, sets, clears, i); }
    }
  }

  /** What follows the law holds at the end exactly when it stands. */
  lemma {:induction false} HoldsIffStanding<S, T>(states: seq<S>, steps: seq<T>, holds: S -> bool,
                                                sets: (S, T) -> bool, clears: (S, T) -> bool)
    requires |states| == |steps| + 1 && Lawful(states, steps, holds, sets, clears)
    ensures holds(states[|steps|]) <==> Standing(states, steps, holds(states[0]), sets, clears)
    decreases |steps|
  {
    if steps != [] {
      var n := |steps| - 1;
      var before, first := states[..n + 1], steps[..n];
      forall i | 0 <= i < n ensures LawAt(before, first, holds, sets, clears, i) {
        assert LawAt(states, steps, holds, sets, clears, i);
      }
      HoldsIffStanding(before, first, holds, sets, clears);
      StandingAfter(states, steps, holds(states[0]), sets, clears);
      assert LawAt(states, steps, holds, sets, clears, n);
    }
  }

  /** The states a run goes through, each next one reached by a step. */
  ghost predicate Traces<S, T>(next: (S, T, S) -> bool, states: seq<S>, steps: seq<T>) {
    |states| == |steps| + 1 && forall i :: 0 <= i < |steps| ==> Reached(next, states, steps, i)
  }

  ghost predicate Reached<S, T>(next: (S, T, S) -> bool, states: seq<S>, steps: seq<T>, i: nat)
    requires |states| == |steps| + 1 && i < |steps|
  {
    next(states[i], steps[i], states[i + 1])
  }

  lemma {:induction false} TracesFrom<S, T>(next: (S, T, S) -> bool, s: S, step: T, states: seq<S>, steps: seq<T>)
    requires Traces(next, states, steps) && next(s, step, states[0])
    ensures Traces(next, [s] + states, [step] + steps)
  {
    forall i | 0 <= i < |steps| + 1 ensures Reached(next, [s] + states, [step] + steps, i) {
      if i > 0 { assert Reached(next, states, steps, i - 1); }
    }
  }

  /** Every step decides by itself whether `holds` holds after it. */
  ghost predicate Law<S(!new), T(!new)>(next: (S, T, S) -> bool, holds: S -> bool, sets: (S, T) -> bool,
                                        clears: (S, T) -> bool)
  {
    forall x: S, step: T, y: S :: next(x, step, y) ==> (holds(y) <==> sets(x, step) || (holds(x) && !clears(x, step)))
  }

  /** What every step decides by itself holds after a run exactly when it stands. */
  lemma {:induction false} LawOverRuns<S(!new), T(!new)>(next: (S, T, S) -> bool, states: seq<S>, steps: seq<T>,
                                                         holds: S -> bool, sets: (S, T) -> bool,
                                                         clears: (S, T) -> bool)
    requires Traces(next, states, steps) && Law(next, holds, sets, clears)
    ensures holds(states[|steps|]) <==> Standing(states, steps, holds(states[0]), sets, clears)
  {
    forall i | 0 <= i < |steps| ensures LawAt(states, steps, holds, sets, clears, i) {
      assert Reached(next, states, steps, i);
    }
    HoldsIffStanding(states, steps, holds, sets, clears);
  }
}
