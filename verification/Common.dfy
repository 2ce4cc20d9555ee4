/** Failure-free wrappers shared by every module of the model. */
module Common {

  datatype Option<+T> = None | Some(value: T)

  datatype Result<+T, +E> = Ok(value: T) | Err(error: E)
}

/** Counting facts about finite sets. */
module Sets {

  lemma {:induction false} SameSize<T>(a: set<T>, b: set<T>)
    requires a <= b && |a| >= |b|
    ensures a == b
  {
    if x :| x in b && x !in a {
      assert a <= b - {x};
      SubsetSize(a, b - {x});
    }
  }

  lemma {:induction false} SubsetSize<T>(a: set<T>, b: set<T>)
    requires a <= b
    ensures |a| <= |b|
    decreases a
  {
    if x :| x in a { SubsetSize(a - {x}, b - {x}); }
  }

  /** A sequence without repetitions has as many elements as its set. */
  lemma {:induction false} DistinctSize<T>(s: seq<T>)
    requires forall i, j :: 0 <= i < j < |s| ==> s[i] != s[j]
    ensures |set x | x in s| == |s|
    decreases |s|
  {
    if s != [] {
      var n := |s| - 1;
      DistinctSize(s[..n]);
      assert s == s[..n] + [s[n]];
      assert (set x | x in s) == (set x | x in s[..n]) + {s[n]};
    }
  }

  lemma {:induction false} PrefixGrows<T>(s: seq<T>, n: nat)
    requires n < |s|
    ensures s[..n + 1] == s[..n] + [s[n]] && s[..n + 1][..n] == s[..n]
  {
  }

  lemma {:induction false} WholePrefix<T>(s: seq<T>)
    ensures s[..|s|] == s
  {
  }
}

/** What a pass over a list takes from its elements. */
module Collecting {
  import opened Common

  /** How many of the first `n` elements `pick` takes something from. */
  ghost function Rank<A, B>(l: seq<A>, pick: A -> Option<B>, n: nat): nat
    requires n <= |l|
  {
    if n == 0 then 0 else Rank(l, pick, n - 1) + if pick(l[n - 1]).Some? then 1 else 0
  }

  /** `out` is what `pick` takes from the elements of `l`, in their order and nothing else. */
  ghost predicate Collects<A, B>(l: seq<A>, pick: A -> Option<B>, out: seq<B>) {
    && |out| == Rank(l, pick, |l|)
    && forall i :: 0 <= i < |l| && pick(l[i]).Some? ==>
      Rank(l, pick, i) < |out| && out[Rank(l, pick, i)] == pick(l[i]).value
  }

  lemma {:induction false} RankConcat<A, B>(a: seq<A>, b: seq<A>, pick: A -> Option<B>, n: nat)
    requires n <= |a + b|
    ensures Rank(a + b, pick, n) == if n <= |a| then Rank(a, pick, n) else Rank(a, pick, |a|) + Rank(b, pick, n - |a|)
  {
    if n > 0 {
      RankConcat(a, b, pick, n - 1);
    }
  }

  lemma {:induction false} CollectsConcat<A, B>(a: seq<A>, b: seq<A>, pick: A -> Option<B>, x: seq<B>, y: seq<B>)
    requires Collects(a, pick, x) && Collects(b, pick, y)
    ensures Collects(a + b, pick, x + y)
  {
    RankConcat(a, b, pick, |a + b|);
    forall i | 0 <= i < |a + b| && pick((a + b)[i]).Some?
      ensures Rank(a + b, pick, i) < |x + y| && (x + y)[Rank(a + b, pick, i)] == pick((a + b)[i]).value
    {
      RankConcat(a, b, pick, i);
      if i >= |a| { assert (a + b)[i] == b[i - |a|]; }
    }
  }
}
