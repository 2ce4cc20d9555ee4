/**
  NewAggregate: the Merkle tree over the pieces of an aggregate, built on a
  stack and padded with zero pieces, and the inclusion proof of every piece.
 */
module Merkle {
  import opened Common
  import opened Sets
  import opened RootLayout

  type Hash(==, !new) // a data commitment

  datatype Piece = Piece(size: nat, commP: Hash)

  /** stackFrame: a leaf is a piece or zero padding. */
  datatype Tree =
    | Leaf(size: nat, commP: Hash)
    | Node(size: nat, commP: Hash, left: Tree, right: Tree)

  type Combine = (Hash, Hash) -> Hash // computeNode

  // -------------------------------------------------------------------- trees

  /** A perfect Merkle tree: equal halves, each commitment computed from the two below it. */
  ghost predicate Good(t: Tree, node: Combine) {
    match t
    case Leaf(size, _) => PowerOfTwo(size)
    case Node(size, commP, left, right) =>
      && Good(left, node) && Good(right, node)
      && left.size == right.size && size == 2 * left.size && commP == node(left.commP, right.commP)
  }

  lemma {:induction false} GoodSize(t: Tree, node: Combine)
    requires Good(t, node)
    ensures PowerOfTwo(t.size) && t.size > 0
  {
    if t.Node? {
      GoodSize(t.left, node);
      assert t.size / 2 == t.left.size;
    }
  }

  ghost function Leaves(t: Tree): seq<Piece> {
    match t
    case Leaf(size, commP) => [Piece(size, commP)]
    case Node(_, _, left, right) => Leaves(left) + Leaves(right)
  }

  ghost function StackLeaves(s: seq<Tree>): seq<Piece> {
    if s == [] then [] else StackLeaves(s[..|s| - 1]) + Leaves(s[|s| - 1])
  }

  ghost predicate AllGood(s: seq<Tree>, node: Combine) {
    forall i :: 0 <= i < |s| ==> Good(s[i], node)
  }

  ghost predicate Strict(s: seq<Tree>) {
    forall i, j :: 0 <= i < j < |s| ==> s[i].size > s[j].size
  }

  /** Of two powers of two the larger is at least twice the smaller. */
  lemma {:induction false} AtLeastTwice(a: nat, b: nat)
    requires PowerOfTwo(a) && PowerOfTwo(b) && a > b
    ensures a >= 2 * b
    decreases b
  {
    if b > 1 {
      AtLeastTwice(a / 2, b / 2);
    }
  }

  // -------------------------------------------------------------------- stack

  /** A stack to reduce: strictly falling but for its last tree, which may equal the one before. */
  ghost predicate Reducible(s: seq<Tree>, node: Combine) {
    && s != [] && AllGood(s, node) && Strict(s[..|s| - 1])
    && (|s| > 1 ==> s[|s| - 1].size <= s[|s| - 2].size)
  }

  function Combined(a: Tree, b: Tree, node: Combine): Tree {
    Node(2 * a.size, node(a.commP, b.commP), a, b)
  }

  lemma {:induction false} CombineKeepsLeaves(base: seq<Tree>, a: Tree, b: Tree, node: Combine)
    ensures StackLeaves(base + [Combined(a, b, node)]) == StackLeaves(base + [a] + [b])
  {
  }

  lemma {:induction false} CombineKeepsReducible(base: seq<Tree>, a: Tree, b: Tree, node: Combine)
    requires AllGood(base, node) && Good(a, node) && Good(b, node) && a.size == b.size && Strict(base + [a])
    ensures Reducible(base + [Combined(a, b, node)], node)
  {
    var n := |base|;
    assert (base + [a])[..n] == base && (base + [Combined(a, b, node)])[..n] == base;
    assert forall i, j :: 0 <= i < j < n ==> (base + [a])[i].size > (base + [a])[j].size;
    if n > 0 {
      assert (base + [a])[n - 1].size > (base + [a])[n].size;
      GoodSize(base[n - 1], node);
      GoodSize(a, node);
      AtLeastTwice(base[n - 1].size, a.size);
    }
  }

  lemma {:induction false} CombineLast(s: seq<Tree>, node: Combine)
    requires Reducible(s, node) && |s| > 1 && s[|s| - 1].size == s[|s| - 2].size
    ensures var r := s[..|s| - 2] + [Combined(s[|s| - 2], s[|s| - 1], node)];
            Reducible(r, node) && StackLeaves(r) == StackLeaves(s)
  {
    var n := |s| - 2;
    PrefixGrows(s, n);
    PrefixGrows(s, n + 1);
    WholePrefix(s);
    CombineKeepsReducible(s[..n], s[n], s[n + 1], node);
    CombineKeepsLeaves(s[..n], s[n], s[n + 1], node);
  }

  /** Combines equal trees at the top until the stack falls strictly; its leaves stay as they are. */
  method ReduceStack(stack: seq<Tree>, node: Combine) returns (s: seq<Tree>)
    requires Reducible(stack, node)
    ensures s != [] && AllGood(s, node) && Strict(s) && StackLeaves(s) == StackLeaves(stack)
    ensures s[|s| - 1].size >= stack[|stack| - 1].size
    ensures |stack| > 1 && stack[|stack| - 1].size == stack[|stack| - 2].size ==>
              s[|s| - 1].size > stack[|stack| - 1].size
    ensures s[0].size == stack[0].size || (|s| == 1 && |stack| > 1 && s[0].size == 2 * stack[0].size)
  {
    s := stack;
    while |s| > 1
      invariant Reducible(s, node) && StackLeaves(s) == StackLeaves(stack)
      invariant s == stack || s[|s| - 1].size > stack[|stack| - 1].size
      invariant s[|s| - 1].size >= stack[|stack| - 1].size
      invariant s[0].size == stack[0].size || (|s| == 1 && |stack| > 1 && s[0].size == 2 * stack[0].size)
      decreases |s|
    {
      var left, right := s[|s| - 2], s[|s| - 1];
      if left.size != right.size {
        break;
      }
      CombineLast(s, node);
      GoodSize(left, node);
      s := s[..|s| - 2] + [Combined(left, right, node)];
    }
    StrictNow(s);
  }

  lemma {:induction false} StrictNow(s: seq<Tree>)
    requires s != [] && Strict(s[..|s| - 1]) && (|s| > 1 ==> s[|s| - 1].size < s[|s| - 2].size)
    ensures Strict(s)
  {
  }

  // ------------------------------------------------------------- building

  function SizesOf(ps: seq<Piece>): seq<nat> {
    seq(|ps|, i requires 0 <= i < |ps| => ps[i].size)
  }

  ghost function Total(ps: seq<Piece>): nat {
    if ps == [] then 0 else Total(ps[..|ps| - 1]) + ps[|ps| - 1].size
  }

  lemma {:induction false} TotalConcat(a: seq<Piece>, b: seq<Piece>)
    ensures Total(a + b) == Total(a) + Total(b)
    decreases |b|
  {
    if b == [] {
      assert a + b == a;
    } else {
      var n := |b| - 1;
      assert (a + b)[..|a| + n] == a + b[..n];
      TotalConcat(a, b[..n]);
    }
  }

  lemma {:induction false} TotalIsSum(ps: seq<Piece>, n: nat)
    requires n <= |ps|
    ensures Total(ps[..n]) == Sum(SizesOf(ps), n)
  {
    if n > 0 {
      TotalIsSum(ps, n - 1);
      assert ps[..n][..n - 1] == ps[..n - 1];
    }
  }

  lemma {:induction false} TreeTotal(t: Tree, node: Combine)
    requires Good(t, node)
    ensures Total(Leaves(t)) == t.size
  {
    match t
    case Leaf(size, commP) => assert [Piece(size, commP)][..0] == [];
    case Node(_, _, left, right) =>
      TreeTotal(left, node);
      TreeTotal(right, node);
      TotalConcat(Leaves(left), Leaves(right));
  }

  /** The first tree of a stack is all of it, or less than all of it. */
  lemma {:induction false} FirstOfStack(s: seq<Tree>, node: Combine)
    requires s != [] && AllGood(s, node)
    ensures if |s| == 1 then Total(StackLeaves(s)) == s[0].size else Total(StackLeaves(s)) > s[0].size
    decreases |s|
  {
    var n := |s| - 1;
    var below := s[..n];
    TotalConcat(StackLeaves(below), Leaves(s[n]));
    TreeTotal(s[n], node);
    GoodSize(s[n], node);
    if n > 0 {
      assert AllGood(below, node) && below[0] == s[0];
      FirstOfStack(below, node);
    }
  }

  datatype BuildError = NoPieces | TooSmall(at: nat) | NotSorted(at: nat)

  const MIN_SIZE := 128

  /** The pieces so far are reduced onto the stack, whose last tree is no smaller than the last piece. */
  ghost predicate Stacked(stack: seq<Tree>, node: Combine, ps: seq<Piece>) {
    && stack != [] && AllGood(stack, node) && Strict(stack) && StackLeaves(stack) == ps
    && ps != [] && stack[|stack| - 1].size >= ps[|ps| - 1].size
  }

  lemma {:induction false} PushIsReducible(stack: seq<Tree>, node: Combine, t: Tree)
    requires stack != [] && AllGood(stack, node) && Strict(stack) && Good(t, node) && t.size <= stack[|stack| - 1].size
    ensures Reducible(stack + [t], node) && StackLeaves(stack + [t]) == StackLeaves(stack) + Leaves(t)
  {
  }

  method StackPieces(ps: seq<Piece>, node: Combine) returns (stack: seq<Tree>)
    requires ps != [] && Descending(SizesOf(ps)) && forall i :: 0 <= i < |ps| ==> PowerOfTwo(ps[i].size)
    ensures Stacked(stack, node, ps)
  {
    stack := [Leaf(ps[0].size, ps[0].commP)];
    StackOfOne(stack);
    assert ps[..1] == [ps[0]];
    for n := 1 to |ps|
      invariant Stacked(stack, node, ps[..n])
    {
      var f := Leaf(ps[n].size, ps[n].commP);
      assert SizesOf(ps)[n - 1] >= SizesOf(ps)[n];
      PrefixGrows(ps, n);
      PushIsReducible(stack, node, f);
      stack := ReduceStack(stack + [f], node);
    }
    WholePrefix(ps);
  }

  ghost predicate Ascending(ps: seq<Piece>) {
    forall i, j :: 0 <= i < j < |ps| ==> ps[i].size < ps[j].size
  }

  /** Commitments of zeros, each piece larger than the one before. */
  ghost predicate Zeros(pad: seq<Piece>, zero: nat -> Hash) {
    && Ascending(pad)
    && forall i :: 0 <= i < |pad| ==> PowerOfTwo(pad[i].size) && pad[i].commP == zero(pad[i].size)
  }

  /** One zero tree as large as the last tree. */
  method PadOnce(before: seq<Tree>, node: Combine, zero: nat -> Hash) returns (stack: seq<Tree>, ghost z: Piece)
    requires |before| > 1 && AllGood(before, node) && Strict(before)
    ensures z.size == before[|before| - 1].size && PowerOfTwo(z.size) && z.commP == zero(z.size)
    ensures stack != [] && AllGood(stack, node) && Strict(stack) && StackLeaves(stack) == StackLeaves(before) + [z]
    ensures |stack| == 1 ==> stack[0].size == 2 * before[0].size
    ensures |stack| > 1 ==> stack[0].size == before[0].size && stack[|stack| - 1].size > before[|before| - 1].size
  {
    var last := before[|before| - 1].size;
    var t := Leaf(last, zero(last));
    z := Piece(last, zero(last));
    GoodSize(before[|before| - 1], node);
    PushIsReducible(before, node, t);
    stack := ReduceStack(before + [t], node);
    OneLeft(before, stack, node);
  }

  /** Doubles the last tree with zeros until one tree is left. */
  method Pad(start: seq<Tree>, node: Combine, zero: nat -> Hash) returns (root: Tree, ghost pad: seq<Piece>)
    requires start != [] && AllGood(start, node) && Strict(start)
    ensures Good(root, node) && Leaves(root) == StackLeaves(start) + pad && Zeros(pad, zero)
    ensures root.size == if |start| == 1 then start[0].size else 2 * start[0].size
  {
    var stack := start;
    pad := [];
    while |stack| > 1
      invariant stack != [] && AllGood(stack, node) && Strict(stack) && StackLeaves(stack) == StackLeaves(start) + pad
      invariant Zeros(pad, zero)
      invariant |stack| > 1 ==> forall i :: 0 <= i < |pad| ==> pad[i].size < stack[|stack| - 1].size
      invariant |stack| > 1 ==> |start| > 1 && stack[0].size == start[0].size
      invariant |stack| == 1 ==> stack[0].size == if |start| == 1 then start[0].size else 2 * start[0].size
      decreases if |stack| > 1 then stack[0].size - stack[|stack| - 1].size else 0
    {
      ghost var z;
      stack, z := PadOnce(stack, node, zero);
      Associates(StackLeaves(start), pad, [z]);
      pad := pad + [z];
    }
    root := stack[0];
    StackOfOne(stack);
  }

  lemma {:induction false} StackOfOne(s: seq<Tree>)
    requires |s| == 1
    ensures StackLeaves(s) == Leaves(s[0])
  {
  }

  lemma {:induction false} Associates<T>(a: seq<T>, b: seq<T>, c: seq<T>)
    ensures (a + b) + c == a + (b + c)
  {
  }

  /** When the stack collapses to one tree with zeros added, that tree is twice its first. */
  lemma {:induction false} OneLeft(before: seq<Tree>, stack: seq<Tree>, node: Combine)
    requires |before| > 1 && AllGood(before, node) && stack != [] && AllGood(stack, node)
    requires StackLeaves(before) < StackLeaves(stack)
    requires stack[0].size == before[0].size || (|stack| == 1 && stack[0].size == 2 * before[0].size)
    ensures |stack| == 1 ==> stack[0].size == 2 * before[0].size
  {
    if |stack| == 1 {
      FirstOfStack(before, node);
      FirstOfStack(stack, node);
      var b, all := StackLeaves(before), StackLeaves(stack);
      assert all == b + all[|b|..];
      TotalConcat(b, all[|b|..]);
    }
  }

  ghost predicate Acceptable(ps: seq<Piece>) {
    ps != [] && Descending(SizesOf(ps)) && forall i :: 0 <= i < |ps| ==> ps[i].size >= 128
  }

  /** Refuses the pieces exactly when there are none, one is too small, or they do not fall in size; names the first. */
  method CheckPieces(ps: seq<Piece>) returns (e: Option<BuildError>)
    ensures e == None <==> Acceptable(ps)
    ensures e == Some(NoPieces) <==> ps == []
    ensures e.Some? && !e.value.NoPieces? ==>
              e.value.at < |ps| && (e.value.at > 0 ==> Acceptable(ps[..e.value.at]))
    ensures e.Some? && e.value.TooSmall? ==> ps[e.value.at].size < 128
    ensures e.Some? && e.value.NotSorted? ==>
              0 < e.value.at && ps[e.value.at - 1].size < ps[e.value.at].size && ps[e.value.at].size >= 128
  {
    if |ps| == 0 {
      return Some(NoPieces);
    }
    var lastSize := 0;
    for i := 0 to |ps|
      invariant forall k, l :: 0 <= k < l < i ==> ps[k].size >= ps[l].size
      invariant forall k :: 0 <= k < i ==> ps[k].size >= MIN_SIZE && ps[k].size >= lastSize
      invariant lastSize == if i == 0 then 0 else ps[i - 1].size
    {
      if ps[i].size < MIN_SIZE {
        return Some(TooSmall(i));
      }
      if lastSize > 0 && ps[i].size > lastSize {
        assert SizesOf(ps)[i - 1] < SizesOf(ps)[i];
        return Some(NotSorted(i));
      }
      lastSize := ps[i].size;
    }
    return None;
  }

  /** `t` is the tree of `ps`: the pieces in order, then zeros, in the least power of two that holds them. */
  ghost predicate Built(ps: seq<Piece>, pad: seq<Piece>, t: Tree, node: Combine, zero: nat -> Hash) {
    && Good(t, node) && Leaves(t) == ps + pad && Zeros(pad, zero)
    && Total(ps) <= t.size < 2 * Total(ps)
  }

  method BuildTree(ps: seq<Piece>, node: Combine, zero: nat -> Hash)
    returns (r: Result<Tree, BuildError>, ghost pad: seq<Piece>)
    requires forall i :: 0 <= i < |ps| ==> PowerOfTwo(ps[i].size)
    ensures r.Ok? <==> Acceptable(ps)
    ensures r.Ok? ==> Built(ps, pad, r.value, node, zero)
  {
    var refused := CheckPieces(ps);
    if refused.Some? {
      return Err(refused.value), [];
    }
    var stack := StackPieces(ps, node);
    var root;
    root, pad := Pad(stack, node, zero);
    HoldsThem(stack, root, ps, pad, node);
    return Ok(root), pad;
  }

  lemma {:induction false} HoldsThem(stack: seq<Tree>, root: Tree, ps: seq<Piece>, pad: seq<Piece>, node: Combine)
    requires Stacked(stack, node, ps) && Good(root, node) && Leaves(root) == ps + pad
    requires root.size == if |stack| == 1 then stack[0].size else 2 * stack[0].size
    ensures Total(ps) <= root.size < 2 * Total(ps)
  {
    FirstOfStack(stack, node);
    TreeTotal(root, node);
    TotalConcat(ps, pad);
    GoodSize(stack[0], node);
  }
}
