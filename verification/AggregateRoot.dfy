/**
  What the root of an aggregate says about its pieces: they determine it, but
  it does not determine them. A piece and the pair of its halves have one root.
 */
module AggregateRoot {
  import opened Sets
  import opened RootLayout
  import opened Merkle
  import opened Inclusion

  // --------------------------------------------- the pieces determine the tree

  lemma {:induction false} LeavesPositive(t: Tree, node: Combine)
    requires Good(t, node)
    ensures Leaves(t) != [] && forall i :: 0 <= i < |Leaves(t)| ==> Leaves(t)[i].size > 0
  {
    if t.Node? {
      LeavesPositive(t.left, node);
      LeavesPositive(t.right, node);
    }
  }

  /** Positive sizes: a longer prefix has a larger total. */
  lemma {:induction false} LongerIsLarger(s: seq<Piece>, m: nat, n: nat)
    requires m < n <= |s| && forall i :: 0 <= i < |s| ==> s[i].size > 0
    ensures Total(s[..m]) < Total(s[..n])
  {
    assert s[..n][..n - 1] == s[..n - 1];
    if m < n - 1 { LongerIsLarger(s, m, n - 1); }
  }

  /** A perfect tree is determined by its leaves. */
  lemma {:induction false} SameLeavesSameTree(t: Tree, u: Tree, node: Combine)
    requires Good(t, node) && Good(u, node) && Leaves(t) == Leaves(u)
    ensures t == u
  {
    TreeTotal(t, node);
    TreeTotal(u, node);
    LeavesPositive(t, node);
    if t.Node? && u.Node? {
      SameHalves(t, u, node);
      SameLeavesSameTree(t.left, u.left, node);
      SameLeavesSameTree(t.right, u.right, node);
    } else if t.Node? {
      LeavesPositive(t.left, node);
      LeavesPositive(t.right, node);
    } else if u.Node? {
      LeavesPositive(u.left, node);
      LeavesPositive(u.right, node);
    }
  }

  lemma {:induction false} SameHalves(t: Tree, u: Tree, node: Combine)
    requires Good(t, node) && Good(u, node) && t.Node? && u.Node? && Leaves(t) == Leaves(u) && t.size == u.size
    ensures Leaves(t.left) == Leaves(u.left) && Leaves(t.right) == Leaves(u.right)
  {
    var all := Leaves(t);
    TreeTotal(t.left, node);
    TreeTotal(u.left, node);
    LeavesPositive(t, node);
    assert all[..|Leaves(t.left)|] == Leaves(t.left) && all[..|Leaves(u.left)|] == Leaves(u.left);
    var m, n := |Leaves(t.left)|, |Leaves(u.left)|;
    if m < n { LongerIsLarger(all, m, n); }
    if n < m { LongerIsLarger(all, n, m); }
    assert all[|Leaves(t.left)|..] == Leaves(t.right) && all[|Leaves(u.left)|..] == Leaves(u.right);
  }

  /** Distinct powers of two sum to less than twice the largest. */
  lemma {:induction false} BelowTwice(pad: seq<Piece>, zero: nat -> Hash)
    requires pad != [] && Zeros(pad, zero)
    ensures pad[|pad| - 1].size <= Total(pad) < 2 * pad[|pad| - 1].size
    decreases |pad|
  {
    var n := |pad| - 1;
    if n > 0 {
      BelowTwice(pad[..n], zero);
      AtLeastTwice(pad[n].size, pad[n - 1].size);
    } else {
      assert pad[..n] == [];
    }
  }

  /** Two powers of two that bound one number from below within a factor of two are the same. */
  lemma {:induction false} SamePower(a: nat, b: nat, n: nat)
    requires PowerOfTwo(a) && PowerOfTwo(b) && a <= n < 2 * a && b <= n < 2 * b
    ensures a == b
  {
    if a > b { AtLeastTwice(a, b); }
    if b > a { AtLeastTwice(b, a); }
  }

  lemma {:induction false} SameZeros(pad: seq<Piece>, other: seq<Piece>, zero: nat -> Hash)
    requires Zeros(pad, zero) && Zeros(other, zero) && Total(pad) == Total(other)
    ensures pad == other
    decreases |pad|
  {
    if pad != [] && other != [] {
      var m, n := |pad| - 1, |other| - 1;
      BelowTwice(pad, zero);
      BelowTwice(other, zero);
      SamePower(pad[m].size, other[n].size, Total(pad));
      SameZeros(pad[..m], other[..n], zero);
      PrefixGrows(pad, m);
      PrefixGrows(other, n);
      WholePrefix(pad);
      WholePrefix(other);
    } else if pad != [] {
      BelowTwice(pad, zero);
    } else if other != [] {
      BelowTwice(other, zero);
    }
  }

  /** The pieces determine the tree, so the root as well. */
  lemma {:induction false} PiecesDetermineTree(
    ps: seq<Piece>, t: Tree, pad: seq<Piece>, u: Tree, other: seq<Piece>, node: Combine, zero: nat -> Hash)
    requires Built(ps, pad, t, node, zero) && Built(ps, other, u, node, zero)
    ensures t == u
  {
    GoodSize(t, node);
    GoodSize(u, node);
    SameTop(t.size, u.size, Total(ps));
    TreeTotal(t, node);
    TreeTotal(u, node);
    TotalConcat(ps, pad);
    TotalConcat(ps, other);
    SameZeros(pad, other, zero);
    SameLeavesSameTree(t, u, node);
  }

  lemma {:induction false} SameTop(a: nat, b: nat, n: nat)
    requires PowerOfTwo(a) && PowerOfTwo(b) && n <= a < 2 * n && n <= b < 2 * n
    ensures a == b
  {
    if a > b { AtLeastTwice(a, b); }
    if b > a { AtLeastTwice(b, a); }
  }

  // -------------------------------------- the root does not determine the pieces

  /** A single piece is its own tree. */
  lemma {:induction false} TreeOfOne(c: Piece, pad: seq<Piece>, t: Tree, node: Combine, zero: nat -> Hash)
    requires PowerOfTwo(c.size) && Built([c], pad, t, node, zero)
    ensures t == Leaf(c.size, c.commP)
  {
    var one := Leaf(c.size, c.commP);
    assert [c][..0] == [];
    assert Built([c], [], one, node, zero);
    PiecesDetermineTree([c], t, pad, one, [], node, zero);
  }

  lemma {:induction false} TwoTotal(a: Piece, b: Piece)
    ensures Total([a, b]) == a.size + b.size
  {
    assert [a, b] == [a] + [b] && [a][..0] == [] && [b][..0] == [];
    TotalConcat([a], [b]);
  }

  /** Two equal pieces are the halves of their tree. */
  lemma {:induction false} TreeOfTwo(a: Piece, b: Piece, pad: seq<Piece>, t: Tree, node: Combine, zero: nat -> Hash)
    requires PowerOfTwo(a.size) && a.size == b.size && Built([a, b], pad, t, node, zero)
    ensures t.commP == node(a.commP, b.commP) && t.size == 2 * a.size
  {
    var two := Combined(Leaf(a.size, a.commP), Leaf(b.size, b.commP), node);
    TwoTotal(a, b);
    assert Good(two.left, node) && Good(two.right, node);
    assert Leaves(two) == [a, b] + [];
    assert Built([a, b], [], two, node, zero);
    PiecesDetermineTree([a, b], t, pad, two, [], node, zero);
  }

  /**
    A piece whose data is that of `a` followed by that of `b`, equal in size,
    has their commitment; folded alone and as the pair they have one root, and
    yet are not the same pieces.
   */
  lemma {:induction false} HalvesShareRoot(
    a: Piece, b: Piece, c: Piece, padding: nat, node: Combine, zero: nat -> Hash,
    t: Tree, pad: seq<Piece>, u: Tree, other: seq<Piece>)
    requires PowerOfTwo(a.size) && a.size == b.size && c.size == 2 * a.size && c.commP == node(a.commP, b.commP)
    requires padding <= b.size && Built([c], pad, t, node, zero) && Built([a, b], other, u, node, zero)
    ensures RootLink(t.commP, Total([c]) - padding) == RootLink(u.commP, Total([a, b]) - padding)
    ensures [c] != [a, b]
  {
    assert c.size / 2 == a.size;
    TreeOfOne(c, pad, t, node, zero);
    TreeOfTwo(a, b, other, u, node, zero);
    TwoTotal(a, b);
    assert [c][..0] == [];
  }
}
