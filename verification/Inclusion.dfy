/**
  The inclusion proofs of an aggregate's pieces: the walk over the leaves of
  its tree, and the path of sibling commitments of each.
 */
module Inclusion {
  import opened Common
  import opened Sets
  import opened RootLayout
  import opened Merkle

  /** merkletree.ProofData. */
  datatype Proof = Proof(index: nat, path: seq<Hash>)

  // ------------------------------------------------------------- verification

  /** What a verifier computes from a leaf: odd indices are right nodes. */
  function Fold(node: Combine, h: Hash, index: nat, path: seq<Hash>): Hash {
    if path == [] then h
    else Fold(node, if index % 2 == 1 then node(path[0], h) else node(h, path[0]), index / 2, path[1..])
  }

  // ------------------------------------------------------------ where the walk is

  /** The index of the node reached by these turns from the root; true is right. */
  ghost function Index(turns: seq<bool>): nat {
    if turns == [] then 0
    else 2 * Index(turns[..|turns| - 1]) + if turns[|turns| - 1] then 1 else 0
  }

  function Child(t: Tree, right: bool): Tree
    requires t.Node?
  {
    if right then t.right else t.left
  }

  /** `parents` lead from `root` to `at` by `turns`. */
  ghost predicate Leads(root: Tree, parents: seq<Tree>, turns: seq<bool>, at: Tree)
    decreases |parents|
  {
    && |parents| == |turns|
    && if parents == [] then at == root
       else
         var n := |parents| - 1;
         && parents[n].Node? && at == Child(parents[n], turns[n])
         && Leads(root, parents[..n], turns[..n], parents[n])
  }

  lemma {:induction false} LeadsGood(root: Tree, parents: seq<Tree>, turns: seq<bool>, at: Tree, node: Combine)
    requires Leads(root, parents, turns, at) && Good(root, node)
    ensures Good(at, node)
    decreases |parents|
  {
    if parents != [] {
      var n := |parents| - 1;
      LeadsGood(root, parents[..n], turns[..n], parents[n], node);
    }
  }

  /** One turn further down. */
  lemma {:induction false} LeadsDown(root: Tree, parents: seq<Tree>, turns: seq<bool>, at: Tree, right: bool)
    requires Leads(root, parents, turns, at) && at.Node?
    ensures Leads(root, parents + [at], turns + [right], Child(at, right))
    ensures Index(turns + [right]) == 2 * Index(turns) + if right then 1 else 0
  {
  }

  /** The sibling commitments from `at` up to the root. */
  ghost function Siblings(parents: seq<Tree>, turns: seq<bool>): seq<Hash>
    requires |parents| == |turns| && forall i :: 0 <= i < |parents| ==> parents[i].Node?
    decreases |parents|
  {
    if parents == [] then []
    else
      var n := |parents| - 1;
      [Child(parents[n], !turns[n]).commP] + Siblings(parents[..n], turns[..n])
  }

  lemma {:induction false} AllNodes(root: Tree, parents: seq<Tree>, turns: seq<bool>, at: Tree)
    requires Leads(root, parents, turns, at)
    ensures forall i :: 0 <= i < |parents| ==> parents[i].Node?
    decreases |parents|
  {
    if parents != [] {
      var n := |parents| - 1;
      AllNodes(root, parents[..n], turns[..n], parents[n]);
      assert forall i :: 0 <= i < n ==> parents[..n][i] == parents[i];
    }
  }

  /** A verifier folding the siblings into a node's commitment arrives at the root's. */
  lemma {:induction false} SiblingsVerify(root: Tree, parents: seq<Tree>, turns: seq<bool>, at: Tree, node: Combine)
    requires Leads(root, parents, turns, at) && Good(root, node)
    ensures forall i :: 0 <= i < |parents| ==> parents[i].Node?
    ensures Fold(node, at.commP, Index(turns), Siblings(parents, turns)) == root.commP
    decreases |parents|
  {
    AllNodes(root, parents, turns, at);
    if parents != [] {
      var n := |parents| - 1;
      var up := parents[n];
      LeadsGood(root, parents[..n], turns[..n], up, node);
      SiblingsVerify(root, parents[..n], turns[..n], up, node);
      var path := Siblings(parents, turns);
      assert path[1..] == Siblings(parents[..n], turns[..n]);
      assert Index(turns) / 2 == Index(turns[..n]) && (Index(turns) % 2 == 1 <==> turns[n]);
      assert up.commP == if turns[n] then node(path[0], at.commP) else node(at.commP, path[0]);
    }
  }

  /** getProof: from the last parent up, the left child of a right node and the right of a left one. */
  method GetProof(parents: seq<Tree>, index: nat, ghost root: Tree, ghost turns: seq<bool>, ghost at: Tree)
    returns (path: seq<Hash>)
    requires Leads(root, parents, turns, at) && index == Index(turns)
    ensures (forall i :: 0 <= i < |parents| ==> parents[i].Node?) && path == Siblings(parents, turns)
  {
    AllNodes(root, parents, turns, at);
    path := [];
    var x := index;
    var i := |parents|;
    WholePrefix(parents);
    WholePrefix(turns);
    while i > 0
      invariant 0 <= i <= |parents| && x == Index(turns[..i])
      invariant Siblings(parents, turns) == path + Siblings(parents[..i], turns[..i])
    {
      i := i - 1;
      PrefixGrows(parents, i);
      PrefixGrows(turns, i);
      var sibling := if x % 2 == 1 then parents[i].left.commP else parents[i].right.commP;
      assert Siblings(parents[..i + 1], turns[..i + 1]) == [sibling] + Siblings(parents[..i], turns[..i]);
      path := path + [sibling];
      x := x / 2;
    }
  }

  // ----------------------------------------------------------------- the walk

  /** The leaves to the right of the node the turns lead to. */
  ghost function Ahead(parents: seq<Tree>, turns: seq<bool>): seq<Piece>
    requires |parents| == |turns| && forall i :: 0 <= i < |parents| ==> parents[i].Node?
    decreases |parents|
  {
    if parents == [] then []
    else
      var n := |parents| - 1;
      (if turns[n] then [] else Leaves(parents[n].right)) + Ahead(parents[..n], turns[..n])
  }

  /** Down to the left: the same leaves are left to visit, in the same order. */
  lemma {:induction false} AheadDown(root: Tree, parents: seq<Tree>, turns: seq<bool>, at: Tree)
    requires Leads(root, parents, turns, at) && at.Node?
    ensures forall i :: 0 <= i < |parents| ==> parents[i].Node?
    ensures forall i :: 0 <= i < |parents + [at]| ==> (parents + [at])[i].Node?
    ensures Leaves(at) + Ahead(parents, turns) == Leaves(at.left) + Ahead(parents + [at], turns + [false])
    ensures Ahead(parents + [at], turns + [true]) == Ahead(parents, turns)
  {
    AllNodes(root, parents, turns, at);
    assert (parents + [at])[..|parents|] == parents;
    assert (turns + [false])[..|turns|] == turns && (turns + [true])[..|turns|] == turns;
  }

  /** The walk is at `at`, past the first `seen` leaves: those ahead are under it and to its right. */
  ghost predicate Walking(root: Tree, parents: seq<Tree>, turns: seq<bool>, at: Tree, seen: nat) {
    && Leads(root, parents, turns, at) && (forall i :: 0 <= i < |parents| ==> parents[i].Node?)
    && seen <= |Leaves(root)| && Leaves(root)[seen..] == Leaves(at) + Ahead(parents, turns)
    && Index(turns) * at.size == Total(Leaves(root)[..seen])
  }

  /** As Walking, with all of `at` visited. */
  ghost predicate Passed(root: Tree, parents: seq<Tree>, turns: seq<bool>, at: Tree, seen: nat) {
    && Leads(root, parents, turns, at) && (forall i :: 0 <= i < |parents| ==> parents[i].Node?)
    && seen <= |Leaves(root)| && Leaves(root)[seen..] == Ahead(parents, turns)
    && (Index(turns) + 1) * at.size == Total(Leaves(root)[..seen])
  }

  lemma {:induction false} GoDown(root: Tree, parents: seq<Tree>, turns: seq<bool>, at: Tree, seen: nat, node: Combine)
    requires Good(root, node) && Walking(root, parents, turns, at, seen) && at.Node?
    ensures Walking(root, parents + [at], turns + [false], at.left, seen) && Index(turns + [false]) == 2 * Index(turns)
  {
    LeadsGood(root, parents, turns, at, node);
    LeadsDown(root, parents, turns, at, false);
    AheadDown(root, parents, turns, at);
    Halves(Index(turns), at.left.size);
  }

  lemma {:induction false} Halves(index: nat, half: nat)
    ensures (2 * index) * half == index * (2 * half)
    ensures (2 * index + 2) * half == (index + 1) * (2 * half)
    ensures (2 * index + 1) * half == index * (2 * half) + half
  {
  }

  lemma {:induction false} VisitLeaf(root: Tree, parents: seq<Tree>, turns: seq<bool>, at: Tree, seen: nat)
    requires Walking(root, parents, turns, at, seen) && at.Leaf?
    ensures seen < |Leaves(root)| && Leaves(root)[seen] == Piece(at.size, at.commP)
    ensures Passed(root, parents, turns, at, seen + 1)
  {
    var all := Leaves(root);
    assert all[seen..][0] == Piece(at.size, at.commP);
    assert all[seen + 1..] == all[seen..][1..];
    PrefixGrows(all, seen);
    assert (Index(turns) + 1) * at.size == Index(turns) * at.size + at.size;
  }

  lemma {:induction false} GoUp(root: Tree, parents: seq<Tree>, turns: seq<bool>, at: Tree, seen: nat, node: Combine)
    requires Good(root, node) && Passed(root, parents, turns, at, seen) && turns != [] && turns[|turns| - 1]
    ensures var n := |turns| - 1;
            Passed(root, parents[..n], turns[..n], parents[n], seen) && Index(turns) / 2 == Index(turns[..n])
  {
    var n := |turns| - 1;
    LeadsGood(root, parents[..n], turns[..n], parents[n], node);
    Halves(Index(turns[..n]), at.size);
  }

  lemma {:induction false} TurnRight(root: Tree, base: seq<Tree>, turns: seq<bool>, up: Tree, seen: nat, node: Combine)
    requires Good(root, node) && Leads(root, base, turns, up) && up.Node?
    requires forall i :: 0 <= i < |base| ==> base[i].Node?
    requires seen <= |Leaves(root)| && Leaves(root)[seen..] == Leaves(up.right) + Ahead(base, turns)
    requires (2 * Index(turns) + 1) * up.left.size == Total(Leaves(root)[..seen])
    ensures Walking(root, base + [up], turns + [true], up.right, seen) && Index(turns + [true]) == 2 * Index(turns) + 1
  {
    LeadsGood(root, base, turns, up, node);
    LeadsDown(root, base, turns, up, true);
    AheadDown(root, base, turns, up);
  }

  lemma {:induction false} GoRight(root: Tree, parents: seq<Tree>, turns: seq<bool>, at: Tree, seen: nat, node: Combine)
    requires Good(root, node) && Passed(root, parents, turns, at, seen) && turns != [] && !turns[|turns| - 1]
    ensures var n := |turns| - 1;
            Walking(root, parents, turns[..n] + [true], parents[n].right, seen)
              && Index(turns[..n] + [true]) == Index(turns) + 1
  {
    var n := |turns| - 1;
    TurnRight(root, parents[..n], turns[..n], parents[n], seen, node);
    PrefixGrows(parents, n);
    WholePrefix(parents);
  }

  lemma {:induction false} WalkStarts(root: Tree)
    ensures Walking(root, [], [], root, 0)
  {
  }

  lemma {:induction false} MoreAhead(root: Tree, parents: seq<Tree>, turns: seq<bool>, at: Tree, seen: nat)
    requires Passed(root, parents, turns, at, seen) && seen < |Leaves(root)|
    ensures parents != []
  {
  }

  /** Piece `k`'s proof verifies against the root, at the offset AddRoots records for it. */
  ghost predicate Proves(root: Tree, node: Combine, ps: seq<Piece>, k: nat, p: Proof)
    requires k < |ps|
  {
    && Fold(node, ps[k].commP, p.index, p.path) == root.commP
    && p.index * ps[k].size == Sum(SizesOf(ps), k)
  }

  ghost predicate AllProve(root: Tree, node: Combine, ps: seq<Piece>, proofs: seq<Proof>) {
    |proofs| <= |ps| && forall k :: 0 <= k < |proofs| ==> Proves(root, node, ps, k, proofs[k])
  }

  lemma {:induction false} ProveNext(root: Tree, node: Combine, ps: seq<Piece>, proofs: seq<Proof>, p: Proof)
    requires AllProve(root, node, ps, proofs) && |proofs| < |ps| && Proves(root, node, ps, |proofs|, p)
    ensures AllProve(root, node, ps, proofs + [p])
  {
  }

  lemma {:induction false} VisitProves(root: Tree, parents: seq<Tree>, turns: seq<bool>, at: Tree, node: Combine,
                                       ps: seq<Piece>, k: nat, p: Proof)
    requires Good(root, node) && Walking(root, parents, turns, at, k) && at.Leaf? && k < |ps| && ps <= Leaves(root)
    requires p == Proof(Index(turns), Siblings(parents, turns))
    ensures ps[k] == Piece(at.size, at.commP) && Proves(root, node, ps, k, p)
  {
    VisitLeaf(root, parents, turns, at, k);
    SiblingsVerify(root, parents, turns, at, node);
    TotalIsSum(ps, k);
    assert Leaves(root)[..k] == ps[..k];
  }

  /** Down to the left child. */
  method Descend(root: Tree, parents: seq<Tree>, index: nat, ghost turns: seq<bool>, at: Tree, ghost seen: nat,
                 ghost node: Combine) returns (down: seq<Tree>, i: nat, ghost ts: seq<bool>, next: Tree)
    requires Good(root, node) && Walking(root, parents, turns, at, seen) && index == Index(turns) && at.Node?
    ensures Walking(root, down, ts, next, seen) && i == Index(ts) && next == at.left
  {
    GoDown(root, parents, turns, at, seen, node);
    down, i, ts, next := parents + [at], index * 2, turns + [false], at.left;
  }

  /** From a visited node up to the first left one, then to its right sibling. */
  method Climb(root: Tree, parents: seq<Tree>, index: nat, ghost turns: seq<bool>, ghost at: Tree, ghost seen: nat,
               ghost node: Combine) returns (up: seq<Tree>, i: nat, ghost ts: seq<bool>, next: Tree)
    requires Good(root, node) && Passed(root, parents, turns, at, seen) && index == Index(turns)
             && seen < |Leaves(root)|
    ensures Walking(root, up, ts, next, seen) && i == Index(ts)
  {
    up, i, ts := parents, index, turns;
    ghost var here := at;
    while i % 2 == 1 && |up| > 0
      invariant Passed(root, up, ts, here, seen) && i == Index(ts)
      decreases |up|
    {
      GoUp(root, up, ts, here, seen, node);
      here, up, ts, i := up[|up| - 1], up[..|up| - 1], ts[..|ts| - 1], i / 2;
    }
    MoreAhead(root, up, ts, here, seen);
    GoRight(root, up, ts, here, seen, node);
    ts, next, i := ts[..|ts| - 1] + [true], up[|up| - 1].right, i + 1;
  }

  /** The visitor: the proof of the leaf the walk is at. */
  method Visit(root: Tree, parents: seq<Tree>, index: nat, ghost turns: seq<bool>, at: Tree, ghost node: Combine,
               ps: seq<Piece>, k: nat) returns (p: Proof)
    requires Good(root, node) && Walking(root, parents, turns, at, k) && index == Index(turns) && at.Leaf?
    requires k < |ps| && ps <= Leaves(root)
    ensures at.commP == ps[k].commP && Proves(root, node, ps, k, p)
    ensures Passed(root, parents, turns, at, k + 1)
  {
    var path := GetProof(parents, index, root, turns, at);
    p := Proof(index, path);
    VisitProves(root, parents, turns, at, node, ps, k, p);
    VisitLeaf(root, parents, turns, at, k);
  }

  /**
    visitLeaves with NewAggregate's visitor: a proof for every piece, in order.
    The pieces are the first leaves of the tree, so the visitor's check that
    leaf and piece agree never fails.
   */
  method ProvePieces(root: Tree, ps: seq<Piece>, node: Combine) returns (proofs: seq<Proof>)
    requires Good(root, node) && ps != [] && ps <= Leaves(root)
    ensures |proofs| == |ps| && AllProve(root, node, ps, proofs)
  {
    proofs := [];
    var parents: seq<Tree> := [];
    var index := 0;
    var at := root;
    ghost var turns: seq<bool> := [];
    WalkStarts(root);
    while true
      invariant Walking(root, parents, turns, at, |proofs|) && index == Index(turns)
      invariant |proofs| < |ps| && AllProve(root, node, ps, proofs)
      decreases |ps| - |proofs|, at
    {
      if at.Node? {
        parents, index, turns, at := Descend(root, parents, index, turns, at, |proofs|, node);
      } else {
        var p := Visit(root, parents, index, turns, at, node, ps, |proofs|);
        ProveNext(root, node, ps, proofs, p);
        proofs := proofs + [p];
        if |proofs| == |ps| {
          return;
        }
        parents, index, turns, at := Climb(root, parents, index, turns, at, |proofs|, node);
      }
    }
  }

  /** The root of an aggregate: the commitment of its tree and the size of its data. */
  datatype RootLink = RootLink(commP: Hash, dataSize: nat)

  datatype Made = Made(root: RootLink, tree: Tree, proofs: seq<Proof>)

  /**
    NewAggregate: refused, or the tree of the pieces and a valid inclusion proof
    of each. `padding` is what the last piece is padded by.
   */
  method NewAggregate(ps: seq<Piece>, padding: nat, node: Combine, zero: nat -> Hash)
    returns (r: Result<Made, BuildError>, ghost pad: seq<Piece>)
    requires forall i :: 0 <= i < |ps| ==> PowerOfTwo(ps[i].size)
    requires ps != [] ==> padding <= ps[|ps| - 1].size
    ensures r.Ok? <==> Acceptable(ps)
    ensures r.Ok? ==>
              && Built(ps, pad, r.value.tree, node, zero)
              && r.value.root == RootLink(r.value.tree.commP, Total(ps) - padding)
              && |r.value.proofs| == |ps| && AllProve(r.value.tree, node, ps, r.value.proofs)
  {
    var built;
    built, pad := BuildTree(ps, node, zero);
    if built.Err? {
      return Err(built.error), pad;
    }
    var proofs := ProvePieces(built.value, ps, node);
    var total := 0;
    for i := 0 to |ps|
      invariant total == Total(ps[..i])
    {
      PrefixGrows(ps, i);
      total := total + ps[i].size;
    }
    WholePrefix(ps);
    return Ok(Made(RootLink(built.value.commP, total - padding), built.value, proofs)), pad;
  }
}
