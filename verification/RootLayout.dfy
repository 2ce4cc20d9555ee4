/**
  Where the sub-pieces of a root lie: AddRoots gives each the sum of the sizes
  before it, through records shared by every root of the request.
 */
module RootLayout {
  import opened Common
  import opened Sets

  type Root(==, !new)
  type Sub(==, !new)

  datatype RootAdd = RootAdd(root: Root, subs: seq<Sub>)

  // ------------------------------------------------------------- arithmetic

  /** The offset of the sub-piece at `n`: the sizes before it. */
  function Sum(sizes: seq<nat>, n: nat): nat
    requires n <= |sizes|
  {
    if n == 0 then 0 else Sum(sizes, n - 1) + sizes[n - 1]
  }

  ghost predicate Descending(sizes: seq<nat>) {
    forall i, j :: 0 <= i < j < |sizes| ==> sizes[i] >= sizes[j]
  }

  ghost predicate PowerOfTwo(n: nat) {
    n == 1 || (n > 1 && n % 2 == 0 && PowerOfTwo(n / 2))
  }

  ghost predicate Divides(a: nat, b: nat) {
    exists k: nat :: b == k * a
  }

  lemma {:induction false} PowersDivide(a: nat, b: nat)
    requires PowerOfTwo(a) && PowerOfTwo(b) && a <= b
    ensures Divides(a, b)
    decreases b
  {
    if a == b {
      assert b == 1 * a;
    } else if a == 1 {
      assert b == b * a;
    } else {
      PowersDivide(a / 2, b / 2);
      var k: nat :| b / 2 == k * (a / 2);
      assert b == 2 * (k * (a / 2)) == k * (2 * (a / 2)) == k * a;
    }
  }

  lemma {:induction false} DividesSum(a: nat, sizes: seq<nat>, n: nat)
    requires n <= |sizes| && forall i :: 0 <= i < n ==> Divides(a, sizes[i])
    ensures Divides(a, Sum(sizes, n))
  {
    if n == 0 {
      assert Sum(sizes, 0) == 0 * a;
    } else {
      DividesSum(a, sizes, n - 1);
      var k: nat :| Sum(sizes, n - 1) == k * a;
      assert Divides(a, sizes[n - 1]);
      var m: nat :| sizes[n - 1] == m * a;
      assert Sum(sizes, n) == (k + m) * a;
    }
  }

  lemma {:induction false} SumGrows(sizes: seq<nat>, m: nat, n: nat)
    requires m <= n <= |sizes|
    ensures Sum(sizes, m) <= Sum(sizes, n)
  {
    if m < n {
      SumGrows(sizes, m, n - 1);
    }
  }

  /** Sub-piece `j` covers byte `x` of the root. */
  predicate Covers(sizes: seq<nat>, j: nat, x: nat)
    requires j < |sizes|
  {
    Sum(sizes, j) <= x < Sum(sizes, j) + sizes[j]
  }

  /** Every byte of the root is covered by exactly one sub-piece. */
  lemma {:induction false} Tiles(sizes: seq<nat>, n: nat, x: nat) returns (j: nat)
    requires n <= |sizes| && x < Sum(sizes, n)
    ensures j < n && Covers(sizes, j, x)
    ensures forall k :: 0 <= k < |sizes| && Covers(sizes, k, x) ==> k == j
  {
    if x >= Sum(sizes, n - 1) {
      j := n - 1;
    } else {
      j := Tiles(sizes, n - 1, x);
    }
    forall k | 0 <= k < |sizes| && Covers(sizes, k, x) ensures k == j {
      if k < j {
        SumGrows(sizes, k + 1, j);
      } else if j < k {
        SumGrows(sizes, j + 1, k);
      }
    }
  }

  /** With power-of-two sizes in descending order, every offset is a multiple of its own size. */
  lemma {:induction false} Aligned(sizes: seq<nat>, j: nat)
    requires Descending(sizes) && j < |sizes| && forall i :: 0 <= i < |sizes| ==> PowerOfTwo(sizes[i])
    ensures Divides(sizes[j], Sum(sizes, j))
  {
    forall i | 0 <= i < j ensures Divides(sizes[j], sizes[i]) {
      PowersDivide(sizes[j], sizes[i]);
    }
    DividesSum(sizes[j], sizes, j);
  }

  // --------------------------------------------------------- the request checks

  /** Place `k` of root `i` comes before place `m` of root `n`. */
  ghost predicate Before(request: seq<RootAdd>, i: int, k: int, n: int, m: int) {
    0 <= i < |request| && 0 <= k < |request[i].subs| && (i < n || (i == n && k < m))
  }

  /** No sub-piece is at two places before place `m` of root `n`. */
  ghost predicate NoRepeatBefore(request: seq<RootAdd>, n: int, m: int) {
    forall i, k, j, l ::
      Before(request, i, k, n, m) && Before(request, j, l, n, m) && request[i].subs[k] == request[j].subs[l] ==>
        i == j && k == l
  }

  ghost predicate NoRepeat(request: seq<RootAdd>) {
    NoRepeatBefore(request, |request|, 0)
  }

  /** `seen` is the sub-pieces before place `m` of root `n`. */
  ghost predicate Seen(request: seq<RootAdd>, n: int, m: int, seen: set<Sub>) {
    && (forall i, k :: Before(request, i, k, n, m) ==> request[i].subs[k] in seen)
    && (forall s :: s in seen ==> At(request, n, m, s))
  }

  ghost predicate At(request: seq<RootAdd>, n: int, m: int, s: Sub) {
    exists i, k :: Before(request, i, k, n, m) && request[i].subs[k] == s
  }

  ghost predicate WellFormed(request: seq<RootAdd>) {
    request != [] && NoRepeat(request) && forall i :: 0 <= i < |request| ==> request[i].subs != []
  }

  lemma {:induction false} SeeNext(request: seq<RootAdd>, n: nat, m: nat, seen: set<Sub>)
    requires n < |request| && m < |request[n].subs| && Seen(request, n, m, seen) && NoRepeatBefore(request, n, m)
    ensures request[n].subs[m] in seen ==> !NoRepeatBefore(request, |request|, 0)
    ensures request[n].subs[m] !in seen ==>
              Seen(request, n, m + 1, seen + {request[n].subs[m]}) && NoRepeatBefore(request, n, m + 1)
  {
  }

  lemma {:induction false} NextRoot(request: seq<RootAdd>, n: nat, seen: set<Sub>)
    requires n < |request| && Seen(request, n, |request[n].subs|, seen) && NoRepeatBefore(request, n, |request[n].subs|)
    ensures Seen(request, n + 1, 0, seen) && NoRepeatBefore(request, n + 1, 0)
  {
  }

  /** Refuses exactly the empty requests, those with a root without sub-pieces, and those repeating a sub-piece. */
  method CheckRequest(request: seq<RootAdd>) returns (ok: bool)
    ensures ok <==> WellFormed(request)
  {
    if |request| == 0 {
      return false;
    }
    var seen: set<Sub> := {};
    for n := 0 to |request|
      invariant Seen(request, n, 0, seen) && NoRepeatBefore(request, n, 0)
      invariant forall i :: 0 <= i < n ==> request[i].subs != []
    {
      if |request[n].subs| == 0 {
        return false;
      }
      for m := 0 to |request[n].subs|
        invariant Seen(request, n, m, seen) && NoRepeatBefore(request, n, m)
      {
        SeeNext(request, n, m, seen);
        if request[n].subs[m] in seen {
          return false;
        }
        seen := seen + {request[n].subs[m]};
      }
      NextRoot(request, n, seen);
    }
    return true;
  }

  // ---------------------------------------------------------------- offsets

  /** A sub-piece being added: one record, reached from every place of the request that names it. */
  class SubrootPiece {
    const size: nat
    const ref: int
    var offset: nat

    constructor (size: nat, ref: int)
      ensures this.size == size && this.ref == ref
    {
      this.size, this.ref, offset := size, ref, 0;
    }
  }

  type Infos = map<Sub, SubrootPiece>

  /** Each sub-piece has its own record. */
  ghost predicate Separate(infos: Infos) {
    forall a, b :: a in infos && b in infos && infos[a] == infos[b] ==> a == b
  }

  predicate Known(infos: Infos, subs: seq<Sub>) {
    forall s :: s in subs ==> s in infos
  }

  function SizeOf(infos: Infos, s: Sub): nat {
    if s in infos then infos[s].size else 0
  }

  function Sizes(infos: Infos, subs: seq<Sub>): seq<nat> {
    seq(|subs|, i requires 0 <= i < |subs| => SizeOf(infos, subs[i]))
  }

  /** The records of the places before place `m` of root `n` hold their offsets. */
  ghost predicate LaidOut(infos: Infos, request: seq<RootAdd>, n: int, m: int)
    reads infos.Values
  {
    forall i, k :: Before(request, i, k, n, m) ==> Placed(infos, request[i].subs, k)
  }

  ghost predicate Placed(infos: Infos, subs: seq<Sub>, k: nat)
    requires k < |subs|
    reads infos.Values
  {
    subs[k] in infos && infos[subs[k]].offset == Sum(Sizes(infos, subs), k)
  }

  /** The root's own checks: every sub-piece is parked and together they make the root. */
  predicate Makes(infos: Infos, r: RootAdd, generate: (seq<Sub>, seq<nat>) -> Option<Root>) {
    Known(infos, r.subs) && generate(r.subs, Sizes(infos, r.subs)) == Some(r.root)
  }

  /** Lays out every root; a root does not disturb another's offsets because no sub-piece repeats. */
  method LayOut(infos: Infos, request: seq<RootAdd>, generate: (seq<Sub>, seq<nat>) -> Option<Root>) returns (ok: bool)
    requires Separate(infos) && NoRepeat(request)
    modifies infos.Values
    ensures ok <==> forall i :: 0 <= i < |request| ==> Makes(infos, request[i], generate)
    ensures ok ==> LaidOut(infos, request, |request|, 0)
  {
    for n := 0 to |request|
      invariant LaidOut(infos, request, n, 0)
      invariant forall i :: 0 <= i < n ==> Makes(infos, request[i], generate)
    {
      var subs := request[n].subs;
      var totalOffset := 0;
      for m := 0 to |subs|
        invariant LaidOut(infos, request, n, m) && totalOffset == Sum(Sizes(infos, subs), m)
        invariant forall k :: 0 <= k < m ==> subs[k] in infos
      {
        if subs[m] !in infos {
          return false;
        }
        NoneElsewhere(request, n, m);
        infos[subs[m]].offset := totalOffset;
        assert Placed(infos, subs, m);
        forall i, k | Before(request, i, k, n, m + 1) ensures Placed(infos, request[i].subs, k) {
          assert (i == n && k == m) || Before(request, i, k, n, m);
        }
        totalOffset := totalOffset + infos[subs[m]].size;
      }
      forall i, k | Before(request, i, k, n + 1, 0) ensures Before(request, i, k, n, |subs|) {
      }
      if generate(subs, Sizes(infos, subs)) != Some(request[n].root) {
        return false;
      }
    }
    return true;
  }

  lemma {:induction false} NoneElsewhere(request: seq<RootAdd>, n: nat, m: nat)
    requires NoRepeat(request) && n < |request| && m < |request[n].subs|
    ensures forall i, k :: Before(request, i, k, n, m) ==> request[i].subs[k] != request[n].subs[m]
  {
  }

  /** The descending-size check over one root. */
  method CheckDescending(infos: Infos, subs: seq<Sub>) returns (ok: bool)
    requires subs != [] && Known(infos, subs)
    ensures ok <==> Descending(Sizes(infos, subs))
  {
    var prev := infos[subs[0]].size;
    var sizes := Sizes(infos, subs);
    for i := 0 to |subs|
      invariant prev == sizes[if i == 0 then 0 else i - 1]
      invariant Descending(sizes[..i])
    {
      assert subs[i] in subs;
      if infos[subs[i]].size > prev {
        assert i > 0 && sizes[i - 1] < sizes[i];
        return false;
      }
      prev := infos[subs[i]].size;
    }
    assert sizes[..|subs|] == sizes;
    return true;
  }
}
