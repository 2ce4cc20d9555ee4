/**
  Ordering a set of delegations root to leaf: the walk from the one delegation
  whose issuer is nobody's audience, following audience to issuer.
 */
module ProofChain {
  import opened Common
  import opened Sets

  type Did(==, !new)
  type Cid(==, !new)

  datatype Delegation = Delegation(cid: Cid, issuer: Did, audience: Did)

  datatype ChainError = Branched | MultipleRoots | NoRoot | Disconnected

  // ------------------------------------------------------------------ chains

  ghost predicate DistinctIssuers(ds: seq<Delegation>) {
    forall i, j :: 0 <= i < j < |ds| ==> ds[i].issuer != ds[j].issuer
  }

  ghost predicate DistinctAudiences(ds: seq<Delegation>) {
    forall i, j :: 0 <= i < j < |ds| ==> ds[i].audience != ds[j].audience
  }

  ghost predicate IsAudience(ds: seq<Delegation>, d: Did) {
    exists i :: 0 <= i < |ds| && ds[i].audience == d
  }

  ghost predicate IsRoot(ds: seq<Delegation>, d: Delegation) {
    d in ds && !IsAudience(ds, d.issuer)
  }

  ghost predicate OneRoot(ds: seq<Delegation>) {
    exists d :: IsRoot(ds, d) && forall e :: IsRoot(ds, e) ==> e == d
  }

  /** Each delegation's audience issues the next, no issuer repeats, and the first issuer is nobody's audience. */
  ghost predicate OpenChain(p: seq<Delegation>) {
    && p != [] && DistinctIssuers(p)
    && (forall i :: 0 <= i < |p| - 1 ==> p[i].audience == p[i + 1].issuer)
    && !IsAudience(p, p[0].issuer)
  }

  /** `p` arranges `ds` as an open chain. */
  ghost predicate Arranges(p: seq<Delegation>, ds: seq<Delegation>) {
    OpenChain(p) && multiset(p) == multiset(ds)
  }

  lemma {:induction false} SameElements<T>(a: seq<T>, b: seq<T>)
    requires multiset(a) == multiset(b)
    ensures |a| == |b| && forall x :: x in a <==> x in b
  {
    assert |multiset(a)| == |multiset(b)|;
    forall x ensures x in a <==> x in b {
      assert x in a <==> x in multiset(a);
      assert x in b <==> x in multiset(b);
    }
  }

  lemma {:induction false} DistinctMultiset<T>(a: seq<T>, b: seq<T>)
    requires forall i, j :: 0 <= i < j < |a| ==> a[i] != a[j]
    requires forall i, j :: 0 <= i < j < |b| ==> b[i] != b[j]
    requires forall x :: x in a ==> x in b
    requires |a| == |b|
    ensures multiset(a) == multiset(b)
  {
    DistinctSize(a);
    DistinctSize(b);
    var sa, sb := set x | x in a, set x | x in b;
    SameSize(sa, sb);
    forall x ensures multiset(a)[x] == multiset(b)[x] {
      OnceEach(a, x);
      OnceEach(b, x);
      assert x in sa <==> x in sb;
    }
  }

  lemma {:induction false} OnceEach<T>(a: seq<T>, x: T)
    requires forall i, j :: 0 <= i < j < |a| ==> a[i] != a[j]
    ensures multiset(a)[x] == if x in a then 1 else 0
    decreases |a|
  {
    if a != [] {
      var n := |a| - 1;
      assert a == a[..n] + [a[n]];
      OnceEach(a[..n], x);
    }
  }

  /** An arrangement starts at a root, and every other delegation's issuer is an audience. */
  lemma {:induction false} ArrangedRoot(p: seq<Delegation>, ds: seq<Delegation>)
    requires Arranges(p, ds)
    ensures IsRoot(ds, p[0]) && forall e :: IsRoot(ds, e) ==> e == p[0]
    ensures DistinctIssuers(ds)
  {
    SameElements(p, ds);
    assert p[0] in p;
    forall d ensures IsAudience(ds, d) <==> IsAudience(p, d) {
      if IsAudience(p, d) {
        var i :| 0 <= i < |p| && p[i].audience == d;
        assert p[i] in ds;
      }
      if IsAudience(ds, d) {
        var i :| 0 <= i < |ds| && ds[i].audience == d;
        assert ds[i] in p;
      }
    }
    forall i | 0 < i < |p| ensures IsAudience(p, p[i].issuer) {
      assert p[i - 1].audience == p[i - 1 + 1].issuer;
    }
    forall e | IsRoot(ds, e) ensures e == p[0] {
      assert e in p;
    }
    ArrangedIssuers(p, ds);
  }

  lemma {:induction false} ArrangedIssuers(p: seq<Delegation>, ds: seq<Delegation>)
    requires Arranges(p, ds)
    ensures DistinctIssuers(ds)
  {
    SameElements(p, ds);
    forall i, j | 0 <= i < j < |ds| ensures ds[i].issuer != ds[j].issuer {
      if ds[i] == ds[j] {
        Twice(ds, i, j);
        var a :| 0 <= a < |p| && p[a] == ds[i];
        OnceEach(p, ds[i]);
        assert false;
      } else {
        assert ds[i] in p && ds[j] in p;
        var a :| 0 <= a < |p| && p[a] == ds[i];
        var b :| 0 <= b < |p| && p[b] == ds[j];
      }
    }
  }

  lemma {:induction false} Twice<T>(s: seq<T>, i: nat, j: nat)
    requires i < j < |s| && s[i] == s[j]
    ensures multiset(s)[s[i]] >= 2
  {
    assert s == s[..i] + [s[i]] + s[i + 1..j] + [s[j]] + s[j + 1..];
  }

  /** There is at most one arrangement, whatever order the delegations come in. */
  lemma {:induction false} ArrangementUnique(p: seq<Delegation>, q: seq<Delegation>, ds: seq<Delegation>)
    requires Arranges(p, ds) && Arranges(q, ds)
    ensures p == q
  {
    SameElements(p, ds);
    SameElements(q, ds);
    ArrangedRoot(p, ds);
    ArrangedRoot(q, ds);
    for i := 1 to |p|
      invariant forall k :: 0 <= k < i ==> p[k] == q[k]
    {
      assert p[i].issuer == p[i - 1].audience == q[i - 1].audience == q[i].issuer;
      assert p[i] in p && p[i] in q;
      var k :| 0 <= k < |q| && q[k] == p[i];
      assert k == i;
    }
  }

  // ------------------------------------------------------------------ the walk

  /** `m` finds the delegation of `ds` each issuer issued. */
  ghost predicate ByIssuer(m: map<Did, Delegation>, ds: seq<Delegation>) {
    && (forall d :: d in ds ==> d.issuer in m && m[d.issuer] == d)
    && (forall i :: i in m ==> m[i] in ds && m[i].issuer == i)
  }

  method IndexIssuers(ds: seq<Delegation>) returns (r: Result<map<Did, Delegation>, ChainError>, audiences: set<Did>)
    ensures r.Ok? <==> DistinctIssuers(ds)
    ensures r.Ok? ==> ByIssuer(r.value, ds) && forall d :: d in audiences <==> IsAudience(ds, d)
    ensures r.Err? ==> r.error == Branched
  {
    var m: map<Did, Delegation> := map[];
    audiences := {};
    for n := 0 to |ds|
      invariant DistinctIssuers(ds[..n])
      invariant forall i :: 0 <= i < n ==> ds[i].issuer in m && m[ds[i].issuer] == ds[i]
      invariant forall x :: x in m ==> exists i :: 0 <= i < n && ds[i] == m[x] && ds[i].issuer == x
      invariant forall x :: x in audiences <==> exists i :: 0 <= i < n && ds[i].audience == x
    {
      var d := ds[n];
      if d.issuer in m {
        var i :| 0 <= i < n && ds[i] == m[d.issuer] && ds[i].issuer == d.issuer;
        return Err(Branched), audiences;
      }
      m := m[d.issuer := d];
      audiences := audiences + {d.audience};
    }
    WholePrefix(ds);
    return Ok(m), audiences;
  }

  /** `d` is a delegation nobody's audience issued. */
  predicate Rootless(ds: seq<Delegation>, audiences: set<Did>, d: Delegation) {
    d in ds && d.issuer !in audiences
  }

  method FindRoot(ds: seq<Delegation>, audiences: set<Did>) returns (r: Result<Delegation, ChainError>)
    requires DistinctIssuers(ds)
    ensures r.Ok? ==> Rootless(ds, audiences, r.value) && forall e :: Rootless(ds, audiences, e) ==> e == r.value
    ensures r.Err? ==> r.error == NoRoot || r.error == MultipleRoots
    ensures r == Err(NoRoot) ==> forall e :: !Rootless(ds, audiences, e)
    ensures r == Err(MultipleRoots) ==>
              exists a, b :: a != b && Rootless(ds, audiences, a) && Rootless(ds, audiences, b)
  {
    var root: Option<Delegation> := None;
    ghost var at := 0;
    for n := 0 to |ds|
      invariant root == None ==> forall i :: 0 <= i < n ==> ds[i].issuer in audiences
      invariant root.Some? ==> at < n && ds[at] == root.value && root.value.issuer !in audiences
      invariant root.Some? ==> forall i :: 0 <= i < n && i != at ==> ds[i].issuer in audiences
    {
      var d := ds[n];
      if d.issuer in audiences {
        continue;
      }
      if root.Some? {
        assert ds[at].issuer != ds[n].issuer;
        assert Rootless(ds, audiences, d) && Rootless(ds, audiences, root.value);
        return Err(MultipleRoots);
      }
      root, at := Some(d), n;
    }
    if root == None {
      return Err(NoRoot);
    }
    return Ok(root.value);
  }

  lemma {:induction false} RootsAre(ds: seq<Delegation>, audiences: set<Did>)
    requires forall d :: d in audiences <==> IsAudience(ds, d)
    ensures forall d :: IsRoot(ds, d) <==> Rootless(ds, audiences, d)
  {
  }

  /** The walk's steps so far: from the root, each delegation followed by the one its audience issued. */
  ghost predicate Walked(ds: seq<Delegation>, root: Delegation, w: seq<Delegation>) {
    && w != [] && w[0] == root
    && (forall i :: 0 <= i < |w| ==> w[i] in ds)
    && forall i :: 0 <= i < |w| - 1 ==> w[i].audience == w[i + 1].issuer
  }

  /** With distinct audiences a walk visits no delegation twice. */
  lemma {:induction false} WalkIsSimple(ds: seq<Delegation>, root: Delegation, w: seq<Delegation>)
    requires DistinctIssuers(ds) && DistinctAudiences(ds) && IsRoot(ds, root) && Walked(ds, root, w)
    ensures DistinctIssuers(w) && |w| <= |ds|
    decreases |w|
  {
    if |w| > 1 {
      var n := |w| - 1;
      WalkIsSimple(ds, root, w[..n]);
      forall j | 0 <= j < n ensures w[j].issuer != w[n].issuer {
        assert w[n - 1].audience == w[n - 1 + 1].issuer;
        if j == 0 {
          NotAudience(ds, root, w[n - 1]);
        } else {
          assert w[j - 1].audience == w[j - 1 + 1].issuer;
          assert w[..n][j - 1].issuer != w[..n][n - 1].issuer;
          AudiencesDiffer(ds, w[j - 1], w[n - 1]);
        }
      }
    }
    Fits(ds, w);
  }

  lemma {:induction false} NotAudience(ds: seq<Delegation>, root: Delegation, d: Delegation)
    requires IsRoot(ds, root) && d in ds
    ensures d.audience != root.issuer
  {
  }

  lemma {:induction false} AudiencesDiffer(ds: seq<Delegation>, a: Delegation, b: Delegation)
    requires DistinctAudiences(ds) && a in ds && b in ds && a != b
    ensures a.audience != b.audience
  {
  }

  lemma {:induction false} Fits(ds: seq<Delegation>, w: seq<Delegation>)
    requires DistinctIssuers(ds) && DistinctIssuers(w) && forall i :: 0 <= i < |w| ==> w[i] in ds
    ensures |w| <= |ds|
  {
    DistinctSize(w);
    DistinctSize(ds);
    SubsetSize(set x | x in w, set x | x in ds);
  }

  /** A walk that has ended is every arrangement there is. */
  lemma {:induction false} EndedWalkDecides(ds: seq<Delegation>, root: Delegation, w: seq<Delegation>,
                                            q: seq<Delegation>)
    requires DistinctIssuers(ds) && DistinctAudiences(ds) && IsRoot(ds, root) && Walked(ds, root, w)
    requires forall d :: d in ds ==> d.issuer != w[|w| - 1].audience
    requires Arranges(q, ds)
    ensures |w| == |ds|
  {
    SameElements(q, ds);
    ArrangedRoot(q, ds);
    WalkIsSimple(ds, root, w);
    for i := 1 to |w|
      invariant forall k :: 0 <= k < i ==> q[k] == w[k]
    {
      assert w[i - 1].audience == w[i - 1 + 1].issuer && q[i - 1].audience == q[i - 1 + 1].issuer;
      assert w[i] in q;
      var k :| 0 <= k < |q| && q[k] == w[i];
      assert k == i;
    }
    forall i | 0 <= i < |q| - 1 ensures q[i].audience != w[|w| - 1].audience {
      assert q[i].audience == q[i + 1].issuer && q[i + 1] in ds;
    }
  }

  /** The checks refuse the delegations before the walk. */
  ghost predicate Refused(ds: seq<Delegation>) {
    !DistinctIssuers(ds) || !OneRoot(ds)
  }

  /** The inputs on which the walk ends, or is not reached. */
  ghost predicate Stops(ds: seq<Delegation>) {
    |ds| <= 1 || Refused(ds) || DistinctAudiences(ds)
  }

  /**
    Succeeds on two or more delegations exactly when they can be arranged as
    one open chain, and then returns the only arrangement.
   */
  method OrderProofChain(ds: seq<Delegation>) returns (r: Result<seq<Delegation>, ChainError>)
    requires Stops(ds)
    ensures |ds| <= 1 ==> r == Ok(ds)
    ensures |ds| > 1 ==> (r.Ok? <==> exists p :: Arranges(p, ds))
    ensures |ds| > 1 && r.Ok? ==> forall p :: Arranges(p, ds) <==> p == r.value
    ensures |ds| > 1 && r.Err? ==>
              (r.error.Branched? <==> !DistinctIssuers(ds)) && (r.error.Disconnected? <==> !Refused(ds))
  {
    if |ds| <= 1 {
      return Ok(ds);
    }
    forall p | Arranges(p, ds) ensures !Refused(ds) {
      ArrangedRoot(p, ds);
    }
    var indexed, audiences := IndexIssuers(ds);
    if indexed.Err? {
      return Err(indexed.error);
    }
    RootsAre(ds, audiences);
    var found := FindRoot(ds, audiences);
    if found.Err? {
      return Err(found.error);
    }
    var root := found.value;
    var ordered := Walk(ds, root, indexed.value);
    forall p | Arranges(p, ds) ensures |ordered| == |ds| {
      EndedWalkDecides(ds, root, ordered, p);
    }
    if |ordered| != |ds| {
      return Err(Disconnected);
    }
    WalkArranges(ds, root, ordered);
    forall p | Arranges(p, ds) ensures p == ordered {
      ArrangementUnique(p, ordered, ds);
    }
    return Ok(ordered);
  }

  lemma {:induction false} WalkArranges(ds: seq<Delegation>, root: Delegation, w: seq<Delegation>)
    requires DistinctIssuers(ds) && IsRoot(ds, root) && Walked(ds, root, w) && DistinctIssuers(w) && |w| == |ds|
    ensures Arranges(w, ds)
  {
    DistinctMultiset(w, ds);
    forall i | 0 <= i < |w| ensures w[i].audience != root.issuer {
      NotAudience(ds, root, w[i]);
    }
  }

  method Walk(ds: seq<Delegation>, root: Delegation, byIssuer: map<Did, Delegation>) returns (ordered: seq<Delegation>)
    requires DistinctIssuers(ds) && DistinctAudiences(ds) && IsRoot(ds, root) && ByIssuer(byIssuer, ds)
    ensures Walked(ds, root, ordered) && DistinctIssuers(ordered)
    ensures forall d :: d in ds ==> d.issuer != ordered[|ordered| - 1].audience
  {
    ordered := [root];
    while true
      invariant Walked(ds, root, ordered) && DistinctIssuers(ordered)
      decreases |ds| - |ordered|
    {
      WalkIsSimple(ds, root, ordered);
      var cur := ordered[|ordered| - 1];
      if cur.audience !in byIssuer {
        break;
      }
      ordered := ordered + [byIssuer[cur.audience]];
      WalkIsSimple(ds, root, ordered);
    }
  }

  // ---------------------------------------------------------- where it does not stop

  function Audiences(ds: seq<Delegation>): set<Did> {
    set d | d in ds :: d.audience
  }

  function Issuers(ds: seq<Delegation>): set<Did> {
    set d | d in ds :: d.issuer
  }

  lemma {:induction false} AudiencesFew(ds: seq<Delegation>)
    ensures |Audiences(ds)| <= |ds|
    decreases |ds|
  {
    if ds != [] {
      var n := |ds| - 1;
      assert ds == ds[..n] + [ds[n]];
      assert Audiences(ds) == Audiences(ds[..n]) + {ds[n].audience};
      AudiencesFew(ds[..n]);
    }
  }

  lemma {:induction false} IssuersMany(ds: seq<Delegation>)
    requires DistinctIssuers(ds)
    ensures |Issuers(ds)| == |ds|
    decreases |ds|
  {
    if ds != [] {
      var n := |ds| - 1;
      assert ds == ds[..n] + [ds[n]];
      assert Issuers(ds) == Issuers(ds[..n]) + {ds[n].issuer};
      IssuersMany(ds[..n]);
    }
  }

  lemma {:induction false} RepeatedAudiencesFewer(ds: seq<Delegation>)
    requires !DistinctAudiences(ds)
    ensures |Audiences(ds)| < |ds|
  {
    var i, j :| 0 <= i < j < |ds| && ds[i].audience == ds[j].audience;
    var rest := ds[..j] + ds[j + 1..];
    assert Audiences(ds) == Audiences(rest) by {
      forall d | d in ds ensures d.audience in Audiences(rest) {
        var k :| 0 <= k < |ds| && ds[k] == d;
        assert rest[i] == ds[i] && ds[i] in rest;
        assert k < j ==> rest[k] == d;
        assert k > j ==> rest[k - 1] == d;
      }
    }
    AudiencesFew(rest);
  }

  /** Past the checks, a repeated audience leaves no delegation whose audience issued nothing. */
  lemma {:induction false} EveryAudienceIssues(ds: seq<Delegation>, root: Delegation, d: Delegation)
    requires DistinctIssuers(ds) && !DistinctAudiences(ds) && d in ds
    requires IsRoot(ds, root) && forall e :: IsRoot(ds, e) ==> e == root
    ensures exists e :: e in ds && e.issuer == d.audience
  {
    IssuersMany(ds);
    RepeatedAudiencesFewer(ds);
    var issuers := Issuers(ds) - {root.issuer};
    forall x | x in issuers ensures x in Audiences(ds) {
      var e :| e in ds && e.issuer == x;
      assert !IsRoot(ds, e);
      var i :| 0 <= i < |ds| && ds[i].audience == x;
    }
    assert root.issuer in Issuers(ds);
    SameSize(issuers, Audiences(ds));
    assert d.audience in Audiences(ds);
  }

  /** The walk as far as it goes, `n` steps at most. */
  ghost predicate GoesOn(ds: seq<Delegation>, d: Delegation, n: nat)
    decreases n
  {
    n == 0 || exists e :: e in ds && e.issuer == d.audience && GoesOn(ds, e, n - 1)
  }

  /** The condition is exact: on every other input the walk never ends. */
  lemma {:induction false} NeverStops(ds: seq<Delegation>, root: Delegation, n: nat)
    requires !Stops(ds) && IsRoot(ds, root)
    ensures GoesOn(ds, root, n)
  {
    KeepsGoing(ds, root, root, n);
  }

  lemma {:induction false} KeepsGoing(ds: seq<Delegation>, root: Delegation, d: Delegation, n: nat)
    requires !Stops(ds) && IsRoot(ds, root) && d in ds
    ensures GoesOn(ds, d, n)
    decreases n
  {
    if n > 0 {
      EveryAudienceIssues(ds, root, d);
      var e :| e in ds && e.issuer == d.audience;
      KeepsGoing(ds, root, e, n - 1);
    }
  }

  /** Such inputs pass the checks: A to B, B to C and C to B. */
  lemma {:induction false} RootedCycle(a: Delegation, b: Delegation, c: Delegation)
    requires a.issuer != b.issuer && b.issuer != c.issuer && a.issuer != c.issuer
    requires a.audience == b.issuer && b.audience == c.issuer && c.audience == b.issuer
    ensures !Stops([a, b, c])
  {
    var ds := [a, b, c];
    assert ds[0] == a && ds[1] == b && ds[2] == c;
    assert IsAudience(ds, b.issuer) && IsAudience(ds, c.issuer);
    assert IsRoot(ds, a);
    assert ds[0].audience == ds[2].audience;
  }
}
