/**
  The allocation store's claims: one per blob and space, held by one of the
  uploads of that content and handed over when its holder is released.
 */
module Claims {
  import opened Common
  import opened Histories

  type Digest(==, !new)
  type Space(==, !new)
  type Link(==, !new)  // /blob/allocate task link, the identity of an upload
  type Cause(==, !new)

  datatype Key = Key(digest: Digest, space: Space)
  /** An allocation made without a digest; its digest is recorded once its data was received. */
  datatype Pending = Pending(space: Space, digest: Option<Digest>, cause: Cause, expires: int)
  datatype Allocation = Allocation(link: Link, cause: Cause, expires: int)

  datatype State = State(
    claims: map<Key, Allocation>,
    byTask: map<Link, Key>,
    pending: map<Link, Pending>)

  const Empty := State(map[], map[], map[])

  function KeyOf(p: Pending): Option<Key> {
    if p.digest.Some? then Some(Key(p.digest.value, p.space)) else None
  }

  /** Upload `link` has received the content of `key` and is unreleased. */
  predicate Holds(s: State, link: Link, key: Key) {
    link in s.pending && KeyOf(s.pending[link]) == Some(key)
  }

  /** Another received upload of the same content in the space. */
  predicate IsHeir(s: State, key: Key, released: Link, heir: Link) {
    heir != released && Holds(s, heir, key)
  }

  function AllocationOf(link: Link, p: Pending): Allocation {
    Allocation(link, p.cause, p.expires)
  }

  /** The index entry, then the record, then the replaced allocation's entry goes. */
  function PutClaim(s: State, key: Key, a: Allocation): State {
    var indexed := s.byTask[a.link := key];
    s.(claims := s.claims[key := a],
       byTask := if key in s.claims && s.claims[key].link != a.link then indexed - {s.claims[key].link} else indexed)
  }

  function DropClaim(s: State, key: Key): State
    requires key in s.claims
  {
    s.(claims := s.claims - {key}, byTask := s.byTask - {s.claims[key].link})
  }

  function Claimed(s: State, link: Link, p: Pending): State
    requires p.digest.Some?
  {
    var key := Key(p.digest.value, p.space);
    if key in s.claims then s else PutClaim(s, key, AllocationOf(link, p))
  }

  /** The claim goes to `heir`, or away when there is none. */
  function HandedOver(s: State, key: Key, heir: Option<Link>): State
    requires key in s.claims && (heir.Some? ==> heir.value in s.pending)
  {
    if heir.Some? then PutClaim(s, key, AllocationOf(heir.value, s.pending[heir.value])) else DropClaim(s, key)
  }

  /** The record a release acts on: as it is now, else as the caller read it. */
  function Latest(s: State, link: Link, given: Pending): Pending {
    if link in s.pending then s.pending[link] else given
  }

  /** The release finds that `link` holds the claim of `key`. */
  predicate HolderReleased(s: State, link: Link, given: Pending, key: Key) {
    KeyOf(Latest(s, link, given)) == Some(key) && key in s.claims && s.claims[key].link == link
  }

  predicate HeirOk(s: State, key: Key, released: Link, heir: Option<Link>) {
    if heir.Some? then IsHeir(s, key, released, heir.value)
    else forall other :: other in s.pending ==> !IsHeir(s, key, released, other)
  }

  function Released(s: State, link: Link, given: Pending, heir: Option<Link>): State
    requires forall key :: HolderReleased(s, link, given, key) ==> HeirOk(s, key, link, heir)
  {
    var p := Latest(s, link, given);
    var s1 :=
      if p.digest == None then s
      else
        var key := Key(p.digest.value, p.space);
        if HolderReleased(s, link, given, key) then assert HeirOk(s, key, link, heir); HandedOver(s, key, heir) else s;
    s1.(pending := s1.pending - {link})
  }

  // --------------------------------------------------------------- the store

  class Store {
    var s: State

    constructor ()
      ensures s == Empty
    {
      s := Empty;
    }

    method PutPending(link: Link, p: Pending)
      modifies this
      ensures s == old(s).(pending := old(s).pending[link := p])
    {
      s := s.(pending := s.pending[link := p]);
    }

    method Put(key: Key, a: Allocation)
      modifies this
      ensures s == PutClaim(old(s), key, a)
    {
      var replaced := key in s.claims && s.claims[key].link != a.link;
      var prev := if key in s.claims then s.claims[key].link else a.link;
      s := s.(byTask := s.byTask[a.link := key]);
      s := s.(claims := s.claims[key := a]);
      if replaced {
        s := s.(byTask := s.byTask - {prev});
      }
    }

    method Claim(link: Link, p: Pending) returns (ok: bool)
      requires p.digest.Some?
      modifies this
      ensures s == Claimed(old(s), link, p)
      ensures ok <==> Key(p.digest.value, p.space) !in old(s).claims
    {
      var key := Key(p.digest.value, p.space);
      if key in s.claims {
        return false;
      }
      Put(key, AllocationOf(link, p));
      return true;
    }

    /** Scans the pending records, in listing order, for another received upload of the same content. */
    method HandOverClaim(key: Key, released: Link, order: seq<Link>) returns (ghost heir: Option<Link>)
      requires key in s.claims && forall l :: l in order <==> l in s.pending
      modifies this
      ensures HeirOk(old(s), key, released, heir)
      ensures s == HandedOver(old(s), key, heir)
    {
      for i := 0 to |order|
        invariant s == old(s)
        invariant forall k :: 0 <= k < i ==> !IsHeir(s, key, released, order[k])
      {
        var other := order[i];
        var p := s.pending[other];
        if other == released || p.space != key.space || p.digest != Some(key.digest) {
          continue;
        }
        Put(key, AllocationOf(other, p));
        return Some(other);
      }
      s := DropClaim(s, key);
      return None;
    }

    /** Releases an upload: its claim, if it holds one, is handed over or dropped, and its record deleted. */
    method ReleasePending(link: Link, given: Pending, order: seq<Link>) returns (p: Pending, ghost heir: Option<Link>)
      requires forall l :: l in order <==> l in s.pending
      modifies this
      ensures p == Latest(old(s), link, given)
      ensures forall key :: HolderReleased(old(s), link, given, key) ==> HeirOk(old(s), key, link, heir)
      ensures s == Released(old(s), link, given, heir)
    {
      heir := None;
      p := if link in s.pending then s.pending[link] else given;
      if p.digest.Some? {
        var key := Key(p.digest.value, p.space);
        if key in s.claims && s.claims[key].link == link {
          heir := HandOverClaim(key, link, order);
        }
      }
      s := s.(pending := s.pending - {link});
    }
  }

  // -------------------------------------------------------------- invariants

  /** The holder of each claim is an unreleased upload that received its content, found by its index entry. */
  ghost predicate HoldersReceived(s: State) {
    forall key :: key in s.claims ==>
      && Holds(s, s.claims[key].link, key)
      && s.claims[key].link in s.byTask && s.byTask[s.claims[key].link] == key
  }

  /** The claim of each upload that claimed it is there. */
  ghost predicate ReceivedClaimed(s: State, received: set<Link>) {
    forall l :: l in received ==>
      l in s.pending && s.pending[l].digest.Some? && Key(s.pending[l].digest.value, s.pending[l].space) in s.claims
  }

  ghost predicate Inv(s: State, received: set<Link>) {
    HoldersReceived(s) && ReceivedClaimed(s, received)
  }

  /** `link` holds no claim but that of the record it is given. */
  ghost predicate KeepsHolder(s: State, link: Link, p: Pending) {
    forall key :: key in s.claims && s.claims[key].link == link ==> KeyOf(p) == Some(key)
  }

  /** A put of the same content leaves the upload received; any other starts it over. */
  ghost function AfterPut(s: State, received: set<Link>, link: Link, p: Pending): set<Link> {
    if link in s.pending && KeyOf(s.pending[link]) == KeyOf(p) then received else received - {link}
  }

  /**
    The condition is exact: putting a record keeps every holder received if
    and only if it keeps the claim its link holds.
   */
  lemma {:induction false} PutKeepsHoldersIff(s: State, link: Link, p: Pending)
    requires HoldersReceived(s)
    ensures HoldersReceived(s.(pending := s.pending[link := p])) <==> KeepsHolder(s, link, p)
  {
  }

  // -------------------------------------------------------------------- runs

  datatype Step =
    | Record(link: Link, record: Pending)
    | Claim(link: Link)
    | Release(link: Link, given: Pending, heir: Option<Link>)

  /** The store, and the uploads that have claimed their content and are unreleased. */
  datatype Run = Run(s: State, received: set<Link>)

  ghost predicate Enabled(r: Run, step: Step) {
    match step
    case Record(_, _) => true
    case Claim(link) => link in r.s.pending && r.s.pending[link].digest.Some?
    case Release(link, given, heir) =>
      forall key :: HolderReleased(r.s, link, given, key) ==> HeirOk(r.s, key, link, heir)
  }

  ghost function Apply(r: Run, step: Step): Run
    requires Enabled(r, step)
  {
    match step
    case Record(link, p) => Run(r.s.(pending := r.s.pending[link := p]), AfterPut(r.s, r.received, link, p))
    case Claim(link) => Run(Claimed(r.s, link, r.s.pending[link]), r.received + {link})
    case Release(link, given, heir) => Run(Released(r.s, link, given, heir), r.received - {link})
  }

  /** The step does not re-record a claiming upload under other content. */
  ghost predicate Steady(r: Run, step: Step) {
    step.Record? ==> KeepsHolder(r.s, step.link, step.record)
  }

  ghost predicate IsRun(r: Run, steps: seq<Step>)
    decreases |steps|
  {
    steps == [] || (Enabled(r, steps[0]) && IsRun(Apply(r, steps[0]), steps[1..]))
  }

  ghost function After(r: Run, steps: seq<Step>): Run
    requires IsRun(r, steps)
    decreases |steps|
  {
    if steps == [] then r else After(Apply(r, steps[0]), steps[1..])
  }

  ghost predicate AllSteady(r: Run, steps: seq<Step>)
    requires IsRun(r, steps)
    decreases |steps|
  {
    steps == [] || (Steady(r, steps[0]) && AllSteady(Apply(r, steps[0]), steps[1..]))
  }

  lemma {:induction false} StepKeepsInv(r: Run, step: Step)
    requires Inv(r.s, r.received) && Enabled(r, step) && Steady(r, step)
    ensures var r' := Apply(r, step); Inv(r'.s, r'.received)
  {
  }

  lemma {:induction false} RunKeepsInv(r: Run, steps: seq<Step>)
    requires Inv(r.s, r.received) && IsRun(r, steps) && AllSteady(r, steps)
    ensures var r' := After(r, steps); Inv(r'.s, r'.received)
    decreases |steps|
  {
    if steps != [] {
      StepKeepsInv(r, steps[0]);
      RunKeepsInv(Apply(r, steps[0]), steps[1..]);
    }
  }

  const Start := Run(Empty, {})

  /**
    Over any sequence of receives and releases: a claim's holder is an
    unreleased upload of its content, and once no upload is between recording
    its digest and claiming it, a claim exists exactly while there is one.
   */
  lemma {:induction false} ClaimFollowsUploads(steps: seq<Step>, key: Key)
    requires IsRun(Start, steps) && AllSteady(Start, steps)
    ensures var r := After(Start, steps);
            && (key in r.s.claims ==> Holds(r.s, r.s.claims[key].link, key))
            && ((forall l :: Holds(r.s, l, key) ==> l in r.received) ==>
                  (key in r.s.claims <==> exists l :: Holds(r.s, l, key)))
  {
    RunKeepsInv(Start, steps);
  }

  /** Releasing an upload again, from any copy of its record, changes nothing. */
  lemma {:induction false} ReleaseAgain(r: Run, link: Link, first: Pending, heir: Option<Link>, again: Pending,
                                        heir': Option<Link>)
    requires Inv(r.s, r.received) && Enabled(r, Release(link, first, heir))
    ensures var r' := Apply(r, Release(link, first, heir));
            Enabled(r', Release(link, again, heir')) && Apply(r', Release(link, again, heir')) == r'
  {
  }

  /**
    Without the condition a claim is left that no upload holds: an upload
    retried with other content, then released.
   */
  lemma {:induction false} RerecordedClaimLeaks(link: Link, sp: Space, a: Digest, b: Digest, c: Cause)
    returns (steps: seq<Step>)
    requires a != b
    ensures IsRun(Start, steps)
    ensures var s := After(Start, steps).s; s.pending == map[] && Key(a, sp) in s.claims
  {
    var p, q := Pending(sp, Some(a), c, 0), Pending(sp, Some(b), c, 0);
    Extend(Start, [], Record(link, p));
    Extend(Start, [] + [Record(link, p)], Claim(link));
    Extend(Start, [] + [Record(link, p)] + [Claim(link)], Record(link, q));
    var so := [] + [Record(link, p)] + [Claim(link)] + [Record(link, q)];
    forall key ensures !HolderReleased(After(Start, so).s, link, q, key) {
    }
    Extend(Start, so, Release(link, q, None));
    steps := so + [Release(link, q, None)];
  }

  lemma {:induction false} Extend(r: Run, steps: seq<Step>, step: Step)
    requires IsRun(r, steps) && Enabled(After(r, steps), step)
    ensures IsRun(r, steps + [step]) && After(r, steps + [step]) == Apply(After(r, steps), step)
    decreases |steps|
  {
    if steps == [] {
      assert steps + [step] == [step];
    } else {
      Extend(Apply(r, steps[0]), steps[1..], step);
      assert (steps + [step])[1..] == steps[1..] + [step];
    }
  }

  // ------------------------------------------------------- what a run leaves

  ghost function Next(): (Run, Step, Run) -> bool {
    (x: Run, step: Step, y: Run) => Enabled(x, step) && y == Apply(x, step)
  }

  /** The states a run goes through. */
  ghost function States(r: Run, steps: seq<Step>): (rs: seq<Run>)
    requires IsRun(r, steps)
    ensures |rs| == |steps| + 1 && rs[0] == r && rs[|steps|] == After(r, steps)
    ensures Traces(Next(), rs, steps)
    decreases |steps|
  {
    if steps == [] then [r]
    else
      var rest := States(Apply(r, steps[0]), steps[1..]);
      TracesFrom(Next(), r, steps[0], rest, steps[1..]);
      assert [steps[0]] + steps[1..] == steps;
      [r] + rest
  }

  ghost predicate IsRecord(x: Run, link: Link, p: Pending) {
    link in x.s.pending && x.s.pending[link] == p
  }

  ghost function Recording(link: Link, p: Pending): (Run, Step) -> bool {
    (x: Run, step: Step) => step == Record(link, p)
  }

  ghost function Replacing(link: Link): (Run, Step) -> bool {
    (x: Run, step: Step) => (step.Record? || step.Release?) && step.link == link
  }

  /** Over any run an upload has the record it was last given, until it is released. */
  lemma {:induction false} RecordIff(r: Run, steps: seq<Step>, link: Link, p: Pending)
    requires IsRun(r, steps)
    ensures IsRecord(After(r, steps), link, p) <==>
            Standing(States(r, steps), steps, IsRecord(r, link, p), Recording(link, p), Replacing(link))
  {
    forall x: Run, step: Step, y: Run | Next()(x, step, y)
      ensures IsRecord(y, link, p) <==>
              Recording(link, p)(x, step) || (IsRecord(x, link, p) && !Replacing(link)(x, step))
    {
      assert Enabled(x, step) && y == Apply(x, step);
    }
    LawOverRuns(Next(), States(r, steps), steps, (x: Run) => IsRecord(x, link, p), Recording(link, p), Replacing(link));
  }

  /** The allocation is `link`'s, with the cause and the expiry of its record. */
  predicate MadeFrom(s: State, link: Link, a: Allocation) {
    && link in s.pending && a.link == link
    && a.cause == s.pending[link].cause && a.expires == s.pending[link].expires
  }

  /** The release is of the claim's holder, by its record as it is now or else as it was given. */
  ghost predicate Vacates(x: Run, step: Step, key: Key) {
    && step.Release? && key in x.s.claims && x.s.claims[key].link == step.link
    && var p := if step.link in x.s.pending then x.s.pending[step.link] else step.given;
       p.space == key.space && p.digest == Some(key.digest)
  }

  /** The first upload to claim the content, or the heir of a released holder, holds it as `a`. */
  ghost predicate Installs(x: Run, step: Step, key: Key, a: Allocation) {
    || (&& step.Claim? && key !in x.s.claims && step.link in x.s.pending
        && x.s.pending[step.link].space == key.space && x.s.pending[step.link].digest == Some(key.digest)
        && MadeFrom(x.s, step.link, a))
    || (Vacates(x, step, key) && step.heir.Some? && MadeFrom(x.s, step.heir.value, a))
  }

  ghost predicate IsClaim(x: Run, key: Key, a: Allocation) {
    key in x.s.claims && x.s.claims[key] == a
  }

  ghost function Installing(key: Key, a: Allocation): (Run, Step) -> bool {
    (x: Run, step: Step) => Installs(x, step, key, a)
  }

  ghost function Vacating(key: Key): (Run, Step) -> bool {
    (x: Run, step: Step) => Vacates(x, step, key)
  }

  lemma {:induction false} ClaimAfter(x: Run, step: Step, key: Key, a: Allocation)
    requires Enabled(x, step)
    ensures IsClaim(Apply(x, step), key, a) <==>
            Installs(x, step, key, a) || (IsClaim(x, key, a) && !Vacates(x, step, key))
  {
    if step.Release? {
      assert Vacates(x, step, key) <==> HolderReleased(x.s, step.link, step.given, key);
    }
  }

  /**
    Over any run a claim is held as `a` if and only if the upload that first
    claimed the content, or inherited it, did so with that record and was not
    released since.
   */
  lemma {:induction false} ClaimIff(r: Run, steps: seq<Step>, key: Key, a: Allocation)
    requires IsRun(r, steps)
    ensures IsClaim(After(r, steps), key, a) <==>
            Standing(States(r, steps), steps, IsClaim(r, key, a), Installing(key, a), Vacating(key))
  {
    forall x: Run, step: Step, y: Run | Next()(x, step, y)
      ensures IsClaim(y, key, a) <==> Installing(key, a)(x, step) || (IsClaim(x, key, a) && !Vacating(key)(x, step))
    {
      ClaimAfter(x, step, key, a);
    }
    LawOverRuns(Next(), States(r, steps), steps, (x: Run) => IsClaim(x, key, a), Installing(key, a), Vacating(key));
  }

  ghost predicate IsIndexed(x: Run, link: Link, key: Key) {
    link in x.s.byTask && x.s.byTask[link] == key
  }

  ghost function Indexing(link: Link, key: Key): (Run, Step) -> bool {
    (x: Run, step: Step) => exists a: Allocation :: a.link == link && Installs(x, step, key, a)
  }

  /** The upload's claim is vacated, or it comes to hold another. */
  ghost function Unindexing(link: Link): (Run, Step) -> bool {
    (x: Run, step: Step) =>
      || (exists k :: Vacates(x, step, k) && x.s.claims[k].link == link)
      || (exists k, a: Allocation :: a.link == link && Installs(x, step, k, a))
  }

  lemma {:induction false} IndexedAfter(x: Run, step: Step, link: Link, key: Key)
    requires Enabled(x, step)
    ensures IsIndexed(Apply(x, step), link, key) <==>
            Indexing(link, key)(x, step) || (IsIndexed(x, link, key) && !Unindexing(link)(x, step))
  {
    match step
    case Record(_, _) =>
    case Claim(l) =>
      var p := x.s.pending[l];
      var k, a := Key(p.digest.value, p.space), AllocationOf(l, p);
      assert k !in x.s.claims ==> Installs(x, step, k, a);
    case Release(l, given, heir) =>
      var p := Latest(x.s, l, given);
      if p.digest.Some? {
        var k := Key(p.digest.value, p.space);
        if HolderReleased(x.s, l, given, k) {
          assert HeirOk(x.s, k, l, heir) && Vacates(x, step, k);
          if heir.Some? {
            assert Installs(x, step, k, AllocationOf(heir.value, x.s.pending[heir.value]));
          }
        }
      }
  }

  /** Over any run the index leads from an upload to a content if and only if the upload holds its claim since. */
  lemma {:induction false} IndexedIff(r: Run, steps: seq<Step>, link: Link, key: Key)
    requires IsRun(r, steps)
    ensures IsIndexed(After(r, steps), link, key) <==>
            Standing(States(r, steps), steps, IsIndexed(r, link, key), Indexing(link, key), Unindexing(link))
  {
    forall x: Run, step: Step, y: Run | Next()(x, step, y)
      ensures IsIndexed(y, link, key) <==>
              Indexing(link, key)(x, step) || (IsIndexed(x, link, key) && !Unindexing(link)(x, step))
    {
      IndexedAfter(x, step, link, key);
    }
    LawOverRuns(Next(), States(r, steps), steps, (x: Run) => IsIndexed(x, link, key), Indexing(link, key),
                Unindexing(link));
  }
}
