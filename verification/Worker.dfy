/**
  The worker that runs queued jobs: one dispatcher bounded by a job count, and
  a lease that a running job extends. Times are nanoseconds; the queue stores
  whole seconds.
 */
module Worker {
  import opened Common
  import opened Histories
  import opened DedupQueue

  // ---------------------------------------------------------- the job count

  datatype Dispatcher = Idle | Receiving // before the check; past it

  datatype Counts = Counts(jobs: int, at: Dispatcher)

  /** One statement of the dispatcher, or the exit of a job. */
  datatype Move = Check | ReceiveNothing | StartJob | Exit

  predicate CanMove(c: Counts, m: Move) {
    match m
    case Check => c.at.Idle?
    case ReceiveNothing => c.at.Receiving?
    case StartJob => c.at.Receiving?
    case Exit => c.jobs > 0
  }

  function Next(c: Counts, limit: int, m: Move): Counts {
    match m
    case Check => if c.jobs == limit then c else c.(at := Receiving)
    case ReceiveNothing => c.(at := Idle)
    case StartJob => Counts(c.jobs + 1, Idle)
    case Exit => c.(jobs := c.jobs - 1)
  }

  ghost predicate CanRun(c: Counts, limit: int, ms: seq<Move>)
    decreases |ms|
  {
    ms == [] || (CanMove(c, ms[0]) && CanRun(Next(c, limit, ms[0]), limit, ms[1..]))
  }

  ghost function Ran(c: Counts, limit: int, ms: seq<Move>): Counts
    decreases |ms|
  {
    if ms == [] then c else Ran(Next(c, limit, ms[0]), limit, ms[1..])
  }

  /** Within the limit, and below it once the check has passed. */
  predicate Within(c: Counts, limit: int) {
    0 <= c.jobs <= limit && (c.at.Receiving? ==> c.jobs < limit)
  }

  lemma {:induction false} RunStaysWithin(c: Counts, limit: int, ms: seq<Move>)
    requires Within(c, limit) && CanRun(c, limit, ms)
    ensures Within(Ran(c, limit, ms), limit)
    decreases |ms|
  {
    if ms != [] {
      RunStaysWithin(Next(c, limit, ms[0]), limit, ms[1..]);
    }
  }

  /** With a negative limit the check never stops the dispatcher: any number of jobs runs at once. */
  lemma {:induction false} NegativeLimitIsNone(limit: int, n: nat) returns (ms: seq<Move>)
    requires limit < 0
    ensures CanRun(Counts(0, Idle), limit, ms) && Ran(Counts(0, Idle), limit, ms) == Counts(n, Idle)
  {
    ms := StartAll(Counts(0, Idle), limit, n);
  }

  lemma {:induction false} StartAll(c: Counts, limit: int, n: nat) returns (ms: seq<Move>)
    requires limit < 0 <= c.jobs && c.at.Idle?
    ensures CanRun(c, limit, ms) && Ran(c, limit, ms) == Counts(c.jobs + n, Idle)
    decreases n
  {
    if n == 0 {
      ms := [];
    } else {
      var more := StartAll(Counts(c.jobs + 1, Idle), limit, n - 1);
      ms := [Check] + ([StartJob] + more);
      assert ms[1..] == [StartJob] + more && ([StartJob] + more)[1..] == more;
      assert CanRun(Counts(c.jobs, Receiving), limit, [StartJob] + more);
    }
  }

  /** Running jobs stay within the limit in every interleaving if and only if the limit is not negative. */
  lemma {:induction false} BoundedIff(limit: int)
    ensures (forall ms: seq<Move> :: CanRun(Counts(0, Idle), limit, ms) ==>
              Ran(Counts(0, Idle), limit, ms).jobs <= limit) <==> limit >= 0
  {
    if limit >= 0 {
      forall ms: seq<Move> | CanRun(Counts(0, Idle), limit, ms) ensures Ran(Counts(0, Idle), limit, ms).jobs <= limit {
        RunStaysWithin(Counts(0, Idle), limit, ms);
      }
    } else {
      assert CanRun(Counts(0, Idle), limit, []) && Ran(Counts(0, Idle), limit, []).jobs == 0;
    }
  }

  /** How many of the first `n` moves are `m`. */
  ghost function Moves(ms: seq<Move>, m: Move, n: nat): nat
    requires n <= |ms|
  {
    if n == 0 then 0 else Moves(ms, m, n - 1) + if ms[n - 1] == m then 1 else 0
  }

  ghost function Stepping(limit: int): (Counts, Move, Counts) -> bool {
    (x: Counts, m: Move, y: Counts) => CanMove(x, m) && y == Next(x, limit, m)
  }

  /** The counts a dispatcher goes through. */
  ghost function States(c: Counts, limit: int, ms: seq<Move>): (r: seq<Counts>)
    requires CanRun(c, limit, ms)
    ensures |r| == |ms| + 1 && r[0] == c && r[|ms|] == Ran(c, limit, ms)
    ensures Traces(Stepping(limit), r, ms)
    decreases |ms|
  {
    if ms == [] then [c]
    else
      var rest := States(Next(c, limit, ms[0]), limit, ms[1..]);
      TracesFrom(Stepping(limit), c, ms[0], rest, ms[1..]);
      assert [ms[0]] + ms[1..] == ms;
      [c] + rest
  }

  /** A check that finds a number of jobs other than the limit. */
  ghost function Passing(limit: int): (Counts, Move) -> bool {
    (x: Counts, m: Move) => m.Check? && x.jobs != limit
  }

  ghost function Returning(): (Counts, Move) -> bool {
    (x: Counts, m: Move) => m.ReceiveNothing? || m.StartJob?
  }

  /** The dispatcher is past its check if and only if a check passed and it has not received since. */
  lemma {:induction false} PastCheckIff(c: Counts, limit: int, ms: seq<Move>)
    requires CanRun(c, limit, ms)
    ensures Ran(c, limit, ms).at.Receiving? <==>
            Standing(States(c, limit, ms), ms, c.at.Receiving?, Passing(limit), Returning())
  {
    LawOverRuns(Stepping(limit), States(c, limit, ms), ms, (x: Counts) => x.at.Receiving?, Passing(limit), Returning());
  }

  /** The count is the jobs started less those that exited, whatever the limit. */
  lemma {:induction false} CountIs(c: Counts, limit: int, ms: seq<Move>, n: nat)
    requires CanRun(c, limit, ms) && n <= |ms|
    ensures States(c, limit, ms)[n].jobs == c.jobs + Moves(ms, StartJob, n) - Moves(ms, Exit, n)
  {
    if n > 0 {
      var states := States(c, limit, ms);
      CountIs(c, limit, ms, n - 1);
      assert Reached(Stepping(limit), states, ms, n - 1);
      assert Stepping(limit)(states[n - 1], ms[n - 1], states[n]);
      assert states[n] == Next(states[n - 1], limit, ms[n - 1]);
    }
  }

  class Dispatch {
    const limit: int
    var jobCount: int

    constructor (limit: int)
      ensures this.limit == limit && jobCount == 0
    {
      this.limit, jobCount := limit, 0;
    }

    /** receiveAndRun, while `exits` of the running jobs end between its check and its increment. */
    method ReceiveAndRun(exits: nat, received: bool) returns (started: bool)
      requires Within(Counts(jobCount, Idle), limit) && exits <= jobCount
      modifies this
      ensures Within(Counts(jobCount, Idle), limit)
      ensures started <==> old(jobCount) < limit && received
      ensures jobCount == old(jobCount) + (if started then 1 else 0) - (if old(jobCount) < limit then exits else 0)
    {
      if jobCount == limit {
        return false;
      }
      jobCount := jobCount - exits;
      if !received {
        return false;
      }
      jobCount := jobCount + 1;
      return true;
    }
  }

  // --------------------------------------------------------------- the lease

  const SECOND: nat := 1_000_000_000

  /** time.Time.Unix: whole seconds. */
  function Unix(t: nat): nat {
    t / SECOND
  }

  /** How long a running job sleeps between extensions of `extend`. */
  function Sleep(extend: nat): nat {
    extend - extend / 5
  }

  /** A job available again at `avail` is not delivered at time `u`. */
  predicate Withheld(avail: int, u: nat) {
    avail > Unix(u)
  }

  /** The availability in force after `k` extensions of a job received at `t0`. */
  function AvailAfter(timeout: nat, extend: nat, t0: nat, k: nat): nat {
    if k == 0 then Unix(t0 + timeout) else Unix(t0 + k * Sleep(extend) + extend)
  }

  /** Time `u` is between extension `k` and the next. */
  predicate Between(extend: nat, t0: nat, k: nat, u: nat) {
    t0 + k * Sleep(extend) <= u <= t0 + (k + 1) * Sleep(extend)
  }

  /** Whenever the job is received, its lease lasts from each extension to the next. */
  ghost predicate NeverLapses(timeout: nat, extend: nat) {
    forall t0: nat, k: nat, u: nat :: Between(extend, t0, k, u) ==> Withheld(AvailAfter(timeout, extend, t0, k), u)
  }

  lemma {:induction false} UnixMonotonic(a: nat, b: nat)
    requires a <= b
    ensures Unix(a) <= Unix(b)
  {
  }

  lemma {:induction false} UnixStep(a: nat, b: nat)
    requires a + SECOND <= b
    ensures Unix(a) < Unix(b)
  {
  }

  /** The lease holds for every start time if and only if both margins are at least a whole second. */
  lemma {:induction false} NeverLapsesIff(timeout: nat, extend: nat)
    ensures NeverLapses(timeout, extend) <==>
            timeout >= extend - extend / 5 + 1_000_000_000 && extend / 5 >= 1_000_000_000
  {
    var sleep := Sleep(extend);
    if timeout >= sleep + SECOND && extend / 5 >= SECOND {
      forall t0: nat, k: nat, u: nat | Between(extend, t0, k, u)
        ensures Withheld(AvailAfter(timeout, extend, t0, k), u)
      {
        var next := t0 + (k + 1) * sleep;
        assert (k + 1) * sleep == k * sleep + sleep;
        UnixMonotonic(u, next);
        if k == 0 {
          UnixStep(next, t0 + timeout);
        } else {
          UnixStep(next, t0 + k * sleep + extend);
        }
      }
    }
    if timeout < sleep + SECOND {
      var t0, u := StartAtSecond(sleep, timeout);
      assert Between(extend, t0, 0, u) && !Withheld(AvailAfter(timeout, extend, t0, 0), u);
    }
    if extend / 5 < SECOND {
      var t0, u := StartAtSecond(2 * sleep, sleep + extend);
      assert Between(extend, t0, 1, u) && !Withheld(AvailAfter(timeout, extend, t0, 1), u);
    }
  }

  /** A start time from which `sleep` ends on a whole second and `lease` in the same one. */
  lemma {:induction false} StartAtSecond(sleep: nat, lease: nat) returns (t0: nat, u: nat)
    requires lease < sleep + SECOND
    ensures u == t0 + sleep && Unix(t0 + lease) <= Unix(u)
  {
    var k := sleep / SECOND + 1;
    t0, u := k * SECOND - sleep, k * SECOND;
    assert t0 + lease < k * SECOND + SECOND == (k + 1) * SECOND;
    assert Unix(u) == k;
    assert Unix(t0 + lease) < k + 1;
  }

  /** A timeout above the sleep is not enough: one nanosecond of margin lapses within a second. */
  lemma {:induction false} SleepBelowTimeoutLapses(extend: nat)
    ensures !NeverLapses(Sleep(extend) + 1, extend)
  {
    NeverLapsesIff(Sleep(extend) + 1, extend);
  }

  // ----------------------------------------------------- no second delivery

  /** A queue transaction and when it runs. */
  datatype Timed = Timed(at: nat, step: Step)

  /**
    What happens to the queue while the job `id`, received at `t0`, runs: it
    is extended on time, and not deleted or moved; `k` extensions are done.
   */
  ghost predicate OnTime(id: Id, extend: nat, t0: nat, k: nat, es: seq<Timed>)
    decreases |es|
  {
    es == [] ||
    (var e := es[0];
     && Between(extend, t0, k, e.at)
     && e.step != Step.Delete(id) && e.step != Step.Move(id)
     && (e.step.Receive? ==> e.step.now == Unix(e.at))
     && if e.step.Extend? && e.step.id == id
        then e.at == t0 + (k + 1) * Sleep(extend) && e.step.avail == Unix(e.at + extend)
          && OnTime(id, extend, t0, k + 1, es[1..])
        else OnTime(id, extend, t0, k, es[1..]))
  }

  ghost predicate QueueRun(c: Config, s: State, es: seq<Timed>)
    decreases |es|
  {
    es == [] || (Enabled(c, s, es[0].step) && QueueRun(c, Apply(c, s, es[0].step), es[1..]))
  }

  /** No receive among them takes `id`. */
  ghost predicate NotRedelivered(id: Id, es: seq<Timed>) {
    forall i :: 0 <= i < |es| ==> !(es[i].step.Receive? && es[i].step.pick == Some(id))
  }

  lemma {:induction false} LeasedNotRedelivered(c: Config, timeout: nat, extend: nat, s: State, id: Id, t0: nat,
                                                k: nat, es: seq<Timed>)
    requires timeout >= Sleep(extend) + SECOND && extend / 5 >= SECOND
    requires id in s.t.jobs && s.t.jobs[id].avail == AvailAfter(timeout, extend, t0, k)
    requires QueueRun(c, s, es) && OnTime(id, extend, t0, k, es)
    ensures NotRedelivered(id, es)
    decreases |es|
  {
    if es != [] {
      var e := es[0];
      NeverLapsesIff(timeout, extend);
      assert Withheld(AvailAfter(timeout, extend, t0, k), e.at);
      var s' := Apply(c, s, e.step);
      var extended := e.step.Extend? && e.step.id == id;
      assert !(e.step.Receive? && e.step.pick == Some(id));
      assert id in s'.t.jobs && s'.t.jobs[id].avail == AvailAfter(timeout, extend, t0, if extended then k + 1 else k);
      LeasedNotRedelivered(c, timeout, extend, s', id, t0, if extended then k + 1 else k, es[1..]);
      assert forall i :: 1 <= i < |es| ==> es[i] == es[1..][i - 1];
    }
  }

  /**
    With the margins, a job that is received at `t0` and extended on time is
    not delivered again while it runs.
   */
  lemma {:induction false} RunningJobNotRedelivered(c: Config, timeout: nat, extend: nat, s: State, id: Id, t0: nat,
                                                    es: seq<Timed>)
    requires timeout >= Sleep(extend) + SECOND && extend / 5 >= SECOND
    requires Enabled(c, s, Step.Receive(Unix(t0), Unix(t0 + timeout), Some(id)))
    requires QueueRun(c, Apply(c, s, Step.Receive(Unix(t0), Unix(t0 + timeout), Some(id))), es)
    requires OnTime(id, extend, t0, 0, es)
    ensures NotRedelivered(id, es)
  {
    LeasedNotRedelivered(c, timeout, extend, Apply(c, s, Step.Receive(Unix(t0), Unix(t0 + timeout), Some(id))),
                         id, t0, 0, es);
  }
}
