/**
  The deduplicating job queue: its jobs, job_done and job_dead tables, the
  serial transactions on them, and the attempt numbers of its deliveries.
 */
module DedupQueue {
  import opened Common
  import opened Histories

  type Key(==, !new) // namespace and payload hash
  type Id = int

  datatype Job = Job(key: Key, created: int, avail: int, attempts: nat)
  datatype Status = Success | DeadLetter
  datatype Dead = Dead(key: Key, attempts: nat)

  datatype Tables = Tables(jobs: map<Id, Job>, done: map<Key, Status>, dead: map<Id, Dead>)

  datatype Config = Config(dedupe: bool, blockRepeatsOnDLQ: bool, maxReceive: nat)

  const Empty := Tables(map[], map[], map[])

  // ------------------------------------------------------------- operations

  predicate HasKey(t: Tables, key: Key) {
    exists id :: id in t.jobs && t.jobs[id].key == key
  }

  /** A send is skipped when its key is done, if that is tracked, or already queued. */
  predicate Skips(c: Config, t: Tables, key: Key) {
    (c.dedupe && key in t.done) || HasKey(t, key)
  }

  function Sent(c: Config, t: Tables, id: Id, key: Key, now: int, delay: nat): Tables {
    if Skips(c, t, key) then t else t.(jobs := t.jobs[id := Job(key, now, now + delay, 0)])
  }

  predicate Eligible(c: Config, t: Tables, now: int, id: Id) {
    id in t.jobs && t.jobs[id].avail <= now && t.jobs[id].attempts < c.maxReceive
  }

  predicate Older(a: Job, i: Id, b: Job, j: Id) {
    a.created < b.created || (a.created == b.created && i < j)
  }

  /** The job a receive takes: the oldest eligible one. */
  ghost predicate Picks(c: Config, t: Tables, now: int, pick: Option<Id>) {
    if pick.Some? then
      && Eligible(c, t, now, pick.value)
      && forall id :: Eligible(c, t, now, id) && id != pick.value ==>
        Older(t.jobs[pick.value], pick.value, t.jobs[id], id)
    else forall id :: !Eligible(c, t, now, id)
  }

  function Received(t: Tables, id: Id, avail: int): Tables
    requires id in t.jobs
  {
    t.(jobs := t.jobs[id := t.jobs[id].(attempts := t.jobs[id].attempts + 1, avail := avail)])
  }

  /**
    One more delivery of `id` was counted, and until the lease ends it cannot
    be taken again; every other job is as it was.
   */
  ghost predicate Leased(c: Config, t: Tables, t': Tables, id: Id, until: int) {
    && id in t.jobs && t'.jobs.Keys == t.jobs.Keys && t'.done == t.done && t'.dead == t.dead
    && (forall other :: other in t.jobs && other != id ==> t'.jobs[other] == t.jobs[other])
    && t'.jobs[id].key == t.jobs[id].key && t'.jobs[id].created == t.jobs[id].created
    && (forall u :: Eligible(c, t', u, id) <==> u >= until && t.jobs[id].attempts + 1 < c.maxReceive)
  }

  lemma {:induction false} ReceiveLeases(c: Config, t: Tables, id: Id, until: int)
    requires id in t.jobs
    ensures Leased(c, t, Received(t, id, until), id, until)
  {
    var t' := Received(t, id, until);
    forall u ensures Eligible(c, t', u, id) <==> u >= until && t.jobs[id].attempts + 1 < c.maxReceive {
    }
  }

  function Extended(t: Tables, id: Id, avail: int): Tables {
    if id in t.jobs then t.(jobs := t.jobs[id := t.jobs[id].(avail := avail)]) else t
  }

  /** INSERT OR IGNORE into job_done. */
  function Marked(done: map<Key, Status>, key: Key, st: Status): map<Key, Status> {
    if key in done then done else done[key := st]
  }

  function Deleted(c: Config, t: Tables, id: Id): Tables {
    if id !in t.jobs then t
    else t.(jobs := t.jobs - {id}, done := if c.dedupe then Marked(t.done, t.jobs[id].key, Success) else t.done)
  }

  /** The insert into job_dead fails, and with it the move, when the id is there already. */
  predicate MoveFails(t: Tables, id: Id) {
    id in t.jobs && id in t.dead
  }

  function Moved(c: Config, t: Tables, id: Id): Tables {
    if id !in t.jobs || MoveFails(t, id) then t
    else
      var job := t.jobs[id];
      Tables(t.jobs - {id},
             if c.dedupe && c.blockRepeatsOnDLQ then Marked(t.done, job.key, DeadLetter) else t.done,
             t.dead[id := Dead(job.key, job.attempts)])
  }

  // ---------------------------------------------------------------- the queue

  /** `order` lists the jobs by creation time, then id. */
  ghost predicate Lists(t: Tables, order: seq<Id>) {
    && (forall id :: id in order <==> id in t.jobs)
    && forall i, j :: 0 <= i < j < |order| ==> Older(t.jobs[order[i]], order[i], t.jobs[order[j]], order[j])
  }

  class Queue {
    const c: Config
    var t: Tables

    constructor (c: Config)
      ensures this.c == c && t == Empty
    {
      this.c, t := c, Empty;
    }

    method Send(id: Id, key: Key, now: int, delay: nat) returns (r: Option<Id>)
      requires id !in t.jobs
      modifies this
      ensures t == Sent(c, old(t), id, key, now, delay)
      ensures r == if Skips(c, old(t), key) then None else Some(id)
    {
      if c.dedupe {
        if key in t.done {
          return None;
        }
      }
      if HasKey(t, key) {
        return None;
      }
      t := t.(jobs := t.jobs[id := Job(key, now, now + delay, 0)]);
      return Some(id);
    }

    /** Takes the oldest eligible job, if there is one, and numbers the delivery. */
    method Receive(now: int, timeout: nat, order: seq<Id>) returns (m: Option<(Id, nat)>)
      requires Lists(t, order)
      modifies this
      ensures Picks(c, old(t), now, if m.Some? then Some(m.value.0) else None)
      ensures m == None <==>
              forall id :: id in old(t).jobs ==> old(t).jobs[id].avail > now || old(t).jobs[id].attempts >= c.maxReceive
      ensures m == None ==> t == old(t)
      ensures m.Some? ==>
                && t == Received(old(t), m.value.0, now + timeout) && m.value.1 == old(t).jobs[m.value.0].attempts + 1
                && Leased(c, old(t), t, m.value.0, now + timeout)
    {
      for i := 0 to |order|
        invariant t == old(t) && forall k :: 0 <= k < i ==> !Eligible(c, t, now, order[k])
      {
        var id := order[i];
        if Eligible(c, t, now, id) {
          forall other | Eligible(c, t, now, other) && other != id ensures Older(t.jobs[id], id, t.jobs[other], other) {
            var k :| 0 <= k < |order| && order[k] == other;
            assert k > i;
          }
          ReceiveLeases(c, t, id, now + timeout);
          t := Received(t, id, now + timeout);
          return Some((id, t.jobs[id].attempts));
        }
      }
      return None;
    }

    method Extend(id: Id, now: int, delay: nat)
      modifies this
      ensures t == Extended(old(t), id, now + delay)
    {
      if id in t.jobs {
        t := t.(jobs := t.jobs[id := t.jobs[id].(avail := now + delay)]);
      }
    }

    method Delete(id: Id)
      modifies this
      ensures t == Deleted(c, old(t), id)
    {
      if id !in t.jobs {
        return;
      }
      var row := t.jobs[id];
      t := t.(jobs := t.jobs - {id});
      if c.dedupe && row.key !in t.done {
        t := t.(done := t.done[row.key := Success]);
      }
    }

    method MoveToDeadLetter(id: Id) returns (ok: bool)
      modifies this
      ensures t == Moved(c, old(t), id)
      ensures ok <==> !MoveFails(old(t), id)
    {
      if id !in t.jobs {
        return true;
      }
      var row := t.jobs[id];
      if id in t.dead {
        return false;
      }
      t := t.(dead := t.dead[id := Dead(row.key, row.attempts)]);
      t := t.(jobs := t.jobs - {id});
      if c.dedupe && c.blockRepeatsOnDLQ && row.key !in t.done {
        t := t.(done := t.done[row.key := DeadLetter]);
      }
      return true;
    }
  }

  // -------------------------------------------------------------------- runs

  datatype Step =
    | Send(id: Id, key: Key, now: int, delay: nat)
    | Receive(now: int, avail: int, pick: Option<Id>)
    | Extend(id: Id, avail: int)
    | Delete(id: Id)
    | Move(id: Id)

  datatype Delivery = Delivery(id: Id, number: nat)

  /** The tables, the ids that finished, every id given out, and every delivery in order. */
  datatype State = State(t: Tables, finished: set<Id>, used: set<Id>, log: seq<Delivery>)

  const Init := State(Empty, {}, {}, [])

  ghost predicate Enabled(c: Config, s: State, step: Step) {
    match step
    case Send(id, _, _, _) => id !in s.t.jobs
    case Receive(now, _, pick) => Picks(c, s.t, now, pick)
    case _ => true
  }

  ghost function Apply(c: Config, s: State, step: Step): State
    requires Enabled(c, s, step)
  {
    match step
    case Send(id, key, now, delay) =>
      if Skips(c, s.t, key) then s else s.(t := Sent(c, s.t, id, key, now, delay), used := s.used + {id})
    case Receive(_, avail, pick) =>
      if pick == None then s
      else s.(t := Received(s.t, pick.value, avail),
              log := s.log + [Delivery(pick.value, s.t.jobs[pick.value].attempts + 1)])
    case Extend(id, avail) => s.(t := Extended(s.t, id, avail))
    case Delete(id) =>
      if id !in s.t.jobs then s else s.(t := Deleted(c, s.t, id), finished := s.finished + {id})
    case Move(id) => s.(t := Moved(c, s.t, id))
  }

  /** The id a send is given was never given out before. */
  predicate FreshId(s: State, step: Step) {
    step.Send? ==> step.id !in s.used
  }

  // -------------------------------------------------------------- invariants

  /** No key is both queued and done, and no two jobs share a key. */
  ghost predicate KeysApart(t: Tables) {
    && (forall id :: id in t.jobs ==> t.jobs[id].key !in t.done)
    && (forall i, j :: i in t.jobs && j in t.jobs && t.jobs[i].key == t.jobs[j].key ==> i == j)
  }

  /** Every id given out is in exactly one of live, finished and dead. */
  ghost predicate IdsApart(s: State) {
    && (forall id :: id in s.used <==> id in s.t.jobs || id in s.finished || id in s.t.dead)
    && (forall id :: id in s.t.jobs ==> id !in s.finished && id !in s.t.dead)
    && (forall id :: id in s.finished ==> id !in s.t.dead)
  }

  /** How often `id` was delivered in the first `n` deliveries. */
  ghost function Count(log: seq<Delivery>, id: Id, n: nat): nat
    requires n <= |log|
  {
    if n == 0 then 0 else Count(log, id, n - 1) + if log[n - 1].id == id then 1 else 0
  }

  /** Delivery `n` is its id's next one, and within the limit. */
  ghost predicate NumberedAt(c: Config, log: seq<Delivery>, used: set<Id>, n: nat)
    requires n < |log|
  {
    log[n].id in used && log[n].number == Count(log, log[n].id, n) + 1 && log[n].number <= c.maxReceive
  }

  /** A live job's attempts are its deliveries so far. */
  ghost predicate Attempts(c: Config, job: Job, id: Id, log: seq<Delivery>) {
    job.attempts == Count(log, id, |log|) && job.attempts <= c.maxReceive
  }

  /** The deliveries of each id are numbered 1, 2, and so on, up to the limit. */
  ghost predicate Numbered(c: Config, s: State) {
    && (forall n :: 0 <= n < |s.log| ==> NumberedAt(c, s.log, s.used, n))
    && (forall id :: id in s.t.jobs ==> Attempts(c, s.t.jobs[id], id, s.log))
  }

  lemma {:induction false} CountExtends(log: seq<Delivery>, d: Delivery, id: Id, n: nat)
    requires n <= |log|
    ensures Count(log + [d], id, n) == Count(log, id, n)
  {
    if n > 0 {
      CountExtends(log, d, id, n - 1);
    }
  }

  lemma {:induction false} NeverDelivered(c: Config, s: State, id: Id, n: nat)
    requires n <= |s.log| && id !in s.used && Numbered(c, s)
    ensures Count(s.log, id, n) == 0
  {
    if n > 0 {
      NeverDelivered(c, s, id, n - 1);
      assert NumberedAt(c, s.log, s.used, n - 1);
    }
  }

  lemma {:induction false} StepKeepsKeys(c: Config, s: State, step: Step)
    requires KeysApart(s.t) && Enabled(c, s, step) && c.dedupe
    ensures KeysApart(Apply(c, s, step).t)
    ensures forall key :: key in s.t.done ==>
              key in Apply(c, s, step).t.done && Apply(c, s, step).t.done[key] == s.t.done[key]
  {
  }

  lemma {:induction false} StepKeepsIds(c: Config, s: State, step: Step)
    requires IdsApart(s) && Enabled(c, s, step) && FreshId(s, step)
    ensures IdsApart(Apply(c, s, step))
  {
  }

  lemma {:induction false} SendKeepsIdsIff(c: Config, s: State, id: Id, key: Key, now: int, delay: nat)
    requires IdsApart(s) && id !in s.t.jobs && !Skips(c, s.t, key)
    ensures IdsApart(Apply(c, s, Send(id, key, now, delay))) <==> id !in s.used
  {
  }

  lemma {:induction false} ReceiveKeepsNumbers(c: Config, s: State, id: Id, avail: int)
    requires IdsApart(s) && Numbered(c, s) && id in s.t.jobs && s.t.jobs[id].attempts < c.maxReceive
    ensures Numbered(c, s.(t := Received(s.t, id, avail), log := s.log + [Delivery(id, s.t.jobs[id].attempts + 1)]))
  {
    var d := Delivery(id, s.t.jobs[id].attempts + 1);
    var s' := s.(t := Received(s.t, id, avail), log := s.log + [d]);
    assert Attempts(c, s.t.jobs[id], id, s.log);
    forall n | 0 <= n < |s'.log| ensures NumberedAt(c, s'.log, s'.used, n) {
      CountExtends(s.log, d, s'.log[n].id, n);
      assert n < |s.log| ==> NumberedAt(c, s.log, s.used, n);
    }
    forall x | x in s'.t.jobs ensures Attempts(c, s'.t.jobs[x], x, s'.log) {
      assert Attempts(c, s.t.jobs[x], x, s.log);
      CountExtends(s.log, d, x, |s.log|);
    }
  }

  lemma {:induction false} StepKeepsNumbers(c: Config, s: State, step: Step)
    requires IdsApart(s) && Numbered(c, s) && Enabled(c, s, step) && FreshId(s, step)
    ensures Numbered(c, Apply(c, s, step))
  {
    var s' := Apply(c, s, step);
    if step.Receive? {
      if step.pick.Some? {
        ReceiveKeepsNumbers(c, s, step.pick.value, step.avail);
      }
    } else {
      forall n | 0 <= n < |s'.log| ensures NumberedAt(c, s'.log, s'.used, n) {
        assert NumberedAt(c, s.log, s.used, n);
      }
      forall x | x in s'.t.jobs ensures Attempts(c, s'.t.jobs[x], x, s'.log) {
        if x in s.t.jobs {
          assert Attempts(c, s.t.jobs[x], x, s.log);
        } else {
          NeverDelivered(c, s, x, |s.log|);
        }
      }
    }
  }

  ghost predicate IsRun(c: Config, s: State, steps: seq<Step>)
    decreases |steps|
  {
    steps == [] || (Enabled(c, s, steps[0]) && IsRun(c, Apply(c, s, steps[0]), steps[1..]))
  }

  ghost function After(c: Config, s: State, steps: seq<Step>): State
    requires IsRun(c, s, steps)
    decreases |steps|
  {
    if steps == [] then s else After(c, Apply(c, s, steps[0]), steps[1..])
  }

  ghost predicate AllFresh(c: Config, s: State, steps: seq<Step>)
    requires IsRun(c, s, steps)
    decreases |steps|
  {
    steps == [] || (FreshId(s, steps[0]) && AllFresh(c, Apply(c, s, steps[0]), steps[1..]))
  }

  lemma {:induction false} RunKeepsKeys(c: Config, s: State, steps: seq<Step>)
    requires KeysApart(s.t) && IsRun(c, s, steps) && c.dedupe
    ensures KeysApart(After(c, s, steps).t)
    ensures forall key :: key in s.t.done ==>
              key in After(c, s, steps).t.done && After(c, s, steps).t.done[key] == s.t.done[key]
    decreases |steps|
  {
    if steps != [] {
      StepKeepsKeys(c, s, steps[0]);
      RunKeepsKeys(c, Apply(c, s, steps[0]), steps[1..]);
    }
  }

  /** With dedup on, a key is never both queued and done, and one done successfully is never queued again. */
  lemma {:induction false} DoneStaysDone(c: Config, before: seq<Step>, after: seq<Step>, key: Key)
    requires c.dedupe && IsRun(c, Init, before) && IsRun(c, After(c, Init, before), after)
    requires key in After(c, Init, before).t.done
    ensures KeysApart(After(c, Init, before).t)
    ensures var t := After(c, After(c, Init, before), after).t;
            key in t.done && t.done[key] == After(c, Init, before).t.done[key] && !HasKey(t, key)
  {
    RunKeepsKeys(c, Init, before);
    RunKeepsKeys(c, After(c, Init, before), after);
  }

  /** Deleting a job marks its key done for good, as successful. */
  lemma {:induction false} DeletedIsDone(c: Config, s: State, id: Id)
    requires c.dedupe && KeysApart(s.t) && id in s.t.jobs
    ensures var t := Apply(c, s, Delete(id)).t; var key := s.t.jobs[id].key;
            key in t.done && t.done[key] == Success && !HasKey(t, key)
  {
  }

  lemma {:induction false} RunKeepsIds(c: Config, s: State, steps: seq<Step>)
    requires IdsApart(s) && Numbered(c, s) && IsRun(c, s, steps) && AllFresh(c, s, steps)
    ensures IdsApart(After(c, s, steps)) && Numbered(c, After(c, s, steps))
    decreases |steps|
  {
    if steps != [] {
      StepKeepsIds(c, s, steps[0]);
      StepKeepsNumbers(c, s, steps[0]);
      RunKeepsIds(c, Apply(c, s, steps[0]), steps[1..]);
    }
  }

  lemma {:induction false} CountRises(log: seq<Delivery>, id: Id, m: nat, n: nat)
    requires m < n <= |log| && log[m].id == id
    ensures Count(log, id, m) < Count(log, id, n)
  {
    if n > m + 1 {
      CountRises(log, id, m, n - 1);
    }
  }

  /**
    With fresh ids every id is in one place and its deliveries are numbered
    from 1 without gaps up to the limit, so the delivery that makes a failure
    the last one is made at most once per job.
   */
  lemma {:induction false} DeliveriesNumbered(c: Config, steps: seq<Step>, m: nat, n: nat)
    requires IsRun(c, Init, steps) && AllFresh(c, Init, steps)
    ensures var s := After(c, Init, steps);
            && IdsApart(s) && Numbered(c, s)
            && (m < n < |s.log| && s.log[m].id == s.log[n].id ==> s.log[m].number < s.log[n].number)
  {
    RunKeepsIds(c, Init, steps);
    var s := After(c, Init, steps);
    if m < n < |s.log| && s.log[m].id == s.log[n].id {
      assert NumberedAt(c, s.log, s.used, m) && NumberedAt(c, s.log, s.used, n);
      CountRises(s.log, s.log[m].id, m, n);
    }
  }

  // ------------------------------------------------------- what a run leaves

  ghost function Next(c: Config): (State, Step, State) -> bool {
    (x: State, step: Step, y: State) => Enabled(c, x, step) && y == Apply(c, x, step)
  }

  /** The states a run goes through. */
  ghost function States(c: Config, s: State, steps: seq<Step>): (r: seq<State>)
    requires IsRun(c, s, steps)
    ensures |r| == |steps| + 1 && r[0] == s && r[|steps|] == After(c, s, steps)
    ensures Traces(Next(c), r, steps)
    decreases |steps|
  {
    if steps == [] then [s]
    else
      var rest := States(c, Apply(c, s, steps[0]), steps[1..]);
      TracesFrom(Next(c), s, steps[0], rest, steps[1..]);
      assert [steps[0]] + steps[1..] == steps;
      [s] + rest
  }

  /** A send of `id` whose key is neither queued nor, when that is tracked, done. */
  ghost predicate Queues(c: Config, x: State, step: Step, id: Id, key: Key, created: int) {
    && step.Send? && step.id == id && step.key == key && step.now == created
    && !(c.dedupe && key in x.t.done) && forall i :: i in x.t.jobs ==> x.t.jobs[i].key != key
  }

  ghost function Queuing(c: Config, id: Id, key: Key, created: int): (State, Step) -> bool {
    (x: State, step: Step) => Queues(c, x, step, id, key, created)
  }

  /** Its deletion, or its move to the dead letters, unless those have its id already. */
  ghost predicate Unqueues(x: State, step: Step, id: Id) {
    step == Delete(id) || (step == Move(id) && id !in x.t.dead)
  }

  ghost function Unqueuing(id: Id): (State, Step) -> bool {
    (x: State, step: Step) => Unqueues(x, step, id)
  }

  ghost predicate IsJob(x: State, id: Id, key: Key, created: int) {
    id in x.t.jobs && x.t.jobs[id].key == key && x.t.jobs[id].created == created
  }

  /** Over any run a job is queued if and only if a send that was not skipped stands undeleted and unmoved. */
  lemma {:induction false} QueuedIff(c: Config, s: State, steps: seq<Step>, id: Id, key: Key, created: int)
    requires IsRun(c, s, steps)
    ensures IsJob(After(c, s, steps), id, key, created) <==>
            Standing(States(c, s, steps), steps, IsJob(s, id, key, created), Queuing(c, id, key, created),
                     Unqueuing(id))
  {
    forall x: State, step: Step, y: State | Next(c)(x, step, y)
      ensures IsJob(y, id, key, created) <==>
              Queuing(c, id, key, created)(x, step) || (IsJob(x, id, key, created) && !Unqueuing(id)(x, step))
    {
      assert Enabled(c, x, step) && y == Apply(c, x, step);
    }
    LawOverRuns(Next(c), States(c, s, steps), steps, (x: State) => IsJob(x, id, key, created),
                Queuing(c, id, key, created), Unqueuing(id));
  }

  ghost predicate FreeAt(x: State, id: Id, u: int) {
    id in x.t.jobs && x.t.jobs[id].avail == u
  }

  /** The step puts the job's next delivery off to `u`. */
  ghost predicate PutsOff(c: Config, x: State, step: Step, id: Id, u: int) {
    || (step.Send? && Queues(c, x, step, id, step.key, step.now) && u == step.now + step.delay)
    || (step.Receive? && step.pick == Some(id) && u == step.avail)
    || (step == Extend(id, u) && id in x.t.jobs)
  }

  ghost function PuttingOff(c: Config, id: Id, u: int): (State, Step) -> bool {
    (x: State, step: Step) => PutsOff(c, x, step, id, u)
  }

  ghost function Rescheduling(id: Id): (State, Step) -> bool {
    (x: State, step: Step) =>
      (step.Receive? && step.pick == Some(id)) || (step.Extend? && step.id == id) || Unqueues(x, step, id)
  }

  /** Over any run a job is next available when its last send, receive or extension says. */
  lemma {:induction false} AvailableIff(c: Config, s: State, steps: seq<Step>, id: Id, u: int)
    requires IsRun(c, s, steps)
    ensures FreeAt(After(c, s, steps), id, u) <==>
            Standing(States(c, s, steps), steps, FreeAt(s, id, u), PuttingOff(c, id, u), Rescheduling(id))
  {
    forall x: State, step: Step, y: State | Next(c)(x, step, y)
      ensures FreeAt(y, id, u) <==>
              PuttingOff(c, id, u)(x, step) || (FreeAt(x, id, u) && !Rescheduling(id)(x, step))
    {
      assert Enabled(c, x, step) && y == Apply(c, x, step);
    }
    LawOverRuns(Next(c), States(c, s, steps), steps, (x: State) => FreeAt(x, id, u), PuttingOff(c, id, u),
                Rescheduling(id));
  }

  /** What a finished or dead job leaves in job_done: the first of its kind stays. */
  ghost predicate Marks(c: Config, x: State, step: Step, key: Key, st: Status) {
    && (step.Delete? || step.Move?) && step.id in x.t.jobs && x.t.jobs[step.id].key == key && key !in x.t.done
    && c.dedupe && (if st.Success? then step.Delete? else step.Move? && step.id !in x.t.dead && c.blockRepeatsOnDLQ)
  }

  ghost function Marking(c: Config, key: Key, st: Status): (State, Step) -> bool {
    (x: State, step: Step) => Marks(c, x, step, key, st)
  }

  ghost function Never(): (State, Step) -> bool {
    (x: State, step: Step) => false
  }

  ghost predicate IsDone(x: State, key: Key, st: Status) {
    key in x.t.done && x.t.done[key] == st
  }

  /** Over any run a key is done with a status if and only if the first mark of it said so. */
  lemma {:induction false} DoneIff(c: Config, s: State, steps: seq<Step>, key: Key, st: Status)
    requires IsRun(c, s, steps)
    ensures IsDone(After(c, s, steps), key, st) <==>
            Standing(States(c, s, steps), steps, IsDone(s, key, st), Marking(c, key, st), Never())
  {
    forall x: State, step: Step, y: State | Next(c)(x, step, y)
      ensures IsDone(y, key, st) <==> Marking(c, key, st)(x, step) || (IsDone(x, key, st) && !Never()(x, step))
    {
      assert Enabled(c, x, step) && y == Apply(c, x, step);
    }
    LawOverRuns(Next(c), States(c, s, steps), steps, (x: State) => IsDone(x, key, st), Marking(c, key, st), Never());
  }

  ghost predicate IsDead(x: State, id: Id, d: Dead) {
    id in x.t.dead && x.t.dead[id] == d
  }

  ghost function Dying(id: Id, d: Dead): (State, Step) -> bool {
    (x: State, step: Step) =>
      step == Move(id) && id in x.t.jobs && id !in x.t.dead && d == Dead(x.t.jobs[id].key, x.t.jobs[id].attempts)
  }

  /** Over any run the dead letters hold a job if and only if it was moved there, with the attempts it then had. */
  lemma {:induction false} DeadIff(c: Config, s: State, steps: seq<Step>, id: Id, d: Dead)
    requires IsRun(c, s, steps)
    ensures IsDead(After(c, s, steps), id, d) <==>
            Standing(States(c, s, steps), steps, IsDead(s, id, d), Dying(id, d), Never())
  {
    forall x: State, step: Step, y: State | Next(c)(x, step, y)
      ensures IsDead(y, id, d) <==> Dying(id, d)(x, step) || (IsDead(x, id, d) && !Never()(x, step))
    {
      assert Enabled(c, x, step) && y == Apply(c, x, step);
    }
    LawOverRuns(Next(c), States(c, s, steps), steps, (x: State) => IsDead(x, id, d), Dying(id, d), Never());
  }

  // ------------------------------------------------------------- reused ids

  /** SQLite's rowid: one more than the largest live one. */
  ghost predicate SqliteId(t: Tables, id: Id) {
    if t.jobs == map[] then id == 1 else id - 1 in t.jobs && forall i :: i in t.jobs ==> i < id
  }

  /** The send inserts a job. */
  predicate Inserts(c: Config, s: State, step: Step) {
    step.Send? && !Skips(c, s.t, step.key)
  }

  /** The greatest id ever given out is still in the queue, or none was given out. */
  ghost predicate GreatestQueued(s: State) {
    forall u :: u in s.used ==> exists g :: g in s.t.jobs && u <= g
  }

  ghost predicate AllSqlite(c: Config, s: State, steps: seq<Step>)
    requires IsRun(c, s, steps)
    decreases |steps|
  {
    steps == [] || ((Inserts(c, s, steps[0]) ==> SqliteId(s.t, steps[0].id))
                    && AllSqlite(c, Apply(c, s, steps[0]), steps[1..]))
  }

  /** Every insert happens while the greatest id ever given out is still in the queue. */
  ghost predicate AllTimely(c: Config, s: State, steps: seq<Step>)
    requires IsRun(c, s, steps)
    decreases |steps|
  {
    steps == [] || ((Inserts(c, s, steps[0]) ==> GreatestQueued(s))
                    && AllTimely(c, Apply(c, s, steps[0]), steps[1..]))
  }

  /** At every point of the run each id given out is live, finished or dead, and only one of them. */
  ghost predicate AlwaysApart(c: Config, s: State, steps: seq<Step>)
    requires IsRun(c, s, steps)
    decreases |steps|
  {
    IdsApart(s) && (steps == [] || AlwaysApart(c, Apply(c, s, steps[0]), steps[1..]))
  }

  /** SQLite has given out the ids 1 to `g`. */
  ghost predicate UsedUpTo(s: State, g: nat) {
    forall id :: id in s.used <==> 1 <= id <= g
  }

  /** SQLite gives an insert a new id if and only if the greatest one ever given out is still in the queue. */
  lemma {:induction false} SqliteIdFreshIff(s: State, id: Id, g: nat)
    requires IdsApart(s) && UsedUpTo(s, g) && SqliteId(s.t, id)
    ensures id !in s.used <==> GreatestQueued(s)
    ensures id !in s.used ==> id == g + 1
  {
    assert forall i :: i in s.t.jobs ==> i in s.used;
    if s.t.jobs == map[] {
      assert g > 0 ==> g in s.used && 1 in s.used;
    } else {
      assert id - 1 in s.t.jobs && g in s.used;
    }
  }

  /** An insert keeps the ids apart if and only if the greatest one ever given out is still in the queue. */
  lemma {:induction false} SqliteInsert(c: Config, s: State, id: Id, key: Key, now: int, delay: nat, g: nat)
    requires IdsApart(s) && UsedUpTo(s, g) && id !in s.t.jobs && !Skips(c, s.t, key) && SqliteId(s.t, id)
    ensures var s' := Apply(c, s, Send(id, key, now, delay));
            (IdsApart(s') <==> GreatestQueued(s)) && (GreatestQueued(s) ==> UsedUpTo(s', g + 1))
  {
    SqliteIdFreshIff(s, id, g);
    SendKeepsIdsIff(c, s, id, key, now, delay);
    if GreatestQueued(s) {
      UsedNext(s, Apply(c, s, Send(id, key, now, delay)), g);
    }
  }

  lemma {:induction false} UsedNext(s: State, s': State, g: nat)
    requires UsedUpTo(s, g) && s'.used == s.used + {g + 1}
    ensures UsedUpTo(s', g + 1)
  {
  }

  lemma {:induction false} SqliteApartFromIff(c: Config, s: State, steps: seq<Step>, g: nat)
    requires IdsApart(s) && UsedUpTo(s, g) && IsRun(c, s, steps) && AllSqlite(c, s, steps)
    ensures AlwaysApart(c, s, steps) <==> AllTimely(c, s, steps)
    decreases |steps|
  {
    if steps != [] {
      var step := steps[0];
      var s' := Apply(c, s, step);
      if Inserts(c, s, step) {
        SqliteInsert(c, s, step.id, step.key, step.now, step.delay, g);
        if GreatestQueued(s) {
          SqliteApartFromIff(c, s', steps[1..], g + 1);
        }
      } else {
        NoInsertKeepsIds(c, s, step);
        SqliteApartFromIff(c, s', steps[1..], g);
      }
    }
  }

  lemma {:induction false} NoInsertKeepsIds(c: Config, s: State, step: Step)
    requires IdsApart(s) && Enabled(c, s, step) && !Inserts(c, s, step)
    ensures IdsApart(Apply(c, s, step)) && Apply(c, s, step).used == s.used
  {
    if !step.Send? { StepKeepsIds(c, s, step); }
  }

  /**
    On SQLite the ids stay apart throughout a run if and only if no job is
    inserted while the greatest id ever given out has left the queue.
   */
  lemma {:induction false} SqliteApartIff(c: Config, steps: seq<Step>)
    requires IsRun(c, Init, steps) && AllSqlite(c, Init, steps)
    ensures AlwaysApart(c, Init, steps) <==> AllTimely(c, Init, steps)
  {
    SqliteApartFromIff(c, Init, steps, 0);
  }

  /**
    On SQLite, whose ids are not fresh, the id of a dead job is given to the
    next one: it is then live and dead at once, and its own move to the dead
    letters fails.
   */
  lemma {:induction false} SqliteReusesDeadIds(c: Config, a: Key, b: Key)
    requires a != b && c.maxReceive > 0
    ensures var s1 := Apply(c, Init, Send(1, a, 0, 0));
            && SqliteId(Init.t, 1) && Enabled(c, s1, Receive(0, 0, Some(1)))
            && var s2 := Apply(c, Apply(c, s1, Receive(0, 0, Some(1))), Move(1));
               && SqliteId(s2.t, 1) && Enabled(c, s2, Send(1, b, 0, 0)) && !GreatestQueued(s2)
               && var s3 := Apply(c, s2, Send(1, b, 0, 0));
                  !IdsApart(s3) && MoveFails(s3.t, 1) && Apply(c, s3, Move(1)) == s3
  {
    var s1 := Apply(c, Init, Send(1, a, 0, 0));
    var s2 := Apply(c, Apply(c, s1, Receive(0, 0, Some(1))), Move(1));
    assert s2.t.jobs == map[] && 1 in s2.used;
  }
}
