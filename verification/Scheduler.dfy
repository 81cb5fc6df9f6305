/** One scheduler instance (services/scheduler/scheduler.go): the Redis lease and the pass over due jobs. */
module Scheduler {
  import opened Domain
  import opened Backend

  const LEADER_TTL: int := 30_000_000_000
  const CHECK_INTERVAL: int := 15_000_000_000

  // ----- the lease -----

  datatype Lease = Free | Held(holder: string, expires: int)

  predicate Vacant(lease: Lease, now: int) {
    lease.Free? || lease.expires <= now
  }

  /** SET NX, the renew script, and time passing. */
  datatype LeaseOp = Try(id: string) | Extend(id: string) | Wait(d: nat)

  datatype Clocked = Clocked(lease: Lease, now: int)

  /** The operation succeeds inside Redis, whatever becomes of its reply. */
  predicate Wins(c: Clocked, op: LeaseOp) {
    match op
    case Try(_) => Vacant(c.lease, c.now)
    case Extend(id) => !Vacant(c.lease, c.now) && c.lease.holder == id
    case Wait(_) => false
  }

  function LeaseStep(c: Clocked, op: LeaseOp): Clocked {
    if op.Wait? then c.(now := c.now + op.d)
    else if Wins(c, op) then c.(lease := Held(op.id, c.now + LEADER_TTL))
    else c
  }

  function LeaseRun(c: Clocked, ops: seq<LeaseOp>): Clocked {
    if ops == [] then c else LeaseStep(LeaseRun(c, ops[..|ops| - 1]), ops[|ops| - 1])
  }

  // ----- jobs -----

  /** `parses`: the cron expression is one the parser accepts. */
  datatype Job = Job(taskType: string, payload: string, parses: bool, enabled: bool, next: Option<int>,
                     last: Option<int>)

  predicate IsDue(job: Job, now: int) {
    job.enabled && (job.next.None? || job.next.value <= now)
  }

  predicate NotAfter(a: Option<int>, b: Option<int>) {
    a.None? || (b.Some? && a.value <= b.value)
  }

  /** The answer to the due-jobs query: each due job once, earliest first and never-run jobs before all. */
  predicate IsDueList(jobs: map<string, Job>, now: int, due: seq<string>) {
    && (forall id :: id in due ==> id in jobs && IsDue(jobs[id], now))
    && (forall id :: id in jobs && IsDue(jobs[id], now) ==> id in due)
    && (forall i, j :: 0 <= i < j < |due| ==> due[i] != due[j] && NotAfter(jobs[due[i]].next, jobs[due[j]].next))
  }

  function Rescheduled(job: Job, at: int, nextRun: int): Job {
    job.(last := Some(at), next := Some(nextRun))
  }

  /**
   The environment of one runJob: the fresh identifier, the clock reading, the publish, the next instant of the cron
   expression, the update.
   */
  datatype Firing = Firing(id: string, at: int, publish: Outcome, nextRun: int, update: Outcome)

  function FireOne(jobs: map<string, Job>, id: string, f: Firing): map<string, Job> {
    if id in jobs && f.publish.Applied? && jobs[id].parses && !f.update.Refused?
    then jobs[id := Rescheduled(jobs[id], f.at, f.nextRun)] else jobs
  }

  /** An update of the table by another instance. */
  datatype Rescheduling = Rescheduling(id: string, at: int, nextRun: int)

  function Reschedule(jobs: map<string, Job>, rs: seq<Rescheduling>): map<string, Job> {
    if rs == [] then jobs
    else
      var before, r := Reschedule(jobs, rs[..|rs| - 1]), rs[|rs| - 1];
      if r.id in before then before[r.id := Rescheduled(before[r.id], r.at, r.nextRun)] else before
  }

  /** A pass over the due jobs, others acting on the table before each of them. */
  function FireAll(jobs: map<string, Job>, due: seq<string>, fs: seq<Firing>, others: seq<seq<Rescheduling>>)
    : map<string, Job>
    requires |due| == |fs| == |others|
  {
    if due == [] then jobs
    else
      var n := |due| - 1;
      FireOne(Reschedule(FireAll(jobs, due[..n], fs[..n], others[..n]), others[n]), due[n], fs[n])
  }

  /** Same jobs but for the two times. */
  predicate SameJobs(a: map<string, Job>, b: map<string, Job>) {
    a.Keys == b.Keys && forall id :: id in a ==> b[id] == a[id].(next := b[id].next, last := b[id].last)
  }

  function TaskFor(job: Job, f: Firing): Task {
    Task(f.id, job.taskType, job.payload, Pending, 0, f.at, f.at, None)
  }

  lemma {:induction false} RescheduleSame(jobs: map<string, Job>, rs: seq<Rescheduling>)
    ensures SameJobs(jobs, Reschedule(jobs, rs))
    decreases |rs|
  {
    if rs != [] {
      RescheduleSame(jobs, rs[..|rs| - 1]);
    }
  }

  lemma FireOneSame(jobs: map<string, Job>, id: string, f: Firing)
    ensures SameJobs(jobs, FireOne(jobs, id, f))
  {
  }

  lemma SameTransitive(a: map<string, Job>, b: map<string, Job>, c: map<string, Job>)
    requires SameJobs(a, b) && SameJobs(b, c)
    ensures SameJobs(a, c)
  {
  }

  /** The tasks published by a pass, in order. */
  function PublishedBy(jobs: map<string, Job>, due: seq<string>, fs: seq<Firing>): seq<Task>
    requires |due| == |fs| && forall id :: id in due ==> id in jobs
  {
    if due == [] then []
    else PublishedBy(jobs, due[..|due| - 1], fs[..|fs| - 1]) +
         if fs[|fs| - 1].publish.Refused? then [] else [TaskFor(jobs[due[|due| - 1]], fs[|fs| - 1])]
  }

  /** The due-jobs query without the predicates that make it. */
  lemma DueQuery(jobs: map<string, Job>, now: int, due: seq<string>)
    requires IsDueList(jobs, now, due)
    ensures forall id :: id in due <==>
              id in jobs && jobs[id].enabled && (jobs[id].next.None? || jobs[id].next.value <= now)
    ensures forall i, j :: 0 <= i < j < |due| ==> due[i] != due[j]
    ensures forall i, j :: 0 <= i < j < |due| ==>
              var a, b := jobs[due[i]].next, jobs[due[j]].next;
              a == None || (b != None && a.value <= b.value)
  {
    forall i, j | 0 <= i < j < |due|
      ensures due[i] != due[j] && NotAfter(jobs[due[i]].next, jobs[due[j]].next)
    {
    }
  }

  lemma {:induction false} RescheduleSpares(jobs: map<string, Job>, rs: seq<Rescheduling>, id: string)
    requires id in jobs && forall r :: r in rs ==> r.id != id
    ensures id in Reschedule(jobs, rs) && Reschedule(jobs, rs)[id] == jobs[id]
    decreases |rs|
  {
    if rs != [] {
      RescheduleSpares(jobs, rs[..|rs| - 1], id);
    }
  }

  /** A job that is not due is left alone by the pass. */
  lemma {:induction false} PassSpares(jobs: map<string, Job>, due: seq<string>, fs: seq<Firing>,
                                      others: seq<seq<Rescheduling>>, id: string)
    requires |due| == |fs| == |others| && id in jobs && id !in due
    requires forall k, r :: 0 <= k < |others| && r in others[k] ==> r.id != id
    ensures id in FireAll(jobs, due, fs, others) && FireAll(jobs, due, fs, others)[id] == jobs[id]
    decreases |due|
  {
    if due != [] {
      var n := |due| - 1;
      PassSpares(jobs, due[..n], fs[..n], others[..n], id);
      RescheduleSpares(FireAll(jobs, due[..n], fs[..n], others[..n]), others[n], id);
    }
  }

  /** What a pass does to one due job that no other instance touches: exactly its own firing. */
  lemma {:induction false} PassFires(jobs: map<string, Job>, due: seq<string>, fs: seq<Firing>,
                                     others: seq<seq<Rescheduling>>, k: nat)
    requires |due| == |fs| == |others| && k < |due| && due[k] in jobs
    requires forall i, j :: 0 <= i < j < |due| ==> due[i] != due[j]
    requires forall i, r :: 0 <= i < |others| && r in others[i] ==> r.id != due[k]
    ensures due[k] in FireAll(jobs, due, fs, others)
    ensures var job, was := FireAll(jobs, due, fs, others)[due[k]], jobs[due[k]];
            if fs[k].publish.Applied? && was.parses && !fs[k].update.Refused? then
              && job.taskType == was.taskType && job.payload == was.payload && job.parses == was.parses
              && job.enabled == was.enabled && job.last == Some(fs[k].at) && job.next == Some(fs[k].nextRun)
            else job == was
    decreases |due|
  {
    var n := |due| - 1;
    var before := FireAll(jobs, due[..n], fs[..n], others[..n]);
    if k < n {
      PassFires(jobs, due[..n], fs[..n], others[..n], k);
    } else {
      PassSpares(jobs, due[..n], fs[..n], others[..n], due[k]);
    }
    RescheduleSpares(before, others[n], due[k]);
  }

  /** A pass whose publishes are not refused publishes one task per due job, in order and with its type and payload. */
  lemma {:induction false} PassPublishes(jobs: map<string, Job>, due: seq<string>, fs: seq<Firing>, k: nat)
    requires k < |due| == |fs| && (forall id :: id in due ==> id in jobs)
    requires forall i :: 0 <= i < |fs| ==> !fs[i].publish.Refused?
    ensures |PublishedBy(jobs, due, fs)| == |due|
    ensures var task, job := PublishedBy(jobs, due, fs)[k], jobs[due[k]];
            && task.id == fs[k].id && task.taskType == job.taskType && task.payload == job.payload
            && task.status == Pending && task.createdAt == fs[k].at
    decreases |due|
  {
    var n := |due| - 1;
    if n > 0 {
      PassPublishes(jobs, due[..n], fs[..n], if k < n then k else 0);
    }
  }

  lemma DueKnown(jobs: map<string, Job>, now: int, due: seq<string>)
    requires IsDueList(jobs, now, due)
    ensures forall id :: id in due ==> id in jobs
  {
  }

  lemma PassStart(jobs: map<string, Job>, due: seq<string>, fs: seq<Firing>, others: seq<seq<Rescheduling>>)
    ensures FireAll(jobs, due[..0], fs[..0], others[..0]) == jobs && PublishedBy(jobs, due[..0], fs[..0]) == []
    ensures SameJobs(jobs, jobs)
  {
  }

  lemma PassStep(jobs: map<string, Job>, due: seq<string>, fs: seq<Firing>, others: seq<seq<Rescheduling>>, i: nat)
    requires i < |due| == |fs| == |others| && forall id :: id in due ==> id in jobs
    ensures FireAll(jobs, due[..i + 1], fs[..i + 1], others[..i + 1]) ==
            FireOne(Reschedule(FireAll(jobs, due[..i], fs[..i], others[..i]), others[i]), due[i], fs[i])
    ensures PublishedBy(jobs, due[..i + 1], fs[..i + 1]) ==
            PublishedBy(jobs, due[..i], fs[..i]) + if fs[i].publish.Refused? then [] else [TaskFor(jobs[due[i]], fs[i])]
  {
    assert due[..i + 1][..i] == due[..i] && fs[..i + 1][..i] == fs[..i] && others[..i + 1][..i] == others[..i];
  }

  /** What all instances share: the lease key with the clock, the jobs table and tasks.pending. */
  class Shared {
    var c: Clocked
    var jobs: map<string, Job>
    var published: seq<Task>

    constructor (now: int, jobs: map<string, Job>)
      ensures c == Clocked(Free, now) && this.jobs == jobs && published == []
    {
      c, this.jobs, published := Clocked(Free, now), jobs, [];
    }

    /** What the other instances do to the table meanwhile. */
    method OthersReschedule(rs: seq<Rescheduling>)
      modifies this`jobs
      ensures jobs == Reschedule(old(jobs), rs)
    {
      for i := 0 to |rs|
        invariant jobs == Reschedule(old(jobs), rs[..i])
      {
        assert rs[..i + 1][..i] == rs[..i];
        if rs[i].id in jobs {
          jobs := jobs[rs[i].id := Rescheduled(jobs[rs[i].id], rs[i].at, rs[i].nextRun)];
        }
      }
      assert rs[..|rs|] == rs;
    }

    /** Anything the other instances and the clock do to the lease meanwhile. */
    method Interfere(ops: seq<LeaseOp>)
      modifies this`c
      ensures c == LeaseRun(old(c), ops)
    {
      for i := 0 to |ops|
        invariant c == LeaseRun(old(c), ops[..i])
      {
        assert ops[..i + 1][..i] == ops[..i];
        c := LeaseStep(c, ops[i]);
      }
      assert ops[..|ops|] == ops;
    }
  }

  class Scheduler {
    const id: string
    const shared: Shared

    constructor (id: string, shared: Shared)
      ensures this.id == id && this.shared == shared
    {
      this.id, this.shared := id, shared;
    }

    /**
     True means this instance owns the key for a full TTL from the moment Redis answered. The key may expire or
     change hands between the two commands. A command that fails may or may not have reached Redis; either way the
     answer is false.
     */
    method AcquireOrRenewLeadership(try: Outcome, between: seq<LeaseOp>, extend: Outcome) returns (leader: bool)
      modifies shared`c
      ensures leader ==> shared.c.lease == Held(id, shared.c.now + LEADER_TTL)
      ensures var c0, won := old(shared.c), Wins(old(shared.c), Try(id));
              var tried := if try.Refused? then c0 else LeaseStep(c0, Try(id));
              if !try.Applied? || won then shared.c == tried && leader == (try.Applied? && won)
              else
                var c := LeaseRun(tried, between);
                && shared.c == (if extend.Refused? then c else LeaseStep(c, Extend(id)))
                && leader == (extend.Applied? && Wins(c, Extend(id)))
    {
      var now, lease := shared.c.now, shared.c.lease;
      var ok := lease.Free? || lease.expires <= now;
      if ok && !try.Refused? {
        shared.c := shared.c.(lease := Held(id, now + LEADER_TTL));
      }
      if !try.Applied? {
        return false;
      }
      if ok {
        return true;
      }
      shared.Interfere(between);
      now, lease := shared.c.now, shared.c.lease;
      var result := 0;
      if lease.Held? && now < lease.expires && lease.holder == id && !extend.Refused? {
        shared.c := shared.c.(lease := Held(id, now + LEADER_TTL));
        result := 1;
      }
      return extend.Applied? && result == 1;
    }

    /**
     `loaded` is the answer to the due-jobs query when it works. A failed query ends the pass; a failed runJob is
     logged and the pass goes on with the next job, whatever other instances do to the table in between.
     */
    method ProcessDueJobs(loaded: Option<seq<string>>, fs: seq<Firing>, others: seq<seq<Rescheduling>>)
      returns (err: bool)
      requires loaded.Some? ==> && IsDueList(shared.jobs, shared.c.now, loaded.value)
                                && |fs| == |loaded.value| == |others|
      modifies shared`jobs, shared`published
      ensures err == loaded.None?
      ensures err ==> shared.jobs == old(shared.jobs) && shared.published == old(shared.published)
      ensures !err ==> && shared.jobs == FireAll(old(shared.jobs), loaded.value, fs, others)
                       && shared.published == old(shared.published) + PublishedBy(old(shared.jobs), loaded.value, fs)
    {
      if loaded.None? {
        return true;
      }
      hide FireAll, PublishedBy, IsDueList, SameJobs;
      var due := loaded.value;
      DueKnown(shared.jobs, shared.c.now, due);
      PassStart(shared.jobs, due, fs, others);
      ghost var jobs, published := shared.jobs, shared.published;
      for i := 0 to |due|
        invariant InPass(jobs, published, due, fs, others, i)
      {
        TakeTurn(jobs, published, due, fs, others, i);
      }
      assert due[..|due|] == due && fs[..|due|] == fs && others[..|due|] == others;
      return false;
    }

    /** The pass has come to job i. */
    ghost predicate InPass(jobs: map<string, Job>, published: seq<Task>, due: seq<string>, fs: seq<Firing>,
                           others: seq<seq<Rescheduling>>, i: nat)
      requires i <= |due| == |fs| == |others| && forall id :: id in due ==> id in jobs
      reads shared
    {
      && shared.jobs == FireAll(jobs, due[..i], fs[..i], others[..i])
      && shared.published == published + PublishedBy(jobs, due[..i], fs[..i])
      && SameJobs(jobs, shared.jobs)
    }

    method TakeTurn(ghost jobs: map<string, Job>, ghost published: seq<Task>, due: seq<string>, fs: seq<Firing>,
                    others: seq<seq<Rescheduling>>, i: nat)
      requires i < |due| == |fs| == |others| && forall id :: id in due ==> id in jobs
      requires InPass(jobs, published, due, fs, others, i)
      modifies shared`jobs, shared`published
      ensures InPass(jobs, published, due, fs, others, i + 1)
    {
      hide FireOne, FireAll, PublishedBy, Reschedule;
      PassStep(jobs, due, fs, others, i);
      RescheduleSame(shared.jobs, others[i]);
      SameTransitive(jobs, shared.jobs, Reschedule(shared.jobs, others[i]));
      shared.OthersReschedule(others[i]);
      FireOneSame(shared.jobs, due[i], fs[i]);
      SameTransitive(jobs, shared.jobs, FireOne(shared.jobs, due[i], fs[i]));
      var _ := RunJob(due[i], fs[i]);
    }

    method RunJob(jobId: string, f: Firing) returns (err: bool)
      requires jobId in shared.jobs
      modifies shared`jobs, shared`published
      ensures shared.jobs == FireOne(old(shared.jobs), jobId, f)
      ensures shared.published ==
              old(shared.published) + if f.publish.Refused? then [] else [TaskFor(old(shared.jobs)[jobId], f)]
      ensures |shared.published| == |old(shared.published)| + if f.publish.Refused? then 0 else 1
      ensures !f.publish.Refused? ==>
                var task, job := shared.published[|old(shared.published)|], old(shared.jobs)[jobId];
                && task.id == f.id && task.taskType == job.taskType && task.payload == job.payload
                && task.status == Pending && task.attempts == 0 && task.createdAt == f.at && task.updatedAt == f.at
                && task.completedAt == None
      ensures shared.jobs.Keys == old(shared.jobs.Keys)
      ensures forall other :: other in shared.jobs && other != jobId ==> shared.jobs[other] == old(shared.jobs)[other]
      ensures f.publish.Applied? && old(shared.jobs)[jobId].parses && !f.update.Refused? ==>
                var job, was := shared.jobs[jobId], old(shared.jobs)[jobId];
                && job.taskType == was.taskType && job.payload == was.payload && job.parses == was.parses
                && job.enabled == was.enabled && job.last == Some(f.at) && job.next == Some(f.nextRun)
      ensures err <==> !(f.publish.Applied? && old(shared.jobs)[jobId].parses && f.update.Applied?)
      ensures err && !(f.publish.Applied? && old(shared.jobs)[jobId].parses && f.update.Lost?) ==>
                shared.jobs == old(shared.jobs)
    {
      var job := shared.jobs[jobId];
      if !f.publish.Refused? {
        shared.published := shared.published + [Task(f.id, job.taskType, job.payload, Pending, 0, f.at, f.at, None)];
      }
      if !f.publish.Applied? {
        return true;
      }
      if !job.parses {
        return true;
      }
      if !f.update.Refused? {
        shared.jobs := shared.jobs[jobId := job.(last := Some(f.at), next := Some(f.nextRun))];
      }
      return !f.update.Applied?;
    }
  }
}
