/**
 Runs of any number of scheduler instances: every interleaving of their Redis, Postgres and Kafka operations
 with the clock, lost replies and stops anywhere (services/scheduler/scheduler.go:84-217).
 */
module SchedulerRuns {
  import opened Domain
  import opened Backend
  import opened Scheduler

  /** A lease operation that succeeded inside Redis. */
  datatype Win = Win(id: string, time: int)

  datatype Due = Due(job: string, seen: Option<int>)

  /**
   A pass of one instance: when its lease operation succeeded, the time of its last step, the due jobs it has
   still to run as it loaded them, and the publish of the first of them when that has happened.
   */
  datatype Pass = Pass(start: int, since: int, todo: seq<Due>, open: Option<nat>)

  /** A publish is unfinished until its runJob has ended, and stays so if the instance stops first. */
  datatype Fate = Unfinished | Succeeded | Aborted

  /** A task published for a job: the next_run_at the instance had loaded and the clock reading it fired with. */
  datatype Pub = Pub(job: string, seen: Option<int>, at: int, fate: Fate)

  /** A step of a pass. */
  datatype Work = Work(id: string, start: int, time: int)

  datatype Sys = Sys(
    c: Clocked,
    jobs: map<string, Job>,
    passes: map<string, Pass>,
    wins: seq<Win>,
    pubs: seq<Pub>,
    work: seq<Work>)

  datatype Action =
    | Tick(d: nat)
    | SetNx(id: string, heard: bool)
    | Renew(id: string, heard: bool)
    | Load(id: string, due: seq<string>)
    | Publish(id: string, at: int, outcome: Outcome)
    | Update(id: string, nextRun: int, outcome: Outcome)
    | ParseFails(id: string)
    | Leave(id: string)

  function Compete(s: Sys, id: string, op: LeaseOp, heard: bool): Sys {
    if id in s.passes || !Wins(s.c, op) then s
    else
      var won := s.(c := LeaseStep(s.c, op), wins := s.wins + [Win(id, s.c.now)]);
      if heard then won.(passes := s.passes[id := Pass(s.c.now, s.c.now, [], None)]) else won
  }

  function Loaded(jobs: map<string, Job>, due: seq<string>): seq<Due>
    requires forall id :: id in due ==> id in jobs
  {
    seq(|due|, i requires 0 <= i < |due| => Due(due[i], jobs[due[i]].next))
  }

  function Worked(s: Sys, id: string): Sys
    requires id in s.passes
  {
    s.(work := s.work + [Work(id, s.passes[id].start, s.c.now)])
  }

  predicate Enabled(s: Sys, a: Action) {
    match a
    case Load(id, due) => id in s.passes && s.passes[id].todo == [] && IsDueList(s.jobs, s.c.now, due)
    case Publish(id, at, _) =>
      id in s.passes && s.passes[id].todo != [] && s.passes[id].open.None? && s.passes[id].since <= at <= s.c.now
    case Update(id, _, _) =>
      && id in s.passes && s.passes[id].todo != [] && s.passes[id].open.Some? && s.passes[id].open.value < |s.pubs|
      && s.passes[id].todo[0].job in s.jobs && s.jobs[s.passes[id].todo[0].job].parses
    case ParseFails(id) =>
      && id in s.passes && s.passes[id].todo != [] && s.passes[id].open.Some? && s.passes[id].open.value < |s.pubs|
      && s.passes[id].todo[0].job in s.jobs && !s.jobs[s.passes[id].todo[0].job].parses
    case Leave(id) => id in s.passes
    case _ => true
  }

  function Closed(s: Sys, id: string, fate: Fate): Sys
    requires id in s.passes && s.passes[id].todo != [] && s.passes[id].open.Some? && s.passes[id].open.value < |s.pubs|
  {
    var pass := s.passes[id];
    var k := pass.open.value;
    s.(pubs := s.pubs[k := s.pubs[k].(fate := fate)],
       passes := s.passes[id := pass.(todo := pass.todo[1..], open := None, since := s.c.now)])
  }

  /** An action that is not enabled does nothing. */
  function Next(s: Sys, a: Action): Sys {
    if !Enabled(s, a) then s
    else
      match a
      case Tick(d) => s.(c := LeaseStep(s.c, Wait(d)))
      case SetNx(id, heard) => Compete(s, id, Try(id), heard)
      case Renew(id, heard) => Compete(s, id, Extend(id), heard)
      case Load(id, due) =>
        Worked(s, id).(passes := s.passes[id := s.passes[id].(todo := Loaded(s.jobs, due), since := s.c.now)])
      case Publish(id, at, outcome) =>
        var pass := s.passes[id];
        var pub := Pub(pass.todo[0].job, pass.todo[0].seen, at, if outcome.Applied? then Unfinished else Aborted);
        var w := if outcome.Refused? then Worked(s, id) else Worked(s, id).(pubs := s.pubs + [pub]);
        if outcome.Applied? then w.(passes := s.passes[id := pass.(open := Some(|s.pubs|), since := s.c.now)])
        else w.(passes := s.passes[id := pass.(todo := pass.todo[1..], since := s.c.now)])
      case Update(id, nextRun, outcome) =>
        var job, at := s.passes[id].todo[0].job, s.pubs[s.passes[id].open.value].at;
        var w := Closed(Worked(s, id), id, if outcome.Applied? then Succeeded else Aborted);
        if outcome.Refused? then w else w.(jobs := s.jobs[job := Rescheduled(s.jobs[job], at, nextRun)])
      case ParseFails(id) => Closed(Worked(s, id), id, Aborted)
      case Leave(id) => s.(passes := s.passes - {id})
  }

  function Start(now: int, jobs: map<string, Job>): Sys {
    Sys(Clocked(Free, now), jobs, map[], [], [], [])
  }

  function Run(s: Sys, actions: seq<Action>): Sys {
    if actions == [] then s else Next(Run(s, actions[..|actions| - 1]), actions[|actions| - 1])
  }

  // ----- an instance's code makes runs of this machine -----

  /** The lease commands of an idle instance are the lease operations. */
  lemma LeaseCommands(s: Sys, id: string, heard: bool)
    requires id !in s.passes
    ensures Next(s, SetNx(id, heard)).c == LeaseStep(s.c, Try(id))
    ensures Next(s, Renew(id, heard)).c == LeaseStep(s.c, Extend(id))
    ensures id in Next(s, SetNx(id, heard)).passes <==> heard && Wins(s.c, Try(id))
    ensures id in Next(s, Renew(id, heard)).passes <==> heard && Wins(s.c, Extend(id))
  {
  }

  function FiringActions(id: string, parses: bool, f: Firing): seq<Action> {
    [Publish(id, f.at, f.publish)] +
    if !f.publish.Applied? then [] else if parses then [Update(id, f.nextRun, f.update)] else [ParseFails(id)]
  }

  /** Uninterrupted, the steps for the next due job have the effect of runJob, and its fate is runJob's result. */
  lemma RunJobIsRun(s: Sys, id: string, f: Firing)
    requires id in s.passes && s.passes[id].todo != [] && s.passes[id].open.None?
    requires s.passes[id].todo[0].job in s.jobs && s.passes[id].since <= f.at <= s.c.now
    ensures var job := s.passes[id].todo[0].job;
            var t := Run(s, FiringActions(id, s.jobs[job].parses, f));
            && t.jobs == FireOne(s.jobs, job, f)
            && id in t.passes && t.passes[id].todo == s.passes[id].todo[1..] && t.passes[id].open.None?
            && |t.pubs| == |s.pubs| + (if f.publish.Refused? then 0 else 1)
            && (!f.publish.Refused? ==>
                  (t.pubs[|s.pubs|].fate == Succeeded <==>
                   f.publish.Applied? && s.jobs[job].parses && f.update.Applied?))
  {
    hide Next, IsDueList, Loaded;
    var job := s.passes[id].todo[0].job;
    OneOrTwo(s, FiringActions(id, s.jobs[job].parses, f));
    PublishStep(s, id, f.at, f.publish);
    if f.publish.Applied? {
      EndStep(Next(s, Publish(id, f.at, f.publish)), id, f.nextRun, f.update);
    }
  }

  /**
   A job that has fired can fire again: as long as its next_run_at is the value the firing set, it is in every due list
   at a time if and only if it was enabled and that value has come.
   */
  lemma DueAgainIff(s: Sys, id: string, f: Firing, actions: seq<Action>, t: int, due: seq<string>)
    requires id in s.passes && s.passes[id].todo != [] && s.passes[id].open.None?
    requires s.passes[id].todo[0].job in s.jobs && s.passes[id].since <= f.at <= s.c.now
    requires var job := s.passes[id].todo[0].job;
             var end := Run(Run(s, FiringActions(id, s.jobs[job].parses, f)), actions);
             && f.publish.Applied? && s.jobs[job].parses && !f.update.Refused?
             && job in end.jobs && end.jobs[job].next == Some(f.nextRun) && IsDueList(end.jobs, t, due)
    ensures var job := s.passes[id].todo[0].job;
            job in due <==> s.jobs[job].enabled && f.nextRun <= t
  {
    hide Next, IsDueList, Run;
    var job := s.passes[id].todo[0].job;
    RunJobIsRun(s, id, f);
    var fired := Run(s, FiringActions(id, s.jobs[job].parses, f));
    KeepsJobs(fired, actions, job);
    DueQuery(Run(fired, actions).jobs, t, due);
  }

  /** No step changes anything of a job but its two times. */
  lemma {:induction false} KeepsJobs(s: Sys, actions: seq<Action>, job: string)
    requires job in s.jobs
    ensures var t := Run(s, actions);
            && job in t.jobs && t.jobs[job].enabled == s.jobs[job].enabled && t.jobs[job].parses == s.jobs[job].parses
            && t.jobs[job].taskType == s.jobs[job].taskType && t.jobs[job].payload == s.jobs[job].payload
    decreases |actions|
  {
    hide IsDueList, Loaded;
    if actions != [] {
      KeepsJobs(s, actions[..|actions| - 1], job);
      hide Run;
      StepKeepsJob(Run(s, actions[..|actions| - 1]), actions[|actions| - 1], job);
    }
  }

  lemma StepKeepsJob(s: Sys, a: Action, job: string)
    requires job in s.jobs
    ensures var t := Next(s, a);
            && job in t.jobs && t.jobs[job].enabled == s.jobs[job].enabled && t.jobs[job].parses == s.jobs[job].parses
            && t.jobs[job].taskType == s.jobs[job].taskType && t.jobs[job].payload == s.jobs[job].payload
  {
    hide IsDueList, Loaded;
  }

  lemma PublishStep(s: Sys, id: string, at: int, outcome: Outcome)
    requires Enabled(s, Publish(id, at, outcome))
    ensures var t := Next(s, Publish(id, at, outcome));
            var pass := s.passes[id];
            && t.jobs == s.jobs && id in t.passes && t.passes == s.passes[id := t.passes[id]] && t.c == s.c
            && t.passes[id].since == s.c.now
            && t.pubs == (if outcome.Refused? then s.pubs
                          else s.pubs + [Pub(pass.todo[0].job, pass.todo[0].seen, at,
                                             if outcome.Applied? then Unfinished else Aborted)])
            && t.passes[id].todo == (if outcome.Applied? then pass.todo else pass.todo[1..])
            && t.passes[id].open == (if outcome.Applied? then Some(|s.pubs|) else None)
  {
  }

  /** The step that ends runJob after its publish. */
  lemma EndStep(s: Sys, id: string, nextRun: int, outcome: Outcome)
    requires id in s.passes && s.passes[id].todo != [] && s.passes[id].todo[0].job in s.jobs
    requires s.passes[id].open.Some? && s.passes[id].open.value < |s.pubs|
    ensures var job, k := s.passes[id].todo[0].job, s.passes[id].open.value;
            var parses := s.jobs[job].parses;
            var t := Next(s, if parses then Update(id, nextRun, outcome) else ParseFails(id));
            && t.jobs == (if parses && !outcome.Refused? then
                            s.jobs[job := Rescheduled(s.jobs[job], s.pubs[k].at, nextRun)]
                          else s.jobs)
            && id in t.passes && t.passes == s.passes[id := t.passes[id]] && t.c == s.c
            && t.passes[id].todo == s.passes[id].todo[1..] && t.passes[id].open.None? && t.passes[id].since == s.c.now
            && t.pubs == s.pubs[k := s.pubs[k].(fate := if parses && outcome.Applied? then Succeeded else Aborted)]
  {
  }

  lemma OneOrTwo(s: Sys, actions: seq<Action>)
    requires 1 <= |actions| <= 2
    ensures Run(s, actions) == if |actions| == 1 then Next(s, actions[0]) else Next(Next(s, actions[0]), actions[1])
  {
    hide Next;
    assert Run(s, []) == s;
    assert actions[..1][..0] == [];
    assert Run(s, actions[..1]) == Next(s, actions[0]);
    if |actions| == 1 {
      assert actions[..1] == actions;
    }
  }

  // ----- leader separation -----

  predicate Ordered(wins: seq<Win>, now: int) {
    && (forall a, b :: 0 <= a < b < |wins| ==> wins[a].time <= wins[b].time)
    && (forall a :: 0 <= a < |wins| ==> wins[a].time <= now)
  }

  predicate Separated(wins: seq<Win>) {
    forall a, b :: 0 <= a < b < |wins| && wins[a].id != wins[b].id ==> wins[a].time + LEADER_TTL <= wins[b].time
  }

  /** The lease is what the last successful operation made of it. */
  predicate LeaseInv(s: Sys) {
    && Ordered(s.wins, s.c.now) && Separated(s.wins)
    && s.c.lease == if s.wins == [] then Free
                    else Held(s.wins[|s.wins| - 1].id, s.wins[|s.wins| - 1].time + LEADER_TTL)
  }

  lemma CompeteKeepsLease(s: Sys, id: string, op: LeaseOp, heard: bool)
    requires LeaseInv(s) && !op.Wait? && op.id == id
    ensures LeaseInv(Compete(s, id, op, heard))
  {
    hide Ordered, Separated;
    if Wins(s.c, op) {
      forall a | 0 <= a < |s.wins| && s.wins[a].id != id
        ensures s.wins[a].time + LEADER_TTL <= s.c.now
      {
        OthersAreOld(s, id, op, a);
      }
      OneMoreWin(s.wins, id, s.c.now);
    }
  }

  lemma OneMoreWin(wins: seq<Win>, id: string, now: int)
    requires Ordered(wins, now) && Separated(wins)
    requires forall a :: 0 <= a < |wins| && wins[a].id != id ==> wins[a].time + LEADER_TTL <= now
    ensures Ordered(wins + [Win(id, now)], now) && Separated(wins + [Win(id, now)])
  {
  }

  lemma OthersAreOld(s: Sys, id: string, op: LeaseOp, a: nat)
    requires LeaseInv(s) && !op.Wait? && op.id == id && Wins(s.c, op) && a < |s.wins| && s.wins[a].id != id
    ensures s.wins[a].time + LEADER_TTL <= s.c.now
  {
    var last := s.wins[|s.wins| - 1];
    if a < |s.wins| - 1 && s.wins[a].id != last.id {
      assert s.wins[a].time + LEADER_TTL <= last.time;
    }
  }

  lemma StepKeepsLease(s: Sys, a: Action)
    requires LeaseInv(s)
    ensures LeaseInv(Next(s, a))
  {
    hide IsDueList, Loaded, Rescheduled, Compete;
    match a
    case SetNx(id, heard) => CompeteKeepsLease(s, id, Try(id), heard);
    case Renew(id, heard) => CompeteKeepsLease(s, id, Extend(id), heard);
    case _ =>
  }

  lemma {:induction false} RunKeepsLease(s: Sys, actions: seq<Action>)
    requires LeaseInv(s)
    ensures LeaseInv(Run(s, actions))
    decreases |actions|
  {
    if actions != [] {
      RunKeepsLease(s, actions[..|actions| - 1]);
      StepKeepsLease(Run(s, actions[..|actions| - 1]), actions[|actions| - 1]);
    }
  }

  /** In every run, after a success of one instance no other instance succeeds within the TTL. */
  lemma LeaderSeparation(now: int, jobs: map<string, Job>, actions: seq<Action>, a: nat, b: nat)
    requires var wins := Run(Start(now, jobs), actions).wins;
             a < b < |wins| && wins[a].id != wins[b].id
    ensures var wins := Run(Start(now, jobs), actions).wins;
            wins[a].time + 30 * SECOND <= wins[b].time
  {
    RunKeepsLease(Start(now, jobs), actions);
  }

  // ----- passes of different instances do not overlap -----

  /** The pass still has its lease. */
  predicate Fresh(s: Sys, id: string) {
    id in s.passes && s.c.now < s.passes[id].start + LEADER_TTL
  }

  /** Steps of a pass come before its lease can have run out, and the cron expression's next instant is a later one. */
  predicate Timely(s: Sys, a: Action) {
    match a
    case Load(id, _) => Enabled(s, a) ==> Fresh(s, id)
    case Publish(id, _, _) => Enabled(s, a) ==> Fresh(s, id)
    case Update(id, nextRun, _) =>
      Enabled(s, a) ==> Fresh(s, id) && s.pubs[s.passes[id].open.value].at < nextRun
    case ParseFails(id) => Enabled(s, a) ==> Fresh(s, id)
    case _ => true
  }

  predicate TimelyRun(s: Sys, actions: seq<Action>) {
    actions == [] ||
    (TimelyRun(s, actions[..|actions| - 1]) && Timely(Run(s, actions[..|actions| - 1]), actions[|actions| - 1]))
  }

  predicate PassInv(s: Sys) {
    && (forall id :: id in s.passes ==>
          Win(id, s.passes[id].start) in s.wins && s.passes[id].start <= s.passes[id].since <= s.c.now)
    && (forall k :: 0 <= k < |s.work| ==>
          Win(s.work[k].id, s.work[k].start) in s.wins && s.work[k].start <= s.work[k].time <= s.c.now)
    && (forall k :: 0 <= k < |s.work| ==> s.work[k].time < s.work[k].start + LEADER_TTL)
    && (forall j, k :: 0 <= j < k < |s.work| ==> s.work[j].time <= s.work[k].time)
  }

  /** A step of a pass that has its lease. */
  lemma WorkKeepsPasses(s: Sys, t: Sys, id: string, pass: Pass)
    requires PassInv(s) && Fresh(s, id) && t.c == s.c && t.wins == s.wins
    requires t.work == s.work + [Work(id, s.passes[id].start, s.c.now)]
    requires t.passes == s.passes[id := pass] && pass.start == s.passes[id].start && pass.since == s.c.now
    ensures PassInv(t)
  {
  }

  lemma CompeteKeepsPasses(s: Sys, id: string, op: LeaseOp, heard: bool)
    requires PassInv(s)
    ensures PassInv(Compete(s, id, op, heard))
  {
    var t := Compete(s, id, op, heard);
    if t != s {
      assert Win(id, s.c.now) == t.wins[|s.wins|];
      assert forall w :: w in s.wins ==> w in t.wins;
    }
  }

  lemma StepKeepsPasses(s: Sys, a: Action)
    requires PassInv(s) && Timely(s, a)
    ensures PassInv(Next(s, a))
  {
    hide IsDueList, Loaded, Rescheduled, Compete, PassInv;
    var t := Next(s, a);
    if Enabled(s, a) {
      match a
      case SetNx(id, heard) => CompeteKeepsPasses(s, id, Try(id), heard);
      case Renew(id, heard) => CompeteKeepsPasses(s, id, Extend(id), heard);
      case Load(id, _) =>
        assert Fresh(s, id);
        assert t.passes == s.passes[id := t.passes[id]];
        WorkKeepsPasses(s, t, id, t.passes[id]);
      case Publish(id, _, _) =>
        assert Fresh(s, id);
        assert t.passes == s.passes[id := t.passes[id]];
        WorkKeepsPasses(s, t, id, t.passes[id]);
      case Update(id, _, _) =>
        assert Fresh(s, id);
        assert t.passes == s.passes[id := t.passes[id]];
        WorkKeepsPasses(s, t, id, t.passes[id]);
      case ParseFails(id) =>
        assert Fresh(s, id);
        assert t.passes == s.passes[id := t.passes[id]];
        WorkKeepsPasses(s, t, id, t.passes[id]);
      case Tick(_) => QuietKeepsPasses(s, a);
      case Leave(_) => QuietKeepsPasses(s, a);
    }
  }

  lemma QuietKeepsPasses(s: Sys, a: Action)
    requires PassInv(s) && (a.Tick? || a.Leave?)
    ensures PassInv(Next(s, a))
  {
  }

  /** Two instances that won at such times, both in the last TTL, are one. */
  lemma WinsApart(s: Sys, i: string, start: int, k: string, other: int)
    requires LeaseInv(s) && Win(i, start) in s.wins && Win(k, other) in s.wins && i != k
    ensures start + LEADER_TTL <= other || other + LEADER_TTL <= start
  {
    var a :| 0 <= a < |s.wins| && s.wins[a] == Win(i, start);
    var b :| 0 <= b < |s.wins| && s.wins[b] == Win(k, other);
    assert a < b || b < a;
  }

  lemma OnlyFresh(s: Sys, i: string, k: string)
    requires LeaseInv(s) && PassInv(s) && Fresh(s, i) && Fresh(s, k)
    ensures i == k
  {
    if i != k {
      WinsApart(s, i, s.passes[i].start, k, s.passes[k].start);
    }
  }

  lemma {:induction false} RunKeepsPasses(s: Sys, actions: seq<Action>)
    requires LeaseInv(s) && PassInv(s) && TimelyRun(s, actions)
    ensures LeaseInv(Run(s, actions)) && PassInv(Run(s, actions))
    decreases |actions|
  {
    hide LeaseInv, PassInv, Timely, Next;
    if actions != [] {
      var before := actions[..|actions| - 1];
      RunKeepsPasses(s, before);
      StepKeepsLease(Run(s, before), actions[|actions| - 1]);
      StepKeepsPasses(Run(s, before), actions[|actions| - 1]);
    }
  }

  lemma StartHolds(now: int, jobs: map<string, Job>)
    ensures LeaseInv(Start(now, jobs)) && PassInv(Start(now, jobs)) && FireInv(Start(now, jobs))
  {
  }

  /**
   When every pass keeps within its lease, passes of different instances never overlap: every step of one comes
   before the lease success that started the other.
   */
  lemma PassesDisjoint(now: int, jobs: map<string, Job>, actions: seq<Action>, j: nat, k: nat)
    requires TimelyRun(Start(now, jobs), actions)
    requires var work := Run(Start(now, jobs), actions).work;
             j < k < |work| && work[j].id != work[k].id
    ensures var work := Run(Start(now, jobs), actions).work;
            work[j].time < work[k].start
  {
    StartHolds(now, jobs);
    RunKeepsPasses(Start(now, jobs), actions);
    var s := Run(Start(now, jobs), actions);
    WinsApart(s, s.work[j].id, s.work[j].start, s.work[k].id, s.work[k].start);
  }

  // ----- once-only firing -----

  /** What a pass with its lease has loaded is still what the table says, and its open publish is the latest. */
  predicate LoadedInv(s: Sys, pass: Pass) {
    && (forall k :: 0 <= k < |pass.todo| ==>
          && pass.todo[k].job in s.jobs && s.jobs[pass.todo[k].job].next == pass.todo[k].seen
          && (pass.todo[k].seen.Some? ==> pass.todo[k].seen.value <= pass.since))
    && (forall i, j :: 0 <= i < j < |pass.todo| ==> pass.todo[i].job != pass.todo[j].job)
    && (pass.open.Some? ==>
          && pass.todo != [] && pass.open.value == |s.pubs| - 1 && pass.open.value >= 0
          && s.pubs[pass.open.value].job == pass.todo[0].job && s.pubs[pass.open.value].seen == pass.todo[0].seen
          && s.pubs[pass.open.value].fate == Unfinished)
  }

  /**
   A publish that succeeded has moved the job's next_run_at past its firing, and so past every later publish's value.
   */
  predicate PubsInv(s: Sys) {
    && (forall k :: 0 <= k < |s.pubs| && s.pubs[k].seen.Some? ==> s.pubs[k].seen.value <= s.pubs[k].at)
    && (forall k :: 0 <= k < |s.pubs| && s.pubs[k].fate == Succeeded ==>
          && s.pubs[k].job in s.jobs && s.jobs[s.pubs[k].job].next.Some?
          && s.pubs[k].at < s.jobs[s.pubs[k].job].next.value)
    && (forall j, k :: 0 <= j < k < |s.pubs| && s.pubs[j].job == s.pubs[k].job && s.pubs[j].fate == Succeeded ==>
          s.pubs[k].seen.Some? && s.pubs[j].at < s.pubs[k].seen.value)
  }

  predicate FireInv(s: Sys) {
    PubsInv(s) && forall id :: id in s.passes && Fresh(s, id) ==> LoadedInv(s, s.passes[id])
  }

  /** Steps that leave the jobs and publishes alone. */
  lemma QuietKeepsFiring(s: Sys, a: Action)
    requires FireInv(s) && (a.Tick? || a.SetNx? || a.Renew? || a.Leave?)
    ensures FireInv(Next(s, a))
  {
    var t := Next(s, a);
    assert t.jobs == s.jobs && t.pubs == s.pubs;
    forall id | id in t.passes && Fresh(t, id)
      ensures LoadedInv(t, t.passes[id])
    {
      assert (t.passes[id].todo == [] && t.passes[id].open.None?) || (id in s.passes && t.passes[id] == s.passes[id]);
    }
  }

  lemma LoadKeepsFiring(s: Sys, id: string, due: seq<string>)
    requires LeaseInv(s) && PassInv(s) && FireInv(s) && Enabled(s, Load(id, due)) && Fresh(s, id)
    ensures FireInv(Next(s, Load(id, due)))
  {
    hide LeaseInv;
    var t := Next(s, Load(id, due));
    forall k | k in t.passes && Fresh(t, k)
      ensures LoadedInv(t, t.passes[k])
    {
      OnlyFresh(s, id, k);
    }
  }

  lemma PublishKeepsFiring(s: Sys, id: string, at: int, outcome: Outcome)
    requires LeaseInv(s) && PassInv(s) && FireInv(s) && Enabled(s, Publish(id, at, outcome)) && Fresh(s, id)
    ensures FireInv(Next(s, Publish(id, at, outcome)))
  {
    hide LeaseInv, PassInv, IsDueList, Loaded, Rescheduled;
    var t := Next(s, Publish(id, at, outcome));
    assert LoadedInv(s, s.passes[id]);
    forall k | k in t.passes && Fresh(t, k)
      ensures LoadedInv(t, t.passes[k])
    {
      OnlyFresh(s, id, k);
    }
  }

  lemma UpdateKeepsPubs(s: Sys, id: string, nextRun: int, outcome: Outcome)
    requires FireInv(s) && Enabled(s, Update(id, nextRun, outcome)) && Timely(s, Update(id, nextRun, outcome))
    ensures PubsInv(Next(s, Update(id, nextRun, outcome)))
  {
    hide IsDueList, Loaded;
    assert LoadedInv(s, s.passes[id]);
  }

  lemma UpdateKeepsFiring(s: Sys, id: string, nextRun: int, outcome: Outcome)
    requires LeaseInv(s) && PassInv(s) && FireInv(s) && Enabled(s, Update(id, nextRun, outcome))
    requires Timely(s, Update(id, nextRun, outcome))
    ensures FireInv(Next(s, Update(id, nextRun, outcome)))
  {
    assert s.passes[id].since <= s.c.now;
    UpdateKeepsPubs(s, id, nextRun, outcome);
    hide LeaseInv, PassInv, PubsInv, IsDueList, Loaded;
    var t := Next(s, Update(id, nextRun, outcome));
    assert LoadedInv(s, s.passes[id]);
    forall k | k in t.passes && Fresh(t, k)
      ensures LoadedInv(t, t.passes[k])
    {
      OnlyFresh(s, id, k);
    }
  }

  lemma ParseFailsKeepsFiring(s: Sys, id: string)
    requires LeaseInv(s) && PassInv(s) && FireInv(s) && Enabled(s, ParseFails(id)) && Fresh(s, id)
    ensures FireInv(Next(s, ParseFails(id)))
  {
    assert s.passes[id].since <= s.c.now;
    hide LeaseInv, PassInv, IsDueList, Loaded, Rescheduled;
    var t := Next(s, ParseFails(id));
    assert LoadedInv(s, s.passes[id]);
    forall k | k in t.passes && Fresh(t, k)
      ensures LoadedInv(t, t.passes[k])
    {
      OnlyFresh(s, id, k);
    }
  }

  lemma StepKeepsFiring(s: Sys, a: Action)
    requires LeaseInv(s) && PassInv(s) && FireInv(s) && Timely(s, a)
    ensures FireInv(Next(s, a))
  {
    hide LeaseInv, PassInv, FireInv;
    if Enabled(s, a) {
      match a
      case Load(id, due) => LoadKeepsFiring(s, id, due);
      case Publish(id, at, outcome) => PublishKeepsFiring(s, id, at, outcome);
      case Update(id, nextRun, outcome) => UpdateKeepsFiring(s, id, nextRun, outcome);
      case ParseFails(id) => ParseFailsKeepsFiring(s, id);
      case _ => QuietKeepsFiring(s, a);
    }
  }

  predicate Inv(s: Sys) {
    LeaseInv(s) && PassInv(s) && FireInv(s)
  }

  lemma {:induction false} RunKeepsInv(s: Sys, actions: seq<Action>)
    requires Inv(s) && TimelyRun(s, actions)
    ensures Inv(Run(s, actions))
    decreases |actions|
  {
    hide LeaseInv, PassInv, FireInv, Timely, Next;
    if actions != [] {
      var before, a := actions[..|actions| - 1], actions[|actions| - 1];
      RunKeepsInv(s, before);
      StepKeepsLease(Run(s, before), a);
      StepKeepsPasses(Run(s, before), a);
      StepKeepsFiring(Run(s, before), a);
    }
  }

  /**
   Once a runJob has succeeded for a value of next_run_at, no instance publishes for a value up to that firing
   again. So each value has at most one success, which is its last publish: all extra publishes of a value are
   of runJobs that did not succeed, and a backlog of missed instants fires once.
   */
  lemma OnceOnly(now: int, jobs: map<string, Job>, actions: seq<Action>, a: nat, b: nat)
    requires TimelyRun(Start(now, jobs), actions)
    requires var pubs := Run(Start(now, jobs), actions).pubs;
             a < b < |pubs| && pubs[a].job == pubs[b].job && pubs[a].fate == Succeeded
    ensures var pubs := Run(Start(now, jobs), actions).pubs;
            && pubs[b].seen.Some? && pubs[a].at < pubs[b].seen.value
            && (pubs[a].seen.Some? ==> pubs[a].seen.value <= pubs[a].at)
            && pubs[a].seen != pubs[b].seen
  {
    StartHolds(now, jobs);
    RunKeepsInv(Start(now, jobs), actions);
  }

  predicate Raised(a: Option<int>, b: Option<int>) {
    a == b || (b.Some? && (a.Some? ==> a.value < b.value))
  }

  lemma StepRaisesNextRun(s: Sys, a: Action, job: string)
    requires Inv(s) && Timely(s, a) && job in s.jobs
    ensures job in Next(s, a).jobs && Raised(s.jobs[job].next, Next(s, a).jobs[job].next)
  {
    match a
    case Update(id, nextRun, outcome) =>
      if Enabled(s, a) {
        assert LoadedInv(s, s.passes[id]);
      }
    case _ =>
  }

  /** Over the rest of any run a job's next_run_at never goes back, and changes only to a later instant. */
  lemma {:induction false} NextRunIncreases(s: Sys, actions: seq<Action>, job: string)
    requires Inv(s) && TimelyRun(s, actions) && job in s.jobs
    ensures job in Run(s, actions).jobs && Raised(s.jobs[job].next, Run(s, actions).jobs[job].next)
    decreases |actions|
  {
    hide Inv, Timely, Next;
    if actions != [] {
      var before := actions[..|actions| - 1];
      NextRunIncreases(s, before, job);
      RunKeepsInv(s, before);
      StepRaisesNextRun(Run(s, before), actions[|actions| - 1], job);
    }
  }

  // ----- how soon a lease is taken, and when it is kept -----

  /** Any SET NX, won or lost, shows a success within the last TTL. */
  lemma TryCertifies(s: Sys, id: string, heard: bool)
    requires LeaseInv(s) && id !in s.passes
    ensures var wins := Next(s, SetNx(id, heard)).wins;
            wins != [] && s.c.now - LEADER_TTL < wins[|wins| - 1].time <= s.c.now
  {
  }

  lemma StepKeepsWins(s: Sys, a: Action)
    ensures s.wins <= Next(s, a).wins
  {
  }

  lemma {:induction false} RunKeepsWins(s: Sys, actions: seq<Action>, n: nat)
    requires n <= |actions|
    ensures Run(s, actions[..n]).wins <= Run(s, actions).wins
    decreases |actions|
  {
    hide Next;
    if n == |actions| {
      assert actions[..n] == actions;
    } else {
      var before := actions[..|actions| - 1];
      RunKeepsWins(s, before, n);
      assert before[..n] == actions[..n];
      StepKeepsWins(Run(s, before), actions[|actions| - 1]);
    }
  }

  /** Step n is a SET NX of an idle instance at a time in [x, x + check interval). */
  predicate TicksAt(s: Sys, actions: seq<Action>, id: string, x: int, n: nat) {
    && n < |actions| && actions[n].SetNx? && actions[n].id == id && id !in Run(s, actions[..n]).passes
    && x <= Run(s, actions[..n]).c.now < x + CHECK_INTERVAL
  }

  predicate TicksWithin(s: Sys, actions: seq<Action>, id: string, x: int) {
    exists n :: 0 <= n < |actions| && TicksAt(s, actions, id, x, n)
  }

  /** A live instance: it ticks in every check interval between two times. */
  ghost predicate TicksThroughout(s: Sys, actions: seq<Action>, id: string, from: int, until: int) {
    forall x :: from <= x && x + CHECK_INTERVAL <= until ==> TicksWithin(s, actions, id, x)
  }

  /**
   While an instance ticks in every check interval, every 45 s hold a successful leadership operation of some
   instance.
   */
  lemma Takeover(now: int, jobs: map<string, Job>, actions: seq<Action>, id: string, from: int, until: int, x: int)
    requires TicksThroughout(Start(now, jobs), actions, id, from, until)
    requires from <= x && x + LEADER_TTL + CHECK_INTERVAL <= until
    ensures var wins := Run(Start(now, jobs), actions).wins;
            exists k :: 0 <= k < |wins| && x <= wins[k].time < x + 45 * SECOND
  {
    assert TicksWithin(Start(now, jobs), actions, id, x + LEADER_TTL);
    var n :| 0 <= n < |actions| && TicksAt(Start(now, jobs), actions, id, x + LEADER_TTL, n);
    TakenBy(now, jobs, actions, id, x, n);
  }

  lemma TakenBy(now: int, jobs: map<string, Job>, actions: seq<Action>, id: string, x: int, n: nat)
    requires TicksAt(Start(now, jobs), actions, id, x + LEADER_TTL, n)
    ensures var wins := Run(Start(now, jobs), actions).wins;
            exists k :: 0 <= k < |wins| && x <= wins[k].time < x + LEADER_TTL + CHECK_INTERVAL
  {
    var s := Start(now, jobs);
    var at := Run(s, actions[..n]);
    RunKeepsLease(s, actions[..n]);
    TryCertifies(at, id, actions[n].heard);
    assert actions[..n + 1][..n] == actions[..n] && actions[..n + 1][n] == actions[n];
    RunKeepsWins(s, actions, n + 1);
    var wins := Run(s, actions[..n + 1]).wins;
    assert Run(s, actions).wins[|wins| - 1] == wins[|wins| - 1];
  }

  /** The time of the leader's last renewal attempt, or `from` before the first. */
  function LastAttempt(s: Sys, leader: string, actions: seq<Action>, from: int): int {
    if actions == [] then from
    else
      var before, a := actions[..|actions| - 1], actions[|actions| - 1];
      if a.Renew? && a.id == leader && leader !in Run(s, before).passes then Run(s, before).c.now
      else LastAttempt(s, leader, before, from)
  }

  /** At every step the leader's last renewal attempt is less than a TTL old. */
  predicate Diligent(s: Sys, leader: string, actions: seq<Action>, from: int) {
    forall n :: 0 <= n < |actions| ==>
      Run(s, actions[..n]).c.now < LastAttempt(s, leader, actions[..n], from) + LEADER_TTL
  }

  lemma DiligentBefore(s: Sys, leader: string, actions: seq<Action>, from: int)
    requires actions != [] && Diligent(s, leader, actions, from)
    ensures var before := actions[..|actions| - 1];
            && Diligent(s, leader, before, from)
            && Run(s, before).c.now < LastAttempt(s, leader, before, from) + LEADER_TTL
  {
    hide Run, LastAttempt;
    var before := actions[..|actions| - 1];
    assert forall n :: 0 <= n < |before| ==> before[..n] == actions[..n];
  }

  /** A leader that keeps renewing in time wins every renewal and no other instance wins anything. */
  lemma {:induction false} NeverDisplaced(s: Sys, leader: string, actions: seq<Action>)
    requires LeaseInv(s) && s.wins != [] && s.wins[|s.wins| - 1].id == leader
    requires Diligent(s, leader, actions, s.wins[|s.wins| - 1].time)
    ensures var wins := Run(s, actions).wins;
            && |s.wins| <= |wins|
            && (forall k :: |s.wins| - 1 <= k < |wins| ==> wins[k].id == leader)
            && LastAttempt(s, leader, actions, s.wins[|s.wins| - 1].time) <= wins[|wins| - 1].time
    decreases |actions|
  {
    hide Next, Diligent, LeaseInv;
    var from := s.wins[|s.wins| - 1].time;
    if actions != [] {
      var before, a := actions[..|actions| - 1], actions[|actions| - 1];
      DiligentBefore(s, leader, actions, from);
      NeverDisplaced(s, leader, before);
      RunKeepsLease(s, before);
      OneMoreStep(Run(s, before), leader, a, LastAttempt(s, leader, before, from));
    }
  }

  lemma OneMoreStep(s: Sys, leader: string, a: Action, attempt: int)
    requires LeaseInv(s) && s.wins != [] && s.wins[|s.wins| - 1].id == leader
    requires attempt <= s.wins[|s.wins| - 1].time && s.c.now < attempt + LEADER_TTL
    ensures var wins := Next(s, a).wins;
            && (wins == s.wins || wins == s.wins + [Win(leader, s.c.now)])
            && attempt <= s.c.now
            && (a.Renew? && a.id == leader && leader !in s.passes ==> wins == s.wins + [Win(leader, s.c.now)])
  {
    hide IsDueList, Loaded, Rescheduled;
  }

  // ----- why a pass must stay within its lease -----

  lemma {:induction false} RunConcat(s: Sys, a: seq<Action>, b: seq<Action>)
    ensures Run(s, a + b) == Run(Run(s, a), b)
    decreases |b|
  {
    hide Next;
    if b == [] {
      assert a + b == a;
    } else {
      var n := |b| - 1;
      RunConcat(s, a, b[..n]);
      assert (a + b)[..|a| + n] == a + b[..n];
    }
  }

  lemma OneAction(s: Sys, a: Action)
    ensures Run(s, [a]) == Next(s, a)
  {
    hide Next;
    assert [a][..0] == [];
    assert Run(s, []) == s;
  }

  predicate SinceInv(s: Sys) {
    forall id :: id in s.passes ==> s.passes[id].since <= s.c.now
  }

  lemma StepKeepsSince(s: Sys, a: Action)
    requires SinceInv(s)
    ensures SinceInv(Next(s, a))
  {
    hide IsDueList, Loaded, Rescheduled;
  }

  lemma {:induction false} RunKeepsSince(now: int, jobs: map<string, Job>, actions: seq<Action>)
    ensures SinceInv(Run(Start(now, jobs), actions))
    decreases |actions|
  {
    hide Next;
    if actions != [] {
      RunKeepsSince(now, jobs, actions[..|actions| - 1]);
      StepKeepsSince(Run(Start(now, jobs), actions[..|actions| - 1]), actions[|actions| - 1]);
    }
  }

  /** A last job of a nonempty set in the order of the due-jobs query. */
  lemma {:induction false} LatestOf(jobs: map<string, Job>, ids: set<string>) returns (m: string)
    requires ids != {} && ids <= jobs.Keys
    ensures m in ids && forall x :: x in ids ==> NotAfter(jobs[x].next, jobs[m].next)
    decreases |ids|
  {
    m :| m in ids;
    if ids != {m} {
      var y := LatestOf(jobs, ids - {m});
      if !NotAfter(jobs[y].next, jobs[m].next) {
        m := y;
      }
    }
  }

  lemma {:induction false} InQueryOrder(jobs: map<string, Job>, ids: set<string>) returns (due: seq<string>)
    requires ids <= jobs.Keys
    ensures forall x :: x in due <==> x in ids
    ensures forall i, j :: 0 <= i < j < |due| ==> due[i] != due[j] && NotAfter(jobs[due[i]].next, jobs[due[j]].next)
    decreases |ids|
  {
    due := [];
    if ids != {} {
      var m := LatestOf(jobs, ids);
      var rest := InQueryOrder(jobs, ids - {m});
      due := rest + [m];
      forall x
        ensures x in due <==> x in ids
      {
        assert x in due <==> x in rest || x == m;
      }
    }
  }

  /** The due-jobs query always has an answer. */
  lemma DueListExists(jobs: map<string, Job>, now: int) returns (due: seq<string>)
    ensures IsDueList(jobs, now, due)
  {
    due := InQueryOrder(jobs, set id | id in jobs && IsDue(jobs[id], now));
  }

  /** Nothing but the pass of one instance has moved. */
  predicate OnlyPass(s: Sys, t: Sys, id: string) {
    t.c == s.c && id in t.passes && t.passes == s.passes[id := t.passes[id]]
  }

  /** The pass is about to run the job it has loaded with this value. */
  predicate AboutTo(s: Sys, id: string, due: Due) {
    && id in s.passes && s.passes[id].open.None? && s.passes[id].since <= s.c.now
    && s.passes[id].todo != [] && s.passes[id].todo[0] == due
  }

  /** A pass whose publishes are refused comes to any job it has loaded. */
  lemma {:induction false} Skips(s: Sys, id: string, k: nat) returns (more: seq<Action>)
    requires id in s.passes && s.passes[id].open.None? && s.passes[id].since <= s.c.now && k < |s.passes[id].todo|
    ensures var t := Run(s, more);
            OnlyPass(s, t, id) && t.jobs == s.jobs && t.pubs == s.pubs && AboutTo(t, id, s.passes[id].todo[k])
    decreases k
  {
    hide Next;
    more := [];
    if k == 0 {
      assert s.passes == s.passes[id := s.passes[id]];
    } else {
      var a := Publish(id, s.c.now, Refused);
      PublishStep(s, id, s.c.now, Refused);
      var rest := Skips(Next(s, a), id, k - 1);
      more := [a] + rest;
      RunConcat(s, [a], rest);
      OneAction(s, a);
    }
  }

  /** And runs it. */
  lemma Fires(s: Sys, id: string, due: Due) returns (more: seq<Action>)
    requires AboutTo(s, id, due) && due.job in s.jobs && s.jobs[due.job].parses
    ensures var t := Run(s, more);
            && OnlyPass(s, t, id)
            && t.jobs == s.jobs[due.job := Rescheduled(s.jobs[due.job], s.c.now, s.c.now + 1)]
            && t.pubs == s.pubs + [Pub(due.job, due.seen, s.c.now, Succeeded)]
  {
    hide Next, Rescheduled;
    var a, b := Publish(id, s.c.now, Applied), Update(id, s.c.now + 1, Applied);
    more := [a, b];
    OneOrTwo(s, more);
    PublishStep(s, id, s.c.now, Applied);
    EndStep(Next(s, a), id, s.c.now + 1, Applied);
  }

  /** Time passes until the lease is free, an idle instance takes it and loads the due jobs. */
  lemma OtherTakesOver(s: Sys, z: string, job: string) returns (more: seq<Action>, k: nat)
    requires z !in s.passes && job in s.jobs && IsDue(s.jobs[job], s.c.now)
    ensures var t := Run(s, more);
            && s.c.now <= t.c.now && t.jobs == s.jobs && t.pubs == s.pubs
            && z in t.passes && t.passes == s.passes[z := t.passes[z]]
            && t.passes[z].open.None? && t.passes[z].since <= t.c.now
            && k < |t.passes[z].todo| && t.passes[z].todo[k] == Due(job, s.jobs[job].next)
  {
    hide IsDueList, Rescheduled;
    var d := if s.c.lease.Held? && s.c.now < s.c.lease.expires then s.c.lease.expires - s.c.now else 0;
    var s1 := Next(s, Tick(d));
    var s2 := Next(s1, SetNx(z, true));
    var due := DueListExists(s.jobs, s1.c.now);
    var s3 := Next(s2, Load(z, due));
    assert s2.passes == s.passes[z := Pass(s1.c.now, s1.c.now, [], None)];
    k := PlaceOf(s.jobs, s1.c.now, due, job);
    assert s3.passes[z].todo == Loaded(s.jobs, due);
    more := [Tick(d), SetNx(z, true)] + [Load(z, due)];
    RunConcat(s, [Tick(d), SetNx(z, true)], [Load(z, due)]);
    OneOrTwo(s, [Tick(d), SetNx(z, true)]);
    OneAction(s2, Load(z, due));
  }

  lemma PlaceOf(jobs: map<string, Job>, now: int, due: seq<string>, job: string) returns (k: nat)
    requires IsDueList(jobs, now, due) && job in jobs && IsDue(jobs[job], now)
    ensures k < |due| && due[k] == job
  {
    assert job in due;
    k :| 0 <= k < |due| && due[k] == job;
  }

  /**
   The timing assumption is needed everywhere: from every reachable state in which a pass has loaded a job that the
   table still shows due with that value, and any other instance is idle, some continuation in which the pass stalls
   fires the value twice, successfully both times.
   */
  lemma StalledPassFiresTwice(now: int, jobs: map<string, Job>, actions: seq<Action>, a: string, k: nat, z: string)
    returns (more: seq<Action>)
    requires var s := Run(Start(now, jobs), actions);
             && a in s.passes && z !in s.passes && s.passes[a].open.None? && k < |s.passes[a].todo|
             && var due := s.passes[a].todo[k];
                due.job in s.jobs && s.jobs[due.job].next == due.seen && IsDue(s.jobs[due.job], s.c.now)
                && s.jobs[due.job].parses
    ensures var s, t := Run(Start(now, jobs), actions), Run(Start(now, jobs), actions + more);
            var due := s.passes[a].todo[k];
            && |t.pubs| == |s.pubs| + 2
            && (forall i :: |s.pubs| <= i < |t.pubs| ==>
                  t.pubs[i].job == due.job && t.pubs[i].seen == due.seen && t.pubs[i].fate == Succeeded)
  {
    hide Run, Rescheduled, SinceInv;
    var s := Run(Start(now, jobs), actions);
    var due := s.passes[a].todo[k];
    RunKeepsSince(now, jobs, actions);
    SinceOf(s, a);
    var more1, n := OtherTakesOver(s, z, due.job);
    var s1 := Run(s, more1);
    var more2 := Skips(s1, z, n);
    var s2 := Run(s1, more2);
    var more3 := Fires(s2, z, due);
    var s3 := Run(s2, more3);
    var more4 := Skips(s3, a, k);
    var s4 := Run(s3, more4);
    StillParses(s2.jobs[due.job], s2.c.now);
    var more5 := Fires(s4, a, due);
    more := more1 + more2 + more3 + more4 + more5;
    RunConcat(s, more1, more2);
    RunConcat(s, more1 + more2, more3);
    RunConcat(s, more1 + more2 + more3, more4);
    RunConcat(s, more1 + more2 + more3 + more4, more5);
    RunConcat(Start(now, jobs), actions, more);
  }

  lemma SinceOf(s: Sys, id: string)
    requires SinceInv(s) && id in s.passes
    ensures s.passes[id].since <= s.c.now
  {
  }

  lemma StillParses(job: Job, at: int)
    ensures Rescheduled(job, at, at + 1).parses == job.parses
  {
  }

  // ----- how long a takeover can take -----

  lemma {:induction false} StatesOfRun(states: seq<Sys>, actions: seq<Action>, n: nat)
    requires |states| == |actions| + 1 && n <= |actions|
    requires forall k :: 0 <= k < |actions| ==> Next(states[k], actions[k]) == states[k + 1]
    ensures Run(states[0], actions[..n]) == states[n]
  {
    hide Next;
    if n > 0 {
      StatesOfRun(states, actions, n - 1);
      assert actions[..n][..n - 1] == actions[..n - 1];
    }
  }

  const T: int := LEADER_TTL
  const C: int := CHECK_INTERVAL

  /** Instance a wins and leaves for good; b ticks every check interval, just before the lease runs out and after it. */
  const HANDOVER: seq<Action> :=
    [ SetNx("a", true), Leave("a"), Tick(C - 1), SetNx("b", true), Tick(C), SetNx("b", true), Tick(C),
      SetNx("b", true) ]

  function Orphaned(now: int): Sys {
    Sys(Clocked(Held("a", T), now), map[], map[], [Win("a", 0)], [], [])
  }

  const ORPHANED: seq<Sys> :=
    [ Start(0, map[]), Orphaned(0).(passes := map["a" := Pass(0, 0, [], None)]), Orphaned(0), Orphaned(C - 1),
      Orphaned(C - 1), Orphaned(2 * C - 1), Orphaned(2 * C - 1), Orphaned(3 * C - 1),
      Sys(Clocked(Held("b", 3 * C - 1 + T), 3 * C - 1), map[], map["b" := Pass(3 * C - 1, 3 * C - 1, [], None)],
          [Win("a", 0), Win("b", 3 * C - 1)], [], []) ]

  lemma HandoverStates(n: nat)
    requires n <= |HANDOVER|
    ensures Run(Start(0, map[]), HANDOVER[..n]) == ORPHANED[n]
  {
    assert ORPHANED[1].passes - {"a"} == map[];
    forall k | 0 <= k < |HANDOVER|
      ensures Next(ORPHANED[k], HANDOVER[k]) == ORPHANED[k + 1]
    {
      if k < 4 {
        assert k == 0 || k == 1 || k == 2 || k == 3;
      } else {
        assert k == 4 || k == 5 || k == 6 || k == 7;
      }
    }
    StatesOfRun(ORPHANED, HANDOVER, n);
  }

  /**
   The bound of 45 s is the best there is, one nanosecond aside: a standby does not always take over within the TTL.
   */
  lemma TakeoverBoundTight()
    ensures TicksThroughout(Start(0, map[]), HANDOVER, "b", 0, LEADER_TTL + CHECK_INTERVAL)
    ensures Run(Start(0, map[]), HANDOVER).wins == [Win("a", 0), Win("b", 45 * SECOND - 1)]
  {
    hide Next;
    HandoverStates(8);
    assert HANDOVER[..8] == HANDOVER;
    forall x | 0 <= x && x + CHECK_INTERVAL <= LEADER_TTL + CHECK_INTERVAL
      ensures TicksWithin(Start(0, map[]), HANDOVER, "b", x)
    {
      var n := if x < C then 3 else if x < 2 * C then 5 else 7;
      HandoverStates(n);
      assert TicksAt(Start(0, map[]), HANDOVER, "b", x, n);
    }
  }
}
