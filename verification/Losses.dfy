/**
 Runs that lose a task. For every task there are runs in which one of the three faults of the conservation
 theorem happens, nothing else goes wrong, and the task is no longer safe.
 */
module Losses {
  import opened Domain
  import opened Backend
  import opened Dispatcher
  import opened Worker
  import opened Pipeline
  import Redelivery
  import Retry

  /** A task, a partition of tasks.pending and one of its worker topic, and a delivery of it to a worker. */
  datatype Case = Case(task: Task, pending: Partition, queue: Partition, cfg: Config, d: Delivery) {
    function Raw(): Raw { Json(task) }

    function DlqPublish(): Cmd { DlqCmd(Json(task)) }

    predicate Valid() {
      && task.taskType != "" && pending.topic == TOPIC_PENDING && queue.topic == WorkerTopic(task.taskType)
      && queue.topic != TOPIC_PENDING && queue.topic != TOPIC_DLQ
      && d.raw == Json(task) && d.readable
    }

    /** The delivery, if it is not skipped, ends DEAD: it has no handler or all its calls fail. */
    predicate Dies() {
      Valid() && (task.taskType in cfg.registry ==> LastStatus(cfg, d) == Dead)
    }

    function Prog(): seq<Cmd> {
      if task.taskType in cfg.registry then Executed(cfg, task, d) else NoHandler(task, d.raw)
    }
  }

  function To(outcome: Outcome, p: Partition): Reply {
    Reply(outcome, 0, p.index)
  }

  /** What a stage of the run has to remember: the task is the only one. */
  predicate Scene(s: State, c: Case, logs: map<Partition, seq<Raw>>, committed: map<Partition, nat>,
                  procs: map<nat, Proc>)
  {
    && s.w.now == 0 && s.w.logs == logs && s.committed == committed && s.procs == procs
    && s.submitted == map[c.task.id := c.task] && c.task.id in s.accepted
  }

  predicate Stage(s: State, c: Case, logs: map<Partition, seq<Raw>>, committed: map<Partition, nat>,
                  procs: map<nat, Proc>)
  {
    Scene(s, c, logs, committed, procs) && s.w.calls == []
  }

  predicate Clean(s: State) {
    s.errored == {} && s.stopped == {} && s.dropped == {}
  }

  /** Every commit succeeds. */
  predicate Saves(actions: seq<Action>) {
    forall k :: 0 <= k < |actions| && actions[k].Commit? ==> actions[k].ok
  }

  lemma Then(before: seq<Action>, a: Action) returns (actions: seq<Action>)
    ensures Run(actions) == Next(Run(before), a)
    ensures GentleRun(before) && Gentle(Run(before), a) ==> GentleRun(actions)
    ensures Saves(before) && (a.Commit? ==> a.ok) ==> Saves(actions)
  {
    actions := before + [a];
    assert actions[..|before|] == before;
  }

  predicate JustPublished(s: State, c: Case, procs: map<nat, Proc>) {
    && Stage(s, c, map[c.pending := [c.Raw()]], map[], procs)
    && Clean(s) && s.finished == {} && s.w.status == map[]
  }

  predicate AtPending(s: State, c: Case) {
    JustPublished(s, c, map[1 := Consumer(c.pending, 0, Fetching)])
  }

  lemma Nothing()
    ensures Run([]) == EMPTY && GentleRun([]) && Saves([])
  {
  }

  lemma Submits(c: Case) returns (actions: seq<Action>)
    requires c.Valid()
    ensures JustPublished(Run(actions), c, map[0 := Submitter(c.task, [])]) && GentleRun(actions) && Saves(actions)
  {
    hide Run, GentleRun, Saves, Apply, Errs, ProgramFor, Holding;
    Nothing();
    var publish := Cmd(Published(TOPIC_PENDING, c.task.id, c.Raw()), true);
    actions := Then([], Submit(0, c.task, true));
    var s := Run(actions);
    assert s.procs == map[0 := Submitter(c.task, [publish])];
    actions := Then(actions, Step(0, To(Applied, c.pending)));
    PublishAcked(s.w, publish, c.pending);
    assert [publish][1..] == [];
    assert Run(actions).procs == map[0 := Submitter(c.task, [])];
  }

  /** The task is published and a dispatcher has joined its partition. */
  lemma ReachPending(c: Case) returns (actions: seq<Action>)
    requires c.Valid()
    ensures AtPending(Run(actions), c) && GentleRun(actions) && Saves(actions)
  {
    hide Run, GentleRun, Saves, Apply, Errs, ProgramFor;
    actions := Submits(c);
    actions := Then(actions, Stop(0));
    assert Run(actions).procs == map[];
    actions := Then(actions, Join(1, c.pending));
    assert Run(actions).procs == map[1 := Consumer(c.pending, 0, Fetching)];
  }

  lemma PublishAcked(w: World, publish: Cmd, p: Partition)
    requires publish.effect.Published? && publish.effect.topic == p.topic
    ensures !Errs(w, publish.effect, To(Applied, p))
    ensures Apply(w, publish.effect, To(Applied, p)) == w.(logs := w.logs[p := LogOf(w.logs, p) + [publish.effect.raw]])
    ensures w.logs == map[] ==> Apply(w, publish.effect, To(Applied, p)).logs == map[p := [publish.effect.raw]]
  {
    assert p == Partition(p.topic, p.index);
    assert [] + [publish.effect.raw] == [publish.effect.raw];
  }

  predicate AtQueue(s: State, c: Case) {
    && Stage(s, c, map[c.pending := [c.Raw()], c.queue := [c.Raw()]], map[c.pending := 1],
             map[2 := Consumer(c.queue, 0, Fetching)])
    && Clean(s) && s.finished == {Slot(c.pending, 0)}
    && c.task.id in s.w.status && s.w.status[c.task.id].value == Queued
  }

  /** The dispatcher has passed it on and a worker has joined the partition it went to. */
  lemma ReachQueue(c: Case, before: seq<Action>) returns (actions: seq<Action>)
    requires c.Valid() && AtPending(Run(before), c)
    ensures AtQueue(Run(actions), c)
  {
    hide Run;
    actions := Publishes(c, before);
    actions := RestOfRoute(c, actions);
  }

  /** The dispatcher has published it and not yet written QUEUED. */
  predicate Routing(s: State, c: Case) {
    && Stage(s, c, Logs(c), map[],
             map[1 := Consumer(c.pending, 0, Handling(c.Raw(), [Cmd(StatusSet(c.task.id, Queued), false)], false))])
    && Clean(s) && s.finished == {} && s.w.status == map[]
  }

  lemma Publishes(c: Case, before: seq<Action>) returns (actions: seq<Action>)
    requires c.Valid() && AtPending(Run(before), c)
    ensures Routing(Run(actions), c)
    ensures GentleRun(before) ==> GentleRun(actions)
    ensures Saves(before) ==> Saves(actions)
  {
    hide Run, GentleRun, Saves, Apply, Errs, SubmitProgram, Holding;
    var publish := Cmd(Published(c.queue.topic, c.task.id, c.Raw()), true);
    var queued := Cmd(StatusSet(c.task.id, Queued), false);
    actions := Then(before, Begin(1, Off, c.cfg, c.d));
    assert RouteProgram(c.Raw(), Off) == [publish, queued];
    assert Run(actions).procs == map[1 := Consumer(c.pending, 0, Handling(c.Raw(), [publish, queued], false))];
    PublishAcked(Run(actions).w, publish, c.queue);
    actions := Then(actions, Step(1, To(Applied, c.queue)));
    assert [publish, queued][1..] == [queued];
    assert [] + [c.Raw()] == [c.Raw()];
    assert Run(actions).w.logs == map[c.pending := [c.Raw()], c.queue := [c.Raw()]];
    assert Run(actions).procs == map[1 := Consumer(c.pending, 0, Handling(c.Raw(), [queued], false))];
  }

  function Logs(c: Case): map<Partition, seq<Raw>> {
    map[c.pending := [c.Raw()], c.queue := [c.Raw()]]
  }

  lemma RestOfRoute(c: Case, before: seq<Action>) returns (actions: seq<Action>)
    requires c.Valid() && Routing(Run(before), c)
    ensures AtQueue(Run(actions), c)
  {
    hide Run;
    var queued := Cmd(StatusSet(c.task.id, Queued), false);
    actions := Then(before, Step(1, To(Applied, c.queue)));
    assert [queued][1..] == [];
    assert Run(actions).procs == map[1 := Consumer(c.pending, 0, Handling(c.Raw(), [], false))];
    actions := Then(actions, Return(1));
    assert Run(actions).procs == map[1 := Consumer(c.pending, 0, Returned)];
    actions := CommitAndLeave(c, c.pending, Logs(c), map[], 1, actions);
    actions := Then(actions, Join(2, c.queue));
  }

  /** A consumer whose handler has returned nil commits and leaves. */
  lemma CommitAndLeave(c: Case, p: Partition, logs: map<Partition, seq<Raw>>, committed: map<Partition, nat>,
                       q: nat, before: seq<Action>)
    returns (actions: seq<Action>)
    requires Scene(Run(before), c, logs, committed, map[q := Consumer(p, 0, Returned)])
    ensures Scene(Run(actions), c, logs, committed[p := 1], map[])
    ensures var s, t := Run(before), Run(actions);
            && t.finished == s.finished && t.w == s.w && t.errored == s.errored
            && t.stopped == s.stopped && t.dropped == s.dropped
  {
    hide Run;
    actions := Then(before, Commit(q, true));
    assert Run(actions).procs == map[q := Consumer(p, 1, Fetching)];
    actions := Then(actions, Stop(q));
    assert Run(actions).procs == map[];
  }

  // ----- a worker at its program -----

  /** A handler performs the next n effects of its program, whatever other processes there are. */
  lemma {:induction false} Performs(before: seq<Action>, q: nat, n: nat, replies: nat -> Reply, i: nat)
    returns (actions: seq<Action>)
    requires var s := Run(before);
             && q in s.procs && s.procs[q].Consumer? && s.procs[q].phase.Handling? && n <= |s.procs[q].phase.todo|
             && !Execute(s.w, s.procs[q].phase.todo[..n], replies, i).err
    ensures var s, t := Run(before), Run(actions);
            var todo := s.procs[q].phase.todo;
            && q in t.procs && t.procs[q].Consumer? && t.procs[q].phase.Handling?
            && t == s.(w := Execute(s.w, todo[..n], replies, i).w, procs := s.procs[q := t.procs[q]],
                       dropped := t.dropped)
            && t.procs[q] == s.procs[q].(phase := Handling(s.procs[q].phase.raw, todo[n..], t.procs[q].phase.dead))
            && s.dropped <= t.dropped <= s.dropped + MessageIds(s.procs[q].phase.raw)
            && (PublishesLand(todo[..n], replies, i) ==> t.dropped == s.dropped)
    ensures GentleRun(before) && (forall k :: i <= k < i + n ==> replies(k).outcome.Applied?) ==> GentleRun(actions)
    ensures Saves(before) ==> Saves(actions)
    decreases n
  {
    hide Run, GentleRun, Saves, Apply, Errs;
    var s := Run(before);
    var todo := s.procs[q].phase.todo;
    actions := before;
    if n == 0 {
      assert s.procs == s.procs[q := s.procs[q]];
      assert todo[..0] == [];
    } else {
      assert todo[..n][1..] == todo[1..][..n - 1] && todo[1..][n - 1..] == todo[n..];
      actions := Then(before, Step(q, replies(i)));
      var t := Run(actions);
      assert t.procs[q].phase.todo == todo[1..];
      actions := Performs(actions, q, n - 1, replies, i + 1);
      var u := Run(actions);
      assert u.procs == s.procs[q := u.procs[q]];
    }
  }

  /** No publish of the program is refused. */
  predicate PublishesLand(p: seq<Cmd>, replies: nat -> Reply, i: nat) {
    p == [] || ((p[0].effect.Published? ==> !replies(i).outcome.Refused?) && PublishesLand(p[1..], replies, i + 1))
  }

  lemma {:induction false} LandIfNone(p: seq<Cmd>, replies: nat -> Reply, i: nat)
    requires forall k :: 0 <= k < |p| && p[k].effect.Published? ==> !replies(i + k).outcome.Refused?
    ensures PublishesLand(p, replies, i)
    decreases |p|
  {
    if p != [] {
      var rest := p[1..];
      forall k | 0 <= k < |rest| && rest[k].effect.Published?
        ensures !replies(i + 1 + k).outcome.Refused?
      {
        assert p[k + 1].effect.Published?;
      }
      assert replies(i + 0) == replies(i);
      LandIfNone(rest, replies, i + 1);
    }
  }

  function MessageIds(raw: Raw): set<string> {
    if raw.Json? then {raw.task.id} else {}
  }

  lemma {:induction false} AttemptsShape(id: string, script: Retry.Script, limit: nat, n: nat)
    requires 1 <= n <= limit
    ensures var p := Retry.Attempts(id, script, limit, n);
            && p != [] && Redelivery.NoAbort(p)
            && (forall k :: 0 <= k < |p| ==> p[k].effect.Invoked? || p[k].effect == StatusSet(id, Retrying))
            && (!script.ok(Retry.Last(script, limit, n)) ==>
                  forall k :: 0 <= k < |p| && p[k].effect.Invoked? ==> !p[k].effect.ok)
    decreases limit - n
  {
    if !Retry.Stops(script, limit, n) {
      AttemptsShape(id, script, limit, n + 1);
    }
  }

  /** RUNNING, the attempts, and the ending. */
  lemma ExecutedShape(cfg: Config, task: Task, d: Delivery)
    ensures var p, finish := Executed(cfg, task, d), Finish(cfg, task, d);
            && |p| >= |finish| + 2 && p[|p| - |finish|..] == finish && Redelivery.AbortsFirst(p)
            && p[0] == Cmd(StatusSet(task.id, Running), true)
            && (forall k :: 0 < k < |p| - |finish| ==>
                  p[k].effect.Invoked? || p[k].effect == StatusSet(task.id, Retrying))
            && (LastStatus(cfg, d) == Dead ==>
                  forall k :: 0 < k < |p| - |finish| && p[k].effect.Invoked? ==> !p[k].effect.ok)
  {
    hide Row, FinishSuccess, FinishFailure;
    AttemptsShape(task.id, d.script, Retry.Limit(cfg.maxRetries + 1), 1);
    Redelivery.BodyNoAbort(cfg, task, d);
    var attempts := Retry.Attempts(task.id, d.script, Retry.Limit(cfg.maxRetries + 1), 1);
    var p, finish := Executed(cfg, task, d), Finish(cfg, task, d);
    assert p == [Cmd(StatusSet(task.id, Running), true)] + attempts + finish;
    assert p[1..] == Body(cfg, task, d) && p[|p| - |finish|..] == finish;
    assert forall k :: 0 < k < |p| - |finish| ==> p[k] == attempts[k - 1];
    forall k | 0 < k < |p|
      ensures !p[k].abort
    {
      assert p[k] == Body(cfg, task, d)[k - 1];
    }
    DeadMeansFailed(cfg, d);
  }

  lemma DeadMeansFailed(cfg: Config, d: Delivery)
    ensures LastStatus(cfg, d) == Dead <==> !d.script.ok(Calls(cfg, d.script))
  {
  }

  /** How many effects of a program that ends DEAD come before that write. */
  function DeadAt(c: Case): nat
    requires c.Dies()
  {
    if c.task.taskType in c.cfg.registry then |Executed(c.cfg, c.task, c.d)| - |Finish(c.cfg, c.task, c.d)| else 0
  }

  /** The shape both kinds of program have. */
  predicate EndsDead(p: seq<Cmd>, k: nat, id: string, publish: Cmd) {
    && k + 1 < |p| && p[k] == Cmd(StatusSet(id, Dead), false) && p[|p| - 1] == publish
    && Redelivery.AbortsFirst(p) && (p[0].abort ==> p[0] == Cmd(StatusSet(id, Running), true))
    && (forall j :: 0 <= j < |p| - 1 ==> !p[j].effect.Published?)
    && (forall j :: 0 <= j < |p| && p[j].effect.Invoked? ==> !p[j].effect.ok)
    && (forall j :: k < j < |p| ==> !p[j].effect.StatusSet?)
  }

  lemma DyingShape(c: Case)
    requires c.Dies()
    ensures EndsDead(c.Prog(), DeadAt(c), c.task.id, c.DlqPublish())
  {
    hide Executed, Finish, EndsDead, LastStatus;
    if c.task.taskType in c.cfg.registry {
      FailingShape(c.cfg, c.task, c.d);
    } else {
      NoHandlerShape(c.task);
    }
  }

  lemma NoHandlerShape(task: Task)
    ensures EndsDead(NoHandler(task, Json(task)), 0, task.id, DlqCmd(Json(task)))
  {
  }

  lemma FailingShape(cfg: Config, task: Task, d: Delivery)
    requires LastStatus(cfg, d) == Dead && d.raw == Json(task)
    ensures var p := Executed(cfg, task, d);
            |p| >= |Finish(cfg, task, d)| && EndsDead(p, |p| - |Finish(cfg, task, d)|, task.id, DlqCmd(d.raw))
  {
    hide Executed, Finish, LastStatus;
    ExecutedShape(cfg, task, d);
    FailureShape(cfg, task, d);
    var p, finish := Executed(cfg, task, d), Finish(cfg, task, d);
    var m := |p| - |finish|;
    assert forall j :: m <= j < |p| ==> p[j] == finish[j - m] by {
      forall j | m <= j < |p|
        ensures p[j] == finish[j - m]
      {
        assert p[m..][j - m] == p[j];
      }
    }
  }

  lemma FailureShape(cfg: Config, task: Task, d: Delivery)
    requires LastStatus(cfg, d) == Dead && d.raw == Json(task)
    ensures var finish := Finish(cfg, task, d);
            && |finish| == 5 && finish[0] == Cmd(StatusSet(task.id, Dead), false) && finish[4] == DlqCmd(d.raw)
            && (forall j :: 0 <= j < 4 ==> !finish[j].effect.Published?)
            && (forall j :: 0 <= j < 5 ==> !finish[j].effect.Invoked? && !finish[j].abort)
            && (forall j :: 1 <= j < 5 ==> !finish[j].effect.StatusSet?)
  {
    hide Calls, ResultOf, Row;
  }

  lemma Unstopped(c: Case, w: World)
    requires c.Valid() && !Redelivery.Stopped(w, c.d)
    ensures Program(c.cfg, c.d, Guard(w, c.d)) == c.Prog()
  {
  }

  /** The first n replies are acknowledgements and the others refusals, all of them at once. */
  function CutAt(n: nat): nat -> Reply {
    k => Reply(if k < n then Applied else Refused, 0, 0)
  }

  /** Committed everywhere, never handled, not in the DLQ and in nobody's hands. */
  predicate Gone(s: State, c: Case) {
    Scene(s, c, Logs(c), map[c.pending := 1, c.queue := 1], map[]) && !Handled(s.w, c.task.id)
  }

  lemma GoneIsUnsafe(s: State, c: Case)
    requires c.Valid() && Gone(s, c)
    ensures !Safe(s, c.task.id)
  {
    assert forall p: Partition :: LogOf(s.w.logs, p) == [] || CommittedAt(s, p) == |LogOf(s.w.logs, p)|;
    assert forall p: Partition :: p.topic == TOPIC_DLQ ==> LogOf(s.w.logs, p) == [];
  }

  /** A worker has taken the message up. */
  lemma TakesUp(c: Case, before: seq<Action>) returns (actions: seq<Action>)
    requires c.Valid() && AtQueue(Run(before), c)
    ensures var s, t := Run(before), Run(actions);
            t == s.(procs := map[2 := Consumer(c.queue, 0, Handling(c.Raw(), c.Prog(), false))])
  {
    hide Run, Executed, SubmitProgram, Holding;
    Unstopped(c, Run(before).w);
    actions := Then(before, Begin(2, Off, c.cfg, c.d));
    assert Run(actions).procs == map[2 := Consumer(c.queue, 0, Handling(c.Raw(), c.Prog(), false))];
  }

  // ----- faults at the end of the program -----

  /** What the first m effects leave behind when the worker is cut off after n of them, before the DLQ publish. */
  lemma DyingWorld(c: Case, w: World, n: nat, m: nat)
    requires c.Dies() && w.now == 0 && !Handled(w, c.task.id) && 0 < m <= |c.Prog()|
    requires (m == |c.Prog()| ==> n < m) && (c.task.taskType in c.cfg.registry ==> n >= 1)
    ensures var run := Execute(w, c.Prog()[..m], CutAt(n), 0);
            !run.err && run.w.now == 0 && run.w.logs == w.logs && !Handled(run.w, c.task.id)
  {
    hide Execute, Executed;
    DyingShape(c);
    var p := c.Prog()[..m];
    Redelivery.FirstDecides(w, p, CutAt(n), 0);
    Redelivery.ClockStands(w, p, CutAt(n), 0);
    Redelivery.LogsSpared(w, p, CutAt(n), 0);
    Redelivery.NoSuccess(w, p, CutAt(n), 0, c.task.id);
  }

  /** Once DEAD is acknowledged it stays stored. */
  lemma DyingStatus(c: Case, w: World, m: nat)
    requires c.Dies() && w.now == 0 && !Handled(w, c.task.id) && DeadAt(c) < m < |c.Prog()|
    ensures var run := Execute(w, c.Prog()[..m], CutAt(m), 0);
            c.task.id in run.w.status && run.w.status[c.task.id] == Entry(Dead, STATE_TTL)
  {
    hide Execute, Executed;
    DyingShape(c);
    var p, k := c.Prog(), DeadAt(c);
    var rest := p[k + 1..m];
    assert p[..m] == p[..k] + ([p[k]] + rest);
    ExecuteConcat(w, p[..k], [p[k]] + rest, CutAt(m), 0);
    var mid := Execute(w, p[..k], CutAt(m), 0);
    if k > 0 {
      DyingWorld(c, w, m, k);
      Redelivery.FirstDecides(w, p[..k], CutAt(m), 0);
    } else {
      NothingRun(w, CutAt(m));
    }
    ExecuteCons(mid.w, p[k], rest, CutAt(m), k);
    Redelivery.StatusSpared(Apply(mid.w, p[k].effect, CutAt(m)(k)), rest, c.task.id, CutAt(m), k + 1);
  }

  lemma NothingRun(w: World, replies: nat -> Reply)
    ensures Execute(w, [], replies, 0) == Ended(w, false, 0)
  {
  }

  /** Lost with no error returned and no worker stopped, a task has had its DLQ publish refused. */
  lemma MustBeDropped(actions: seq<Action>, id: string)
    requires var s := Run(actions);
             id in s.accepted && id in s.submitted && !Safe(s, id) && s.errored == {} && id !in s.stopped
    ensures id in Run(actions).dropped
  {
    hide Run, Safe;
    Conservation(actions, id);
  }

  lemma MustBeStopped(actions: seq<Action>, id: string)
    requires var s := Run(actions);
             id in s.accepted && id in s.submitted && !Safe(s, id) && s.errored == {} && s.dropped == {}
    ensures id in Run(actions).stopped
  {
    hide Run, Safe;
    Conservation(actions, id);
  }

  /**
   A worker whose effects are refused from the n-th on, before its DLQ publish, returns nil like any other: the message
   is committed and the task lost.
   */
  lemma CutOffLoses(c: Case, n: nat) returns (actions: seq<Action>, start: World)
    requires c.Dies() && n < |c.Prog()| && (c.task.taskType in c.cfg.registry ==> n >= 1)
    ensures var s, id := Run(actions), c.task.id;
            && id in s.accepted && id in s.submitted && !Safe(s, id)
            && s.errored == {} && s.stopped == {} && s.dropped == {id}
            && CommittedAt(s, c.pending) == 1 && CommittedAt(s, c.queue) == 1
    ensures Run(actions).w == Execute(start, c.Prog(), CutAt(n), 0).w
  {
    hide Run, Safe, Executed, Execute;
    actions := ReachPending(c);
    actions := ReachQueue(c, actions);
    actions := TakesUp(c, actions);
    start := Run(actions).w;
    var p := c.Prog();
    assert p[..|p|] == p && p[|p|..] == [];
    DyingWorld(c, start, n, |p|);
    actions := Performs(actions, 2, |p|, CutAt(n), 0);
    var dead := Run(actions).procs[2].phase.dead;
    assert Run(actions).procs == map[2 := Consumer(c.queue, 0, Handling(c.Raw(), [], dead))];
    actions := CommitsAndGoes(c, actions, dead);
    GoneIsUnsafe(Run(actions), c);
    MustBeDropped(actions, c.task.id);
  }

  lemma CommitsAndGoes(c: Case, before: seq<Action>, dead: bool) returns (actions: seq<Action>)
    requires Scene(Run(before), c, Logs(c), map[c.pending := 1],
                   map[2 := Consumer(c.queue, 0, Handling(c.Raw(), [], dead))])
    ensures Scene(Run(actions), c, Logs(c), map[c.pending := 1, c.queue := 1], map[])
    ensures var s, t := Run(before), Run(actions);
            t.w == s.w && t.errored == s.errored && t.stopped == s.stopped && t.dropped == s.dropped
  {
    hide Run, ProgramFor, SubmitProgram, Logs;
    actions := Then(before, Return(2));
    assert Run(actions).procs == map[2 := Consumer(c.queue, 0, Returned)];
    actions := CommitAndLeave(c, c.queue, Logs(c), map[c.pending := 1], 2, actions);
  }

  /** A refused DLQ publish alone is enough. */
  lemma RefusedDlqPublishLoses(c: Case) returns (actions: seq<Action>)
    requires c.Dies()
    ensures var s := Run(actions);
            && c.task.id in s.accepted && c.task.id in s.submitted && !Safe(s, c.task.id)
            && s.errored == {} && s.stopped == {} && s.dropped == {c.task.id}
  {
    DyingShape(c);
    var start;
    actions, start := CutOffLoses(c, |c.Prog()| - 1);
  }

  /** A worker that stops between the DEAD write and the publish leaves a message its successor skips and commits. */
  lemma StopAfterDeadLoses(c: Case, n: nat) returns (actions: seq<Action>)
    requires c.Dies() && DeadAt(c) < n < |c.Prog()|
    ensures var s := Run(actions);
            && c.task.id in s.accepted && c.task.id in s.submitted && !Safe(s, c.task.id)
            && s.errored == {} && s.stopped == {c.task.id} && s.dropped == {}
  {
    hide Run, Safe, Executed, Execute;
    actions := ReachPending(c);
    actions := ReachQueue(c, actions);
    actions := TakesUp(c, actions);
    DyingWorld(c, Run(actions).w, n, n);
    DyingStatus(c, Run(actions).w, n);
    LandIfNone(c.Prog()[..n], CutAt(n), 0);
    actions := Performs(actions, 2, n, CutAt(n), 0);
    actions := StopsAndRejoins(c, actions);
    actions := SkipsDead(c, actions);
    GoneIsUnsafe(Run(actions), c);
    MustBeStopped(actions, c.task.id);
  }

  lemma StopsAndRejoins(c: Case, before: seq<Action>) returns (actions: seq<Action>)
    requires var s := Run(before);
             && Scene(s, c, Logs(c), map[c.pending := 1], s.procs) && s.procs.Keys == {2}
             && s.procs[2].Consumer? && s.procs[2].phase.Handling? && s.procs[2].phase.raw == c.Raw()
             && c.Valid() && s.stopped == {}
    ensures var s, t := Run(before), Run(actions);
            && Scene(t, c, Logs(c), map[c.pending := 1], map[3 := Consumer(c.queue, 0, Fetching)])
            && t.w == s.w && t.errored == s.errored && t.stopped <= {c.task.id} && t.dropped == s.dropped
  {
    hide Run, ProgramFor, SubmitProgram, Holding;
    actions := Then(before, Stop(2));
    assert Run(actions).procs == map[];
    actions := Then(actions, Join(3, c.queue));
    assert Run(actions).procs == map[3 := Consumer(c.queue, 0, Fetching)];
  }

  lemma SkipsDead(c: Case, before: seq<Action>) returns (actions: seq<Action>)
    requires c.Valid() && Scene(Run(before), c, Logs(c), map[c.pending := 1], map[3 := Consumer(c.queue, 0, Fetching)])
    requires c.task.id in Run(before).w.status && Run(before).w.status[c.task.id] == Entry(Dead, STATE_TTL)
    ensures Scene(Run(actions), c, Logs(c), map[c.pending := 1, c.queue := 1], map[])
    ensures var s, t := Run(before), Run(actions);
            t.w == s.w && t.errored == s.errored && t.stopped == s.stopped && t.dropped == s.dropped
  {
    hide Run;
    actions := Then(before, Begin(3, Off, c.cfg, c.d));
    assert Program(c.cfg, c.d, Guard(Run(before).w, c.d)) == [];
    assert Run(actions).procs == map[3 := Consumer(c.queue, 0, Handling(c.Raw(), [], false))];
    actions := Then(actions, Return(3));
    assert Run(actions).procs == map[3 := Consumer(c.queue, 0, Returned)];
    actions := CommitAndLeave(c, c.queue, Logs(c), map[c.pending := 1], 3, actions);
  }

  /** A failed publish of the dispatcher is skipped for good when the next message of the partition is committed. */
  lemma FailedRouteLoses(c: Case) returns (actions: seq<Action>)
    requires c.Valid()
    ensures var s := Run(actions);
            && c.task.id in s.accepted && c.task.id in s.submitted && !Safe(s, c.task.id)
            && s.errored == {Slot(c.pending, 0)} && s.stopped == {} && s.dropped == {}
  {
    hide Run, Safe;
    actions := ReachPending(c);
    var publish := Cmd(Published(c.queue.topic, c.task.id, c.Raw()), true);
    var queued := Cmd(StatusSet(c.task.id, Queued), false);
    actions := Then(actions, Begin(1, Off, c.cfg, c.d));
    assert RouteProgram(c.Raw(), Off) == [publish, queued];
    assert Run(actions).procs == map[1 := Consumer(c.pending, 0, Handling(c.Raw(), [publish, queued], false))];
    actions := Then(actions, Step(1, To(Refused, c.queue)));
    assert Run(actions).procs == map[1 := Consumer(c.pending, 1, Fetching)];
    actions := Then(actions, Inject(c.pending, Junk("")));
    assert [c.Raw()] + [Junk("")] == [c.Raw(), Junk("")];
    assert Run(actions).w.logs == map[c.pending := [c.Raw(), Junk("")]];
    actions := RoutesJunk(c, actions);
    SkippedIsUnsafe(Run(actions), c);
  }

  const JUNK_DLQ := Cmd(Published(TOPIC_DLQ, "", Junk("")), true)

  lemma RoutesJunk(c: Case, before: seq<Action>) returns (actions: seq<Action>)
    requires c.Valid()
    requires Stage(Run(before), c, map[c.pending := [c.Raw(), Junk("")]], map[],
                   map[1 := Consumer(c.pending, 1, Fetching)])
    ensures var s, t := Run(before), Run(actions);
            && Stage(t, c, map[c.pending := [c.Raw(), Junk("")], Partition(TOPIC_DLQ, 0) := [Junk("")]],
                     map[c.pending := 2], map[1 := Consumer(c.pending, 2, Fetching)])
            && t.errored == s.errored && t.stopped == s.stopped && t.dropped == s.dropped
  {
    hide Run;
    actions := Then(before, Begin(1, Off, c.cfg, c.d.(raw := Junk(""))));
    assert RouteProgram(Junk(""), Off) == [JUNK_DLQ];
    assert Run(actions).procs == map[1 := Consumer(c.pending, 1, Handling(Junk(""), [JUNK_DLQ], false))];
    actions := JunkToDlq(c, actions);
    actions := Then(actions, Return(1));
    assert Run(actions).procs == map[1 := Consumer(c.pending, 1, Returned)];
    actions := Then(actions, Commit(1, true));
  }

  lemma JunkToDlq(c: Case, before: seq<Action>) returns (actions: seq<Action>)
    requires c.Valid()
    requires Stage(Run(before), c, map[c.pending := [c.Raw(), Junk("")]], map[],
                   map[1 := Consumer(c.pending, 1, Handling(Junk(""), [JUNK_DLQ], false))])
    ensures var s, t := Run(before), Run(actions);
            && Stage(t, c, map[c.pending := [c.Raw(), Junk("")], Partition(TOPIC_DLQ, 0) := [Junk("")]], map[],
                     map[1 := Consumer(c.pending, 1, Handling(Junk(""), [], false))])
            && t.errored == s.errored && t.stopped == s.stopped && t.dropped == s.dropped
  {
    hide Run;
    var one: seq<Cmd> := [JUNK_DLQ];
    assert one[1..] == [];
    var nothing: seq<Raw> := [];
    assert nothing + [Junk("")] == [Junk("")];
    actions := Then(before, Step(1, Reply(Applied, 0, 0)));
    assert Run(actions).w.logs == map[c.pending := [c.Raw(), Junk("")], Partition(TOPIC_DLQ, 0) := [Junk("")]];
  }

  lemma SkippedIsUnsafe(s: State, c: Case)
    requires c.Valid()
    requires Stage(s, c, map[c.pending := [c.Raw(), Junk("")], Partition(TOPIC_DLQ, 0) := [Junk("")]],
                   map[c.pending := 2], map[1 := Consumer(c.pending, 2, Fetching)])
    ensures !Safe(s, c.task.id)
  {
    assert forall p: Partition :: p.topic != TOPIC_DLQ ==>
             LogOf(s.w.logs, p) == [] || CommittedAt(s, p) == |LogOf(s.w.logs, p)|;
    assert forall p: Partition :: p.topic == TOPIC_DLQ ==> c.Raw() !in LogOf(s.w.logs, p);
  }
}
