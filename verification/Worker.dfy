/** The worker's message handler (services/worker/worker.go): the effects of one delivery. */
module Worker {
  import opened Domain
  import opened Backend
  import opened Retry

  datatype Config = Config(workerId: string, registry: set<string>, maxRetries: int, baseDelay: int)

  /**
   One delivery and what the environment does during it: whether the status read works, the outcomes of the
   handler calls, and the clock readings taken when the retry engine returns.
   */
  datatype Delivery = Delivery(raw: Raw, readable: bool, script: Script, at: int, durationMs: int)

  function Calls(cfg: Config, script: Script): nat {
    Last(script, Limit(cfg.maxRetries + 1), 1)
  }

  function ResultOf(cfg: Config, script: Script): Result {
    ResultAt(script, Limit(cfg.maxRetries + 1), Calls(cfg, script))
  }

  function Row(cfg: Config, task: Task, attempts: int, s: Status, d: Delivery): Execution {
    Execution(task.id, cfg.workerId, attempts, s, d.durationMs, d.at)
  }

  function FinishSuccess(cfg: Config, task: Task, attempts: int, d: Delivery): seq<Cmd> {
    [ Cmd(StatusSet(task.id, Done), false),
      Cmd(MetaSet(task.(attempts := attempts, completedAt := Some(d.at), status := Done, updatedAt := d.at)), false),
      Cmd(ExecutionAdded(Row(cfg, task, attempts, Done, d)), false),
      Cmd(RowUpdated(task.id, Done), false) ]
  }

  function FinishFailure(cfg: Config, task: Task, attempts: int, d: Delivery): seq<Cmd> {
    [ Cmd(StatusSet(task.id, Dead), false),
      Cmd(MetaSet(task.(attempts := attempts, status := Dead, updatedAt := d.at)), false),
      Cmd(ExecutionAdded(Row(cfg, task, attempts, Dead, d)), false),
      Cmd(RowUpdated(task.id, Dead), false),
      Cmd(Published(TOPIC_DLQ, task.id, d.raw), false) ]
  }

  function Finish(cfg: Config, task: Task, d: Delivery): seq<Cmd> {
    if ResultOf(cfg, d.script).Nil? then FinishSuccess(cfg, task, Calls(cfg, d.script), d)
    else FinishFailure(cfg, task, Calls(cfg, d.script), d)
  }

  /** The retry engine's effects and the finishing ones. */
  function Body(cfg: Config, task: Task, d: Delivery): seq<Cmd> {
    Attempts(task.id, d.script, Limit(cfg.maxRetries + 1), 1) + Finish(cfg, task, d)
  }

  function Executed(cfg: Config, task: Task, d: Delivery): seq<Cmd> {
    [Cmd(StatusSet(task.id, Running), true)] + Body(cfg, task, d)
  }

  function NoHandler(task: Task, raw: Raw): seq<Cmd> {
    [Cmd(StatusSet(task.id, Dead), false), Cmd(Published(TOPIC_DLQ, task.id, raw), false)]
  }

  /** The effects of a delivery whose status read answered `guard`. */
  function Program(cfg: Config, d: Delivery, guard: Option<Status>): seq<Cmd> {
    match Decode(d.raw)
    case None => []
    case Some(task) =>
      if guard.Some? && IsTerminal(guard.value) then []
      else if task.taskType !in cfg.registry then NoHandler(task, d.raw)
      else Executed(cfg, task, d)
  }

  /** A failed read is no answer. */
  function Guard(w: World, d: Delivery): Option<Status> {
    if d.raw.Json? && d.readable then Live(w.status, d.raw.task.id, w.now) else None
  }

  function Deliver(cfg: Config, w: World, d: Delivery, replies: nat -> Reply, i: nat): Ended {
    Execute(w, Program(cfg, d, Guard(w, d)), replies, i)
  }

  class Worker {
    const cfg: Config
    const services: Services
    var inFlight: int

    constructor (cfg: Config, services: Services)
      ensures this.cfg == cfg && this.services == services && inFlight == 0
    {
      this.cfg, this.services, this.inFlight := cfg, services, 0;
    }

    /** processMessage returns an error only when the RUNNING write does. */
    method ProcessMessage(d: Delivery) returns (err: bool)
      modifies this`inFlight, services`w, services`step
      ensures Deliver(cfg, old(services.w), d, services.replies, old(services.step)) ==
              Ended(services.w, err, services.step)
      ensures inFlight == old(inFlight)
    {
      if d.raw.Junk? {
        return false;
      }
      var task := d.raw.task;
      var s := services.GetStatus(task.id, d.readable);
      if s.Some? && IsTerminal(s.value) {
        return false;
      }
      if task.taskType !in cfg.registry {
        ghost var todo := NoHandler(task, d.raw);
        ghost var goal := Execute(services.w, todo, services.replies, services.step);
        var _ := services.SetStatus(task.id, Dead);
        todo := todo[1..];
        assert goal == Execute(services.w, todo, services.replies, services.step);
        var _ := services.Publish(TOPIC_DLQ, task.id, d.raw);
        todo := todo[1..];
        assert goal == Execute(services.w, todo, services.replies, services.step);
        return false;
      }
      err := RunTask(task, d);
    }

    /** From the RUNNING write to the terminal writes. */
    method RunTask(task: Task, d: Delivery) returns (err: bool)
      modifies this`inFlight, services`w, services`step
      ensures Execute(old(services.w), Executed(cfg, task, d), services.replies, old(services.step))
              == Ended(services.w, err, services.step)
      ensures inFlight == old(inFlight)
    {
      assert Executed(cfg, task, d)[1..] == Body(cfg, task, d);
      var failed := services.SetStatus(task.id, Running);
      if failed {
        return true;
      }
      inFlight := inFlight + 1;
      RunBody(task, d);
      inFlight := inFlight - 1;
      return false;
    }

    method RunBody(task: Task, d: Delivery)
      modifies services`w, services`step
      ensures Execute(old(services.w), Body(cfg, task, d), services.replies, old(services.step))
              == Ended(services.w, false, services.step)
    {
      ExecuteConcat(services.w, Attempts(task.id, d.script, Limit(cfg.maxRetries + 1), 1), Finish(cfg, task, d),
                    services.replies, services.step);
      var closures := new Closures(services, task.id, d.script);
      var res, _, _ := Do(closures, cfg.maxRetries + 1, cfg.baseDelay);
      if res.Nil? {
        DoFinishSuccess(task, closures.attempts, d);
      } else {
        DoFinishFailure(task, closures.attempts, d);
      }
    }

    method DoFinishSuccess(task: Task, attempts: int, d: Delivery)
      modifies services`w, services`step
      ensures Execute(old(services.w), FinishSuccess(cfg, task, attempts, d), services.replies, old(services.step))
              == Ended(services.w, false, services.step)
      ensures Stored(old(services.w), services.w, task, attempts, Some(d.at), Done, d, old(services.step))
      ensures services.w.logs == old(services.w.logs)
    {
      ghost var w0, i, p := services.w, services.step, FinishSuccess(cfg, task, attempts, d);
      WriteFinish(task.(attempts := attempts, completedAt := Some(d.at), status := Done, updatedAt := d.at), d);
      assert p == [p[0], p[1], p[2], p[3]];
      FourWrites(w0, p[0].effect, p[1].effect, p[2].effect, p[3].effect, services.replies, i);
    }

    method DoFinishFailure(task: Task, attempts: int, d: Delivery)
      modifies services`w, services`step
      ensures Execute(old(services.w), FinishFailure(cfg, task, attempts, d), services.replies, old(services.step))
              == Ended(services.w, false, services.step)
      ensures Stored(old(services.w), services.w, task, attempts, task.completedAt, Dead, d, old(services.step))
      ensures var r := services.replies(old(services.step) + 4);
              forall q :: LogOf(services.w.logs, q) == LogOf(old(services.w.logs), q) +
                if q != Partition("tasks.dlq", r.partition) || r.outcome.Refused? then [] else [d.raw]
    {
      ghost var w0, i, p := services.w, services.step, FinishFailure(cfg, task, attempts, d);
      WriteFinish(task.(attempts := attempts, status := Dead, updatedAt := d.at), d);
      assert p == [p[0], p[1], p[2], p[3]] + ([p[4]] + []);
      FourWrites(w0, p[0].effect, p[1].effect, p[2].effect, p[3].effect, services.replies, i);
      ExecuteConcat(w0, p[..4], [p[4]] + [], services.replies, i);
      assert p[..4] == [p[0], p[1], p[2], p[3]];
      ExecuteCons(services.w, p[4], [], services.replies, i + 4);
      var _ := services.Publish(TOPIC_DLQ, task.id, d.raw);
    }

    /**
     What the four writes of an ending have done, each unless refused: the status, the metadata with the number of
     attempts, one execution if the task has a row, and that row's status.
     */
    ghost predicate Stored(w: World, t: World, task: Task, attempts: int, completedAt: Option<int>, s: Status,
                           d: Delivery, i: nat)
    {
      && (!services.replies(i).outcome.Refused? ==> task.id in t.status && t.status[task.id].value == s)
      && (!services.replies(i + 1).outcome.Refused? ==>
            && task.id in t.meta
            && (var meta := t.meta[task.id].value;
                && meta.id == task.id && meta.taskType == task.taskType && meta.payload == task.payload
                && meta.createdAt == task.createdAt && meta.attempts == attempts && meta.status == s
                && meta.updatedAt == d.at && meta.completedAt == completedAt))
      && t.executions ==
           w.executions +
           (if task.id !in w.rows || services.replies(i + 2).outcome.Refused? then []
            else [Execution(task.id, cfg.workerId, attempts, s, d.durationMs, d.at)])
      && (task.id in t.rows <==> task.id in w.rows)
      && (task.id in w.rows && !services.replies(i + 3).outcome.Refused? ==> t.rows[task.id].status == s)
    }

    /** The writes both endings share; `task` is the task as the ending leaves it. */
    method WriteFinish(task: Task, d: Delivery)
      requires task.updatedAt == d.at
      modifies services`w, services`step
      ensures services.step == old(services.step) + 4
      ensures var i, w := old(services.step), old(services.w);
              services.w ==
              Apply(Apply(Apply(Apply(w, StatusSet(task.id, task.status), services.replies(i)),
                                MetaSet(task), services.replies(i + 1)),
                          ExecutionAdded(Row(cfg, task, task.attempts, task.status, d)), services.replies(i + 2)),
                    RowUpdated(task.id, task.status), services.replies(i + 3))
      ensures Stored(old(services.w), services.w, task, task.attempts, task.completedAt, task.status, d,
                     old(services.step))
      ensures services.w.logs == old(services.w.logs)
    {
      hide Apply;
      var _ := services.SetStatus(task.id, task.status);
      var _ := services.SetTaskMeta(task);
      var _ := services.RecordExecution(Row(cfg, task, task.attempts, task.status, d));
      var _ := services.UpdateStatus(task.id, task.status);
    }
  }

  lemma FourWrites(w: World, a: Effect, b: Effect, c: Effect, e: Effect, replies: nat -> Reply, i: nat)
    ensures Execute(w, [Cmd(a, false), Cmd(b, false), Cmd(c, false), Cmd(e, false)], replies, i) ==
            Ended(Apply(Apply(Apply(Apply(w, a, replies(i)), b, replies(i + 1)), c, replies(i + 2)), e, replies(i + 3)),
                  false, i + 4)
  {
    hide Apply;
    var p, q, r, s := Cmd(a, false), Cmd(b, false), Cmd(c, false), Cmd(e, false);
    assert [p, q, r, s] == [p] + ([q] + ([r] + ([s] + [])));
    var w1 := Apply(w, a, replies(i));
    var w2 := Apply(w1, b, replies(i + 1));
    var w3 := Apply(w2, c, replies(i + 2));
    ExecuteCons(w, p, [q] + ([r] + ([s] + [])), replies, i);
    ExecuteCons(w1, q, [r] + ([s] + []), replies, i + 1);
    ExecuteCons(w2, r, [s] + [], replies, i + 2);
    ExecuteCons(w3, s, [], replies, i + 3);
  }

  // ----- the trace of an executed delivery -----

  function LastStatus(cfg: Config, d: Delivery): Status {
    if ResultOf(cfg, d.script).Nil? then Done else Dead
  }

  function Finishing(cfg: Config, task: Task, d: Delivery): Trace {
    Trace([], [LastStatus(cfg, d)], [Row(cfg, task, Calls(cfg, d.script), LastStatus(cfg, d), d)],
          if LastStatus(cfg, d) == Done then [] else [(TOPIC_DLQ, d.raw)])
  }

  function Attempted(cfg: Config, task: Task, d: Delivery): Trace {
    var k := Calls(cfg, d.script);
    Trace(Repeat(k - 1, false) + [d.script.ok(k)],
          [Running] + Repeat(Retries(d.script, Limit(cfg.maxRetries + 1), k), Retrying) + [LastStatus(cfg, d)],
          [Row(cfg, task, k, LastStatus(cfg, d), d)],
          if LastStatus(cfg, d) == Done then [] else [(TOPIC_DLQ, d.raw)])
  }

  /** The four writes both endings share. */
  lemma FinishWrites(s: Status, id: string, task: Task, x: Execution)
    ensures TraceOf([Cmd(StatusSet(id, s), false), Cmd(MetaSet(task), false),
                     Cmd(ExecutionAdded(x), false), Cmd(RowUpdated(id, s), false)])
            == Trace([], [s], [x], [])
  {
    var a, b, c, e := Cmd(StatusSet(id, s), false), Cmd(MetaSet(task), false),
                      Cmd(ExecutionAdded(x), false), Cmd(RowUpdated(id, s), false);
    assert TraceOf([e]) == Trace([], [], [], []) by {
      TraceCons(e, []);
    }
    assert TraceOf([c, e]) == Trace([], [], [x], []) by {
      TraceCons(c, [e]);
      assert [c] + [e] == [c, e];
    }
    assert TraceOf([b, c, e]) == Trace([], [], [x], []) by {
      TraceCons(b, [c, e]);
      assert [b] + [c, e] == [b, c, e];
    }
    TraceCons(a, [b, c, e]);
    assert [a] + [b, c, e] == [a, b, c, e];
  }

  lemma SuccessTrace(cfg: Config, task: Task, attempts: int, d: Delivery)
    ensures TraceOf(FinishSuccess(cfg, task, attempts, d)) == Trace([], [Done], [Row(cfg, task, attempts, Done, d)], [])
  {
    hide Row;
    var p := FinishSuccess(cfg, task, attempts, d);
    FinishWrites(Done, task.id, p[1].effect.task, Row(cfg, task, attempts, Done, d));
    assert p == [Cmd(StatusSet(task.id, Done), false), Cmd(MetaSet(p[1].effect.task), false),
                 Cmd(ExecutionAdded(Row(cfg, task, attempts, Done, d)), false), Cmd(RowUpdated(task.id, Done), false)];
  }

  lemma FailureTrace(cfg: Config, task: Task, attempts: int, d: Delivery)
    ensures TraceOf(FinishFailure(cfg, task, attempts, d)) ==
            Trace([], [Dead], [Row(cfg, task, attempts, Dead, d)], [(TOPIC_DLQ, d.raw)])
  {
    hide Row, TraceOf;
    var p := FinishFailure(cfg, task, attempts, d);
    var x, publish := Row(cfg, task, attempts, Dead, d), Cmd(Published(TOPIC_DLQ, task.id, d.raw), false);
    var writes := [Cmd(StatusSet(task.id, Dead), false), Cmd(MetaSet(p[1].effect.task), false),
                   Cmd(ExecutionAdded(x), false), Cmd(RowUpdated(task.id, Dead), false)];
    FinishWrites(Dead, task.id, p[1].effect.task, x);
    assert p == writes + [publish];
    TraceConcat(writes, [publish]);
    PublishTrace(publish);
  }

  lemma PublishTrace(c: Cmd)
    requires c.effect.Published?
    ensures TraceOf([c]) == Trace([], [], [], [(c.effect.topic, c.effect.raw)])
  {
    TraceCons(c, []);
    assert [c] + [] == [c];
  }

  lemma FinishTrace(cfg: Config, task: Task, d: Delivery)
    ensures TraceOf(Finish(cfg, task, d)) == Finishing(cfg, task, d)
  {
    hide Calls, Row, TraceOf, FinishSuccess, FinishFailure;
    SuccessTrace(cfg, task, Calls(cfg, d.script), d);
    FailureTrace(cfg, task, Calls(cfg, d.script), d);
  }

  lemma BodyTrace(cfg: Config, task: Task, d: Delivery)
    ensures TraceOf(Body(cfg, task, d)) ==
            Join(Burst(d.script, Limit(cfg.maxRetries + 1), 1, Calls(cfg, d.script)), Finishing(cfg, task, d))
  {
    TraceConcat(Attempts(task.id, d.script, Limit(cfg.maxRetries + 1), 1), Finish(cfg, task, d));
    AttemptsTrace(task.id, d.script, Limit(cfg.maxRetries + 1), 1);
    FinishTrace(cfg, task, d);
  }

  /**
   A delivery that executes writes RUNNING, RETRYING once per callback and then DONE or DEAD; it calls the
   handler at most max(1, maxRetries + 1) times, all failing but possibly the last; it records one execution
   whose attempt is the number of calls; and it sends the raw message to the DLQ exactly when it ends DEAD.
   */
  lemma DeliveryTrace(cfg: Config, task: Task, d: Delivery)
    ensures var t := TraceOf(Executed(cfg, task, d));
            var m, k := if cfg.maxRetries + 1 <= 0 then 1 else cfg.maxRetries + 1, |t.calls|;
            && 1 <= k <= m && (d.script.ok(k) || d.script.cancel(k) || k == m)
            && (forall j :: 1 <= j < k ==> !d.script.ok(j) && !d.script.cancel(j))
            && (forall j :: 1 <= j <= k ==> t.calls[j - 1] == d.script.ok(j))
            && |t.statuses| == k + (if d.script.ok(k) || k == m then 1 else 2)
            && t.statuses[0] == Running && (forall j :: 1 <= j < |t.statuses| - 1 ==> t.statuses[j] == Retrying)
            && t.statuses[|t.statuses| - 1] == (if d.script.ok(k) then Done else Dead)
            && |t.executions| == 1
            && (var x := t.executions[0];
                && x.taskId == task.id && x.workerId == cfg.workerId && x.attempt == k
                && x.status == t.statuses[|t.statuses| - 1] && x.durationMs == d.durationMs && x.executedAt == d.at)
            && t.publishes == (if d.script.ok(k) then [] else [("tasks.dlq", d.raw)])
    ensures TraceOf(Executed(cfg, task, d)) == Attempted(cfg, task, d)
    ensures 1 <= Calls(cfg, d.script) <= (if cfg.maxRetries + 1 >= 1 then cfg.maxRetries + 1 else 1)
    ensures LastStatus(cfg, d) == Done <==> d.script.ok(Calls(cfg, d.script))
  {
    hide TraceOf, Executed, Attempted, Limit;
    TraceIsAttempted(cfg, task, d);
    AttemptedLaw(cfg, task, d);
  }

  lemma TraceIsAttempted(cfg: Config, task: Task, d: Delivery)
    ensures TraceOf(Executed(cfg, task, d)) == Attempted(cfg, task, d)
  {
    hide TraceOf, Body, Burst, Finishing, Attempted;
    TraceCons(Cmd(StatusSet(task.id, Running), true), Body(cfg, task, d));
    BodyTrace(cfg, task, d);
    AttemptedJoin(cfg, task, d);
  }

  /** The same trace without the functions that make it. */
  lemma AttemptedLaw(cfg: Config, task: Task, d: Delivery)
    ensures var t, m := Attempted(cfg, task, d), if cfg.maxRetries + 1 <= 0 then 1 else cfg.maxRetries + 1;
            var k := |t.calls|;
            && k == Calls(cfg, d.script) && 1 <= k <= m && (d.script.ok(k) || d.script.cancel(k) || k == m)
            && (forall j :: 1 <= j < k ==> !d.script.ok(j) && !d.script.cancel(j))
            && (forall j :: 1 <= j <= k ==> t.calls[j - 1] == d.script.ok(j))
            && |t.statuses| == k + (if d.script.ok(k) || k == m then 1 else 2)
            && t.statuses[0] == Running && (forall j :: 1 <= j < |t.statuses| - 1 ==> t.statuses[j] == Retrying)
            && t.statuses[|t.statuses| - 1] == (if d.script.ok(k) then Done else Dead)
            && t.executions == [Execution(task.id, cfg.workerId, k, t.statuses[|t.statuses| - 1], d.durationMs, d.at)]
            && t.publishes == (if d.script.ok(k) then [] else [("tasks.dlq", d.raw)])
  {
    NoneBefore(d.script, Limit(cfg.maxRetries + 1), Calls(cfg, d.script));
  }

  /** What the ending stores and records, whatever the replies. */
  lemma FinishRecords(cfg: Config, task: Task, d: Delivery)
    ensures var finish, k := Finish(cfg, task, d), |TraceOf(Executed(cfg, task, d)).calls|;
            var s := if d.script.ok(k) then Done else Dead;
            && |finish| == (if d.script.ok(k) then 4 else 5)
            && finish[0].effect == StatusSet(task.id, s) && finish[3].effect == RowUpdated(task.id, s)
            && finish[2].effect ==
                 ExecutionAdded(Execution(task.id, cfg.workerId, k, s, d.durationMs, d.at))
            && finish[1].effect.MetaSet?
            && (var meta := finish[1].effect.task;
                && meta.id == task.id && meta.taskType == task.taskType && meta.payload == task.payload
                && meta.createdAt == task.createdAt && meta.status == s && meta.attempts == k && meta.updatedAt == d.at
                && meta.completedAt == (if d.script.ok(k) then Some(d.at) else task.completedAt))
            && (!d.script.ok(k) ==> finish[4].effect == Published("tasks.dlq", task.id, d.raw))
  {
    hide TraceOf, Executed, Attempted, Calls;
    DeliveryTrace(cfg, task, d);
    AttemptedLaw(cfg, task, d);
  }

  lemma AttemptedJoin(cfg: Config, task: Task, d: Delivery)
    ensures Attempted(cfg, task, d) ==
            Join(Single(StatusSet(task.id, Running)),
                 Join(Burst(d.script, Limit(cfg.maxRetries + 1), 1, Calls(cfg, d.script)), Finishing(cfg, task, d)))
  {
    hide Row, Calls;
  }
}
