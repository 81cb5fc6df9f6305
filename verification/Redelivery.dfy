/**
 When a delivery calls the handler, and what the guard decides about it (services/worker/worker.go:118-141, 205-262).
 */
module Redelivery {
  import opened Domain
  import opened Backend
  import opened Retry
  import opened Worker

  lemma ApplyCalls(w: World, e: Effect, r: Reply)
    ensures |Apply(w, e, r).calls| == |w.calls| + |Single(e).calls|
  {
  }

  /** A program that runs to its end makes every call it asks for. */
  lemma {:induction false} CallsMade(w: World, p: seq<Cmd>, replies: nat -> Reply, i: nat)
    requires !Execute(w, p, replies, i).err
    ensures |Execute(w, p, replies, i).w.calls| == |w.calls| + |TraceOf(p).calls|
    decreases |p|
  {
    hide Apply, Errs;
    if p != [] {
      ApplyCalls(w, p[0].effect, replies(i));
      CallsMade(Apply(w, p[0].effect, replies(i)), p[1..], replies, i + 1);
    }
  }

  predicate NoAbort(p: seq<Cmd>) {
    forall k :: 0 <= k < |p| ==> !p[k].abort
  }

  lemma {:induction false} NoAbortNoError(w: World, p: seq<Cmd>, replies: nat -> Reply, i: nat)
    requires NoAbort(p)
    ensures !Execute(w, p, replies, i).err && Execute(w, p, replies, i).next == i + |p|
    decreases |p|
  {
    if p != [] {
      NoAbortNoError(Apply(w, p[0].effect, replies(i)), p[1..], replies, i + 1);
    }
  }

  lemma {:induction false} AttemptsNoAbort(id: string, script: Script, limit: nat, n: nat)
    requires 1 <= n <= limit
    ensures NoAbort(Attempts(id, script, limit, n))
    decreases limit - n
  {
    if !Stops(script, limit, n) {
      AttemptsNoAbort(id, script, limit, n + 1);
    }
  }

  lemma BodyNoAbort(cfg: Config, task: Task, d: Delivery)
    ensures NoAbort(Body(cfg, task, d))
  {
    AttemptsNoAbort(task.id, d.script, Limit(cfg.maxRetries + 1), 1);
  }

  /** Only a failed RUNNING write makes an executing delivery return an error, and then nothing else happens. */
  lemma ClaimDecides(cfg: Config, w: World, task: Task, d: Delivery, replies: nat -> Reply, i: nat)
    ensures var w1 := Apply(w, StatusSet(task.id, Running), replies(i));
            var run := Execute(w, Executed(cfg, task, d), replies, i);
            if replies(i).outcome.Applied? then !run.err && run == Execute(w1, Body(cfg, task, d), replies, i + 1)
            else run == Ended(w1, true, i + 1)
  {
    assert Executed(cfg, task, d)[1..] == Body(cfg, task, d);
    BodyNoAbort(cfg, task, d);
    NoAbortNoError(Apply(w, StatusSet(task.id, Running), replies(i)), Body(cfg, task, d), replies, i + 1);
  }

  /** The guard stops a delivery: the status was read, is still there and is terminal. */
  predicate Stopped(w: World, d: Delivery) {
    && d.raw.Json? && d.readable && d.raw.task.id in w.status && w.now < w.status[d.raw.task.id].expires
    && w.status[d.raw.task.id].value in {Done, Failed, Dead}
  }

  /**
   The handler is called exactly when the guard lets the message through, a handler exists and RUNNING is
   acknowledged.
   */
  lemma HandlerCalledIff(cfg: Config, w: World, d: Delivery, replies: nat -> Reply, i: nat)
    ensures Deliver(cfg, w, d, replies, i).w.calls != w.calls
       <==> d.raw.Json? && !Stopped(w, d) && d.raw.task.taskType in cfg.registry && replies(i).outcome.Applied?
  {
    if d.raw.Json? && !Stopped(w, d) {
      var task := d.raw.task;
      if task.taskType !in cfg.registry {
        var p := NoHandler(task, d.raw);
        NoAbortNoError(w, p, replies, i);
        CallsMade(w, p, replies, i);
        NoHandlerCalls(w, p, replies, i);
      } else {
        ClaimDecides(cfg, w, task, d, replies, i);
        if replies(i).outcome.Applied? {
          var w1 := Apply(w, StatusSet(task.id, Running), replies(i));
          CallsMade(w1, Body(cfg, task, d), replies, i + 1);
          BodyTrace(cfg, task, d);
        }
      }
    }
  }

  lemma {:induction false} NoHandlerCalls(w: World, p: seq<Cmd>, replies: nat -> Reply, i: nat)
    requires forall k :: 0 <= k < |p| ==> !p[k].effect.Invoked?
    ensures Execute(w, p, replies, i).w.calls == w.calls
    decreases |p|
  {
    if p != [] {
      NoHandlerCalls(Apply(w, p[0].effect, replies(i)), p[1..], replies, i + 1);
    }
  }

  lemma ApplyLogs(w: World, e: Effect, r: Reply)
    requires e.Published? ==> r.outcome.Refused?
    ensures Apply(w, e, r).logs == w.logs
  {
  }

  /** Without a publish that lands, the logs stay as they are. */
  lemma {:induction false} LogsSpared(w: World, p: seq<Cmd>, replies: nat -> Reply, i: nat)
    requires forall k :: 0 <= k < |p| && p[k].effect.Published? ==> replies(i + k).outcome.Refused?
    ensures Execute(w, p, replies, i).w.logs == w.logs
    decreases |p|
  {
    hide Apply, Errs;
    if p != [] {
      var rest := p[1..];
      forall k | 0 <= k < |rest| && rest[k].effect.Published?
        ensures replies(i + 1 + k).outcome.Refused?
      {
        assert p[k + 1].effect.Published?;
      }
      assert replies(i + 0) == replies(i);
      ApplyLogs(w, p[0].effect, replies(i));
      LogsSpared(Apply(w, p[0].effect, replies(i)), rest, replies, i + 1);
    }
  }

  /** Without a call that returns nil, the task stays unhandled. */
  lemma {:induction false} NoSuccess(w: World, p: seq<Cmd>, replies: nat -> Reply, i: nat, id: string)
    requires (id, true) !in w.calls
    requires forall k :: 0 <= k < |p| && p[k].effect.Invoked? ==> !p[k].effect.ok
    ensures (id, true) !in Execute(w, p, replies, i).w.calls
    decreases |p|
  {
    if p != [] {
      NoSuccess(Apply(w, p[0].effect, replies(i)), p[1..], replies, i + 1, id);
    }
  }

  lemma {:induction false} ClockStands(w: World, p: seq<Cmd>, replies: nat -> Reply, i: nat)
    requires forall n :: replies(n).after == 0
    ensures Execute(w, p, replies, i).w.now == w.now
    decreases |p|
  {
    if p != [] {
      ClockStands(Apply(w, p[0].effect, replies(i)), p[1..], replies, i + 1);
    }
  }

  /** Only the first effect of a program may abort it. */
  predicate AbortsFirst(p: seq<Cmd>) {
    forall k :: 0 < k < |p| ==> !p[k].abort
  }

  lemma FirstDecides(w: World, p: seq<Cmd>, replies: nat -> Reply, i: nat)
    requires AbortsFirst(p) && p != [] && (p[0].abort ==> !Errs(w, p[0].effect, replies(i)))
    ensures !Execute(w, p, replies, i).err && Execute(w, p, replies, i).next == i + |p|
  {
    assert NoAbort(p[1..]);
    NoAbortNoError(Apply(w, p[0].effect, replies(i)), p[1..], replies, i + 1);
  }

  /** A stored terminal status that has not expired. */
  predicate Settled(w: World, id: string) {
    id in w.status && IsTerminal(w.status[id].value) && w.now < w.status[id].expires
  }

  /** Effects that leave the stored status of a task alone. */
  predicate SparesStatus(p: seq<Cmd>, id: string) {
    forall k :: 0 <= k < |p| && p[k].effect.StatusSet? ==> p[k].effect.id != id
  }

  lemma {:induction false} StatusSpared(w: World, p: seq<Cmd>, id: string, replies: nat -> Reply, i: nat)
    requires SparesStatus(p, id) && id in w.status
    ensures var e := Execute(w, p, replies, i);
            id in e.w.status && e.w.status[id] == w.status[id]
    decreases |p|
  {
    if p != [] {
      StatusSpared(Apply(w, p[0].effect, replies(i)), p[1..], id, replies, i + 1);
    }
  }

  /** When the terminal status of an executing delivery reaches Redis. */
  function TerminalTime(cfg: Config, w: World, task: Task, d: Delivery, replies: nat -> Reply, i: nat): int {
    var run := Execute(Apply(w, StatusSet(task.id, Running), replies(i)),
                       Attempts(task.id, d.script, Limit(cfg.maxRetries + 1), 1), replies, i + 1);
    run.w.now + replies(run.next).after
  }

  /** An executing delivery whose writes succeed leaves the terminal status with a full TTL from its write. */
  lemma Settles(cfg: Config, w: World, d: Delivery, replies: nat -> Reply, i: nat)
    requires d.raw.Json? && !Stopped(w, d) && d.raw.task.taskType in cfg.registry
    requires forall n :: replies(n).outcome.Applied?
    ensures var task := d.raw.task;
            var run := Deliver(cfg, w, d, replies, i);
            && !run.err && task.id in run.w.status
            && run.w.status[task.id] == Entry(LastStatus(cfg, d), TerminalTime(cfg, w, task, d, replies, i) + STATE_TTL)
  {
    var task := d.raw.task;
    ClaimDecides(cfg, w, task, d, replies, i);
    BodySettles(cfg, Apply(w, StatusSet(task.id, Running), replies(i)), task, d, replies, i + 1);
  }

  lemma BodySettles(cfg: Config, w: World, task: Task, d: Delivery, replies: nat -> Reply, i: nat)
    requires forall n :: replies(n).outcome.Applied?
    ensures var mid := Execute(w, Attempts(task.id, d.script, Limit(cfg.maxRetries + 1), 1), replies, i);
            var run := Execute(w, Body(cfg, task, d), replies, i);
            && task.id in run.w.status
            && run.w.status[task.id] == Entry(LastStatus(cfg, d), mid.w.now + replies(mid.next).after + STATE_TTL)
  {
    var attempts := Attempts(task.id, d.script, Limit(cfg.maxRetries + 1), 1);
    ExecuteConcat(w, attempts, Finish(cfg, task, d), replies, i);
    AttemptsNoAbort(task.id, d.script, Limit(cfg.maxRetries + 1), 1);
    NoAbortNoError(w, attempts, replies, i);
    var mid := Execute(w, attempts, replies, i);
    FinishSettles(cfg, mid.w, task, d, replies, mid.next);
  }

  lemma FinishSettles(cfg: Config, w: World, task: Task, d: Delivery, replies: nat -> Reply, i: nat)
    requires replies(i).outcome.Applied?
    ensures var run := Execute(w, Finish(cfg, task, d), replies, i);
            && task.id in run.w.status
            && run.w.status[task.id] == Entry(LastStatus(cfg, d), w.now + replies(i).after + STATE_TTL)
  {
    var p := Finish(cfg, task, d);
    var w1 := Apply(w, StatusSet(task.id, LastStatus(cfg, d)), replies(i));
    assert Execute(w, p, replies, i) == Execute(w1, p[1..], replies, i + 1);
    StatusSpared(w1, p[1..], task.id, replies, i + 1);
  }

  /** The next readable delivery of a settled task calls the handler if and only if the status has expired by then. */
  lemma RerunsAfterExpiry(cfg: Config, w: World, wait: nat, d: Delivery, replies: nat -> Reply, i: nat)
    requires d.readable && d.raw.Json? && Settled(w, d.raw.task.id)
    requires d.raw.task.taskType in cfg.registry && replies(i).outcome.Applied?
    ensures Deliver(cfg, w.(now := w.now + wait), d, replies, i).w.calls != w.calls
       <==> w.now + wait >= w.status[d.raw.task.id].expires
  {
    HandlerCalledIff(cfg, w.(now := w.now + wait), d, replies, i);
  }

  /** A QUEUED write of the dispatcher that lands after the terminal one defeats the guard. */
  lemma LateQueuedReruns(cfg: Config, w: World, id: string, d: Delivery, late: Reply, replies: nat -> Reply, i: nat)
    requires Settled(w, id) && d.raw.Json? && d.raw.task.id == id && d.raw.task.taskType in cfg.registry
    requires !late.outcome.Refused? && replies(i).outcome.Applied?
    ensures Deliver(cfg, Apply(w, StatusSet(id, Queued), late), d, replies, i).w.calls != w.calls
  {
    HandlerCalledIff(cfg, Apply(w, StatusSet(id, Queued), late), d, replies, i);
  }
}
