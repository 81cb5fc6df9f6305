/**
 A worker that is told to stop while it executes a message. The handler keeps its own context, but the writes, the DLQ
 publish and the retry waits use the consumer's (services/worker/worker.go:155-262): from some effect on every one of
 them is refused, while the calls go on, nil is returned and the commit succeeds on a context of its own.
 */
module Shutdown {
  import opened Domain
  import opened Backend
  import opened Worker
  import opened Pipeline
  import opened Losses
  import Gateway
  import Redelivery
  import Retry

  // ----- what a delivery leaves unresolved -----

  /** A call of this program run returned nil. */
  predicate Succeeded(w: World, t: World, id: string) {
    exists k :: |w.calls| <= k < |t.calls| && t.calls[k] == (id, true)
  }

  /** Neither handled nor passed on. */
  predicate Unresolved(w: World, t: World, id: string) {
    t.logs == w.logs && !Succeeded(w, t, id)
  }

  predicate HasSuccess(p: seq<Cmd>, id: string) {
    exists k :: 0 <= k < |p| && p[k].effect == Invoked(id, true)
  }

  lemma ApplyCalls(w: World, e: Effect, r: Reply)
    ensures Apply(w, e, r).calls == w.calls + if e.Invoked? then [(e.id, e.ok)] else []
  {
  }

  lemma {:induction false} SuccessIff(w: World, p: seq<Cmd>, replies: nat -> Reply, i: nat, id: string)
    requires !Execute(w, p, replies, i).err
    ensures w.calls <= Execute(w, p, replies, i).w.calls
    ensures Succeeded(w, Execute(w, p, replies, i).w, id) <==> HasSuccess(p, id)
    decreases |p|
  {
    hide Apply, Errs;
    if p != [] {
      var w1 := Apply(w, p[0].effect, replies(i));
      ApplyCalls(w, p[0].effect, replies(i));
      SuccessIff(w1, p[1..], replies, i + 1, id);
      var t := Execute(w, p, replies, i).w;
      assert HasSuccess(p, id) <==> p[0].effect == Invoked(id, true) || HasSuccess(p[1..], id) by {
        SuccessCons(p, id);
      }
      if p[0].effect == Invoked(id, true) {
        assert t.calls[|w.calls|] == (id, true);
      } else if Succeeded(w, t, id) {
        var k :| |w.calls| <= k < |t.calls| && t.calls[k] == (id, true);
        assert k >= |w1.calls|;
      }
    }
  }

  lemma SuccessCons(p: seq<Cmd>, id: string)
    requires p != []
    ensures HasSuccess(p, id) <==> p[0].effect == Invoked(id, true) || HasSuccess(p[1..], id)
  {
    var rest := p[1..];
    if HasSuccess(rest, id) {
      var k :| 0 <= k < |rest| && rest[k].effect == Invoked(id, true);
      assert p[k + 1].effect == Invoked(id, true);
    }
    if HasSuccess(p, id) && p[0].effect != Invoked(id, true) {
      var k :| 0 <= k < |p| && p[k].effect == Invoked(id, true);
      assert rest[k - 1].effect == Invoked(id, true);
    }
  }

  /** A call succeeds exactly in a delivery that ends DONE. */
  lemma SuccessMeansDone(cfg: Config, task: Task, d: Delivery)
    ensures HasSuccess(Executed(cfg, task, d), task.id) <==> LastStatus(cfg, d) == Done
  {
    hide Finish;
    ExecutedShape(cfg, task, d);
    FinishQuiet(cfg, task, d);
    var p, finish := Executed(cfg, task, d), Finish(cfg, task, d);
    forall k | |p| - |finish| <= k < |p|
      ensures !p[k].effect.Invoked?
    {
      assert p[k] == finish[k - (|p| - |finish|)];
    }
    DeadMeansFailed(cfg, d);
    if LastStatus(cfg, d) == Done {
      AttemptsCall(task.id, d.script, Retry.Limit(cfg.maxRetries + 1), 1);
      var call := Cmd(Invoked(task.id, true), false);
      assert call in p;
      var k :| 0 <= k < |p| && p[k] == call;
      assert p[k].effect == Invoked(task.id, true);
    }
  }

  lemma FinishQuiet(cfg: Config, task: Task, d: Delivery)
    ensures var finish, s := Finish(cfg, task, d), LastStatus(cfg, d);
            && |finish| >= 4 && finish[0] == Cmd(StatusSet(task.id, s), false)
            && (forall k :: 0 <= k < |finish| ==> !finish[k].effect.Invoked?)
            && (forall k :: 1 <= k < |finish| ==> !finish[k].effect.StatusSet?)
            && (s == Done ==> forall k :: 0 <= k < |finish| ==> !finish[k].effect.Published?)
            && (s == Dead ==> |finish| == 5 && finish[4] == Cmd(Published(TOPIC_DLQ, task.id, d.raw), false)
                              && forall k :: 0 <= k < 4 ==> !finish[k].effect.Published?)
  {
    hide Calls, ResultOf, Row;
  }

  /** The only publish of a delivery is its last effect, and there is one exactly when it ends DEAD. */
  lemma PublishIsLast(cfg: Config, task: Task, d: Delivery)
    ensures var p := Executed(cfg, task, d);
            && p != []
            && (forall k :: 0 <= k < |p| - 1 ==> !p[k].effect.Published?)
            && (p[|p| - 1].effect.Published? <==> LastStatus(cfg, d) == Dead)
  {
    hide Finish, Executed;
    ExecutedShape(cfg, task, d);
    FinishQuiet(cfg, task, d);
    var p, finish := Executed(cfg, task, d), Finish(cfg, task, d);
    forall k | |p| - |finish| <= k < |p|
      ensures p[k] == finish[k - (|p| - |finish|)]
    {
    }
  }

  lemma PublishMoves(w: World, e: Effect, r: Reply)
    requires e.Published? && !r.outcome.Refused?
    ensures Apply(w, e, r).logs != w.logs
  {
    var p := Partition(e.topic, r.partition);
    assert |LogOf(Apply(w, e, r).logs, p)| == |LogOf(w.logs, p)| + 1;
  }

  /** Whether a program whose only publish is its last effect changes the logs. */
  lemma LogsMoveIff(w: World, p: seq<Cmd>, replies: nat -> Reply, i: nat)
    requires p != [] && Redelivery.NoAbort(p) && forall k :: 0 <= k < |p| - 1 ==> !p[k].effect.Published?
    ensures Execute(w, p, replies, i).w.logs == w.logs <==>
            !p[|p| - 1].effect.Published? || replies(i + |p| - 1).outcome.Refused?
  {
    hide Execute, Apply;
    var n := |p| - 1;
    var front, last := p[..n], p[n];
    assert p == front + ([last] + []);
    ExecuteConcat(w, front, [last] + [], replies, i);
    Redelivery.NoAbortNoError(w, front, replies, i);
    Redelivery.LogsSpared(w, front, replies, i);
    var mid := Execute(w, front, replies, i);
    ExecuteCons(mid.w, last, [], replies, i + n);
    EmptyProgram(Apply(mid.w, last.effect, replies(i + n)), replies, i + n + 1);
    if last.effect.Published? && !replies(i + n).outcome.Refused? {
      PublishMoves(mid.w, last.effect, replies(i + n));
    } else {
      Redelivery.ApplyLogs(mid.w, last.effect, replies(i + n));
    }
  }

  lemma EmptyProgram(w: World, replies: nat -> Reply, i: nat)
    ensures Execute(w, [], replies, i) == Ended(w, false, i)
  {
  }

  /**
   A delivery that executes returns nil and leaves its message unresolved if and only if RUNNING was acknowledged, no
   call returned nil, and the DLQ publish was refused.
   */
  lemma UnresolvedIff(cfg: Config, w: World, d: Delivery, replies: nat -> Reply, i: nat)
    requires d.raw.Json? && !Redelivery.Stopped(w, d) && d.raw.task.taskType in cfg.registry
    ensures var run := Deliver(cfg, w, d, replies, i);
            !run.err && Unresolved(w, run.w, d.raw.task.id) <==>
            && replies(i).outcome.Applied? && LastStatus(cfg, d) == Dead
            && replies(i + |Executed(cfg, d.raw.task, d)| - 1).outcome.Refused?
  {
    hide Execute, Apply, Body, Succeeded, HasSuccess;
    var task := d.raw.task;
    var p, body := Executed(cfg, task, d), Body(cfg, task, d);
    Redelivery.ClaimDecides(cfg, w, task, d, replies, i);
    if replies(i).outcome.Applied? {
      SuccessIff(w, p, replies, i, task.id);
      SuccessMeansDone(cfg, task, d);
      PublishIsLast(cfg, task, d);
      Redelivery.BodyNoAbort(cfg, task, d);
      var running := Cmd(StatusSet(task.id, Running), true);
      assert p == [running] + body;
      BodyNonempty(cfg, task, d);
      forall k | 0 <= k < |body| - 1
        ensures !body[k].effect.Published?
      {
        assert body[k] == p[k + 1];
      }
      assert body[|body| - 1] == p[|p| - 1];
      var w1 := Apply(w, running.effect, replies(i));
      Redelivery.ApplyLogs(w, running.effect, replies(i));
      LogsMoveIff(w1, body, replies, i + 1);
    }
  }

  lemma BodyNonempty(cfg: Config, task: Task, d: Delivery)
    ensures Body(cfg, task, d) != []
  {
  }

  // ----- a cut -----

  /** The effects up to the j-th are acknowledged and the rest refused. */
  ghost predicate CutOff(replies: nat -> Reply, i: nat, j: nat) {
    forall k: nat :: k >= i ==> if k < i + j then replies(k).outcome.Applied? else replies(k).outcome.Refused?
  }

  /** Cut off by a shutdown, that is: after RUNNING, without a success, and before the DLQ publish. */
  lemma CutOffIff(cfg: Config, w: World, d: Delivery, replies: nat -> Reply, i: nat, j: nat)
    requires d.raw.Json? && !Redelivery.Stopped(w, d) && d.raw.task.taskType in cfg.registry && CutOff(replies, i, j)
    ensures var run := Deliver(cfg, w, d, replies, i);
            !run.err && Unresolved(w, run.w, d.raw.task.id) <==>
            1 <= j < |Executed(cfg, d.raw.task, d)| && LastStatus(cfg, d) == Dead
  {
    hide Executed, Unresolved, Deliver;
    UnresolvedIff(cfg, w, d, replies, i);
    ExecutedShape(cfg, d.raw.task, d);
  }

  lemma {:induction false} StaysNonTerminal(w: World, p: seq<Cmd>, replies: nat -> Reply, i: nat, id: string)
    requires id in w.status && !IsTerminal(w.status[id].value)
    requires forall k :: 0 <= k < |p| && p[k].effect.StatusSet? ==> !IsTerminal(p[k].effect.status)
    ensures var t := Execute(w, p, replies, i).w; id in t.status && !IsTerminal(t.status[id].value)
    decreases |p|
  {
    if p != [] {
      StaysNonTerminal(Apply(w, p[0].effect, replies(i)), p[1..], replies, i + 1, id);
    }
  }

  /** How many effects of a delivery come before its terminal write. */
  function TerminalAt(cfg: Config, task: Task, d: Delivery): nat {
    ExecutedShape(cfg, task, d);
    |Executed(cfg, task, d)| - |Finish(cfg, task, d)|
  }

  /** After a delivery that was cut off, the stored status is terminal if and only if the cut came after that write. */
  lemma StoredTerminalIff(cfg: Config, w: World, d: Delivery, replies: nat -> Reply, i: nat, j: nat)
    requires d.raw.Json? && !Redelivery.Stopped(w, d) && d.raw.task.taskType in cfg.registry
    requires CutOff(replies, i, j) && j >= 1
    ensures var t, id := Deliver(cfg, w, d, replies, i).w, d.raw.task.id;
            && id in t.status
            && (IsTerminal(t.status[id].value) <==> j > TerminalAt(cfg, d.raw.task, d))
            && (j == 1 ==> t.status[id].value == Running)
  {
    hide Execute, Apply, Executed, Finish;
    var task := d.raw.task;
    var p, m := Executed(cfg, task, d), TerminalAt(cfg, task, d);
    TerminalSplit(cfg, task, d);
    var front, rest := p[1..m], p[m + 1..];
    var w1 := Apply(w, p[0].effect, replies(i));
    RunningLands(w, task.id, replies(i));
    ExecuteCons(w, p[0], front + ([p[m]] + rest), replies, i);
    StatusAfter(w1, front, p[m], rest, replies, i + 1, task.id);
    if j == 1 {
      Frozen(w1, front + ([p[m]] + rest), replies, i + 1);
    }
  }

  /** RUNNING, then no terminal write, then the terminal one, then no status write. */
  lemma TerminalSplit(cfg: Config, task: Task, d: Delivery)
    ensures var p, m := Executed(cfg, task, d), TerminalAt(cfg, task, d);
            && 1 <= m < |p| && p == [p[0]] + (p[1..m] + ([p[m]] + p[m + 1..]))
            && p[0] == Cmd(StatusSet(task.id, Running), true) && Redelivery.NoAbort(p[1..m])
            && (forall k :: 0 <= k < |p[1..m]| && p[1..m][k].effect.StatusSet? ==>
                  !IsTerminal(p[1..m][k].effect.status))
            && p[m] == Cmd(StatusSet(task.id, LastStatus(cfg, d)), false)
            && Redelivery.SparesStatus(p[m + 1..], task.id)
  {
    hide Executed, Finish;
    ExecutedShape(cfg, task, d);
    FinishQuiet(cfg, task, d);
    var p, m, finish := Executed(cfg, task, d), TerminalAt(cfg, task, d), Finish(cfg, task, d);
    assert p[m..] == finish && p[m] == finish[0] && p[m + 1..] == finish[1..];
  }

  lemma StatusAfter(w: World, front: seq<Cmd>, last: Cmd, rest: seq<Cmd>, replies: nat -> Reply, i: nat, id: string)
    requires id in w.status && !IsTerminal(w.status[id].value) && Redelivery.NoAbort(front)
    requires forall k :: 0 <= k < |front| && front[k].effect.StatusSet? ==> !IsTerminal(front[k].effect.status)
    requires last.effect.StatusSet? && last.effect.id == id && IsTerminal(last.effect.status) && !last.abort
    requires Redelivery.SparesStatus(rest, id)
    ensures var t := Execute(w, front + ([last] + rest), replies, i).w;
            && id in t.status
            && (IsTerminal(t.status[id].value) <==> !replies(i + |front|).outcome.Refused?)
  {
    hide Execute, Apply;
    ExecuteConcat(w, front, [last] + rest, replies, i);
    Redelivery.NoAbortNoError(w, front, replies, i);
    var mid, n := Execute(w, front, replies, i), i + |front|;
    StaysNonTerminal(w, front, replies, i, id);
    ExecuteCons(mid.w, last, rest, replies, n);
    StatusWritten(mid.w, last.effect, replies(n));
    Redelivery.StatusSpared(Apply(mid.w, last.effect, replies(n)), rest, id, replies, n + 1);
  }

  lemma RunningLands(w: World, id: string, r: Reply)
    requires r.outcome.Applied?
    ensures !Errs(w, StatusSet(id, Running), r)
    ensures var t := Apply(w, StatusSet(id, Running), r);
            id in t.status && t.status[id].value == Running && t.meta == w.meta && t.rows == w.rows
  {
  }

  /** Refused effects leave the stores alone. */
  lemma {:induction false} Frozen(w: World, p: seq<Cmd>, replies: nat -> Reply, i: nat)
    requires forall k: nat :: k >= i ==> replies(k).outcome.Refused?
    ensures var t := Execute(w, p, replies, i).w; t.status == w.status && t.meta == w.meta && t.rows == w.rows
    decreases |p|
  {
    if p != [] {
      Frozen(Apply(w, p[0].effect, replies(i)), p[1..], replies, i + 1);
    }
  }

  predicate RecordWrite(e: Effect) {
    e.MetaSet? || e.RowCreated? || e.RowUpdated?
  }

  lemma ApplyRecords(w: World, e: Effect, r: Reply)
    requires RecordWrite(e) ==> r.outcome.Refused?
    ensures Apply(w, e, r).meta == w.meta && Apply(w, e, r).rows == w.rows
  {
  }

  lemma {:induction false} RecordsSpared(w: World, p: seq<Cmd>, replies: nat -> Reply, i: nat)
    requires forall k :: 0 <= k < |p| && RecordWrite(p[k].effect) ==> replies(i + k).outcome.Refused?
    ensures var t := Execute(w, p, replies, i).w; t.meta == w.meta && t.rows == w.rows
    decreases |p|
  {
    hide Apply, Errs, RecordWrite;
    if p != [] {
      var rest := p[1..];
      forall k | 0 <= k < |rest| && RecordWrite(rest[k].effect)
        ensures replies(i + 1 + k).outcome.Refused?
      {
        assert RecordWrite(p[k + 1].effect);
      }
      assert replies(i + 0) == replies(i);
      ApplyRecords(w, p[0].effect, replies(i));
      RecordsSpared(Apply(w, p[0].effect, replies(i)), rest, replies, i + 1);
    }
  }

  /**
   What a task reads when its terminal write was refused, handled or not: as long as the status key lives, a status that
   is not terminal, and after that the record from before the delivery.
   */
  lemma CutReads(cfg: Config, w: World, d: Delivery, replies: nat -> Reply, i: nat, j: nat, later: nat)
    requires d.raw.Json? && !Redelivery.Stopped(w, d) && d.raw.task.taskType in cfg.registry
    requires CutOff(replies, i, j) && 1 <= j <= TerminalAt(cfg, d.raw.task, d)
    ensures var end, id := Deliver(cfg, w, d, replies, i).w, d.raw.task.id;
            var t := end.(now := end.now + later);
            var a, stored := Gateway.AnswerOf(t, t, t, id, true, true, true), Live(t.status, id, t.now);
            && a == Gateway.AnswerOf(w.(now := t.now), w, t, id, true, true, true)
            && (a.Found? <==> Live(w.meta, id, t.now).Some? || id in w.rows)
            && (a.Found? && stored.Some? ==> !IsTerminal(a.value.status))
            && (stored.None? ==>
                  a == Gateway.AnswerOf(w.(now := t.now), w, t, id, true, true, false))
  {
    hide Execute, Executed, Finish;
    var task := d.raw.task;
    var p := Executed(cfg, task, d);
    StoredTerminalIff(cfg, w, d, replies, i, j);
    ExecutedShape(cfg, task, d);
    forall k | 0 <= k < |p| && RecordWrite(p[k].effect)
      ensures replies(i + k).outcome.Refused?
    {
      assert k >= TerminalAt(cfg, task, d);
    }
    RecordsSpared(w, p, replies, i);
    var t := Deliver(cfg, w, d, replies, i).w;
    var s := t.status[task.id].value;
    assert !IsTerminal(s);
  }

  // ----- runs -----

  lemma CutAtCuts(n: nat)
    ensures CutOff(CutAt(n), 0, n)
  {
  }

  /**
   For every task with a handler whose calls all fail, and every cut after RUNNING and before the DLQ publish, a run in
   which nothing else goes wrong loses it; its status stays RUNNING or RETRYING unless the cut came after DEAD.
   */
  lemma ShutdownLoses(c: Case, j: nat) returns (actions: seq<Action>)
    requires c.Dies() && c.task.taskType in c.cfg.registry && 1 <= j < |c.Prog()|
    ensures var s, id := Run(actions), c.task.id;
            && id in s.accepted && id in s.submitted && !Safe(s, id)
            && s.errored == {} && s.stopped == {} && s.dropped == {id}
            && id in s.w.status && (IsTerminal(s.w.status[id].value) <==> j > DeadAt(c))
            && (j == 1 ==> s.w.status[id].value == Running)
  {
    hide Run, Safe, Execute, Executed;
    var start;
    actions, start := CutOffLoses(c, j);
    CutAtCuts(j);
    var unread := c.d.(readable := false);
    SameProgram(c, unread);
    StoredTerminalIff(c.cfg, start, unread, CutAt(j), 0, j);
  }

  /** The program does not depend on whether the guard's read worked. */
  lemma SameProgram(c: Case, d: Delivery)
    requires d == c.d.(readable := false)
    ensures Executed(c.cfg, c.task, d) == Executed(c.cfg, c.task, c.d)
    ensures Finish(c.cfg, c.task, d) == Finish(c.cfg, c.task, c.d)
  {
  }

  lemma DoneWorld(c: Case, w: World, j: nat)
    requires c.Valid() && c.task.taskType in c.cfg.registry && LastStatus(c.cfg, c.d) == Done && w.now == 0 && j >= 1
    ensures var run := Execute(w, c.Prog(), CutAt(j), 0);
            !run.err && run.w.now == 0 && run.w.logs == w.logs && Handled(run.w, c.task.id)
    ensures PublishesLand(c.Prog(), CutAt(j), 0)
  {
    hide Execute, Executed;
    var p := c.Prog();
    ExecutedShape(c.cfg, c.task, c.d);
    PublishIsLast(c.cfg, c.task, c.d);
    Redelivery.FirstDecides(w, p, CutAt(j), 0);
    Redelivery.ClockStands(w, p, CutAt(j), 0);
    Redelivery.LogsSpared(w, p, CutAt(j), 0);
    LandIfNone(p, CutAt(j), 0);
    SuccessIff(w, p, CutAt(j), 0, c.task.id);
    SuccessMeansDone(c.cfg, c.task, c.d);
    var t := Execute(w, p, CutAt(j), 0).w;
    var k :| |w.calls| <= k < |t.calls| && t.calls[k] == (c.task.id, true);
  }

  /**
   A success is not lost, but it does not show: the handler returned nil, all is committed, and DONE is never stored.
   */
  lemma ShutdownHidesSuccess(c: Case, j: nat) returns (actions: seq<Action>)
    requires c.Valid() && c.task.taskType in c.cfg.registry && LastStatus(c.cfg, c.d) == Done
    requires 1 <= j <= TerminalAt(c.cfg, c.task, c.d)
    ensures var s, id := Run(actions), c.task.id;
            && Handled(s.w, id) && CommittedAt(s, c.pending) == 1 && CommittedAt(s, c.queue) == 1
            && s.errored == {} && s.stopped == {} && s.dropped == {} && s.procs == map[]
            && id in s.w.status && !IsTerminal(s.w.status[id].value) && (j == 1 ==> s.w.status[id].value == Running)
  {
    hide Run, Execute, Executed, Finish;
    actions := ReachPending(c);
    actions := ReachQueue(c, actions);
    actions := TakesUp(c, actions);
    var start := Run(actions).w;
    var p := c.Prog();
    assert p[..|p|] == p && p[|p|..] == [];
    DoneWorld(c, start, j);
    actions := Performs(actions, 2, |p|, CutAt(j), 0);
    var dead := Run(actions).procs[2].phase.dead;
    assert Run(actions).procs == map[2 := Consumer(c.queue, 0, Handling(c.Raw(), [], dead))];
    actions := CommitsAndGoes(c, actions, dead);
    CutAtCuts(j);
    var unread := c.d.(readable := false);
    SameProgram(c, unread);
    StoredTerminalIff(c.cfg, start, unread, CutAt(j), 0, j);
  }
}
