/**
 Status writes that land late. The dispatcher writes QUEUED after it has published
 (services/dispatcher/dispatcher.go:105-116), so the worker may be done before that write lands.
 */
module LateWrites {
  import opened Domain
  import opened Backend
  import opened Dispatcher
  import opened Worker
  import opened Pipeline
  import opened Idempotency
  import opened Losses
  import Gateway
  import Redelivery
  import Retry

  // ----- the history of a task's status -----

  function WriteBy(s: State, a: Action, id: string): seq<Status> {
    if a.Step? && Enabled(s, a) && !a.reply.outcome.Refused? then
      var e := TodoOf(s.procs[a.q])[0].effect;
      if e.StatusSet? && e.id == id then [e.status] else []
    else []
  }

  /** The status writes of a task that landed in a run, in order. */
  function Writes(actions: seq<Action>, id: string): seq<Status> {
    if actions == [] then []
    else
      var n := |actions| - 1;
      Writes(actions[..n], id) + WriteBy(Run(actions[..n]), actions[n], id)
  }

  predicate Stores(s: State, id: string, ws: seq<Status>) {
    && (id in s.w.status <==> ws != [])
    && (ws != [] ==> s.w.status[id].value == ws[|ws| - 1])
  }

  lemma StoresKept(s: State, a: Action, id: string, ws: seq<Status>)
    requires Stores(s, id, ws)
    ensures Stores(Next(s, a), id, ws + WriteBy(s, a, id))
  {
    hide Apply, Errs, ProgramFor, SubmitProgram, Holding;
    if Enabled(s, a) && a.Step? {
      var e := TodoOf(s.procs[a.q])[0].effect;
      assert Next(s, a).w == Apply(s.w, e, a.reply);
      if e.StatusSet? && e.id == id {
        StatusWritten(s.w, e, a.reply);
      } else {
        StatusUnchanged(s.w, e, a.reply, id);
      }
    }
  }

  /** The stored status is the last write that landed. */
  lemma {:induction false} StoredIsLastWrite(actions: seq<Action>, id: string)
    ensures Stores(Run(actions), id, Writes(actions, id))
    decreases |actions|
  {
    hide Next, Stores, WriteBy;
    if actions == [] {
      NothingStored(id);
    } else {
      var n := |actions| - 1;
      StoredIsLastWrite(actions[..n], id);
      StoresKept(Run(actions[..n]), actions[n], id, Writes(actions[..n], id));
    }
  }

  lemma NothingStored(id: string)
    ensures Stores(EMPTY, id, [])
  {
  }

  /** The write at k is terminal and no QUEUED write follows it. */
  predicate ClosedAt(ws: seq<Status>, k: nat) {
    k < |ws| && IsTerminal(ws[k]) && forall j :: k < j < |ws| ==> ws[j] != Queued
  }

  /** No QUEUED write follows the last terminal one. */
  predicate Closed(ws: seq<Status>) {
    exists k: nat :: k < |ws| && ClosedAt(ws, k)
  }

  lemma ClosedAfter(ws: seq<Status>, x: Status)
    ensures Closed(ws + [x]) <==> IsTerminal(x) || (x != Queued && Closed(ws))
  {
    var all := ws + [x];
    assert all[|ws|] == x && forall j :: 0 <= j < |ws| ==> all[j] == ws[j];
    if IsTerminal(x) {
      assert ClosedAt(all, |ws|);
    } else {
      if x != Queued && Closed(ws) {
        var k: nat :| k < |ws| && ClosedAt(ws, k);
        assert ClosedAt(all, k);
      }
      if Closed(all) {
        var k: nat :| k < |all| && ClosedAt(all, k);
        assert ClosedAt(ws, k);
      }
    }
  }

  // ----- deliveries one at a time -----

  /** A worker takes the message up only when its guard's read works and nobody else is at work on the task. */
  predicate Orderly(s: State, a: Action, id: string) {
    a.Begin? && Enabled(s, a) && Mentions(a.d.raw, id) && s.procs[a.q].part.topic != TOPIC_PENDING ==>
      && a.d.readable && (id in s.w.status ==> s.w.now < s.w.status[id].expires)
      && AllSpare(s, id, Work)
  }

  predicate OrderlyRun(actions: seq<Action>, id: string) {
    actions == [] ||
    (OrderlyRun(actions[..|actions| - 1], id) && Orderly(Run(actions[..|actions| - 1]), actions[|actions| - 1], id))
  }

  /** A terminal write is the last of a program's work. */
  predicate EndsTerminal(todo: seq<Cmd>, id: string) {
    forall k :: 0 <= k < |todo| && TerminalWrite(todo[k], id) ==> Spares(todo[k + 1..], id, Work)
  }

  predicate OneWorker(s: State, id: string, q: nat) {
    OthersSpare(s, q, id, Work) && (q in s.procs ==> EndsTerminal(TodoOf(s.procs[q]), id))
  }

  ghost predicate InOrder(s: State, id: string, ws: seq<Status>) {
    && (exists q: nat :: OneWorker(s, id, q))
    && (id !in s.submitted ==> AllSpare(s, id, Whole))
    && (Closed(ws) ==> AllSpare(s, id, Work) && IsTerminal(ws[|ws| - 1]))
  }

  lemma SparesEnds(todo: seq<Cmd>, id: string)
    requires Spares(todo, id, Work)
    ensures EndsTerminal(todo, id)
  {
    forall k | 0 <= k < |todo|
      ensures !TerminalWrite(todo[k], id)
    {
      assert !Concerns(todo[k].effect, id, Work);
    }
  }

  lemma EndsTail(todo: seq<Cmd>, id: string)
    requires EndsTerminal(todo, id) && todo != []
    ensures EndsTerminal(todo[1..], id)
    ensures TerminalWrite(todo[0], id) ==> Spares(todo[1..], id, Work)
  {
    var rest := todo[1..];
    forall k | 0 <= k < |rest| && TerminalWrite(rest[k], id)
      ensures Spares(rest[k + 1..], id, Work)
    {
      assert TerminalWrite(todo[k + 1], id);
      assert todo[k + 2..] == rest[k + 1..];
    }
  }

  lemma ProgramEnds(cfg: Config, d: Delivery, guard: Option<Status>)
    requires d.raw.Json?
    ensures EndsTerminal(Program(cfg, d, guard), d.raw.task.id)
  {
    hide Executed;
    var program := Program(cfg, d, guard);
    forall k | 0 <= k < |program| && TerminalWrite(program[k], d.raw.task.id)
      ensures Spares(program[k + 1..], d.raw.task.id, Work)
    {
      if program == Executed(cfg, d.raw.task, d) {
        TerminalIsFinish(cfg, d.raw.task, d, k);
        ClaimsWork(program[k + 1..], d.raw.task.id);
      }
    }
  }

  lemma ClaimsWork(todo: seq<Cmd>, id: string)
    requires Spares(todo, id, Claims)
    ensures Spares(todo, id, Work)
  {
    forall k | 0 <= k < |todo|
      ensures !Concerns(todo[k].effect, id, Work)
    {
      assert !Concerns(todo[k].effect, id, Claims);
    }
  }

  lemma SubmitEnds(task: Task, fired: bool, id: string)
    ensures EndsTerminal(SubmitProgram(task, fired), id)
  {
    assert forall k :: 0 <= k < |SubmitProgram(task, fired)| ==> !TerminalWrite(SubmitProgram(task, fired)[k], id);
  }

  lemma RouteSparesWork(raw: Raw, v: Verdict, id: string)
    ensures Spares(RouteProgram(raw, v), id, Work)
  {
  }

  // ----- every step keeps the order -----

  /** The action puts a process to work on the task: its submission, or a worker taking up its message. */
  predicate SetsToWork(s: State, a: Action, id: string) {
    Enabled(s, a) &&
    ((a.Submit? && a.task.id == id) ||
     (a.Begin? && Mentions(a.d.raw, id) && s.procs[a.q].part.topic != TOPIC_PENDING))
  }

  lemma OtherwiseIdle(s: State, a: Action, id: string)
    requires !SetsToWork(s, a, id)
    ensures Idle(s, a, id, Work)
  {
    if Enabled(s, a) && a.Begin? && Mentions(a.d.raw, id) {
      RouteSparesWork(a.d.raw, a.v, id);
    }
  }

  lemma SpareKept(s: State, a: Action, id: string, scope: Scope)
    requires AllSpare(s, id, scope) && Idle(s, a, id, scope)
    ensures AllSpare(Next(s, a), id, scope)
  {
    hide Next, Idle, Spares;
    forall q | q in Next(s, a).procs
      ensures Spares(TodoOf(Next(s, a).procs[q]), id, scope)
    {
      ProcSpares(s, a, id, scope, q);
    }
  }

  lemma OneWorkerKept(s: State, a: Action, id: string, q: nat)
    requires OneWorker(s, id, q) && Idle(s, a, id, Work)
    ensures OneWorker(Next(s, a), id, q)
  {
    hide Idle, Spares, EndsTerminal;
    var t := Next(s, a);
    assert OthersSpare(t, q, id, Work) by {
      hide Next;
      forall k | k in t.procs && k != q
        ensures Spares(TodoOf(t.procs[k]), id, Work)
      {
        ProcSpares(s, a, id, Work, k);
      }
    }
    if q in t.procs {
      WorkerMoves(s, a, id, q);
    }
  }

  lemma WorkerMoves(s: State, a: Action, id: string, q: nat)
    requires q in Next(s, a).procs && (q in s.procs ==> EndsTerminal(TodoOf(s.procs[q]), id)) && Idle(s, a, id, Work)
    ensures EndsTerminal(TodoOf(Next(s, a).procs[q]), id)
  {
    hide Apply, Errs, ProgramFor, SubmitProgram, Holding, Spares, EndsTerminal, Idle;
    var t := Next(s, a);
    if q in s.procs && a.Step? && a.q == q && Enabled(s, a) {
      EndsTail(TodoOf(s.procs[q]), id);
      EmptyEnds(id);
    } else if !(q in s.procs && t.procs[q] == s.procs[q]) {
      FreshSpares(s, a, id, q);
      SparesEnds(TodoOf(t.procs[q]), id);
    }
  }

  lemma EmptyEnds(id: string)
    ensures EndsTerminal([], id)
  {
  }

  /** A process that is new, or takes up a new message, has no work on the task. */
  lemma FreshSpares(s: State, a: Action, id: string, q: nat)
    requires q in Next(s, a).procs && !(q in s.procs && Next(s, a).procs[q] == s.procs[q])
    requires Idle(s, a, id, Work) && !(q in s.procs && a.Step? && a.q == q)
    ensures Spares(TodoOf(Next(s, a).procs[q]), id, Work)
  {
    hide Apply, Errs, ProgramFor, SubmitProgram, Holding, Concerns, Idle;
    if q in s.procs {
      assert TodoOf(s.procs[q]) == [];
    }
    ProcSpares(s, a, id, Work, q);
  }

  lemma WorkBegins(s: State, a: Action, id: string)
    requires SetsToWork(s, a, id) && AllSpare(s, id, Work)
    ensures OneWorker(Next(s, a), id, a.q)
  {
    hide Program, SubmitProgram, Spares, EndsTerminal;
    if a.Submit? {
      SubmitEnds(a.task, a.fired, id);
    } else {
      ProgramEnds(a.cfg, a.d, Guard(s.w, a.d));
    }
  }

  /** A write of a status other than QUEUED is the one worker's, and if it is terminal no work is left. */
  lemma WorkWrites(s: State, a: Action, id: string, q: nat)
    requires OneWorker(s, id, q) && WriteBy(s, a, id) != [] && WriteBy(s, a, id) != [Queued]
    ensures !AllSpare(s, id, Work)
    ensures IsTerminal(WriteBy(s, a, id)[0]) ==> AllSpare(Next(s, a), id, Work)
  {
    hide Apply, Errs, ProgramFor, SubmitProgram, Holding;
    var todo := TodoOf(s.procs[a.q]);
    assert Concerns(todo[0].effect, id, Work);
    assert a.q == q;
    var t := Next(s, a);
    if IsTerminal(WriteBy(s, a, id)[0]) {
      EndsTail(todo, id);
      assert q in t.procs ==> TodoOf(t.procs[q]) == todo[1..] || TodoOf(t.procs[q]) == [];
      assert forall k :: k in t.procs && k != q ==> t.procs[k] == s.procs[k];
    }
  }

  lemma ClosedSubmitted(s: State, id: string, ws: seq<Status>)
    requires Inv(s) && Stores(s, id, ws) && ws != [] && IsTerminal(ws[|ws| - 1])
    ensures id in s.submitted
  {
    hide LogsOk, AcceptedOk, FinishedOk, ProcOk;
    assert Earned(s, id, s.w.status[id].value);
  }

  lemma UnsubmittedSpared(s: State, a: Action, id: string)
    requires Inv(s) && AllSpare(s, id, Whole) && id !in Next(s, a).submitted
    ensures AllSpare(Next(s, a), id, Whole)
  {
    assert Idle(s, a, id, Whole) by {
      hide StatusOk, AcceptedOk, FinishedOk, ProcOk, ProgramFor, Spares;
      NextGrows(s, a);
      if Enabled(s, a) && a.Begin? && a.d.raw.Json? {
        assert Known(s, LogOf(s.w.logs, s.procs[a.q].part)[s.procs[a.q].pos]);
      }
    }
    SpareKept(s, a, id, Whole);
  }

  lemma OrderKept(s: State, a: Action, id: string, ws: seq<Status>)
    requires Inv(s) && Stores(s, id, ws) && InOrder(s, id, ws) && Orderly(s, a, id)
    ensures InOrder(Next(s, a), id, ws + WriteBy(s, a, id))
  {
    hide Inv, Next, AllSpare, OneWorker, Stores, WriteBy, Orderly;
    NextGrows(s, a);
    if id !in Next(s, a).submitted {
      UnsubmittedSpared(s, a, id);
    }
    if SetsToWork(s, a, id) {
      WorkStarts(s, a, id, ws);
      assert ws + WriteBy(s, a, id) == ws;
    } else {
      WorkGoesOn(s, a, id, ws);
    }
  }

  lemma WorkStarts(s: State, a: Action, id: string, ws: seq<Status>)
    requires Inv(s) && Stores(s, id, ws) && InOrder(s, id, ws) && Orderly(s, a, id) && SetsToWork(s, a, id)
    ensures OneWorker(Next(s, a), id, a.q) && WriteBy(s, a, id) == []
    ensures Closed(ws) ==> AllSpare(Next(s, a), id, Work)
  {
    hide Inv, Next, OneWorker, Spares, Closed;
    if a.Submit? {
      AllSpareWhole(s, id);
    }
    WorkBegins(s, a, id);
    if Closed(ws) {
      assert ws != [] by {
        ClosedNonempty(ws);
      }
      ClosedSubmitted(s, id, ws);
      assert Redelivery.Stopped(s.w, a.d);
      StoppedIsIdle(s, a, id);
      SpareKept(s, a, id, Work);
    }
  }

  lemma ClosedNonempty(ws: seq<Status>)
    requires Closed(ws)
    ensures ws != []
  {
  }

  lemma AllSpareWhole(s: State, id: string)
    requires AllSpare(s, id, Whole)
    ensures AllSpare(s, id, Work)
  {
    hide Spares;
    forall q | q in s.procs
      ensures Spares(TodoOf(s.procs[q]), id, Work)
    {
      SparesWhole(TodoOf(s.procs[q]), id, Work);
    }
  }

  lemma StoppedIsIdle(s: State, a: Action, id: string)
    requires a.Begin? && Enabled(s, a) && Redelivery.Stopped(s.w, a.d) && s.procs[a.q].part.topic != TOPIC_PENDING
    ensures Idle(s, a, id, Work)
  {
    assert Program(a.cfg, a.d, Guard(s.w, a.d)) == [];
  }

  lemma WorkGoesOn(s: State, a: Action, id: string, ws: seq<Status>)
    requires InOrder(s, id, ws) && !SetsToWork(s, a, id)
    ensures var all := ws + WriteBy(s, a, id);
            && (exists q: nat :: OneWorker(Next(s, a), id, q))
            && (Closed(all) ==> AllSpare(Next(s, a), id, Work) && IsTerminal(all[|all| - 1]))
  {
    hide Next, AllSpare, OneWorker, WriteBy, SetsToWork, Closed;
    var q: nat :| OneWorker(s, id, q);
    OtherwiseIdle(s, a, id);
    OneWorkerKept(s, a, id, q);
    if AllSpare(s, id, Work) {
      SpareKept(s, a, id, Work);
    }
    var landed := WriteBy(s, a, id);
    assert |landed| <= 1 by {
      AtMostOne(s, a, id);
    }
    if landed == [] {
      assert ws + landed == ws;
    } else {
      ClosedAfter(ws, landed[0]);
      assert ws + landed == ws + [landed[0]];
      if landed != [Queued] {
        WorkWrites(s, a, id, q);
      }
    }
  }

  lemma AtMostOne(s: State, a: Action, id: string)
    ensures |WriteBy(s, a, id)| <= 1
  {
  }

  lemma {:induction false} RunInOrder(actions: seq<Action>, id: string)
    requires OrderlyRun(actions, id)
    ensures InOrder(Run(actions), id, Writes(actions, id))
    decreases |actions|
  {
    hide Next, InOrder, Orderly, WriteBy, Inv;
    if actions == [] {
      EmptyInOrder(id);
    } else {
      var n := |actions| - 1;
      RunInOrder(actions[..n], id);
      RunKeepsInv(actions[..n]);
      StoredIsLastWrite(actions[..n], id);
      OrderKept(Run(actions[..n]), actions[n], id, Writes(actions[..n], id));
    }
  }

  lemma EmptyInOrder(id: string)
    ensures InOrder(EMPTY, id, [])
  {
    assert OneWorker(EMPTY, id, 0);
  }

  /**
   When workers take the task up one at a time and their guard's reads work, its stored status is terminal if and
   only if a terminal status was written and no QUEUED write followed it.
   */
  lemma TerminalIffNoLateQueued(actions: seq<Action>, id: string)
    requires OrderlyRun(actions, id)
    ensures var w := Run(actions).w;
            id in w.status && IsTerminal(w.status[id].value) <==> Closed(Writes(actions, id))
  {
    hide OneWorker, AllSpare, Run, Writes, OrderlyRun;
    RunInOrder(actions, id);
    StoredIsLastWrite(actions, id);
    var ws := Writes(actions, id);
    if ws != [] && IsTerminal(ws[|ws| - 1]) {
      assert ClosedAt(ws, |ws| - 1);
    }
  }

  // ----- runs in which it happens -----

  /** A delivery whose first call returns nil. */
  predicate Succeeds(c: Case) {
    c.Valid() && c.task.taskType in c.cfg.registry && c.d.script.ok(1)
  }

  function Ok(): nat -> Reply {
    n => Reply(Applied, 0, 0)
  }

  /** With every reply acknowledged a handler does all that is left to do, whatever other processes there are. */
  lemma Drains(before: seq<Action>, q: nat) returns (actions: seq<Action>)
    requires var s := Run(before); q in s.procs && s.procs[q].Consumer? && s.procs[q].phase.Handling?
    requires !Execute(Run(before).w, Run(before).procs[q].phase.todo, Ok(), 0).err
    ensures var s, t := Run(before), Run(actions);
            && q in t.procs && t.procs[q].Consumer? && t.procs[q].phase.Handling?
            && t == s.(w := Execute(s.w, s.procs[q].phase.todo, Ok(), 0).w, procs := s.procs[q := t.procs[q]])
            && t.procs[q] == s.procs[q].(phase := Handling(s.procs[q].phase.raw, [], t.procs[q].phase.dead))
    ensures GentleRun(before) ==> GentleRun(actions)
    ensures Saves(before) ==> Saves(actions)
  {
    hide Run, GentleRun, Saves, Execute;
    var todo := Run(before).procs[q].phase.todo;
    assert todo[..|todo|] == todo && todo[|todo|..] == [];
    LandIfNone(todo, Ok(), 0);
    actions := Performs(before, q, |todo|, Ok(), 0);
  }

  function Happy(c: Case): seq<Cmd>
    requires c.d.raw.Json?
  {
    [Cmd(StatusSet(c.task.id, Running), true), Cmd(Invoked(c.task.id, true), false)] +
    FinishSuccess(c.cfg, c.task, 1, c.d)
  }

  lemma HappyProgram(c: Case)
    requires Succeeds(c)
    ensures Executed(c.cfg, c.task, c.d) == Happy(c)
  {
    var limit := Retry.Limit(c.cfg.maxRetries + 1);
    assert Retry.Last(c.d.script, limit, 1) == 1;
    assert Retry.Attempts(c.task.id, c.d.script, limit, 1) == [Cmd(Invoked(c.task.id, true), false)];
  }

  /** It ends DONE with one more call, and the logs and the clock as they were. */
  lemma HappyEnd(c: Case, w: World)
    requires Succeeds(c)
    ensures !Execute(w, Happy(c), Ok(), 0).err
    ensures var t := Execute(w, Happy(c), Ok(), 0).w;
            && t.calls == w.calls + [(c.task.id, true)] && t.logs == w.logs && t.now == w.now
            && c.task.id in t.status && t.status[c.task.id].value == Done
            && c.task.id in t.meta && t.meta[c.task.id].expires == w.now + STATE_TTL
  {
    var p := Happy(c);
    var w2 := Apply(Apply(w, p[0].effect, Ok()(0)), p[1].effect, Ok()(1));
    assert p[1..][0] == p[1] && p[1..][1..] == FinishSuccess(c.cfg, c.task, 1, c.d);
    assert Execute(w, p, Ok(), 0) == Execute(w2, p[1..][1..], Ok(), 2);
    HappyFinish(c, w2, 2);
  }

  lemma HappyFinish(c: Case, w: World, i: nat)
    ensures !Execute(w, FinishSuccess(c.cfg, c.task, 1, c.d), Ok(), i).err
    ensures var t := Execute(w, FinishSuccess(c.cfg, c.task, 1, c.d), Ok(), i).w;
            && t.calls == w.calls && t.logs == w.logs && t.now == w.now
            && c.task.id in t.status && t.status[c.task.id].value == Done
            && c.task.id in t.meta && t.meta[c.task.id].expires == w.now + STATE_TTL
  {
    var p := FinishSuccess(c.cfg, c.task, 1, c.d);
    var r := Reply(Applied, 0, 0);
    var w1 := Apply(w, p[0].effect, r);
    var w2 := Apply(w1, p[1].effect, r);
    var w3 := Apply(w2, p[2].effect, r);
    var w4 := Apply(w3, p[3].effect, r);
    assert p == [p[0]] + ([p[1]] + ([p[2]] + ([p[3]] + [])));
    ExecuteCons(w, p[0], [p[1]] + ([p[2]] + ([p[3]] + [])), Ok(), i);
    ExecuteCons(w1, p[1], [p[2]] + ([p[3]] + []), Ok(), i + 1);
    ExecuteCons(w2, p[2], [p[3]] + [], Ok(), i + 2);
    ExecuteCons(w3, p[3], [], Ok(), i + 3);
    assert Execute(w, p, Ok(), i).w == w4;
  }

  /** A worker takes the message up, executes it and returns nil, beside any other processes. */
  lemma Delivers(c: Case, before: seq<Action>, committed: map<Partition, nat>, rest: map<nat, Proc>, q: nat)
    returns (actions: seq<Action>)
    requires Succeeds(c) && q !in rest && !Redelivery.Stopped(Run(before).w, c.d)
    requires Scene(Run(before), c, Logs(c), committed, rest[q := Consumer(c.queue, 0, Fetching)])
    ensures Scene(Run(actions), c, Logs(c), committed, rest[q := Consumer(c.queue, 0, Returned)])
    ensures var w, id := Run(actions).w, c.task.id;
            && w.calls == Run(before).w.calls + [(id, true)]
            && id in w.status && w.status[id].value == Done && id in w.meta && w.meta[id].expires == STATE_TTL
    ensures GentleRun(before) ==> GentleRun(actions)
    ensures Saves(before) ==> Saves(actions)
  {
    hide Run, GentleRun, Saves, Executed, Happy, Execute, Redelivery.Stopped;
    actions := Then(before, Begin(q, Off, c.cfg, c.d));
    HappyProgram(c);
    assert Program(c.cfg, c.d, Guard(Run(before).w, c.d)) == Happy(c) by {
      Losses.Unstopped(c, Run(before).w);
    }
    var begun := Run(actions);
    assert begun.procs[q] == Consumer(c.queue, 0, Handling(c.Raw(), Happy(c), false));
    HappyEnd(c, begun.w);
    actions := Drains(actions, q);
    var t := Run(actions);
    assert t.procs[q] == Consumer(c.queue, 0, Handling(c.Raw(), [], t.procs[q].phase.dead));
    actions := Then(actions, Return(q));
    assert Run(actions).procs == rest[q := Consumer(c.queue, 0, Returned)];
  }

  lemma QueuedAcked(w: World, id: string)
    requires w.now == 0
    ensures !Execute(w, [Cmd(StatusSet(id, Queued), false)], Ok(), 0).err
    ensures Execute(w, [Cmd(StatusSet(id, Queued), false)], Ok(), 0).w ==
            w.(status := w.status[id := Entry(Queued, STATE_TTL)])
  {
    var queued := Cmd(StatusSet(id, Queued), false);
    ExecuteCons(w, queued, [], Ok(), 0);
    assert [queued] + [] == [queued];
    assert Ok()(0) == Reply(Applied, 0, 0);
  }

  /** A consumer with nothing left to do returns nil and commits. */
  lemma ReturnsAndCommits(c: Case, before: seq<Action>, committed: map<Partition, nat>, rest: map<nat, Proc>, q: nat,
                          p: Partition, dead: bool)
    returns (actions: seq<Action>)
    requires q !in rest
    requires Scene(Run(before), c, Logs(c), committed, rest[q := Consumer(p, 0, Handling(c.Raw(), [], dead))])
    ensures Scene(Run(actions), c, Logs(c), committed[p := 1], rest[q := Consumer(p, 1, Fetching)])
    ensures Run(actions).w == Run(before).w
    ensures GentleRun(before) ==> GentleRun(actions)
    ensures Saves(before) ==> Saves(actions)
  {
    hide Run, GentleRun, Saves, ProgramFor, SubmitProgram, Holding, Logs;
    actions := Then(before, Return(q));
    assert Run(actions).procs == rest[q := Consumer(p, 0, Returned)];
    actions := Then(actions, Commit(q, true));
    assert Run(actions).procs == rest[q := Consumer(p, 1, Fetching)];
  }

  /** The dispatcher's QUEUED write lands, and it commits. */
  lemma QueuedLands(c: Case, before: seq<Action>, committed: map<Partition, nat>, rest: map<nat, Proc>)
    returns (actions: seq<Action>)
    requires c.Valid() && 1 !in rest
    requires Scene(Run(before), c, Logs(c), committed,
                   rest[1 := Dispatching(c)[1]])
    ensures Scene(Run(actions), c, Logs(c), committed[c.pending := 1], rest[1 := Consumer(c.pending, 1, Fetching)])
    ensures var w := Run(before).w;
            Run(actions).w == w.(status := w.status[c.task.id := Entry(Queued, STATE_TTL)])
    ensures GentleRun(before) ==> GentleRun(actions)
    ensures Saves(before) ==> Saves(actions)
  {
    hide Run, GentleRun, Saves, Execute, Logs;
    QueuedAcked(Run(before).w, c.task.id);
    actions := Drains(before, 1);
    var dead := Run(actions).procs[1].phase.dead;
    assert Run(actions).procs == rest[1 := Consumer(c.pending, 0, Handling(c.Raw(), [], dead))];
    actions := ReturnsAndCommits(c, actions, committed, rest, 1, c.pending, dead);
  }

  function Dispatching(c: Case): map<nat, Proc> {
    map[1 := Consumer(c.pending, 0, Handling(c.Raw(), [Cmd(StatusSet(c.task.id, Queued), false)], false))]
  }

  /** The worker has executed the message and returned nil while the dispatcher's QUEUED write is still to come. */
  lemma OvertakesDispatcher(c: Case) returns (actions: seq<Action>)
    requires Succeeds(c)
    ensures Scene(Run(actions), c, Logs(c), map[], Dispatching(c)[2 := Consumer(c.queue, 0, Returned)])
    ensures var w, id := Run(actions).w, c.task.id;
            w.calls == [(id, true)] && id in w.meta && w.meta[id].expires == STATE_TTL
    ensures GentleRun(actions) && Saves(actions)
  {
    hide Run, GentleRun, Saves;
    actions := ReachPending(c);
    actions := Publishes(c, actions);
    actions := Then(actions, Join(2, c.queue));
    assert Run(actions).procs == Dispatching(c)[2 := Consumer(c.queue, 0, Fetching)];
    actions := Delivers(c, actions, map[], Dispatching(c), 2);
  }

  /**
   No fault is needed: every reply acknowledged and every commit successful, a task whose handler returned nil, with
   both of its messages committed, is stored as QUEUED and reads as QUEUED.
   */
  lemma FinishedReadsQueued(c: Case) returns (actions: seq<Action>)
    requires Succeeds(c)
    ensures GentleRun(actions) && Saves(actions)
    ensures var s, id := Run(actions), c.task.id;
            && s.errored == {} && s.stopped == {} && s.dropped == {}
            && Handled(s.w, id) && CommittedAt(s, c.pending) == 1 && CommittedAt(s, c.queue) == 1
            && id in s.w.status && s.w.status[id].value == Queued
            && Gateway.Reads(Gateway.AnswerOf(s.w, s.w, s.w, id, true, true, true), Queued)
  {
    hide Run, GentleRun, Saves;
    actions := OvertakesDispatcher(c);
    actions := Then(actions, Commit(2, true));
    assert Run(actions).procs == Dispatching(c)[2 := Consumer(c.queue, 1, Fetching)]
                              == map[2 := Consumer(c.queue, 1, Fetching)][1 := Dispatching(c)[1]];
    actions := QueuedLands(c, actions, map[c.queue := 1], map[2 := Consumer(c.queue, 1, Fetching)]);
    assert Run(actions).w.calls[0] == (c.task.id, true);
    GentleIsClean(actions);
  }

  /** And if the worker's commit fails, the handler is called a second time, although the first call returned nil. */
  lemma FinishedRunsAgain(c: Case) returns (actions: seq<Action>)
    requires Succeeds(c)
    ensures GentleRun(actions)
    ensures var s := Run(actions);
            && s.errored == {} && s.stopped == {} && s.dropped == {} && s.w.now == 0
            && s.w.calls == [(c.task.id, true), (c.task.id, true)]
  {
    hide Run, GentleRun, Saves;
    actions := OvertakesDispatcher(c);
    actions := Then(actions, Commit(2, false));
    assert Run(actions).procs == map[2 := Consumer(c.queue, 1, Fetching)][1 := Dispatching(c)[1]];
    actions := QueuedLands(c, actions, map[], map[2 := Consumer(c.queue, 1, Fetching)]);
    actions := Then(actions, Join(3, c.queue));
    var rest := map[2 := Consumer(c.queue, 1, Fetching)][1 := Consumer(c.pending, 1, Fetching)];
    assert Run(actions).procs == rest[3 := Consumer(c.queue, 0, Fetching)];
    actions := Delivers(c, actions, map[c.pending := 1], rest, 3);
    GentleIsClean(actions);
  }

  lemma Begins(c: Case, before: seq<Action>, committed: map<Partition, nat>, rest: map<nat, Proc>, q: nat)
    returns (actions: seq<Action>)
    requires Succeeds(c) && q !in rest && !Redelivery.Stopped(Run(before).w, c.d)
    requires Scene(Run(before), c, Logs(c), committed, rest) && c.queue !in committed
    ensures Scene(Run(actions), c, Logs(c), committed,
                  rest[q := Consumer(c.queue, 0, Handling(c.Raw(), Happy(c), false))])
    ensures Run(actions).w == Run(before).w
    ensures GentleRun(before) ==> GentleRun(actions)
    ensures Saves(before) ==> Saves(actions)
  {
    hide Run, GentleRun, Saves, Executed, Happy, Redelivery.Stopped;
    HappyProgram(c);
    Losses.Unstopped(c, Run(before).w);
    actions := Then(before, Join(q, c.queue));
    actions := Then(actions, Begin(q, Off, c.cfg, c.d));
  }

  /**
   Two workers that take the message up before either has finished call the handler twice, again without any fault.
   */
  lemma TwoAtOnceCallTwice(c: Case) returns (actions: seq<Action>)
    requires Succeeds(c)
    ensures GentleRun(actions) && Saves(actions)
    ensures Run(actions).w.calls == [(c.task.id, true), (c.task.id, true)]
  {
    hide Run, GentleRun, Saves, Happy, Execute;
    actions := ReachPending(c);
    actions := Publishes(c, actions);
    assert Run(actions).procs == map[][1 := Dispatching(c)[1]];
    actions := QueuedLands(c, actions, map[], map[]);
    var rest := map[][1 := Consumer(c.pending, 1, Fetching)];
    actions := Begins(c, actions, map[c.pending := 1], rest, 2);
    actions := Begins(c, actions, map[c.pending := 1],
                      rest[2 := Consumer(c.queue, 0, Handling(c.Raw(), Happy(c), false))], 3);
    HappyEnd(c, Run(actions).w);
    actions := Drains(actions, 2);
    HappyEnd(c, Run(actions).w);
    actions := Drains(actions, 3);
  }

  /** A delivery as the guard theorem assumes it, in a run without any fault. */
  lemma OnceHappens(c: Case) returns (before: seq<Action>, e: Episode)
    requires Succeeds(c)
    ensures Undisturbed(Run(before), e) && e.d == c.d && GentleRun(before) && Saves(before)
  {
    hide Run, GentleRun, Saves, Execute, Happy;
    before := ReachPending(c);
    before := Publishes(c, before);
    assert Run(before).procs == map[][1 := Dispatching(c)[1]];
    before := QueuedLands(c, before, map[], map[]);
    before := Then(before, Join(2, c.queue));
    var ok := Reply(Applied, 0, 0);
    e := Episode(2, Off, c.cfg, c.d, [Step(2, ok), Step(2, ok)], ok, []);
    HappensFrom(c, Run(before), e);
  }

  lemma HappensFrom(c: Case, s: State, e: Episode)
    requires Succeeds(c) && c.task.id in s.w.status && s.w.status[c.task.id].value == Queued
    requires Scene(s, c, Logs(c), map[c.pending := 1],
                   map[1 := Consumer(c.pending, 1, Fetching), 2 := Consumer(c.queue, 0, Fetching)])
    requires var ok := Reply(Applied, 0, 0); e == Episode(2, Off, c.cfg, c.d, [Step(2, ok), Step(2, ok)], ok, [])
    ensures Undisturbed(s, e)
  {
    hide Next, Starts, AloneRun, Apply, Happy;
    HappyBegins(c, s, e);
    var p, step, s1 := Happy(c), Step(2, Reply(Applied, 0, 0)), e.Begun(s);
    HappyOrder(c);
    AckedStep(s1, 2);
    var s2 := Next(s1, step);
    AckedStep(s2, 2);
    assert p[1..][1..] == p[2..];
    RunOnConcat(s1, [step], [step]);
    assert [step] + [step] == e.during;
    RunOnOne(s1, step);
    RunOnOne(s2, step);
    AckedStep(e.Mid(s), 2);
    NoBegins(s1, e.during, c.task.id);
  }

  lemma HappyOrder(c: Case)
    requires c.d.raw.Json?
    ensures var p := Happy(c);
            && |p| == 6 && p[0].effect.StatusSet? && p[1] == Cmd(Invoked(c.task.id, true), false)
            && p[2] == Cmd(StatusSet(c.task.id, Done), false)
  {
  }

  lemma HappyBegins(c: Case, s: State, e: Episode)
    requires Succeeds(c) && c.task.id in s.w.status && s.w.status[c.task.id].value == Queued
    requires Scene(s, c, Logs(c), map[c.pending := 1],
                   map[1 := Consumer(c.pending, 1, Fetching), 2 := Consumer(c.queue, 0, Fetching)])
    requires e.q == 2 && e.v == Off && e.cfg == c.cfg && e.d == c.d
    ensures Starts(s, 2, Off, c.cfg, c.d)
    ensures var t := e.Begun(s);
            t.w == s.w && 2 in t.procs && t.procs[2] == Consumer(c.queue, 0, Handling(c.Raw(), Happy(c), false))
  {
    hide Executed, Apply, Holding, SubmitProgram, Happy;
    HappyProgram(c);
    Losses.Unstopped(c, s.w);
  }

  /** An acknowledged status write or call is one step of the program and no more. */
  lemma AckedStep(s: State, q: nat)
    requires q in s.procs && s.procs[q].Consumer? && s.procs[q].phase.Handling? && s.procs[q].phase.todo != []
    requires var e := s.procs[q].phase.todo[0].effect; e.StatusSet? || e.Invoked?
    ensures var t := Next(s, Step(q, Reply(Applied, 0, 0)));
            && q in t.procs && t.procs[q].Consumer? && t.procs[q].phase.Handling?
            && t.procs[q].phase.todo == s.procs[q].phase.todo[1..] && t.w.now == s.w.now
  {
    hide Apply, ProgramFor, SubmitProgram, Holding;
    ApplyClock(s.w, s.procs[q].phase.todo[0].effect, Reply(Applied, 0, 0));
  }

  lemma {:induction false} NoBegins(s: State, actions: seq<Action>, id: string)
    requires forall k :: 0 <= k < |actions| ==> !actions[k].Begin?
    ensures AloneRun(s, actions, id)
    decreases |actions|
  {
    if actions != [] {
      NoBegins(s, actions[..|actions| - 1], id);
    }
  }
}
