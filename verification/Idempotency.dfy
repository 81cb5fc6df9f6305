/**
 The idempotency guard in the whole pipeline (services/worker/worker.go:118-141): what any continuation of any
 run, with every other task, process, fault, stop and commit in it, can still do to a task that is finished.
 */
module Idempotency {
  import opened Domain
  import opened Backend
  import opened Dispatcher
  import opened Worker
  import opened Pipeline
  import Redelivery
  import Retry

  // ----- what concerns a task -----

  predicate Mentions(raw: Raw, id: string) {
    raw.Json? && raw.task.id == id
  }

  predicate About(e: Effect, id: string) {
    match e
    case StatusSet(i, _) => i == id
    case MetaSet(task) => task.id == id
    case RowCreated(task) => task.id == id
    case RowUpdated(i, _) => i == id
    case ExecutionAdded(x) => x.taskId == id
    case Published(_, _, raw) => Mentions(raw, id)
    case Invoked(i, _) => i == id
  }

  /** Every effect, the handler calls and status writes, or those without the dispatcher's QUEUED. */
  datatype Scope = Whole | Claims | Work

  predicate Concerns(e: Effect, id: string, scope: Scope) {
    About(e, id) &&
    match scope
    case Whole => true
    case Claims => e.Invoked? || e.StatusSet?
    case Work => e.Invoked? || (e.StatusSet? && e.status != Queued)
  }

  predicate Spares(todo: seq<Cmd>, id: string, scope: Scope) {
    forall k :: 0 <= k < |todo| ==> !Concerns(todo[k].effect, id, scope)
  }

  function TodoOf(p: Proc): seq<Cmd> {
    match p
    case Submitter(_, todo) => todo
    case Consumer(_, _, phase) => if phase.Handling? then phase.todo else []
  }

  predicate AllSpare(s: State, id: string, scope: Scope) {
    forall q :: q in s.procs ==> Spares(TodoOf(s.procs[q]), id, scope)
  }

  function CallsFor(calls: seq<(string, bool)>, id: string): seq<bool> {
    if calls == [] then []
    else
      var n := |calls| - 1;
      CallsFor(calls[..n], id) + if calls[n].0 == id then [calls[n].1] else []
  }

  function ExecutionsFor(executions: seq<Execution>, id: string): seq<Execution> {
    if executions == [] then []
    else
      var n := |executions| - 1;
      ExecutionsFor(executions[..n], id) + if executions[n].taskId == id then [executions[n]] else []
  }

  function MessagesFor(log: seq<Raw>, id: string): seq<Raw> {
    if log == [] then []
    else
      var n := |log| - 1;
      MessagesFor(log[..n], id) + if Mentions(log[n], id) then [log[n]] else []
  }

  function At<T>(m: map<string, T>, id: string): Option<T> {
    if id in m then Some(m[id]) else None
  }

  /** All that the stores hold about a task. */
  datatype Record = Record(calls: seq<bool>, status: Option<Entry<Status>>, meta: Option<Entry<Task>>,
                           row: Option<Task>, executions: seq<Execution>)

  function RecordOf(w: World, id: string): Record {
    Record(CallsFor(w.calls, id), At(w.status, id), At(w.meta, id), At(w.rows, id), ExecutionsFor(w.executions, id))
  }

  /** What the effects of a scope decide is unchanged. */
  predicate Same(w: World, t: World, id: string, scope: Scope) {
    && CallsFor(t.calls, id) == CallsFor(w.calls, id)
    && (scope != Work ==> At(t.status, id) == At(w.status, id))
    && (scope == Whole ==> RecordOf(t, id) == RecordOf(w, id))
  }

  // ----- programs are about their own task -----

  ghost predicate OnlyAbout(todo: seq<Cmd>, id: string) {
    forall k, other :: 0 <= k < |todo| && About(todo[k].effect, other) ==> other == id
  }

  lemma {:induction false} AttemptsAbout(id: string, script: Retry.Script, limit: nat, n: nat)
    requires 1 <= n <= limit
    ensures OnlyAbout(Retry.Attempts(id, script, limit, n), id)
    decreases limit - n
  {
    if !Retry.Stops(script, limit, n) {
      AttemptsAbout(id, script, limit, n + 1);
    }
  }

  lemma ExecutedAbout(cfg: Config, d: Delivery)
    requires d.raw.Json?
    ensures OnlyAbout(Executed(cfg, d.raw.task, d), d.raw.task.id)
  {
    var task := d.raw.task;
    AttemptsAbout(task.id, d.script, Retry.Limit(cfg.maxRetries + 1), 1);
    FinishAbout(cfg, d);
  }

  lemma FinishAbout(cfg: Config, d: Delivery)
    requires d.raw.Json?
    ensures OnlyAbout(Finish(cfg, d.raw.task, d), d.raw.task.id)
  {
    hide Calls, ResultOf;
  }

  lemma ProgramAbout(s: State, part: Partition, v: Verdict, cfg: Config, d: Delivery, id: string)
    requires !Mentions(d.raw, id)
    ensures Spares(ProgramFor(s, part, v, cfg, d), id, Whole)
  {
    hide Executed;
    if d.raw.Json? {
      ExecutedAbout(cfg, d);
    }
  }

  lemma SubmitAbout(task: Task, fired: bool, id: string)
    requires task.id != id
    ensures Spares(SubmitProgram(task, fired), id, Whole)
  {
  }

  lemma SparesWhole(todo: seq<Cmd>, id: string, scope: Scope)
    requires Spares(todo, id, Whole)
    ensures Spares(todo, id, scope)
  {
    forall k | 0 <= k < |todo|
      ensures !Concerns(todo[k].effect, id, scope)
    {
      assert !Concerns(todo[k].effect, id, Whole);
    }
  }

  // ----- one step -----

  /** Neither a submission of the task nor a delivery of its message that would have something to do. */
  predicate Idle(s: State, a: Action, id: string, scope: Scope) {
    Enabled(s, a) ==>
      && (a.Begin? && Mentions(a.d.raw, id) ==> Spares(ProgramFor(s, s.procs[a.q].part, a.v, a.cfg, a.d), id, scope))
      && (a.Submit? ==> a.task.id != id)
  }

  lemma ProcSpares(s: State, a: Action, id: string, scope: Scope, q: nat)
    requires q in Next(s, a).procs && (q in s.procs ==> Spares(TodoOf(s.procs[q]), id, scope))
    requires Idle(s, a, id, scope)
    ensures Spares(TodoOf(Next(s, a).procs[q]), id, scope)
  {
    hide Apply, Errs, ProgramFor, SubmitProgram, Holding, Concerns;
    var t := Next(s, a);
    if Enabled(s, a) && !(q in s.procs && t.procs[q] == s.procs[q]) {
      match a
      case Submit(_, task, fired) =>
        SubmitAbout(task, fired, id);
        SparesWhole(TodoOf(t.procs[q]), id, scope);
      case Begin(_, v, cfg, d) =>
        if !Mentions(d.raw, id) {
          ProgramAbout(s, s.procs[q].part, v, cfg, d, id);
          SparesWhole(TodoOf(t.procs[q]), id, scope);
        }
      case _ =>
    }
  }

  lemma IdleWhole(s: State, a: Action, id: string, scope: Scope)
    requires Idle(s, a, id, Whole)
    ensures Idle(s, a, id, scope)
  {
    hide ProgramFor, Spares;
    if Enabled(s, a) && a.Begin? && Mentions(a.d.raw, id) {
      SparesWhole(ProgramFor(s, s.procs[a.q].part, a.v, a.cfg, a.d), id, scope);
    }
  }

  lemma CallsForNext(calls: seq<(string, bool)>, x: (string, bool), id: string)
    ensures CallsFor(calls + [x], id) == CallsFor(calls, id) + if x.0 == id then [x.1] else []
  {
    assert (calls + [x])[..|calls|] == calls;
  }

  lemma ExecutionsForNext(executions: seq<Execution>, x: Execution, id: string)
    ensures ExecutionsFor(executions + [x], id) == ExecutionsFor(executions, id) + if x.taskId == id then [x] else []
  {
    assert (executions + [x])[..|executions|] == executions;
  }

  lemma EffectSpares(w: World, e: Effect, r: Reply, id: string, scope: Scope)
    requires !Concerns(e, id, scope)
    ensures Same(w, Apply(w, e, r), id, scope)
  {
    hide CallsFor, ExecutionsFor;
    if e.Invoked? {
      CallsForNext(w.calls, (e.id, e.ok), id);
    } else if e.ExecutionAdded? {
      ExecutionsForNext(w.executions, e.execution, id);
    }
  }

  lemma WorldSpares(s: State, a: Action, id: string, scope: Scope)
    requires a.Step? && a.q in s.procs ==> Spares(TodoOf(s.procs[a.q]), id, scope)
    ensures Same(s.w, Next(s, a).w, id, scope)
  {
    hide Apply, Errs, ProgramFor, SubmitProgram, Holding, Concerns, CallsFor, ExecutionsFor;
    if Enabled(s, a) && a.Step? {
      var e := TodoOf(s.procs[a.q])[0].effect;
      assert Next(s, a).w == Apply(s.w, e, a.reply);
      EffectSpares(s.w, e, a.reply, id, scope);
    }
  }

  lemma ApplyClock(w: World, e: Effect, r: Reply)
    ensures Apply(w, e, r).now == w.now + r.after
  {
  }

  lemma ClockGrows(s: State, a: Action)
    ensures s.w.now <= Next(s, a).w.now
  {
    hide Apply, Errs, ProgramFor, SubmitProgram, Holding;
    if Enabled(s, a) && a.Step? {
      ApplyClock(s.w, TodoOf(s.procs[a.q])[0].effect, a.reply);
    }
  }

  // ----- messages -----

  function InjectedBy(s: State, a: Action, p: Partition, id: string): seq<Raw> {
    if a.Inject? && Enabled(s, a) && a.part == p && Mentions(a.raw, id) then [a.raw] else []
  }

  lemma LogsSpared(s: State, a: Action, p: Partition, id: string)
    requires a.Step? && a.q in s.procs ==> Spares(TodoOf(s.procs[a.q]), id, Whole)
    ensures MessagesFor(LogOf(Next(s, a).w.logs, p), id) ==
            MessagesFor(LogOf(s.w.logs, p), id) + InjectedBy(s, a, p, id)
  {
    hide Errs, ProgramFor, SubmitProgram, Holding;
    var log, longer := LogOf(s.w.logs, p), LogOf(Next(s, a).w.logs, p);
    if Enabled(s, a) && a.Step? {
      var e := TodoOf(s.procs[a.q])[0].effect;
      assert Next(s, a).w == Apply(s.w, e, a.reply);
      assert !Concerns(e, id, Whole);
      PublishSpares(s.w, e, a.reply, p, id);
    } else if longer != log {
      assert a.Inject? && a.part == p && longer == log + [a.raw];
      assert longer[..|longer| - 1] == log;
    }
  }

  lemma PublishSpares(w: World, e: Effect, r: Reply, p: Partition, id: string)
    requires !About(e, id)
    ensures MessagesFor(LogOf(Apply(w, e, r).logs, p), id) == MessagesFor(LogOf(w.logs, p), id)
  {
    var log, longer := LogOf(w.logs, p), LogOf(Apply(w, e, r).logs, p);
    if longer != log {
      assert longer == log + [e.raw];
      assert longer[..|longer| - 1] == log;
    }
  }

  // ----- continuations -----

  function RunOn(s: State, actions: seq<Action>): State {
    if actions == [] then s else Next(RunOn(s, actions[..|actions| - 1]), actions[|actions| - 1])
  }

  lemma {:induction false} RunOnRun(before: seq<Action>, after: seq<Action>)
    ensures RunOn(Run(before), after) == Run(before + after)
    decreases |after|
  {
    hide Next;
    if after == [] {
      assert before + after == before;
    } else {
      var n := |after| - 1;
      RunOnRun(before, after[..n]);
      assert (before + after)[..|before| + n] == before + after[..n];
    }
  }

  function Injected(s: State, actions: seq<Action>, p: Partition, id: string): seq<Raw> {
    if actions == [] then []
    else
      var n := |actions| - 1;
      Injected(s, actions[..n], p, id) + InjectedBy(RunOn(s, actions[..n]), actions[n], p, id)
  }

  /** The message is not delivered to a dispatcher again, and the guard's reads of the task work. */
  predicate Guarded(s: State, a: Action, id: string) {
    a.Begin? && Enabled(s, a) && Mentions(a.d.raw, id) ==> s.procs[a.q].part.topic != TOPIC_PENDING && a.d.readable
  }

  predicate GuardedRun(s: State, actions: seq<Action>, id: string) {
    actions == [] ||
    (GuardedRun(s, actions[..|actions| - 1], id) &&
     Guarded(RunOn(s, actions[..|actions| - 1]), actions[|actions| - 1], id))
  }

  lemma GuardedIsIdle(s: State, a: Action, id: string)
    requires id in s.submitted && Redelivery.Settled(s.w, id) && Guarded(s, a, id)
    ensures Idle(s, a, id, Whole)
  {
    if a.Begin? && Enabled(s, a) && Mentions(a.d.raw, id) {
      assert Redelivery.Stopped(s.w, a.d);
      assert Program(a.cfg, a.d, Guard(s.w, a.d)) == [];
    }
  }

  /** A finished task: its terminal status is stored, has not expired, and no process has anything more to do to it. */
  predicate Finished(s: State, id: string, scope: Scope) {
    id in s.submitted && Redelivery.Settled(s.w, id) && AllSpare(s, id, scope)
  }

  lemma StepStaysFinished(s: State, a: Action, id: string, scope: Scope)
    requires scope != Work && Finished(s, id, scope) && Guarded(s, a, id)
    requires Next(s, a).w.now < s.w.status[id].expires
    ensures Finished(Next(s, a), id, scope) && Same(s.w, Next(s, a).w, id, scope)
  {
    hide Next, Enabled, Guarded, Idle, Spares, CallsFor, RecordOf;
    GuardedIsIdle(s, a, id);
    IdleWhole(s, a, id, scope);
    WorldSpares(s, a, id, scope);
    NextGrows(s, a);
    var t := Next(s, a);
    assert At(t.w.status, id) == Some(s.w.status[id]);
    forall q | q in t.procs
      ensures Spares(TodoOf(t.procs[q]), id, scope)
    {
      ProcSpares(s, a, id, scope, q);
    }
  }

  lemma {:induction false} RunStaysFinished(s: State, actions: seq<Action>, id: string, scope: Scope)
    requires scope != Work && Finished(s, id, scope) && GuardedRun(s, actions, id)
    requires RunOn(s, actions).w.now < s.w.status[id].expires
    ensures Finished(RunOn(s, actions), id, scope) && Same(s.w, RunOn(s, actions).w, id, scope)
    ensures RunOn(s, actions).w.status[id] == s.w.status[id]
    ensures scope == Whole ==> forall p: Partition ::
              MessagesFor(LogOf(RunOn(s, actions).w.logs, p), id) ==
              MessagesFor(LogOf(s.w.logs, p), id) + Injected(s, actions, p, id)
    decreases |actions|
  {
    hide Next, Guarded, AllSpare, CallsFor, RecordOf, MessagesFor, InjectedBy;
    if actions != [] {
      var n := |actions| - 1;
      var t, a := RunOn(s, actions[..n]), actions[n];
      ClockGrows(t, a);
      RunStaysFinished(s, actions[..n], id, scope);
      StepStaysFinished(t, a, id, scope);
      assert At(Next(t, a).w.status, id) == At(t.w.status, id);
      if scope == Whole {
        forall p: Partition
          ensures MessagesFor(LogOf(Next(t, a).w.logs, p), id) ==
                  MessagesFor(LogOf(s.w.logs, p), id) + Injected(s, actions, p, id)
        {
          MoverSpares(t, a, id);
          LogsSpared(t, a, p, id);
        }
      }
    }
  }

  lemma MoverSpares(s: State, a: Action, id: string)
    requires AllSpare(s, id, Whole)
    ensures a.Step? && a.q in s.procs ==> Spares(TodoOf(s.procs[a.q]), id, Whole)
  {
  }

  /**
   Once a task is finished, whatever everyone else does and however often its message is redelivered to workers,
   up to the expiry of its status nothing about it changes: no handler call, no status, metadata or row write, no
   execution, and no message anywhere but the copies injected from outside.
   */
  lemma SettledStaysPut(s: State, actions: seq<Action>, id: string)
    requires Finished(s, id, Whole) && GuardedRun(s, actions, id)
    requires RunOn(s, actions).w.now < s.w.status[id].expires
    ensures var t := RunOn(s, actions);
            && RecordOf(t.w, id) == RecordOf(s.w, id)
            && forall p: Partition :: MessagesFor(LogOf(t.w.logs, p), id) ==
                                      MessagesFor(LogOf(s.w.logs, p), id) + Injected(s, actions, p, id)
  {
    RunStaysFinished(s, actions, id, Whole);
  }

  /** So it is in every run: after any prefix that leaves the task settled and nobody at work on it. */
  lemma SettledInEveryRun(before: seq<Action>, after: seq<Action>, id: string)
    requires Redelivery.Settled(Run(before).w, id) && AllSpare(Run(before), id, Whole)
    requires GuardedRun(Run(before), after, id)
    requires Run(before + after).w.now < Run(before).w.status[id].expires
    ensures var s, t := Run(before), Run(before + after);
            && RecordOf(t.w, id) == RecordOf(s.w, id)
            && forall p: Partition :: MessagesFor(LogOf(t.w.logs, p), id) ==
                                      MessagesFor(LogOf(s.w.logs, p), id) + Injected(s, after, p, id)
  {
    hide Run, AllSpare, GuardedRun, RecordOf, MessagesFor, Injected;
    StoredStatusEarned(before, id);
    RunOnRun(before, after);
    SettledStaysPut(Run(before), after, id);
  }

  // ----- one delivery among everything else -----

  predicate IsSuffix(todo: seq<Cmd>, program: seq<Cmd>) {
    |todo| <= |program| && todo == program[|program| - |todo|..]
  }

  /** Process q is in the middle of the program; the calls made and the calls left add up. */
  predicate Underway(s: State, q: nat, id: string, program: seq<Cmd>, total: seq<bool>) {
    && q in s.procs && s.procs[q].Consumer? && s.procs[q].phase.Handling?
    && IsSuffix(s.procs[q].phase.todo, program)
    && CallsFor(s.w.calls, id) + TraceOf(s.procs[q].phase.todo).calls == total
  }

  predicate OthersSpare(s: State, q: nat, id: string, scope: Scope) {
    forall k :: k in s.procs && k != q ==> Spares(TodoOf(s.procs[k]), id, scope)
  }

  /** Nobody but q has a call or a status write of the task left, and q has the rest of the program or none either. */
  predicate OneDelivery(s: State, q: nat, id: string, program: seq<Cmd>, total: seq<bool>) {
    && id in s.submitted && OthersSpare(s, q, id, Claims)
    && (q in s.procs ==> Spares(TodoOf(s.procs[q]), id, Claims) || Underway(s, q, id, program, total))
  }

  /** No delivery of the task's message begins. */
  predicate Alone(s: State, a: Action, id: string) {
    !(a.Begin? && Enabled(s, a) && Mentions(a.d.raw, id))
  }

  predicate AloneRun(s: State, actions: seq<Action>, id: string) {
    actions == [] ||
    (AloneRun(s, actions[..|actions| - 1], id) && Alone(RunOn(s, actions[..|actions| - 1]), actions[|actions| - 1], id))
  }

  lemma CallCounted(w: World, e: Effect, r: Reply, id: string)
    requires forall other :: About(e, other) ==> other == id
    ensures CallsFor(Apply(w, e, r).calls, id) == CallsFor(w.calls, id) + Single(e).calls
  {
    hide CallsFor;
    if e.Invoked? {
      assert About(e, e.id);
      CallsForNext(w.calls, (e.id, e.ok), id);
    }
  }

  lemma UnderwayStep(s: State, q: nat, r: Reply, id: string, program: seq<Cmd>, total: seq<bool>)
    requires Underway(s, q, id, program, total) && OnlyAbout(program, id) && Enabled(s, Step(q, r))
    ensures var t := Next(s, Step(q, r));
            Underway(t, q, id, program, total) || TodoOf(t.procs[q]) == []
  {
    hide Errs, Apply, CallsFor, OnlyAbout;
    var todo := s.procs[q].phase.todo;
    var at := |program| - |todo|;
    assert todo[0] == program[at] && todo[1..] == program[at + 1..];
    assert forall other :: About(program[at].effect, other) ==> other == id by {
      OnlyAboutAt(program, id, at);
    }
    CallCounted(s.w, todo[0].effect, r, id);
    var made, left := Single(todo[0].effect).calls, TraceOf(todo[1..]).calls;
    assert TraceOf(todo).calls == made + left;
    assert CallsFor(s.w.calls, id) + (made + left) == CallsFor(s.w.calls, id) + made + left;
  }

  lemma OnlyAboutAt(program: seq<Cmd>, id: string, k: nat)
    requires OnlyAbout(program, id) && k < |program|
    ensures forall other :: About(program[k].effect, other) ==> other == id
  {
  }

  lemma DeliveryStep(s: State, a: Action, q: nat, id: string, program: seq<Cmd>, total: seq<bool>)
    requires OneDelivery(s, q, id, program, total) && OnlyAbout(program, id) && Alone(s, a, id)
    ensures OneDelivery(Next(s, a), q, id, program, total)
  {
    hide Spares, Underway, OnlyAbout;
    var t := Next(s, a);
    NextGrows(s, a);
    assert OthersSpare(t, q, id, Claims) by {
      hide Next;
      forall k | k in t.procs && k != q
        ensures Spares(TodoOf(t.procs[k]), id, Claims)
      {
        ProcSpares(s, a, id, Claims, k);
      }
    }
    if q in t.procs {
      if q in s.procs && Underway(s, q, id, program, total) {
        UnderwayKept(s, a, q, id, program, total);
      } else {
        ProcSpares(s, a, id, Claims, q);
      }
    }
  }

  lemma UnderwayKept(s: State, a: Action, q: nat, id: string, program: seq<Cmd>, total: seq<bool>)
    requires Underway(s, q, id, program, total) && OthersSpare(s, q, id, Claims) && OnlyAbout(program, id)
    requires q in Next(s, a).procs
    ensures Underway(Next(s, a), q, id, program, total) || Spares(TodoOf(Next(s, a).procs[q]), id, Claims)
  {
    hide Apply, Errs, ProgramFor, SubmitProgram, Holding, Concerns, CallsFor, TraceOf, OnlyAbout, IsSuffix;
    var t := Next(s, a);
    if Enabled(s, a) {
      if a.Step? && a.q == q {
        UnderwayStep(s, q, a.reply, id, program, total);
      } else {
        WorldSpares(s, a, id, Claims);
        assert t.procs[q] == s.procs[q] || TodoOf(t.procs[q]) == [];
      }
    }
  }

  lemma {:induction false} DeliveryRun(s: State, actions: seq<Action>, q: nat, id: string, program: seq<Cmd>,
                                       total: seq<bool>)
    requires OneDelivery(s, q, id, program, total) && OnlyAbout(program, id) && AloneRun(s, actions, id)
    ensures OneDelivery(RunOn(s, actions), q, id, program, total)
    decreases |actions|
  {
    hide Next, OneDelivery, OnlyAbout, Alone;
    if actions != [] {
      var n := |actions| - 1;
      DeliveryRun(s, actions[..n], q, id, program, total);
      DeliveryStep(RunOn(s, actions[..n]), actions[n], q, id, program, total);
    }
  }

  predicate TerminalWrite(c: Cmd, id: string) {
    c.effect.StatusSet? && c.effect.id == id && IsTerminal(c.effect.status)
  }

  lemma {:induction false} AttemptsNotTerminal(id: string, script: Retry.Script, limit: nat, n: nat)
    requires 1 <= n <= limit
    ensures forall c :: c in Retry.Attempts(id, script, limit, n) ==> !TerminalWrite(c, id)
    decreases limit - n
  {
    if !Retry.Stops(script, limit, n) {
      AttemptsNotTerminal(id, script, limit, n + 1);
    }
  }

  /** The terminal write of a delivery is where its ending starts; no call and no status write comes after it. */
  lemma TerminalIsFinish(cfg: Config, task: Task, d: Delivery, k: nat)
    requires k < |Executed(cfg, task, d)| && TerminalWrite(Executed(cfg, task, d)[k], task.id)
    ensures Executed(cfg, task, d)[k..] == Finish(cfg, task, d)
    ensures Executed(cfg, task, d)[k].effect.status == LastStatus(cfg, d)
    ensures Spares(Executed(cfg, task, d)[k + 1..], task.id, Claims)
  {
    var attempts := Retry.Attempts(task.id, d.script, Retry.Limit(cfg.maxRetries + 1), 1);
    AttemptsNotTerminal(task.id, d.script, Retry.Limit(cfg.maxRetries + 1), 1);
    var program, finish := Executed(cfg, task, d), Finish(cfg, task, d);
    assert program == [Cmd(StatusSet(task.id, Running), true)] + attempts + finish;
    FinishShape(cfg, task, d);
    var n := 1 + |attempts|;
    forall j | 1 <= j < n
      ensures !TerminalWrite(program[j], task.id)
    {
      assert program[j] == attempts[j - 1];
    }
    assert program[k] == finish[k - n];
    assert program[n..] == finish && program[n + 1..] == finish[1..];
  }

  lemma FinishShape(cfg: Config, task: Task, d: Delivery)
    ensures var finish := Finish(cfg, task, d);
            && |finish| >= 4 && finish[0] == Cmd(StatusSet(task.id, LastStatus(cfg, d)), false)
            && Spares(finish[1..], task.id, Claims)
            && (forall k :: 1 <= k < |finish| ==> !TerminalWrite(finish[k], task.id))
  {
    hide Calls, ResultOf, Row;
  }

  /** The environment of one delivery of a task by worker q, from any state in which nobody else is at work on it. */
  ghost predicate Starts(s: State, q: nat, v: Verdict, cfg: Config, d: Delivery) {
    && d.raw.Json? && d.raw.task.id in s.submitted && AllSpare(s, d.raw.task.id, Claims)
    && Enabled(s, Begin(q, v, cfg, d)) && s.procs[q].part.topic != TOPIC_PENDING
    && !Redelivery.Stopped(s.w, d) && d.raw.task.taskType in cfg.registry
  }

  lemma StartsDelivery(s: State, q: nat, v: Verdict, cfg: Config, d: Delivery)
    requires Starts(s, q, v, cfg, d)
    ensures var id, program := d.raw.task.id, Executed(cfg, d.raw.task, d);
            && OnlyAbout(program, id)
            && OneDelivery(Next(s, Begin(q, v, cfg, d)), q, id, program,
                           CallsFor(s.w.calls, id) + TraceOf(program).calls)
  {
    hide Executed, Spares, OnlyAbout;
    ExecutedAbout(cfg, d);
    var program := Executed(cfg, d.raw.task, d);
    assert program[0..] == program;
  }

  /**
   A delivery by worker q, what happens until its terminal write is due, the reply to that write, and what happens
   after it.
   */
  datatype Episode = Episode(q: nat, v: Verdict, cfg: Config, d: Delivery, during: seq<Action>, r: Reply,
                             after: seq<Action>)
  {
    function Begun(s: State): State { Next(s, Begin(q, v, cfg, d)) }

    function Mid(s: State): State { RunOn(Begun(s), during) }

    function Written(s: State): State { Next(Mid(s), Step(q, r)) }

    function End(s: State): State { RunOn(Written(s), after) }

    function Actions(): seq<Action> { [Begin(q, v, cfg, d)] + during + ([Step(q, r)] + after) }

    /** The calls of the delivery. */
    function Outcomes(): seq<bool> {
      Retry.Repeat(Calls(cfg, d.script) - 1, false) + [d.script.ok(Calls(cfg, d.script))]
    }
  }

  /**
   The delivery executes the task, nobody else being at work on it; until its terminal write lands no other delivery of
   the task begins; and all ends before that write expires.
   */
  ghost predicate Undisturbed(s: State, e: Episode) {
    && Starts(s, e.q, e.v, e.cfg, e.d)
    && AloneRun(e.Begun(s), e.during, e.d.raw.task.id)
    && e.q in e.Mid(s).procs && TodoOf(e.Mid(s).procs[e.q]) != []
    && TerminalWrite(TodoOf(e.Mid(s).procs[e.q])[0], e.d.raw.task.id)
    && !e.r.outcome.Refused? && GuardedRun(e.Written(s), e.after, e.d.raw.task.id)
    && e.End(s).w.now < e.Mid(s).w.now + e.r.after + STATE_TTL
  }

  /**
   A delivery among everything else: whatever all processes do and however often the message is redelivered to workers
   up to the expiry of its terminal write, the handler has been called by that one delivery only: k times, failing but
   possibly the last. The stored status is that write.
   */
  lemma OnceWithinTtl(s: State, e: Episode)
    requires Undisturbed(s, e)
    ensures var id, end := e.d.raw.task.id, e.End(s);
            && CallsFor(end.w.calls, id) == CallsFor(s.w.calls, id) + e.Outcomes()
            && id in end.w.status
            && end.w.status[id] == Entry(LastStatus(e.cfg, e.d), e.Mid(s).w.now + e.r.after + STATE_TTL)
  {
    hide Next, Starts, AloneRun, GuardedRun, OneDelivery, Executed, TraceOf, Apply;
    StartsAbout(s, e.q, e.v, e.cfg, e.d);
    var id, task := e.d.raw.task.id, e.d.raw.task;
    var program := Executed(e.cfg, task, e.d);
    var total := CallsFor(s.w.calls, id) + TraceOf(program).calls;
    StartsDelivery(s, e.q, e.v, e.cfg, e.d);
    DeliveryRun(e.Begun(s), e.during, e.q, id, program, total);
    Lands(e.Mid(s), e.q, e.r, e.cfg, e.d, total);
    RunStaysFinished(e.Written(s), e.after, id, Claims);
    DeliveryTrace(e.cfg, task, e.d);
  }

  /** So it is in every run. */
  lemma OnceInEveryRun(before: seq<Action>, e: Episode)
    requires Undisturbed(Run(before), e)
    ensures var id, s, end := e.d.raw.task.id, Run(before), Run(before + e.Actions());
            && CallsFor(end.w.calls, id) == CallsFor(s.w.calls, id) + e.Outcomes()
            && id in end.w.status
            && end.w.status[id] == Entry(LastStatus(e.cfg, e.d), e.Mid(s).w.now + e.r.after + STATE_TTL)
  {
    hide Run, Next, Undisturbed, CallsFor;
    OnceWithinTtl(Run(before), e);
    EpisodeRuns(Run(before), e);
    RunOnRun(before, e.Actions());
  }

  lemma EpisodeRuns(s: State, e: Episode)
    ensures RunOn(s, e.Actions()) == e.End(s)
  {
    hide Next;
    var begin, step := Begin(e.q, e.v, e.cfg, e.d), Step(e.q, e.r);
    RunOnConcat(s, [begin] + e.during, [step] + e.after);
    RunOnConcat(s, [begin], e.during);
    RunOnOne(s, begin);
    RunOnConcat(e.Mid(s), [step], e.after);
    RunOnOne(e.Mid(s), step);
  }

  lemma {:induction false} RunOnConcat(s: State, a: seq<Action>, b: seq<Action>)
    ensures RunOn(s, a + b) == RunOn(RunOn(s, a), b)
    decreases |b|
  {
    hide Next;
    if b == [] {
      assert a + b == a;
    } else {
      var n := |b| - 1;
      RunOnConcat(s, a, b[..n]);
      assert (a + b)[..|a| + n] == a + b[..n];
    }
  }

  lemma RunOnOne(s: State, a: Action)
    ensures RunOn(s, [a]) == Next(s, a)
  {
    hide Next;
    assert [a][..0] == [];
    assert RunOn(s, []) == s;
  }

  lemma StartsAbout(s: State, q: nat, v: Verdict, cfg: Config, d: Delivery)
    requires Starts(s, q, v, cfg, d)
    ensures d.raw.Json?
  {
  }

  /** When the terminal write lands, all calls of the delivery have been made and nobody has another one to make. */
  lemma Lands(s: State, q: nat, r: Reply, cfg: Config, d: Delivery, total: seq<bool>)
    requires d.raw.Json? && OneDelivery(s, q, d.raw.task.id, Executed(cfg, d.raw.task, d), total)
    requires q in s.procs && TodoOf(s.procs[q]) != [] && TerminalWrite(TodoOf(s.procs[q])[0], d.raw.task.id)
    requires !r.outcome.Refused?
    ensures var id, t := d.raw.task.id, Next(s, Step(q, r));
            && CallsFor(t.w.calls, id) == total && Finished(t, id, Claims)
            && t.w.status[id] == Entry(LastStatus(cfg, d), s.w.now + r.after + STATE_TTL)
  {
    hide Executed, TraceOf, ProgramFor, Holding;
    var id, program := d.raw.task.id, Executed(cfg, d.raw.task, d);
    var todo := TodoOf(s.procs[q]);
    assert Concerns(todo[0].effect, id, Claims);
    assert Underway(s, q, id, program, total);
    var k := |program| - |todo|;
    assert program[k] == todo[0] && program[k..] == todo && program[k + 1..] == todo[1..];
    TerminalIsFinish(cfg, d.raw.task, d, k);
    FinishTrace(cfg, d.raw.task, d);
    assert CallsFor(s.w.calls, id) + [] == CallsFor(s.w.calls, id);
    FinishShape(cfg, d.raw.task, d);
    var t := Next(s, Step(q, r));
    assert t.w.calls == s.w.calls;
    forall p | p in t.procs
      ensures Spares(TodoOf(t.procs[p]), id, Claims)
    {
      if p == q {
        assert TodoOf(t.procs[q]) == todo[1..];
      } else {
        assert t.procs[p] == s.procs[p];
      }
    }
  }
}
