/**
 The whole pipeline as an interleaving of processes: submitters, dispatcher and worker instances over any number
 of partitions, sharing one world. A process executes one effect of its program at a time; any effect may be
 refused or have its acknowledgement lost, commits may fail, and a process may stop anywhere.

 The programs are those the gateway, the dispatcher and the worker are proved to run.
 */
module Pipeline {
  import opened Domain
  import opened Backend
  import opened Dispatcher
  import opened Worker
  import Retry
  import Redelivery
  import Gateway

  datatype Slot = Slot(part: Partition, offset: nat)

  /**
   Where a consumer instance is: about to fetch the message at its position; with effects of its handler still to
   do (`dead`: the handler has stored DEAD); or with the handler returned nil and the commit to do.
   */
  datatype Phase = Fetching | Handling(raw: Raw, todo: seq<Cmd>, dead: bool) | Returned

  datatype Proc =
    | Submitter(task: Task, todo: seq<Cmd>)
    | Consumer(part: Partition, pos: nat, phase: Phase)

  /**
   Besides the world: the stored offsets, the live processes, the tasks ever submitted and the identifiers that
   reached tasks.pending; the slots whose handler returned nil, and an error; the tasks whose worker stopped
   between its DEAD write and its DLQ publish, and those whose DLQ publish was refused.
   */
  datatype State = State(
    w: World,
    committed: map<Partition, nat>,
    procs: map<nat, Proc>,
    submitted: map<string, Task>,
    accepted: set<string>,
    finished: set<Slot>,
    errored: set<Slot>,
    stopped: set<string>,
    dropped: set<string>)

  datatype Action =
    | Tick(elapsed: nat)
    | Submit(q: nat, task: Task, fired: bool)
    | Inject(part: Partition, raw: Raw)
    | Join(q: nat, part: Partition)
    | Begin(q: nat, v: Verdict, cfg: Config, d: Delivery)
    | Step(q: nat, reply: Reply)
    | Return(q: nat)
    | Commit(q: nat, ok: bool)
    | Stop(q: nat)

  function CommittedAt(s: State, p: Partition): nat {
    if p in s.committed then s.committed[p] else 0
  }

  function DlqCmd(raw: Raw): Cmd
    requires raw.Json?
  {
    Cmd(Published(TOPIC_DLQ, raw.task.id, raw), false)
  }

  /** A gateway submission, or the single publish of a fired job. */
  function SubmitProgram(task: Task, fired: bool): seq<Cmd> {
    if fired then [Cmd(Published(TOPIC_PENDING, task.id, Json(task)), true)] else Gateway.SubmitProgram(task)
  }

  /** Holding the only promise of a DLQ message: DEAD is stored, the publish is still to come. */
  predicate Holding(p: Proc, raw: Raw) {
    raw.Json? && p.Consumer? && p.phase.Handling? && p.phase.raw == raw && p.phase.dead && DlqCmd(raw) in p.phase.todo
  }

  function StartProc(s: State, q: nat, p: Proc): State {
    s.(procs := s.procs[q := p])
  }

  predicate Enabled(s: State, a: Action) {
    match a
    case Tick(_) => true
    case Submit(q, task, _) => q !in s.procs && task.id !in s.submitted
    case Inject(part, raw) =>
      part.topic != TOPIC_DLQ && (raw.Json? ==> raw.task.id in s.submitted && s.submitted[raw.task.id] == raw.task)
    case Join(q, part) => q !in s.procs && part.topic != TOPIC_DLQ
    case Begin(q, _, _, d) =>
      && q in s.procs && s.procs[q].Consumer? && s.procs[q].phase.Fetching?
      && s.procs[q].pos < |LogOf(s.w.logs, s.procs[q].part)|
      && d.raw == LogOf(s.w.logs, s.procs[q].part)[s.procs[q].pos]
    case Step(q, _) =>
      q in s.procs && if s.procs[q].Submitter? then s.procs[q].todo != []
                      else s.procs[q].phase.Handling? && s.procs[q].phase.todo != []
    case Return(q) => q in s.procs && s.procs[q].Consumer? && s.procs[q].phase.Handling? && s.procs[q].phase.todo == []
    case Commit(q, _) => q in s.procs && s.procs[q].Consumer? && s.procs[q].phase.Returned?
    case Stop(q) => q in s.procs
  }

  /** What the instance's handler sets out to do with the fetched message: the dispatcher's or the worker's program. */
  function ProgramFor(s: State, part: Partition, v: Verdict, cfg: Config, d: Delivery): seq<Cmd> {
    if part.topic == TOPIC_PENDING then RouteProgram(d.raw, v) else Program(cfg, d, Guard(s.w, d))
  }

  function SubmitterStep(s: State, q: nat, r: Reply): State
    requires q in s.procs && s.procs[q].Submitter? && s.procs[q].todo != []
  {
    var p := s.procs[q];
    var c := p.todo[0];
    var t := s.(w := Apply(s.w, c.effect, r),
                accepted := s.accepted + if c.effect.Published? && !r.outcome.Refused? then {p.task.id} else {});
    if c.abort && Errs(s.w, c.effect, r) then t.(procs := s.procs - {q})
    else t.(procs := s.procs[q := p.(todo := p.todo[1..])])
  }

  function ConsumerStep(s: State, q: nat, r: Reply): State
    requires q in s.procs && s.procs[q].Consumer? && s.procs[q].phase.Handling? && s.procs[q].phase.todo != []
  {
    var p := s.procs[q];
    var c, raw := p.phase.todo[0], p.phase.raw;
    var t := s.(w := Apply(s.w, c.effect, r));
    if c.abort && Errs(s.w, c.effect, r) then
      t.(procs := s.procs[q := p.(pos := p.pos + 1, phase := Fetching)], errored := s.errored + {Slot(p.part, p.pos)})
    else
      var dead := p.phase.dead || (c.effect.StatusSet? && c.effect.status == Dead && !r.outcome.Refused?);
      var lost := raw.Json? && c == DlqCmd(raw) && r.outcome.Refused?;
      t.(procs := s.procs[q := p.(phase := Handling(raw, p.phase.todo[1..], dead))],
         dropped := s.dropped + if lost then {raw.task.id} else {})
  }

  function StopProc(s: State, q: nat): State
    requires q in s.procs
  {
    var p := s.procs[q];
    var torn := p.Consumer? && p.phase.Handling? && Holding(p, p.phase.raw);
    s.(procs := s.procs - {q}, stopped := s.stopped + if torn then {p.phase.raw.task.id} else {})
  }

  /** An action that is not enabled does nothing. */
  function Next(s: State, a: Action): State {
    if !Enabled(s, a) then s
    else
      match a
      case Tick(elapsed) => s.(w := s.w.(now := s.w.now + elapsed))
      case Submit(q, task, fired) =>
        StartProc(s, q, Submitter(task, SubmitProgram(task, fired))).(submitted := s.submitted[task.id := task])
      case Inject(part, raw) => s.(w := s.w.(logs := s.w.logs[part := LogOf(s.w.logs, part) + [raw]]))
      case Join(q, part) => StartProc(s, q, Consumer(part, CommittedAt(s, part), Fetching))
      case Begin(q, v, cfg, d) =>
        StartProc(s, q, s.procs[q].(phase := Handling(d.raw, ProgramFor(s, s.procs[q].part, v, cfg, d), false)))
      case Step(q, r) => if s.procs[q].Submitter? then SubmitterStep(s, q, r) else ConsumerStep(s, q, r)
      case Return(q) =>
        StartProc(s, q, s.procs[q].(phase := Returned))
        .(finished := s.finished + {Slot(s.procs[q].part, s.procs[q].pos)})
      case Commit(q, ok) =>
        var p := s.procs[q];
        var t := StartProc(s, q, p.(pos := p.pos + 1, phase := Fetching));
        if ok then t.(committed := s.committed[p.part := p.pos + 1]) else t
      case Stop(q) => StopProc(s, q)
  }

  const EMPTY := State(World(0, map[], map[], map[], [], map[], []), map[], map[], map[], {}, {}, {}, {}, {})

  function Run(actions: seq<Action>): State {
    if actions == [] then EMPTY else Next(Run(actions[..|actions| - 1]), actions[|actions| - 1])
  }

  // ----- what becomes of a task -----

  predicate Handled(w: World, id: string) {
    (id, true) in w.calls
  }

  predicate Held(s: State, raw: Raw) {
    exists q :: q in s.procs && Holding(s.procs[q], raw)
  }

  /** The message is in the DLQ or about to be sent there, or there is someone to blame. */
  ghost predicate DeadLettered(s: State, id: string) {
    && id in s.submitted
    && (OnTopic(s.w, TOPIC_DLQ, Json(s.submitted[id])) || Held(s, Json(s.submitted[id]))
        || id in s.stopped || id in s.dropped)
  }

  /** The task needs no further delivery. */
  ghost predicate Resolved(s: State, id: string) {
    id in s.submitted && (Handled(s.w, id) || DeadLettered(s, id))
  }

  /** What a stored status says is so. */
  ghost predicate Earned(s: State, id: string, status: Status) {
    match status
    case Done => id in s.submitted && Handled(s.w, id)
    case Dead => DeadLettered(s, id)
    case Failed => false
    case _ => true
  }

  /** Passed on by the dispatcher: to the DLQ or to the topic of its type. */
  ghost predicate Routed(w: World, raw: Raw) {
    OnTopic(w, TOPIC_DLQ, raw) || (raw.Json? && OnTopic(w, WorkerTopic(raw.task.taskType), raw))
  }

  // ----- what a process still has to do -----

  /**
   The rest of a worker's program: terminal writes only once they are justified, and nothing published but the
   message itself.
   */
  predicate Ready(todo: seq<Cmd>, raw: Raw, handled: bool)
    requires raw.Json?
  {
    todo == [] ||
    var rest := todo[1..];
    match todo[0].effect
    case StatusSet(id, s) =>
      && id == raw.task.id && s != Failed && (s == Done ==> handled) && (todo[0].abort ==> s == Running)
      && (s == Dead ==> DlqCmd(raw) in rest && Redelivery.NoAbort(rest))
      && Ready(rest, raw, handled)
    case Invoked(id, ok) => id == raw.task.id && !todo[0].abort && Ready(rest, raw, handled || ok)
    case Published(_, _, _) => todo[0] == DlqCmd(raw) && Ready(rest, raw, handled)
    case _ => !todo[0].abort && Ready(rest, raw, handled)
  }

  /** The rest of a worker's program includes a successful handler call or the DLQ publish. */
  predicate Promises(todo: seq<Cmd>, raw: Raw)
    requires raw.Json?
  {
    Cmd(Invoked(raw.task.id, true), false) in todo || DlqCmd(raw) in todo
  }

  /** The rest of the dispatcher's program: the publish of the message to a proper topic, then at most QUEUED writes. */
  predicate DispatchReady(todo: seq<Cmd>, raw: Raw, routed: bool) {
    if todo == [] then routed
    else
      match todo[0].effect
      case Published(topic, _, r) =>
        && r == raw && todo[0].abort && DispatchReady(todo[1..], raw, true)
        && (topic == TOPIC_DLQ || (raw.Json? && topic == WorkerTopic(raw.task.taskType)))
      case StatusSet(_, st) => !todo[0].abort && st == Queued && DispatchReady(todo[1..], raw, routed)
      case _ => false
  }

  predicate SubmitReady(todo: seq<Cmd>, task: Task) {
    forall k :: 0 <= k < |todo| ==>
      match todo[k].effect
      case Published(topic, _, raw) => topic == TOPIC_PENDING && raw == Json(task)
      case StatusSet(_, st) => st == Pending
      case MetaSet(_) => true
      case RowCreated(_) => true
      case _ => false
  }

  // ----- the invariant -----

  predicate Known(s: State, raw: Raw) {
    raw.Json? ==> raw.task.id in s.submitted && s.submitted[raw.task.id] == raw.task
  }

  predicate Passed(s: State, part: Partition, upto: nat) {
    forall o: nat :: o < upto ==> Slot(part, o) in s.finished + s.errored
  }

  ghost predicate WorkerOk(s: State, phase: Phase) {
    && phase.Handling? && phase.raw.Json?
    && Ready(phase.todo, phase.raw, Handled(s.w, phase.raw.task.id))
    && (phase.dead ==> Redelivery.NoAbort(phase.todo))
    && (Resolved(s, phase.raw.task.id) || Promises(phase.todo, phase.raw))
  }

  ghost predicate HandlingOk(s: State, part: Partition, pos: nat, phase: Phase) {
    && phase.Handling? && pos < |LogOf(s.w.logs, part)| && phase.raw == LogOf(s.w.logs, part)[pos]
    && if part.topic == TOPIC_PENDING then
         (Routed(s.w, phase.raw) || !phase.raw.Json? || DispatchReady(phase.todo, phase.raw, false))
         && DispatchReady(phase.todo, phase.raw, true) && !phase.dead
       else if phase.raw.Json? then WorkerOk(s, phase)
       else phase.todo == []
  }

  ghost predicate ProcOk(s: State, p: Proc) {
    match p
    case Submitter(task, todo) => SubmitReady(todo, task) && Known(s, Json(task))
    case Consumer(part, pos, phase) =>
      && part.topic != TOPIC_DLQ && Passed(s, part, pos)
      && (phase.Returned? ==> Slot(part, pos) in s.finished)
      && (phase.Handling? ==> HandlingOk(s, part, pos, phase))
  }

  /** A message whose handler returned nil has been passed on or resolved. */
  ghost predicate FinishedOk(s: State, slot: Slot) {
    && slot.offset < |LogOf(s.w.logs, slot.part)|
    && var raw := LogOf(s.w.logs, slot.part)[slot.offset];
       raw.Json? ==> if slot.part.topic == TOPIC_PENDING then Routed(s.w, raw) else Resolved(s, raw.task.id)
  }

  ghost predicate LogsOk(s: State) {
    forall p: Partition, k: nat :: k < |LogOf(s.w.logs, p)| ==> Known(s, LogOf(s.w.logs, p)[k])
  }

  ghost predicate StatusOk(s: State) {
    forall id :: id in s.w.status ==> Earned(s, id, s.w.status[id].value)
  }

  ghost predicate AcceptedOk(s: State) {
    forall id :: id in s.accepted ==> id in s.submitted && OnTopic(s.w, TOPIC_PENDING, Json(s.submitted[id]))
  }

  ghost predicate Inv(s: State) {
    && (forall id :: id in s.submitted ==> s.submitted[id].id == id)
    && LogsOk(s) && StatusOk(s) && AcceptedOk(s)
    && (forall f :: f in s.finished ==> FinishedOk(s, f))
    && (forall p: Partition :: Passed(s, p, CommittedAt(s, p)))
    && (forall q :: q in s.procs ==> ProcOk(s, s.procs[q]))
  }

  // ----- nothing that has happened is undone -----

  ghost predicate Grows(s: State, t: State) {
    && (forall p: Partition :: LogOf(s.w.logs, p) <= LogOf(t.w.logs, p))
    && s.w.calls <= t.w.calls
    && (forall id :: id in s.submitted ==> id in t.submitted && t.submitted[id] == s.submitted[id])
    && s.finished <= t.finished && s.errored <= t.errored && s.stopped <= t.stopped && s.dropped <= t.dropped
  }

  lemma ApplyGrows(w: World, e: Effect, r: Reply, p: Partition)
    ensures LogOf(w.logs, p) <= LogOf(Apply(w, e, r).logs, p) && w.calls <= Apply(w, e, r).calls
  {
  }

  lemma NextGrows(s: State, a: Action)
    ensures Grows(s, Next(s, a))
  {
    if a.Step? && Enabled(s, a) {
      StepGrows(s, a.q, a.reply);
    } else {
      hide ProgramFor, SubmitProgram, Holding, ConsumerStep, SubmitterStep;
    }
  }

  lemma StepGrows(s: State, q: nat, r: Reply)
    requires Enabled(s, Step(q, r))
    ensures Grows(s, Next(s, Step(q, r)))
  {
    hide Apply, ProgramFor, SubmitProgram, Errs, Holding, LogOf;
    var t := Next(s, Step(q, r));
    var e := if s.procs[q].Submitter? then s.procs[q].todo[0].effect else s.procs[q].phase.todo[0].effect;
    assert t.w == Apply(s.w, e, r);
    ApplyGrows(s.w, e, r, Partition("", 0));
    forall p: Partition
      ensures LogOf(s.w.logs, p) <= LogOf(t.w.logs, p)
    {
      ApplyGrows(s.w, e, r, p);
    }
  }

  lemma OnTopicKept(s: State, t: State, topic: string, raw: Raw)
    requires Grows(s, t) && OnTopic(s.w, topic, raw)
    ensures OnTopic(t.w, topic, raw)
  {
    var p: Partition :| p.topic == topic && raw in LogOf(s.w.logs, p);
    var k :| 0 <= k < |LogOf(s.w.logs, p)| && LogOf(s.w.logs, p)[k] == raw;
    assert LogOf(t.w.logs, p)[k] == raw;
  }

  lemma HandledKept(s: State, t: State, id: string)
    requires Grows(s, t) && Handled(s.w, id)
    ensures Handled(t.w, id)
  {
    var k :| 0 <= k < |s.w.calls| && s.w.calls[k] == (id, true);
    assert t.w.calls[k] == (id, true);
  }

  /** The last promise of a DLQ message is kept, broken by a refusal, or broken by a stop. */
  lemma HoldingKept(s: State, a: Action, q: nat, raw: Raw)
    requires q in s.procs && ProcOk(s, s.procs[q]) && Holding(s.procs[q], raw)
    ensures var t := Next(s, a);
            || Held(t, raw) || OnTopic(t.w, TOPIC_DLQ, raw) || raw.task.id in t.stopped || raw.task.id in t.dropped
  {
    hide Apply, ProgramFor, SubmitProgram, Ready, DispatchReady, Resolved, Promises;
    var t := Next(s, a);
    if a.Step? && a.q == q {
      HoldingStep(s, q, a.reply, raw);
    } else if a.Stop? && a.q == q {
    } else if Enabled(s, a) {
      assert q in t.procs && t.procs[q] == s.procs[q];
    }
  }

  lemma HoldingStep(s: State, q: nat, r: Reply, raw: Raw)
    requires q in s.procs && ProcOk(s, s.procs[q]) && Holding(s.procs[q], raw)
    ensures var t := Next(s, Step(q, r));
            Held(t, raw) || OnTopic(t.w, TOPIC_DLQ, raw) || raw.task.id in t.dropped
  {
    hide ProgramFor, SubmitProgram, Ready, DispatchReady, Resolved, Promises, Passed;
    var t := Next(s, Step(q, r));
    var todo := s.procs[q].phase.todo;
    assert !todo[0].abort;
    if todo[0] == DlqCmd(raw) {
      if !r.outcome.Refused? {
        var p := Partition(TOPIC_DLQ, r.partition);
        assert raw in LogOf(t.w.logs, p);
      }
    } else {
      assert DlqCmd(raw) in todo[1..];
      assert Holding(t.procs[q], raw);
    }
  }

  lemma DeadLetteredKept(s: State, a: Action, id: string)
    requires Inv(s) && DeadLettered(s, id)
    ensures DeadLettered(Next(s, a), id)
  {
    hide Next, ProcOk, Holding, LogsOk, StatusOk, AcceptedOk, FinishedOk, Passed, Handled, OnTopic;
    var t := Next(s, a);
    NextGrows(s, a);
    var raw := Json(s.submitted[id]);
    if OnTopic(s.w, TOPIC_DLQ, raw) {
      OnTopicKept(s, t, TOPIC_DLQ, raw);
    } else if Held(s, raw) {
      var q :| q in s.procs && Holding(s.procs[q], raw);
      HoldingKept(s, a, q, raw);
      assert s.submitted[id].id == id;
    }
  }

  lemma ResolvedKept(s: State, a: Action, id: string)
    requires Inv(s) && Resolved(s, id)
    ensures Resolved(Next(s, a), id)
  {
    hide Next, Inv, DeadLettered, Handled;
    NextGrows(s, a);
    if Handled(s.w, id) {
      HandledKept(s, Next(s, a), id);
    } else {
      DeadLetteredKept(s, a, id);
    }
  }

  lemma EarnedKept(s: State, a: Action, id: string, status: Status)
    requires Inv(s) && Earned(s, id, status)
    ensures Earned(Next(s, a), id, status)
  {
    hide Next, Inv, DeadLettered, Handled;
    NextGrows(s, a);
    if status == Done {
      HandledKept(s, Next(s, a), id);
    } else if status == Dead {
      DeadLetteredKept(s, a, id);
    }
  }

  // ----- what every step keeps: the processes it does not move, and the finished messages -----

  lemma {:induction false} ReadyHandled(todo: seq<Cmd>, raw: Raw)
    requires raw.Json? && Ready(todo, raw, false)
    ensures Ready(todo, raw, true)
    decreases |todo|
  {
    if todo != [] && !(todo[0].effect.Invoked? && todo[0].effect.ok) {
      ReadyHandled(todo[1..], raw);
    }
  }

  lemma RoutedKept(s: State, t: State, raw: Raw)
    requires Grows(s, t) && Routed(s.w, raw)
    ensures Routed(t.w, raw)
  {
    hide Grows, OnTopic;
    if OnTopic(s.w, TOPIC_DLQ, raw) {
      OnTopicKept(s, t, TOPIC_DLQ, raw);
    } else {
      OnTopicKept(s, t, WorkerTopic(raw.task.taskType), raw);
    }
  }

  lemma WorkerKept(s: State, a: Action, phase: Phase)
    requires Inv(s) && WorkerOk(s, phase)
    ensures WorkerOk(Next(s, a), phase)
  {
    hide Inv, Next, Ready, Promises, Resolved, Grows, Handled;
    var t := Next(s, a);
    NextGrows(s, a);
    var id := phase.raw.task.id;
    if Handled(s.w, id) {
      HandledKept(s, t, id);
    } else if Handled(t.w, id) {
      ReadyHandled(phase.todo, phase.raw);
    }
    if Resolved(s, id) {
      ResolvedKept(s, a, id);
    }
  }

  lemma ProcKept(s: State, a: Action, p: Proc)
    requires Inv(s) && ProcOk(s, p)
    ensures ProcOk(Next(s, a), p)
  {
    hide Inv, Next, WorkerOk, Routed, DispatchReady, SubmitReady;
    var t := Next(s, a);
    NextGrows(s, a);
    if p.Consumer? && p.phase.Handling? {
      assert LogOf(t.w.logs, p.part)[p.pos] == LogOf(s.w.logs, p.part)[p.pos];
      if p.part.topic == TOPIC_PENDING {
        if Routed(s.w, p.phase.raw) {
          RoutedKept(s, t, p.phase.raw);
        }
      } else if p.phase.raw.Json? {
        WorkerKept(s, a, p.phase);
      }
    }
  }

  lemma FinishedKept(s: State, a: Action, f: Slot)
    requires Inv(s) && FinishedOk(s, f)
    ensures FinishedOk(Next(s, a), f)
  {
    hide Inv, Next, Resolved, Routed;
    var t := Next(s, a);
    NextGrows(s, a);
    var raw := LogOf(s.w.logs, f.part)[f.offset];
    assert LogOf(t.w.logs, f.part)[f.offset] == raw;
    if raw.Json? {
      if f.part.topic == TOPIC_PENDING {
        RoutedKept(s, t, raw);
      } else {
        ResolvedKept(s, a, raw.task.id);
      }
    }
  }

  // ----- programs start out ready -----

  lemma RouteReady(raw: Raw, v: Verdict)
    ensures DispatchReady(RouteProgram(raw, v), raw, false) && DispatchReady(RouteProgram(raw, v), raw, true)
  {
    var p := RouteProgram(raw, v);
    if |p| == 2 {
      assert p[1..][1..] == [];
      assert DispatchReady(p[1..], raw, true);
    } else {
      assert p[1..] == [];
    }
  }

  lemma SubmitProgramReady(task: Task, fired: bool)
    ensures SubmitReady(SubmitProgram(task, fired), task)
  {
  }

  lemma ReadyCons(c: Cmd, rest: seq<Cmd>, raw: Raw, handled: bool)
    requires raw.Json?
    ensures Ready([c] + rest, raw, handled) ==
            match c.effect
            case StatusSet(id, s) =>
              && id == raw.task.id && s != Failed && (s == Done ==> handled) && (c.abort ==> s == Running)
              && (s == Dead ==> DlqCmd(raw) in rest && Redelivery.NoAbort(rest))
              && Ready(rest, raw, handled)
            case Invoked(id, ok) => id == raw.task.id && !c.abort && Ready(rest, raw, handled || ok)
            case Published(_, _, _) => c == DlqCmd(raw) && Ready(rest, raw, handled)
            case _ => !c.abort && Ready(rest, raw, handled)
  {
    assert ([c] + rest)[1..] == rest;
  }

  /** The four writes both endings share, before what follows them. */
  lemma WritesReady(raw: Raw, s: Status, meta: Task, x: Execution, tail: seq<Cmd>)
    requires raw.Json? && (s == Done || s == Dead) && Ready(tail, raw, s == Done)
    requires s == Dead ==> DlqCmd(raw) in tail && Redelivery.NoAbort(tail)
    ensures Ready([Cmd(StatusSet(raw.task.id, s), false)] + ([Cmd(MetaSet(meta), false)] +
                  ([Cmd(ExecutionAdded(x), false)] + ([Cmd(RowUpdated(raw.task.id, s), false)] + tail))),
                  raw, s == Done)
  {
    var a, b, c := Cmd(MetaSet(meta), false), Cmd(ExecutionAdded(x), false), Cmd(RowUpdated(raw.task.id, s), false);
    var after := [a] + ([b] + ([c] + tail));
    assert Ready(after, raw, s == Done) by {
      ReadyCons(c, tail, raw, s == Done);
      ReadyCons(b, [c] + tail, raw, s == Done);
      ReadyCons(a, [b] + ([c] + tail), raw, s == Done);
    }
    ReadyCons(Cmd(StatusSet(raw.task.id, s), false), after, raw, s == Done);
  }

  lemma FinishReady(cfg: Config, task: Task, d: Delivery)
    requires d.raw == Json(task)
    ensures Ready(Finish(cfg, task, d), d.raw, LastStatus(cfg, d) == Done)
    ensures LastStatus(cfg, d) == Dead ==> DlqCmd(d.raw) in Finish(cfg, task, d)
  {
    hide Calls, Row, Ready;
    var p, s := Finish(cfg, task, d), LastStatus(cfg, d);
    var tail := if s == Done then [] else [DlqCmd(d.raw)];
    TailReady(d.raw, s == Done);
    WritesReady(d.raw, s, p[1].effect.task, p[2].effect.execution, tail);
    assert p == [Cmd(StatusSet(task.id, s), false)] + ([Cmd(MetaSet(p[1].effect.task), false)] +
                ([Cmd(ExecutionAdded(p[2].effect.execution), false)] + ([Cmd(RowUpdated(task.id, s), false)] + tail)));
    assert s == Dead ==> p[4] == DlqCmd(d.raw);
  }

  lemma TailReady(raw: Raw, ok: bool)
    requires raw.Json?
    ensures Ready(if ok then [] else [DlqCmd(raw)], raw, ok)
  {
    ReadyCons(DlqCmd(raw), [], raw, ok);
    assert [DlqCmd(raw)] == [DlqCmd(raw)] + [];
  }

  /** The attempts, whose last call decides, before an ending that fits. */
  lemma {:induction false} AttemptsReady(raw: Raw, script: Retry.Script, limit: nat, n: nat, rest: seq<Cmd>,
                                         handled: bool)
    requires raw.Json? && 1 <= n <= limit
    requires Ready(rest, raw, script.ok(Retry.Last(script, limit, n)))
    ensures Ready(Retry.Attempts(raw.task.id, script, limit, n) + rest, raw, handled)
    decreases limit - n
  {
    var call := Cmd(Invoked(raw.task.id, script.ok(n)), false);
    var retry := Cmd(StatusSet(raw.task.id, Retrying), false);
    var all := Retry.Attempts(raw.task.id, script, limit, n) + rest;
    var h := handled || script.ok(n);
    if script.ok(n) || n == limit {
      assert all == [call] + rest;
      if h && !script.ok(n) {
        ReadyHandled(rest, raw);
      }
      ReadyCons(call, rest, raw, handled);
    } else {
      var after := if script.cancel(n) then rest else Retry.Attempts(raw.task.id, script, limit, n + 1) + rest;
      assert all == [call] + ([retry] + after);
      if script.cancel(n) {
        if h {
          ReadyHandled(rest, raw);
        }
      } else {
        AttemptsReady(raw, script, limit, n + 1, rest, h);
      }
      ReadyCons(retry, after, raw, h);
      ReadyCons(call, [retry] + after, raw, handled);
    }
  }

  lemma {:induction false} AttemptsCall(id: string, script: Retry.Script, limit: nat, n: nat)
    requires 1 <= n <= limit && script.ok(Retry.Last(script, limit, n))
    ensures Cmd(Invoked(id, true), false) in Retry.Attempts(id, script, limit, n)
    decreases limit - n
  {
    if !Retry.Stops(script, limit, n) {
      AttemptsCall(id, script, limit, n + 1);
    }
  }

  lemma ExecutedReady(cfg: Config, d: Delivery, handled: bool)
    requires d.raw.Json?
    ensures Ready(Executed(cfg, d.raw.task, d), d.raw, handled) && Promises(Executed(cfg, d.raw.task, d), d.raw)
  {
    hide Finish, Ready;
    var task := d.raw.task;
    var limit := Retry.Limit(cfg.maxRetries + 1);
    FinishReady(cfg, task, d);
    AttemptsReady(d.raw, d.script, limit, 1, Finish(cfg, task, d), handled);
    ReadyCons(Cmd(StatusSet(task.id, Running), true), Body(cfg, task, d), d.raw, handled);
    if LastStatus(cfg, d) == Done {
      AttemptsCall(task.id, d.script, limit, 1);
    }
  }

  lemma NoHandlerReady(raw: Raw, handled: bool)
    requires raw.Json?
    ensures Ready(NoHandler(raw.task, raw), raw, handled) && Promises(NoHandler(raw.task, raw), raw)
  {
    var dead := Cmd(StatusSet(raw.task.id, Dead), false);
    assert NoHandler(raw.task, raw) == [dead] + ([DlqCmd(raw)] + []);
    ReadyCons(DlqCmd(raw), [], raw, handled);
    ReadyCons(dead, [DlqCmd(raw)] + [], raw, handled);
  }

  lemma ProgramReady(s: State, cfg: Config, d: Delivery)
    requires StatusOk(s) && d.raw.Json?
    ensures WorkerOk(s, Handling(d.raw, Program(cfg, d, Guard(s.w, d)), false))
  {
    hide Executed, NoHandler, OnTopic, Held, Handled;
    ExecutedReady(cfg, d, Handled(s.w, d.raw.task.id));
    NoHandlerReady(d.raw, Handled(s.w, d.raw.task.id));
    var id := d.raw.task.id;
    if Redelivery.Stopped(s.w, d) {
      assert Earned(s, id, s.w.status[id].value);
      assert Program(cfg, d, Guard(s.w, d)) == [];
    }
  }

  // ----- the process a step moves -----

  lemma HandlingKnown(s: State, q: nat)
    requires Inv(s) && q in s.procs && s.procs[q].Consumer? && s.procs[q].phase.Handling?
    ensures HandlingOk(s, s.procs[q].part, s.procs[q].pos, s.procs[q].phase) && Known(s, s.procs[q].phase.raw)
  {
    hide WorkerOk, Routed, DispatchReady, StatusOk, AcceptedOk, FinishedOk, Passed;
    assert ProcOk(s, s.procs[q]);
  }

  lemma JunkDoesNothing(cfg: Config, d: Delivery, guard: Option<Status>)
    requires d.raw.Junk?
    ensures Program(cfg, d, guard) == []
  {
  }

  lemma BeginKeeps(s: State, a: Action)
    requires Inv(s) && a.Begin? && Enabled(s, a)
    ensures ProcOk(Next(s, a), Next(s, a).procs[a.q])
  {
    hide WorkerOk, Routed, DispatchReady, Program, RouteProgram, StatusOk, AcceptedOk, FinishedOk;
    var p := s.procs[a.q];
    var phase := Handling(a.d.raw, ProgramFor(s, p.part, a.v, a.cfg, a.d), false);
    var started := Consumer(p.part, p.pos, phase);
    assert Next(s, a).procs[a.q] == started;
    if p.part.topic == TOPIC_PENDING {
      RouteReady(a.d.raw, a.v);
    } else if a.d.raw.Json? {
      ProgramReady(s, a.cfg, a.d);
    } else {
      JunkDoesNothing(a.cfg, a.d, Guard(s.w, a.d));
    }
    assert ProcOk(s, p);
    ProcKept(s, a, started);
  }

  /** The command a consumer executes next does not end its handler. */
  predicate Continues(s: State, q: nat, r: Reply) {
    && Enabled(s, Step(q, r)) && s.procs[q].Consumer?
    && var c := s.procs[q].phase.todo[0];
       !(c.abort && Errs(s.w, c.effect, r))
  }

  lemma StepReady(s: State, q: nat, r: Reply)
    requires Continues(s, q, r) && s.procs[q].phase.raw.Json? && WorkerOk(s, s.procs[q].phase)
    ensures var t, phase := ConsumerStep(s, q, r), s.procs[q].phase;
            Ready(phase.todo[1..], phase.raw, Handled(t.w, phase.raw.task.id))
  {
    hide Resolved, Promises, Errs;
    var t, raw, todo := ConsumerStep(s, q, r), s.procs[q].phase.raw, s.procs[q].phase.todo;
    var id, e := raw.task.id, todo[0].effect;
    var before := Handled(s.w, id) || (e.Invoked? && e.ok);
    assert Ready(todo[1..], raw, before);
    if e.Invoked? {
      assert t.w.calls == s.w.calls + [(id, e.ok)];
    } else {
      assert t.w.calls == s.w.calls;
    }
    if before && !Handled(s.w, id) {
      assert t.w.calls[|s.w.calls|] == (id, true);
    }
  }

  lemma StepResolves(s: State, q: nat, r: Reply)
    requires Continues(s, q, r) && s.procs[q].phase.raw.Json? && Known(s, s.procs[q].phase.raw)
    requires Promises(s.procs[q].phase.todo, s.procs[q].phase.raw)
    ensures var t, phase := ConsumerStep(s, q, r), s.procs[q].phase;
            Promises(phase.todo[1..], phase.raw) || Resolved(t, phase.raw.task.id)
  {
    hide Errs, Held;
    var t, raw, todo := ConsumerStep(s, q, r), s.procs[q].phase.raw, s.procs[q].phase.todo;
    var id := raw.task.id;
    if !Promises(todo[1..], raw) {
      assert todo == [todo[0]] + todo[1..];
      if todo[0] == DlqCmd(raw) {
        if !r.outcome.Refused? {
          assert raw in LogOf(t.w.logs, Partition(TOPIC_DLQ, r.partition));
          assert OnTopic(t.w, TOPIC_DLQ, raw);
        } else {
          assert id in t.dropped;
        }
      } else {
        assert todo[0] == Cmd(Invoked(id, true), false);
        assert t.w.calls[|s.w.calls|] == (id, true);
        assert Handled(t.w, id);
      }
    }
  }

  lemma WorkerStepKeeps(s: State, q: nat, r: Reply)
    requires Inv(s) && Continues(s, q, r) && s.procs[q].part.topic != TOPIC_PENDING && s.procs[q].phase.raw.Json?
    ensures WorkerOk(Next(s, Step(q, r)), Next(s, Step(q, r)).procs[q].phase)
  {
    hide Inv, Resolved, Promises, Apply, Errs, Handled;
    HandlingKnown(s, q);
    var t, phase := Next(s, Step(q, r)), s.procs[q].phase;
    assert t == ConsumerStep(s, q, r);
    StepReady(s, q, r);
    if Resolved(s, phase.raw.task.id) {
      ResolvedKept(s, Step(q, r), phase.raw.task.id);
    } else {
      StepResolves(s, q, r);
    }
  }

  lemma DispatchStepKeeps(s: State, q: nat, r: Reply)
    requires Inv(s) && Continues(s, q, r) && s.procs[q].part.topic == TOPIC_PENDING
    ensures var t := Next(s, Step(q, r));
            HandlingOk(t, s.procs[q].part, s.procs[q].pos, t.procs[q].phase)
  {
    hide Inv, WorkerOk;
    HandlingKnown(s, q);
    var t, phase := Next(s, Step(q, r)), s.procs[q].phase;
    assert t == ConsumerStep(s, q, r);
    NextGrows(s, Step(q, r));
    var e := phase.todo[0].effect;
    if e.Published? {
      assert phase.raw in LogOf(t.w.logs, Partition(e.topic, r.partition));
      assert OnTopic(t.w, e.topic, phase.raw);
    } else if Routed(s.w, phase.raw) {
      RoutedKept(s, t, phase.raw);
    }
  }

  lemma ConsumerStepKeeps(s: State, q: nat, r: Reply)
    requires Inv(s) && Enabled(s, Step(q, r)) && s.procs[q].Consumer?
    ensures ProcOk(Next(s, Step(q, r)), Next(s, Step(q, r)).procs[q])
  {
    hide Inv, WorkerOk, Routed, DispatchReady, Apply, Errs;
    HandlingKnown(s, q);
    PassedBy(s, q);
    NextGrows(s, Step(q, r));
    var t, p := Next(s, Step(q, r)), s.procs[q];
    assert t == ConsumerStep(s, q, r);
    if Continues(s, q, r) {
      if p.part.topic == TOPIC_PENDING {
        DispatchStepKeeps(s, q, r);
      } else {
        WorkerStepKeeps(s, q, r);
      }
    }
  }

  lemma PassedBy(s: State, q: nat)
    requires Inv(s) && q in s.procs && s.procs[q].Consumer?
    ensures s.procs[q].part.topic != TOPIC_DLQ && Passed(s, s.procs[q].part, s.procs[q].pos)
    ensures s.procs[q].phase.Returned? ==> Slot(s.procs[q].part, s.procs[q].pos) in s.finished
  {
    hide HandlingOk, StatusOk, AcceptedOk, FinishedOk;
    assert ProcOk(s, s.procs[q]);
  }

  lemma SubmitterStepKeeps(s: State, q: nat, r: Reply)
    requires Inv(s) && Enabled(s, Step(q, r)) && s.procs[q].Submitter?
    ensures q in Next(s, Step(q, r)).procs ==> ProcOk(Next(s, Step(q, r)), Next(s, Step(q, r)).procs[q])
  {
    hide HandlingOk, StatusOk, AcceptedOk, FinishedOk, Apply, Errs;
    assert ProcOk(s, s.procs[q]);
  }

  /** Every live process is where it may be. */
  lemma ProcsKept(s: State, a: Action, q: nat)
    requires Inv(s) && q in Next(s, a).procs
    ensures ProcOk(Next(s, a), Next(s, a).procs[q])
  {
    hide HandlingOk, StatusOk, AcceptedOk, FinishedOk, ConsumerStep, SubmitterStep, Apply, ProgramFor, Errs, Holding;
    var t := Next(s, a);
    if q in s.procs && t.procs[q] == s.procs[q] {
      ProcKept(s, a, s.procs[q]);
    } else {
      match a
      case Submit(_, task, fired) => SubmitProgramReady(task, fired);
      case Begin(_, _, _, _) => BeginKeeps(s, a);
      case Step(_, r) =>
        OthersUntouched(s, a, q);
        if s.procs[q].Consumer? {
          ConsumerStepKeeps(s, q, r);
        } else {
          SubmitterStepKeeps(s, q, r);
        }
      case Return(_) => PassedBy(s, q);
      case Commit(_, _) => PassedBy(s, q);
      case Stop(_) =>
      case Join(_, part) => assert Passed(s, part, CommittedAt(s, part));
    }
  }

  lemma OthersUntouched(s: State, a: Action, q: nat)
    requires a.Step? && q in Next(s, a).procs && !(q in s.procs && Next(s, a).procs[q] == s.procs[q])
    ensures a.q == q && Enabled(s, a)
  {
    hide Apply, Errs;
  }

  // ----- the shared state after a step -----

  /** What a process may publish and store. */
  ghost predicate Proper(s: State, e: Effect) {
    match e
    case Published(_, _, raw) => Known(s, raw)
    case StatusSet(id, st) => IsTerminal(st) ==> st == Done || st == Dead
    case _ => true
  }

  lemma EffectProper(s: State, q: nat, r: Reply)
    requires Inv(s) && Enabled(s, Step(q, r))
    ensures Proper(s, if s.procs[q].Submitter? then s.procs[q].todo[0].effect else s.procs[q].phase.todo[0].effect)
  {
    hide StatusOk, AcceptedOk, FinishedOk, Routed, Resolved;
    if s.procs[q].Submitter? {
      assert ProcOk(s, s.procs[q]);
    } else {
      HandlingKnown(s, q);
    }
  }

  lemma LogsKept(s: State, a: Action)
    requires Inv(s)
    ensures LogsOk(Next(s, a))
  {
    hide StatusOk, AcceptedOk, FinishedOk, ProcOk, Errs, Holding, ProgramFor;
    var t := Next(s, a);
    NextGrows(s, a);
    if a.Step? && Enabled(s, a) {
      EffectProper(s, a.q, a.reply);
      var e := if s.procs[a.q].Submitter? then s.procs[a.q].todo[0].effect else s.procs[a.q].phase.todo[0].effect;
      assert t.w == Apply(s.w, e, a.reply);
      ApplyLogs(s, e, a.reply);
    }
  }

  lemma ApplyLogs(s: State, e: Effect, r: Reply)
    requires LogsOk(s) && Proper(s, e)
    ensures LogsOk(s.(w := Apply(s.w, e, r)))
  {
    var t := s.(w := Apply(s.w, e, r));
    forall p: Partition, k: nat | k < |LogOf(t.w.logs, p)|
      ensures Known(t, LogOf(t.w.logs, p)[k])
    {
      if k < |LogOf(s.w.logs, p)| {
        ApplyGrows(s.w, e, r, p);
        assert LogOf(t.w.logs, p)[k] == LogOf(s.w.logs, p)[k];
      } else {
        assert e.Published? && LogOf(t.w.logs, p)[k] == e.raw;
      }
    }
  }

  lemma StatusUnchanged(w: World, e: Effect, r: Reply, id: string)
    requires !(e.StatusSet? && e.id == id)
    ensures id in Apply(w, e, r).status <==> id in w.status
    ensures id in w.status ==> Apply(w, e, r).status[id] == w.status[id]
  {
  }

  lemma StatusWritten(w: World, e: Effect, r: Reply)
    requires e.StatusSet?
    ensures r.outcome.Refused? ==> Apply(w, e, r).status == w.status
    ensures !r.outcome.Refused? ==> e.id in Apply(w, e, r).status && Apply(w, e, r).status[e.id].value == e.status
  {
  }

  /** DONE is stored only after a handler call that returned nil, DEAD only with the DLQ publish still to come. */
  lemma TerminalWriteEarned(s: State, q: nat, r: Reply)
    requires Inv(s) && Enabled(s, Step(q, r)) && s.procs[q].Consumer? && !r.outcome.Refused?
    requires s.procs[q].phase.todo[0].effect.StatusSet?
    ensures var e := s.procs[q].phase.todo[0].effect;
            && Earned(Next(s, Step(q, r)), e.id, e.status)
            && (e.status == Done ==> Handled(s.w, e.id))
            && (e.status == Dead ==> e.id in s.submitted && Held(Next(s, Step(q, r)), Json(s.submitted[e.id])))
  {
    hide Inv, Routed, Promises, Errs, OnTopic, Apply;
    HandlingKnown(s, q);
    var t, p := Next(s, Step(q, r)), s.procs[q];
    var c := p.phase.todo[0];
    NextGrows(s, Step(q, r));
    assert t == ConsumerStep(s, q, r);
    if c.effect.status == Done {
      HandledKept(s, t, c.effect.id);
    } else if c.effect.status == Dead {
      assert c.effect.id == p.phase.raw.task.id && !c.abort;
      assert Holding(t.procs[q], p.phase.raw);
      assert Held(t, p.phase.raw);
    }
  }

  lemma SubmitterWrites(s: State, q: nat, r: Reply)
    requires Inv(s) && Enabled(s, Step(q, r)) && s.procs[q].Submitter?
    ensures var e := s.procs[q].todo[0].effect;
            && (e.StatusSet? ==> !IsTerminal(e.status))
            && (e.Published? ==> e.topic == TOPIC_PENDING && e.raw == Json(s.procs[q].task))
            && Known(s, Json(s.procs[q].task))
  {
    hide StatusOk, AcceptedOk, FinishedOk, HandlingOk;
    assert ProcOk(s, s.procs[q]);
  }

  lemma StatusKept(s: State, a: Action, id: string)
    requires Inv(s) && id in Next(s, a).w.status
    ensures Earned(Next(s, a), id, Next(s, a).w.status[id].value)
  {
    hide LogsOk, AcceptedOk, FinishedOk, ProcOk, Errs, Holding, ProgramFor, Earned, Apply;
    var t := Next(s, a);
    if a.Step? && Enabled(s, a) {
      var p := s.procs[a.q];
      var e := if p.Submitter? then p.todo[0].effect else p.phase.todo[0].effect;
      assert t.w == Apply(s.w, e, a.reply);
      if e.StatusSet? && e.id == id && !a.reply.outcome.Refused? {
        StatusWritten(s.w, e, a.reply);
        if p.Submitter? {
          SubmitterWrites(s, a.q, a.reply);
          NothingToEarn(t, id, e.status);
        } else {
          TerminalWriteEarned(s, a.q, a.reply);
        }
      } else {
        if e.StatusSet? && e.id == id {
          StatusWritten(s.w, e, a.reply);
        } else {
          StatusUnchanged(s.w, e, a.reply, id);
        }
        EarnedKept(s, a, id, s.w.status[id].value);
      }
    } else {
      assert t.w.status == s.w.status;
      EarnedKept(s, a, id, s.w.status[id].value);
    }
  }

  lemma NothingToEarn(s: State, id: string, status: Status)
    requires !IsTerminal(status)
    ensures Earned(s, id, status)
  {
  }

  lemma AcceptedKept(s: State, a: Action, id: string)
    requires Inv(s) && id in Next(s, a).accepted
    ensures id in Next(s, a).submitted && OnTopic(Next(s, a).w, TOPIC_PENDING, Json(Next(s, a).submitted[id]))
  {
    hide LogsOk, StatusOk, FinishedOk, ProcOk, Errs, Holding, ProgramFor, Apply, OnTopic;
    var t := Next(s, a);
    NextGrows(s, a);
    if id in s.accepted {
      OnTopicKept(s, t, TOPIC_PENDING, Json(s.submitted[id]));
    } else {
      SubmitterWrites(s, a.q, a.reply);
      PublishAdds(s.w, s.procs[a.q].todo[0].effect, a.reply, TOPIC_PENDING, Json(t.submitted[id]));
      assert t.w == Apply(s.w, s.procs[a.q].todo[0].effect, a.reply);
    }
  }

  lemma ReturnFinishes(s: State, q: nat)
    requires Inv(s) && Enabled(s, Return(q))
    ensures FinishedOk(s, Slot(s.procs[q].part, s.procs[q].pos))
  {
    hide Inv, Resolved, Routed;
    HandlingKnown(s, q);
  }

  lemma FinishedAllKept(s: State, a: Action, f: Slot)
    requires Inv(s) && f in Next(s, a).finished
    ensures FinishedOk(Next(s, a), f)
  {
    hide LogsOk, StatusOk, AcceptedOk, FinishedOk, ProcOk, Errs, Holding, ProgramFor, Apply;
    if f !in s.finished {
      ReturnFinishes(s, a.q);
    }
    FinishedKept(s, a, f);
  }

  lemma CommittedKept(s: State, a: Action, p: Partition)
    requires Inv(s)
    ensures Passed(Next(s, a), p, CommittedAt(Next(s, a), p))
  {
    hide LogsOk, StatusOk, AcceptedOk, FinishedOk, ProcOk, Errs, Holding, ProgramFor, Apply;
    NextGrows(s, a);
    assert Passed(s, p, CommittedAt(s, p));
    if a.Commit? && Enabled(s, a) {
      PassedBy(s, a.q);
    }
  }

  lemma NextKeepsInv(s: State, a: Action)
    requires Inv(s)
    ensures Inv(Next(s, a))
  {
    var t := Next(s, a);
    LogsKept(s, a);
    assert StatusOk(t) by {
      forall id | id in t.w.status
        ensures Earned(t, id, t.w.status[id].value)
      {
        StatusKept(s, a, id);
      }
    }
    assert AcceptedOk(t) by {
      forall id | id in t.accepted
        ensures id in t.submitted && OnTopic(t.w, TOPIC_PENDING, Json(t.submitted[id]))
      {
        AcceptedKept(s, a, id);
      }
    }
    hide Next, LogsOk, StatusOk, AcceptedOk, FinishedOk, ProcOk, Passed, OnTopic, Resolved;
    forall f | f in t.finished
      ensures FinishedOk(t, f)
    {
      FinishedAllKept(s, a, f);
    }
    forall p: Partition
      ensures Passed(t, p, CommittedAt(t, p))
    {
      CommittedKept(s, a, p);
    }
    forall q | q in t.procs
      ensures ProcOk(t, t.procs[q])
    {
      ProcsKept(s, a, q);
    }
    SubmittedIds(s, a);
  }

  lemma SubmittedIds(s: State, a: Action)
    requires forall id :: id in s.submitted ==> s.submitted[id].id == id
    ensures forall id :: id in Next(s, a).submitted ==> Next(s, a).submitted[id].id == id
  {
    hide Apply, Errs, ProgramFor, Holding;
  }

  lemma {:induction false} RunKeepsInv(actions: seq<Action>)
    ensures Inv(Run(actions))
    decreases |actions|
  {
    hide Inv, Next;
    if actions == [] {
      EmptyHolds();
    } else {
      RunKeepsInv(actions[..|actions| - 1]);
      NextKeepsInv(Run(actions[..|actions| - 1]), actions[|actions| - 1]);
    }
  }

  lemma EmptyHolds()
    ensures Inv(EMPTY)
  {
  }

  /**
   In every run a stored DONE means that the handler returned nil, a stored DEAD that the message is in the DLQ or
   held by a worker about to send it there, unless one of the two DLQ faults happened; FAILED is never stored.
   */
  lemma StoredStatusEarned(actions: seq<Action>, id: string)
    requires id in Run(actions).w.status
    ensures Earned(Run(actions), id, Run(actions).w.status[id].value)
  {
    hide Run, LogsOk, AcceptedOk, FinishedOk, ProcOk, Earned;
    RunKeepsInv(actions);
  }

  // ----- conservation -----

  /** A record of the message is at or past the stored offset of its partition. */
  ghost predicate Waiting(s: State, topic: string, raw: Raw) {
    exists p: Partition, k: nat ::
      p.topic == topic && CommittedAt(s, p) <= k < |LogOf(s.w.logs, p)| && LogOf(s.w.logs, p)[k] == raw
  }

  /** Still to be delivered, handled with nil, in the DLQ, or with a live worker that is about to send it there. */
  ghost predicate Safe(s: State, id: string)
    requires id in s.submitted
  {
    var raw := Json(s.submitted[id]);
    || Waiting(s, TOPIC_PENDING, raw) || Waiting(s, WorkerTopic(raw.task.taskType), raw)
    || Handled(s.w, id) || OnTopic(s.w, TOPIC_DLQ, raw) || Held(s, raw)
  }

  /** A commit has passed the message although its handler never returned nil, only an error. */
  ghost predicate Skipped(s: State, raw: Raw) {
    exists p: Partition, k: nat ::
      && p.topic != TOPIC_DLQ && k < CommittedAt(s, p) && k < |LogOf(s.w.logs, p)| && LogOf(s.w.logs, p)[k] == raw
      && Slot(p, k) in s.errored && Slot(p, k) !in s.finished
  }

  /** A record is waiting, was skipped, or its handler returned nil. */
  lemma RecordFate(s: State, topic: string, raw: Raw) returns (slot: Slot)
    requires Inv(s) && OnTopic(s.w, topic, raw) && topic != TOPIC_DLQ
    ensures slot.part.topic == topic && slot.offset < |LogOf(s.w.logs, slot.part)|
    ensures LogOf(s.w.logs, slot.part)[slot.offset] == raw
    ensures Waiting(s, topic, raw) || Skipped(s, raw) || (slot in s.finished && FinishedOk(s, slot))
  {
    hide StatusOk, AcceptedOk, ProcOk, LogsOk, FinishedOk;
    var p: Partition :| p.topic == topic && raw in LogOf(s.w.logs, p);
    var k :| 0 <= k < |LogOf(s.w.logs, p)| && LogOf(s.w.logs, p)[k] == raw;
    slot := Slot(p, k);
    if k < CommittedAt(s, p) {
      assert Passed(s, p, CommittedAt(s, p));
    }
  }

  /**
   In every run, whatever fails and whoever stops, a task that reached tasks.pending is safe, or is accounted for
   by one of three faults: a commit passed its message after its handler returned an error, a worker stopped
   between storing DEAD and publishing to the DLQ, or that publish was refused.
   */
  lemma Conservation(actions: seq<Action>, id: string)
    requires id in Run(actions).accepted
    ensures var s := Run(actions);
            && id in s.submitted
            && (Safe(s, id) || Skipped(s, Json(s.submitted[id])) || id in s.stopped || id in s.dropped)
  {
    RunKeepsInv(actions);
    ConservedIn(Run(actions), id);
  }

  lemma ConservedIn(s: State, id: string)
    requires Inv(s) && id in s.accepted
    ensures id in s.submitted
    ensures Safe(s, id) || Skipped(s, Json(s.submitted[id])) || id in s.stopped || id in s.dropped
  {
    hide StatusOk, ProcOk, LogsOk, OnTopic, Waiting, Skipped, Held, Handled;
    var raw := Json(s.submitted[id]);
    var worker := WorkerTopic(raw.task.taskType);
    WorkerTopicsDistinct(raw.task.taskType, raw.task.taskType);
    var slot := RecordFate(s, TOPIC_PENDING, raw);
    if !Waiting(s, TOPIC_PENDING, raw) && !Skipped(s, raw) && !OnTopic(s.w, TOPIC_DLQ, raw) {
      assert OnTopic(s.w, worker, raw);
      var next := RecordFate(s, worker, raw);
      if !Waiting(s, worker, raw) {
        assert Resolved(s, raw.task.id);
      }
    }
  }

  /** Replies are acknowledged, and no worker stops between its DEAD write and its DLQ publish. Commits may fail. */
  predicate Gentle(s: State, a: Action) {
    match a
    case Step(_, r) => r.outcome.Applied?
    case Stop(q) => q in s.procs && s.procs[q].Consumer? && s.procs[q].phase.Handling? ==>
                      !Holding(s.procs[q], s.procs[q].phase.raw)
    case _ => true
  }

  predicate GentleRun(actions: seq<Action>) {
    actions == [] ||
    (GentleRun(actions[..|actions| - 1]) && Gentle(Run(actions[..|actions| - 1]), actions[|actions| - 1]))
  }

  lemma GentleStep(s: State, q: nat, r: Reply)
    requires Inv(s) && r.outcome.Applied? && Enabled(s, Step(q, r)) && s.procs[q].Consumer?
    ensures Continues(s, q, r)
  {
    hide Inv, Resolved, Routed, Promises;
    HandlingKnown(s, q);
  }

  lemma {:induction false} GentleIsClean(actions: seq<Action>)
    requires GentleRun(actions)
    ensures Run(actions).errored == {} && Run(actions).stopped == {} && Run(actions).dropped == {}
    decreases |actions|
  {
    hide Inv, Apply, Errs, Holding, ProgramFor;
    if actions != [] {
      var before, a := actions[..|actions| - 1], actions[|actions| - 1];
      GentleIsClean(before);
      RunKeepsInv(before);
      var s := Run(before);
      if a.Step? && Enabled(s, a) && s.procs[a.q].Consumer? {
        GentleStep(s, a.q, a.reply);
      }
    }
  }

  /** Then no task is ever lost: it is always safe. */
  lemma GentleConservation(actions: seq<Action>, id: string)
    requires GentleRun(actions) && id in Run(actions).accepted
    ensures id in Run(actions).submitted && Safe(Run(actions), id)
  {
    hide Safe;
    Conservation(actions, id);
    GentleIsClean(actions);
  }
}
