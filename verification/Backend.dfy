/**
 Redis task state, the Postgres tables and the Kafka logs as one shared world, changed one effect at a time.

 Every effect gets a reply from the environment: it is applied and acknowledged, applied with the
 acknowledgement lost, or refused. Time passes only through the `after` part of a reply.
 */
module Backend {
  import opened Domain

  const STATE_TTL: int := 86_400_000_000_000

  datatype Entry<+T> = Entry(value: T, expires: int)

  datatype Partition = Partition(topic: string, index: nat)

  datatype Outcome = Applied | Lost | Refused

  /** `partition` is where the balancer puts a published record. */
  datatype Reply = Reply(outcome: Outcome, after: nat, partition: nat)

  datatype Effect =
    | StatusSet(id: string, status: Status)
    | MetaSet(task: Task)
    | RowCreated(task: Task)
    | RowUpdated(id: string, status: Status)
    | ExecutionAdded(execution: Execution)
    | Published(topic: string, key: string, raw: Raw)
    | Invoked(id: string, ok: bool)

  /** `calls` is the history of handler calls: the task and whether the handler returned nil. */
  datatype World = World(
    now: int,
    status: map<string, Entry<Status>>,
    meta: map<string, Entry<Task>>,
    rows: map<string, Task>,
    executions: seq<Execution>,
    logs: map<Partition, seq<Raw>>,
    calls: seq<(string, bool)>)

  function LogOf(logs: map<Partition, seq<Raw>>, p: Partition): seq<Raw> {
    if p in logs then logs[p] else []
  }

  function Live<T>(entries: map<string, Entry<T>>, id: string, now: int): Option<T> {
    if id in entries && now < entries[id].expires then Some(entries[id].value) else None
  }

  /** tasks.id is a primary key and task_executions.task_id references it. */
  predicate Admits(w: World, e: Effect) {
    match e
    case RowCreated(task) => task.id !in w.rows
    case ExecutionAdded(x) => x.taskId in w.rows
    case _ => true
  }

  /** The caller of the effect sees an error. */
  predicate Errs(w: World, e: Effect, r: Reply) {
    !e.Invoked? && (!r.outcome.Applied? || !Admits(w, e))
  }

  function Take(w: World, e: Effect, partition: nat): World {
    match e
    case StatusSet(id, s) => w.(status := w.status[id := Entry(s, w.now + STATE_TTL)])
    case MetaSet(task) => w.(meta := w.meta[task.id := Entry(task, w.now + STATE_TTL)])
    case RowCreated(task) => if task.id in w.rows then w else w.(rows := w.rows[task.id := task])
    case RowUpdated(id, s) =>
      if id !in w.rows then w
      else w.(rows := w.rows[id := w.rows[id].(status := s, updatedAt := w.now,
                                               completedAt := if IsTerminal(s) then Some(w.now) else None)])
    case ExecutionAdded(x) => if x.taskId in w.rows then w.(executions := w.executions + [x]) else w
    case Published(topic, _, raw) =>
      var p := Partition(topic, partition);
      w.(logs := w.logs[p := LogOf(w.logs, p) + [raw]])
    case Invoked(id, ok) => w.(calls := w.calls + [(id, ok)])
  }

  function Apply(w: World, e: Effect, r: Reply): World {
    var later := w.(now := w.now + r.after);
    if r.outcome.Refused? && !e.Invoked? then later else Take(later, e, r.partition)
  }

  ghost predicate OnTopic(w: World, topic: string, raw: Raw) {
    exists p: Partition :: p.topic == topic && raw in LogOf(w.logs, p)
  }

  /** A publish that is not refused adds its message to its topic and nothing anywhere else. */
  lemma PublishAdds(w: World, e: Effect, r: Reply, topic: string, raw: Raw)
    requires e.Published?
    ensures OnTopic(Apply(w, e, r), topic, raw) <==>
            OnTopic(w, topic, raw) || (!r.outcome.Refused? && e.topic == topic && e.raw == raw)
  {
    var t, at := Apply(w, e, r), Partition(e.topic, r.partition);
    if !r.outcome.Refused? {
      assert LogOf(t.logs, at) == LogOf(w.logs, at) + [e.raw];
      assert forall p :: p != at ==> LogOf(t.logs, p) == LogOf(w.logs, p);
      if OnTopic(w, topic, raw) {
        var p: Partition :| p.topic == topic && raw in LogOf(w.logs, p);
        assert raw in LogOf(t.logs, p);
      } else if e.topic == topic && e.raw == raw {
        assert raw in LogOf(t.logs, at);
      }
    } else {
      assert t.logs == w.logs;
    }
  }

  /** A handler's next effect; `abort` when its error makes the handler return an error at once. */
  datatype Cmd = Cmd(effect: Effect, abort: bool)

  /** How a program ended: the world it left, whether it returned an error, and the next unused reply. */
  datatype Ended = Ended(w: World, err: bool, next: nat)

  function Execute(w: World, program: seq<Cmd>, replies: nat -> Reply, i: nat): (e: Ended)
    decreases |program|
  {
    if program == [] then Ended(w, false, i)
    else
      var w1 := Apply(w, program[0].effect, replies(i));
      if program[0].abort && Errs(w, program[0].effect, replies(i)) then Ended(w1, true, i + 1)
      else Execute(w1, program[1..], replies, i + 1)
  }

  lemma ExecuteCons(w: World, c: Cmd, rest: seq<Cmd>, replies: nat -> Reply, i: nat)
    ensures Execute(w, [c] + rest, replies, i) ==
            var w1 := Apply(w, c.effect, replies(i));
            if c.abort && Errs(w, c.effect, replies(i)) then Ended(w1, true, i + 1)
            else Execute(w1, rest, replies, i + 1)
  {
    assert ([c] + rest)[1..] == rest;
  }

  lemma {:induction false} ExecuteConcat(w: World, a: seq<Cmd>, b: seq<Cmd>, replies: nat -> Reply, i: nat)
    ensures Execute(w, a + b, replies, i) ==
            var first := Execute(w, a, replies, i);
            if first.err then first else Execute(first.w, b, replies, first.next)
    decreases |a|
  {
    if a == [] {
      assert a + b == b;
    } else {
      assert (a + b)[0] == a[0] && (a + b)[1..] == a[1..] + b;
      ExecuteConcat(Apply(w, a[0].effect, replies(i)), a[1..], b, replies, i + 1);
    }
  }

  /** What a program asks for, kind by kind and in order. */
  datatype Trace = Trace(calls: seq<bool>, statuses: seq<Status>, executions: seq<Execution>,
                         publishes: seq<(string, Raw)>)

  function Join(a: Trace, b: Trace): Trace {
    Trace(a.calls + b.calls, a.statuses + b.statuses, a.executions + b.executions, a.publishes + b.publishes)
  }

  function Single(e: Effect): Trace {
    match e
    case Invoked(_, ok) => Trace([ok], [], [], [])
    case StatusSet(_, s) => Trace([], [s], [], [])
    case ExecutionAdded(x) => Trace([], [], [x], [])
    case Published(topic, _, raw) => Trace([], [], [], [(topic, raw)])
    case _ => Trace([], [], [], [])
  }

  function TraceOf(program: seq<Cmd>): Trace {
    if program == [] then Trace([], [], [], [])
    else Join(Single(program[0].effect), TraceOf(program[1..]))
  }

  lemma JoinAssociative(a: Trace, b: Trace, c: Trace)
    ensures Join(Join(a, b), c) == Join(a, Join(b, c))
  {
    assert a.calls + b.calls + c.calls == a.calls + (b.calls + c.calls);
    assert a.statuses + b.statuses + c.statuses == a.statuses + (b.statuses + c.statuses);
    assert a.executions + b.executions + c.executions == a.executions + (b.executions + c.executions);
    assert a.publishes + b.publishes + c.publishes == a.publishes + (b.publishes + c.publishes);
  }

  lemma {:induction false} TraceConcat(a: seq<Cmd>, b: seq<Cmd>)
    ensures TraceOf(a + b) == Join(TraceOf(a), TraceOf(b))
    decreases |a|
  {
    if a == [] {
      assert a + b == b;
    } else {
      assert (a + b)[0] == a[0] && (a + b)[1..] == a[1..] + b;
      TraceConcat(a[1..], b);
      JoinAssociative(Single(a[0].effect), TraceOf(a[1..]), TraceOf(b));
    }
  }

  lemma TraceCons(c: Cmd, rest: seq<Cmd>)
    ensures TraceOf([c] + rest) == Join(Single(c.effect), TraceOf(rest))
  {
    assert ([c] + rest)[1..] == rest;
  }

  /** The services a process talks to. The reply to the n-th effect is `replies(n)`. */
  class Services {
    var w: World
    var step: nat
    const replies: nat -> Reply

    constructor (w: World, replies: nat -> Reply)
      ensures this.w == w && step == 0 && this.replies == replies
    {
      this.w, this.step, this.replies := w, 0, replies;
    }

    /** What every write below does, stated once. */
    ghost function After(e: Effect): World
      reads this
    {
      Apply(w, e, replies(step))
    }

    method SetStatus(id: string, s: Status) returns (err: bool)
      modifies this`w, this`step
      ensures w == old(After(StatusSet(id, s))) && step == old(step) + 1
      ensures err == Errs(old(w), StatusSet(id, s), replies(old(step)))
      ensures err <==> !replies(old(step)).outcome.Applied?
      ensures w.now == old(w.now) + replies(old(step)).after
      ensures w == old(w).(now := w.now, status := w.status)
      ensures w.status == if replies(old(step)).outcome.Refused? then old(w.status)
                          else old(w.status)[id := Entry(s, w.now + 24 * 3600 * SECOND)]
    {
      var r := replies(step);
      w, step := w.(now := w.now + r.after), step + 1;
      if !r.outcome.Refused? {
        w := w.(status := w.status[id := Entry(s, w.now + STATE_TTL)]);
      }
      err := !r.outcome.Applied?;
    }

    method GetStatus(id: string, readable: bool) returns (s: Option<Status>)
      ensures s == if readable then Live(w.status, id, w.now) else None
      ensures s.Some? <==> readable && id in w.status && w.now < w.status[id].expires
      ensures s.Some? ==> s.value == w.status[id].value
    {
      s := None;
      if readable && id in w.status && w.now < w.status[id].expires {
        s := Some(w.status[id].value);
      }
    }

    method SetTaskMeta(task: Task) returns (err: bool)
      modifies this`w, this`step
      ensures w == old(After(MetaSet(task))) && step == old(step) + 1
      ensures err == Errs(old(w), MetaSet(task), replies(old(step)))
      ensures err <==> !replies(old(step)).outcome.Applied?
      ensures w.now == old(w.now) + replies(old(step)).after
      ensures w == old(w).(now := w.now, meta := w.meta)
      ensures w.meta == if replies(old(step)).outcome.Refused? then old(w.meta)
                        else old(w.meta)[task.id := Entry(task, w.now + 24 * 3600 * SECOND)]
    {
      var r := replies(step);
      w, step := w.(now := w.now + r.after), step + 1;
      if !r.outcome.Refused? {
        w := w.(meta := w.meta[task.id := Entry(task, w.now + STATE_TTL)]);
      }
      err := !r.outcome.Applied?;
    }

    method Create(task: Task) returns (err: bool)
      modifies this`w, this`step
      ensures w == old(After(RowCreated(task))) && step == old(step) + 1
      ensures err == Errs(old(w), RowCreated(task), replies(old(step)))
      ensures err <==> task.id in old(w.rows) || !replies(old(step)).outcome.Applied?
      ensures w.now == old(w.now) + replies(old(step)).after
      ensures w == old(w).(now := w.now, rows := w.rows)
      ensures w.rows == if task.id in old(w.rows) || replies(old(step)).outcome.Refused? then old(w.rows)
                        else old(w.rows)[task.id := task]
    {
      var r := replies(step);
      var clash := task.id in w.rows;
      w, step := w.(now := w.now + r.after), step + 1;
      if !r.outcome.Refused? && !clash {
        w := w.(rows := w.rows[task.id := task]);
      }
      err := clash || !r.outcome.Applied?;
    }

    method UpdateStatus(id: string, s: Status) returns (err: bool)
      modifies this`w, this`step
      ensures w == old(After(RowUpdated(id, s))) && step == old(step) + 1
      ensures err == Errs(old(w), RowUpdated(id, s), replies(old(step)))
      ensures err <==> !replies(old(step)).outcome.Applied?
      ensures w.now == old(w.now) + replies(old(step)).after
      ensures w == old(w).(now := w.now, rows := w.rows) && w.rows.Keys == old(w.rows.Keys)
      ensures forall other :: other in w.rows && (other != id || replies(old(step)).outcome.Refused?) ==>
                w.rows[other] == old(w.rows)[other]
      ensures id in w.rows && !replies(old(step)).outcome.Refused? ==>
                && w.rows[id].status == s && w.rows[id].updatedAt == w.now
                && w.rows[id].completedAt == (if s == Done || s == Failed || s == Dead then Some(w.now) else None)
                && w.rows[id].id == old(w.rows)[id].id && w.rows[id].taskType == old(w.rows)[id].taskType
                && w.rows[id].payload == old(w.rows)[id].payload && w.rows[id].attempts == old(w.rows)[id].attempts
                && w.rows[id].createdAt == old(w.rows)[id].createdAt
    {
      var r := replies(step);
      w, step := w.(now := w.now + r.after), step + 1;
      if !r.outcome.Refused? && id in w.rows {
        var completedAt := if IsTerminal(s) then Some(w.now) else None;
        w := w.(rows := w.rows[id := w.rows[id].(status := s, updatedAt := w.now, completedAt := completedAt)]);
      }
      err := !r.outcome.Applied?;
    }

    method RecordExecution(x: Execution) returns (err: bool)
      modifies this`w, this`step
      ensures w == old(After(ExecutionAdded(x))) && step == old(step) + 1
      ensures err == Errs(old(w), ExecutionAdded(x), replies(old(step)))
      ensures err <==> x.taskId !in old(w.rows) || !replies(old(step)).outcome.Applied?
      ensures w.now == old(w.now) + replies(old(step)).after
      ensures w == old(w).(now := w.now, executions := w.executions)
      ensures w.executions == old(w.executions) +
                if x.taskId !in old(w.rows) || replies(old(step)).outcome.Refused? then [] else [x]
    {
      var r := replies(step);
      var orphan := x.taskId !in w.rows;
      w, step := w.(now := w.now + r.after), step + 1;
      if !r.outcome.Refused? && !orphan {
        w := w.(executions := w.executions + [x]);
      }
      err := orphan || !r.outcome.Applied?;
    }

    method Publish(topic: string, key: string, raw: Raw) returns (err: bool)
      modifies this`w, this`step
      ensures w == old(After(Published(topic, key, raw))) && step == old(step) + 1
      ensures err == Errs(old(w), Published(topic, key, raw), replies(old(step)))
      ensures err <==> !replies(old(step)).outcome.Applied?
      ensures w.now == old(w.now) + replies(old(step)).after
      ensures w == old(w).(now := w.now, logs := w.logs)
      ensures forall p :: LogOf(w.logs, p) == LogOf(old(w.logs), p) +
                if p != Partition(topic, replies(old(step)).partition) || replies(old(step)).outcome.Refused? then []
                else [raw]
    {
      var r := replies(step);
      w, step := w.(now := w.now + r.after), step + 1;
      if !r.outcome.Refused? {
        var p := Partition(topic, r.partition);
        w := w.(logs := w.logs[p := LogOf(w.logs, p) + [raw]]);
      }
      err := !r.outcome.Applied?;
    }

    /** One handler call: it takes time and its outcome is recorded. */
    method Invoke(id: string, ok: bool)
      modifies this`w, this`step
      ensures w == old(After(Invoked(id, ok))) && step == old(step) + 1
      ensures w == old(w).(now := old(w.now) + replies(old(step)).after, calls := old(w.calls) + [(id, ok)])
    {
      var r := replies(step);
      w, step := w.(now := w.now + r.after, calls := w.calls + [(id, ok)]), step + 1;
    }
  }
}
