/** The gRPC gateway (services/api-gateway/handler/grpc.go): submission, bulk submission, status reads and streams. */
module Gateway {
  import opened Domain
  import opened Backend
  import opened Worker

  datatype Request = Request(taskType: string, payload: string)

  predicate IsValid(req: Request) {
    req.taskType != "" && req.payload != ""
  }

  function NewTask(req: Request, id: string, now: int): Task {
    Task(id, req.taskType, req.payload, Pending, 0, now, now, None)
  }

  function Prepare(task: Task): seq<Cmd> {
    [Cmd(MetaSet(task), true), Cmd(StatusSet(task.id, Pending), true), Cmd(RowCreated(task), false)]
  }

  function SubmitProgram(task: Task): seq<Cmd> {
    Prepare(task) + [Cmd(Published(TOPIC_PENDING, task.id, Json(task)), true)]
  }

  function Submit(w: World, req: Request, id: string, at: int, replies: nat -> Reply, i: nat): Ended {
    if IsValid(req) then Execute(w, SubmitProgram(NewTask(req, id, at)), replies, i) else Ended(w, true, i)
  }

  class Gateway {
    const services: Services

    constructor (services: Services)
      ensures this.services == services
    {
      this.services := services;
    }

    /** `id` is the fresh UUID and `at` the clock reading of the call. */
    method SubmitTask(req: Request, id: string, at: int) returns (taskId: Option<string>)
      modifies services`w, services`step
      ensures Submit(old(services.w), req, id, at, services.replies, old(services.step))
              == Ended(services.w, taskId.None?, services.step)
      ensures taskId.Some? <==>
                && req.taskType != "" && req.payload != "" && services.replies(old(services.step)).outcome.Applied?
                && services.replies(old(services.step) + 1).outcome.Applied?
                && services.replies(old(services.step) + 3).outcome.Applied?
      ensures req.taskType == "" || req.payload == "" ==>
                services.w == old(services.w) && services.step == old(services.step)
      ensures !services.replies(old(services.step)).outcome.Applied? ==>
                && services.w.status == old(services.w.status) && services.w.rows == old(services.w.rows)
                && services.w.logs == old(services.w.logs)
      ensures taskId.Some? ==>
                && taskId.value == id && id in services.w.meta
                && (var task := services.w.meta[id].value;
                    && task.id == id && task.taskType == req.taskType && task.payload == req.payload
                    && task.status == Pending && task.attempts == 0 && task.createdAt == at && task.updatedAt == at
                    && task.completedAt == None && OnTopic(services.w, "tasks.pending", Json(task))
                    && (id !in old(services.w.rows) && !services.replies(old(services.step) + 2).outcome.Refused? ==>
                          id in services.w.rows && services.w.rows[id] == task))
                && id in services.w.status && services.w.status[id].value == Pending
    {
      hide Execute, OnTopic, SubmitProgram;
      SubmitStores(services.w, req, id, at, services.replies, services.step);
      if req.taskType == "" {
        return None;
      }
      if |req.payload| == 0 {
        return None;
      }
      var err := StoreAndPublish(NewTask(req, id, at));
      taskId := if err then None else Some(id);
    }

    /** The three writes and the publish; a failed insert is only logged. */
    method StoreAndPublish(task: Task) returns (err: bool)
      modifies services`w, services`step
      ensures Execute(old(services.w), SubmitProgram(task), services.replies, old(services.step))
              == Ended(services.w, err, services.step)
    {
      hide Apply;
      ghost var todo := SubmitProgram(task);
      ghost var goal := Execute(services.w, todo, services.replies, services.step);
      err := services.SetTaskMeta(task);
      if err {
        return;
      }
      todo := todo[1..];
      assert goal == Execute(services.w, todo, services.replies, services.step);
      err := services.SetStatus(task.id, Pending);
      if err {
        return;
      }
      todo := todo[1..];
      assert goal == Execute(services.w, todo, services.replies, services.step);
      var _ := services.Create(task);
      todo := todo[1..];
      assert goal == Execute(services.w, todo, services.replies, services.step);
      ghost var last := Cmd(Published(TOPIC_PENDING, task.id, Json(task)), true);
      assert todo == [last] + [];
      ExecuteCons(services.w, last, [], services.replies, services.step);
      err := services.Publish(TOPIC_PENDING, task.id, Json(task));
    }

    /**
     BulkSubmitTasks over a client stream: its requests with the identifiers and clock readings they get, and
     whether it ends in EOF or in an error. The counters are int32.
     */
    method BulkSubmitTasks(stream: seq<Item>, eof: bool) returns (resp: Option<BulkResponse>)
      modifies services`w, services`step
      ensures resp.Some? <==> eof
      ensures var b := Bulk(old(services.w), stream, services.replies, old(services.step));
              && services.w == b.w && services.step == b.next
              && (eof ==> resp.value == BulkResponse(Wrap32(|b.ids|), Wrap32(|stream| - |b.ids|), b.ids))
    {
      hide Wrap32, Submit;
      Wrap32Small(0);
      var submitted, failed, taskIds := 0, 0, [];
      ghost var w0, step0 := services.w, services.step;
      for i := 0 to |stream|
        invariant Bulk(w0, stream[..i], services.replies, step0) == Bulked(services.w, services.step, taskIds)
        invariant submitted == Wrap32(|taskIds|) && failed == Wrap32(i - |taskIds|)
      {
        assert stream[..i + 1][..i] == stream[..i];
        var taskId := SubmitTask(stream[i].req, stream[i].id, stream[i].at);
        Wrap32Next(i - |taskIds|);
        Wrap32Next(|taskIds|);
        if taskId.None? {
          failed := Wrap32(failed + 1);
        } else {
          submitted := Wrap32(submitted + 1);
          taskIds := taskIds + [taskId.value];
        }
      }
      assert stream[..|stream|] == stream;
      resp := if eof then Some(BulkResponse(submitted, failed, taskIds)) else None;
    }

    /**
     The three lookups happen at three moments: the second finds the world `w1` and the third `w2`. The `…Readable`
     flags say whether they work.
     */
    method GetTaskStatus(id: string, w1: World, w2: World, metaReadable: bool, rowReadable: bool, statusReadable: bool)
      returns (a: Answer<Response>)
      modifies services`w
      ensures id == "" ==> a == Invalid && services.w == old(services.w)
      ensures id != "" ==> a == AnswerOf(old(services.w), w1, w2, id, metaReadable, rowReadable, statusReadable)
      ensures id != "" ==>
                var live := id in old(services.w.meta) && old(services.w.now) < old(services.w.meta)[id].expires;
                && (a == Internal <==> !metaReadable || (!live && !rowReadable))
                && (a == NotFound <==> metaReadable && !live && rowReadable && id !in w1.rows)
                && (a.Found? <==> metaReadable && (live || (rowReadable && id in w1.rows)))
      ensures id != "" && a.Found? ==>
                var live := id in old(services.w.meta) && old(services.w.now) < old(services.w.meta)[id].expires;
                var t, r := if live then old(services.w.meta)[id].value else w1.rows[id], a.value;
                && r.taskId == t.id && r.taskType == t.taskType
                && r.status == (if statusReadable && id in w2.status && w2.now < w2.status[id].expires then
                                  w2.status[id].value
                                else t.status)
                && (-0x8000_0000 <= t.attempts < 0x8000_0000 ==> r.attempts == t.attempts)
                && r.createdAt * 1_000_000_000 <= t.createdAt < (r.createdAt + 1) * 1_000_000_000
      ensures id != "" && a.Found? ==>
                var live := id in old(services.w.meta) && old(services.w.now) < old(services.w.meta)[id].expires;
                var t, r := if live then old(services.w.meta)[id].value else w1.rows[id], a.value;
                if t.completedAt.None? then r.completedAt == 0 && r.durationMs == 0
                else
                  var d := t.completedAt.value - t.createdAt;
                  && r.completedAt * 1_000_000_000 <= t.completedAt.value < (r.completedAt + 1) * 1_000_000_000
                  && (d >= 0 ==> r.durationMs * 1_000_000 <= d < (r.durationMs + 1) * 1_000_000)
                  && (d <= 0 ==> (r.durationMs - 1) * 1_000_000 < d <= r.durationMs * 1_000_000)
    {
      hide AnswerOf;
      if id == "" {
        return Invalid;
      }
      AnswerFields(services.w, w1, w2, id, metaReadable, rowReadable, statusReadable);
      a := ReadTask(id, w1, w2, metaReadable, rowReadable, statusReadable);
    }

    method ReadTask(id: string, w1: World, w2: World, metaReadable: bool, rowReadable: bool, statusReadable: bool)
      returns (a: Answer<Response>)
      modifies services`w
      ensures a == AnswerOf(old(services.w), w1, w2, id, metaReadable, rowReadable, statusReadable)
    {
      hide Unix, Milliseconds, Wrap32;
      UnixSeconds(0);
      var w := services.w;
      if !metaReadable {
        return Internal;
      }
      var task: Task;
      if id in w.meta && w.now < w.meta[id].expires {
        task := w.meta[id].value;
      } else {
        services.w := w1;
        if !rowReadable {
          return Internal;
        }
        if id !in w1.rows {
          return NotFound;
        }
        task := w1.rows[id];
      }
      services.w := w2;
      var stored := services.GetStatus(id, statusReadable);
      if stored.Some? {
        task := task.(status := stored.value);
      }
      var resp := Response(task.id, task.taskType, task.status, Wrap32(task.attempts), Unix(task.createdAt), 0, 0);
      if task.completedAt.Some? {
        resp := resp.(completedAt := Unix(task.completedAt.value),
                      durationMs := Milliseconds(task.completedAt.value - task.createdAt));
      }
      return Found(resp);
    }

    /** StreamTaskUpdates, polling as long as `polls` lasts; each poll finds the world the other processes have left. */
    method StreamTaskUpdates(id: string, polls: seq<Poll>) returns (outcome: StreamEnd, sent: seq<Response>)
      modifies services`w
      ensures id == "" ==> outcome == StreamError && sent == [] && services.w == old(services.w)
      ensures id != "" ==>
        && |sent| <= |polls|
        && (forall k :: 0 <= k < |sent| ==> Sends(polls[k], id, sent[k]))
        && (forall k :: 0 <= k < |sent| - 1 ==> !IsTerminal(sent[k].status))
        && (outcome == Finished ==> sent != [] && IsTerminal(sent[|sent| - 1].status))
        && (outcome != Finished ==> forall k :: 0 <= k < |sent| ==> !IsTerminal(sent[k].status))
        && (outcome == Cancelled ==> |sent| < |polls| && polls[|sent|].Done?)
        && (outcome == StreamError ==> |sent| < |polls| && polls[|sent|].Ticked? &&
                                       !(AnswerAt(polls[|sent|], id).Found? && polls[|sent|].delivered))
        && (outcome == Polling ==> |sent| == |polls|)
      ensures id != "" ==> forall k :: 0 <= k < |sent| && polls[k].statusReadable && id in polls[k].w2.status &&
                                       polls[k].w2.now < polls[k].w2.status[id].expires ==>
                             sent[k].status == polls[k].w2.status[id].value
    {
      sent := [];
      if id == "" {
        return StreamError, sent;
      }
      while |sent| < |polls|
        invariant |sent| <= |polls|
        invariant forall k :: 0 <= k < |sent| ==> Sends(polls[k], id, sent[k]) && !IsTerminal(sent[k].status)
      {
        var poll := polls[|sent|];
        if poll.Done? {
          return Cancelled, sent;
        }
        services.w := poll.w;
        var answer := GetTaskStatus(id, poll.w1, poll.w2, poll.metaReadable, poll.rowReadable, poll.statusReadable);
        if !answer.Found? || !poll.delivered {
          return StreamError, sent;
        }
        sent := sent + [answer.value];
        if IsTerminal(answer.value.status) {
          return Finished, sent;
        }
      }
      return Polling, sent;
    }
  }

  // ----- bulk submission -----

  datatype Item = Item(req: Request, id: string, at: int)
  datatype BulkResponse = BulkResponse(submitted: int, failed: int, taskIds: seq<string>)
  datatype Bulked = Bulked(w: World, next: nat, ids: seq<string>)

  const TWO31: int := 0x8000_0000

  function Wrap32(x: int): (r: int)
    ensures -TWO31 <= x < TWO31 ==> r == x
  {
    (x + TWO31) % (2 * TWO31) - TWO31
  }

  lemma Wrap32Small(x: int)
    requires -TWO31 <= x < TWO31
    ensures Wrap32(x) == x
  {
  }

  lemma Wrap32Next(x: int)
    ensures Wrap32(Wrap32(x) + 1) == Wrap32(x + 1)
  {
  }

  function Bulk(w: World, stream: seq<Item>, replies: nat -> Reply, i: nat): Bulked
    decreases |stream|
  {
    if stream == [] then Bulked(w, i, [])
    else
      var b := Bulk(w, stream[..|stream| - 1], replies, i);
      var x := stream[|stream| - 1];
      var e := Submit(b.w, x.req, x.id, x.at, replies, b.next);
      Bulked(e.w, e.next, if e.err then b.ids else b.ids + [x.id])
  }

  /** A record for the task is on some partition of tasks.pending. */
  ghost predicate OnPending(w: World, id: string) {
    exists task: Task :: task.id == id && OnTopic(w, TOPIC_PENDING, Json(task))
  }

  /** The publish comes only after the task's metadata and PENDING status were stored and acknowledged. */
  lemma PreparedBeforePublish(w: World, task: Task, replies: nat -> Reply, i: nat)
    ensures var ready := Execute(w, Prepare(task), replies, i);
            && ready.w.logs == w.logs
            && (!ready.err ==>
                  && task.id in ready.w.meta && ready.w.meta[task.id].value == task
                  && task.id in ready.w.status && ready.w.status[task.id].value == Pending
                  && (task.id in w.rows || !replies(i + 2).outcome.Refused? ==> task.id in ready.w.rows)
                  && ready.next == i + 3)
            && Execute(w, SubmitProgram(task), replies, i) ==
               if ready.err then ready
               else Execute(ready.w, [Cmd(Published(TOPIC_PENDING, task.id, Json(task)), true)], replies, i + 3)
  {
    hide Apply, Errs;
    var p := Prepare(task);
    ExecuteConcat(w, p, [Cmd(Published(TOPIC_PENDING, task.id, Json(task)), true)], replies, i);
    PrepareRuns(w, task, replies, i);
    MetaStep(w, task, replies(i));
    var w1 := Apply(w, MetaSet(task), replies(i));
    StatusStep(w1, task.id, replies(i + 1));
    RowStep(Apply(w1, StatusSet(task.id, Pending), replies(i + 1)), task, replies(i + 2));
  }

  lemma PrepareRuns(w: World, task: Task, replies: nat -> Reply, i: nat)
    ensures var w1 := Apply(w, MetaSet(task), replies(i));
            var w2 := Apply(w1, StatusSet(task.id, Pending), replies(i + 1));
            Execute(w, Prepare(task), replies, i) ==
            if !replies(i).outcome.Applied? then Ended(w1, true, i + 1)
            else if !replies(i + 1).outcome.Applied? then Ended(w2, true, i + 2)
            else Ended(Apply(w2, RowCreated(task), replies(i + 2)), false, i + 3)
  {
    hide Apply;
    var p := Prepare(task);
    var w1 := Apply(w, p[0].effect, replies(i));
    var w2 := Apply(w1, p[1].effect, replies(i + 1));
    assert p == [p[0]] + ([p[1]] + ([p[2]] + []));
    ExecuteCons(w, p[0], [p[1]] + ([p[2]] + []), replies, i);
    ExecuteCons(w1, p[1], [p[2]] + [], replies, i + 1);
    ExecuteCons(w2, p[2], [], replies, i + 2);
  }

  lemma MetaStep(w: World, task: Task, r: Reply)
    ensures var t := Apply(w, MetaSet(task), r);
            && t.logs == w.logs && t.status == w.status && t.rows == w.rows
            && (r.outcome.Applied? ==> task.id in t.meta && t.meta[task.id].value == task)
  {
  }

  lemma StatusStep(w: World, id: string, r: Reply)
    ensures var t := Apply(w, StatusSet(id, Pending), r);
            && t.logs == w.logs && t.meta == w.meta && t.rows == w.rows
            && (r.outcome.Applied? ==> id in t.status && t.status[id].value == Pending)
  {
  }

  lemma RowStep(w: World, task: Task, r: Reply)
    ensures var t := Apply(w, RowCreated(task), r);
            && t.logs == w.logs && t.meta == w.meta && t.status == w.status
            && (task.id in w.rows ==> t.rows == w.rows)
            && (task.id !in w.rows && !r.outcome.Refused? ==> task.id in t.rows && t.rows[task.id] == task)
  {
  }

  lemma PrepareErrs(w: World, task: Task, replies: nat -> Reply, i: nat)
    ensures var ready := Execute(w, Prepare(task), replies, i);
            && (ready.err <==> !replies(i).outcome.Applied? || !replies(i + 1).outcome.Applied?)
            && (!replies(i).outcome.Applied? ==> ready.w.status == w.status && ready.w.rows == w.rows)
            && (task.id !in w.rows && !ready.err && !replies(i + 2).outcome.Refused? ==>
                  task.id in ready.w.rows && ready.w.rows[task.id] == task)
  {
    hide Execute, Apply;
    PrepareRuns(w, task, replies, i);
    MetaStep(w, task, replies(i));
    var w1 := Apply(w, MetaSet(task), replies(i));
    StatusStep(w1, task.id, replies(i + 1));
    RowStep(Apply(w1, StatusSet(task.id, Pending), replies(i + 1)), task, replies(i + 2));
  }

  lemma PublishOnly(w: World, task: Task, replies: nat -> Reply, i: nat)
    ensures var e := Execute(w, [Cmd(Published(TOPIC_PENDING, task.id, Json(task)), true)], replies, i);
            && (e.err <==> !replies(i).outcome.Applied?)
            && (!e.err ==> OnTopic(e.w, TOPIC_PENDING, Json(task)))
            && e.w.meta == w.meta && e.w.status == w.status && e.w.rows == w.rows
  {
    hide OnTopic;
    var c := Cmd(Published(TOPIC_PENDING, task.id, Json(task)), true);
    assert [c] == [c] + [];
    ExecuteCons(w, c, [], replies, i);
    PublishAdds(w, c.effect, replies(i), TOPIC_PENDING, Json(task));
  }

  /**
   A submission is accepted if and only if type and payload are there and the metadata, the status and the message were
   acknowledged; then the task stored and published is the one requested, pending and unattempted.
   */
  lemma SubmitStores(w: World, req: Request, id: string, at: int, replies: nat -> Reply, i: nat)
    ensures var e := Submit(w, req, id, at, replies, i);
            && (!e.err <==> && req.taskType != "" && req.payload != "" && replies(i).outcome.Applied?
                            && replies(i + 1).outcome.Applied? && replies(i + 3).outcome.Applied?)
            && (req.taskType == "" || req.payload == "" ==> e == Ended(w, true, i))
            && (!replies(i).outcome.Applied? ==> e.w.status == w.status && e.w.rows == w.rows && e.w.logs == w.logs)
            && (!e.err ==>
                  && id in e.w.meta && id in e.w.status && e.w.status[id].value == Pending
                  && (var task := e.w.meta[id].value;
                      && task.id == id && task.taskType == req.taskType && task.payload == req.payload
                      && task.status == Pending && task.attempts == 0 && task.createdAt == at && task.updatedAt == at
                      && task.completedAt == None && OnTopic(e.w, "tasks.pending", Json(task))
                      && (id !in w.rows && !replies(i + 2).outcome.Refused? ==>
                            id in e.w.rows && e.w.rows[id] == task)))
  {
    hide Execute, Apply, OnTopic, Prepare, SubmitProgram;
    if req.taskType != "" && req.payload != "" {
      var task := NewTask(req, id, at);
      PreparedBeforePublish(w, task, replies, i);
      PrepareErrs(w, task, replies, i);
      var ready := Execute(w, Prepare(task), replies, i);
      if !ready.err {
        PublishOnly(ready.w, task, replies, i + 3);
      }
    }
  }

  /** No lost acknowledgements: an error means not published. */
  ghost predicate Honest(replies: nat -> Reply) {
    forall n :: !replies(n).outcome.Lost?
  }

  /** A submission puts its own task on tasks.pending when it succeeds, and without lost replies nothing else. */
  lemma SubmitPublishes(w: World, x: Item, replies: nat -> Reply, i: nat, id: string)
    ensures var e := Submit(w, x.req, x.id, x.at, replies, i);
            && (OnPending(w, id) || (!e.err && id == x.id) ==> OnPending(e.w, id))
            && (Honest(replies) && OnPending(e.w, id) ==> OnPending(w, id) || (!e.err && id == x.id))
  {
    if IsValid(x.req) {
      var task := NewTask(x.req, x.id, x.at);
      PreparedBeforePublish(w, task, replies, i);
      var ready := Execute(w, Prepare(task), replies, i);
      SameLogs(w, ready.w, id);
      if !ready.err {
        PublishPending(ready.w, task, replies, i + 3, id);
      }
    }
  }

  lemma SameLogs(w: World, t: World, id: string)
    requires t.logs == w.logs
    ensures OnPending(t, id) <==> OnPending(w, id)
  {
    assert forall raw :: OnTopic(t, TOPIC_PENDING, raw) <==> OnTopic(w, TOPIC_PENDING, raw);
  }

  lemma PublishPending(w: World, task: Task, replies: nat -> Reply, i: nat, id: string)
    ensures var e := Execute(w, [Cmd(Published(TOPIC_PENDING, task.id, Json(task)), true)], replies, i);
            && (OnPending(w, id) || (!e.err && id == task.id) ==> OnPending(e.w, id))
            && (Honest(replies) && OnPending(e.w, id) ==> OnPending(w, id) || (!e.err && id == task.id))
  {
    hide OnTopic, Apply;
    var c := Cmd(Published(TOPIC_PENDING, task.id, Json(task)), true);
    assert [c] == [c] + [];
    ExecuteCons(w, c, [], replies, i);
    var t := Apply(w, c.effect, replies(i));
    forall other: Task
      ensures OnTopic(t, TOPIC_PENDING, Json(other)) <==>
              OnTopic(w, TOPIC_PENDING, Json(other)) || (!replies(i).outcome.Refused? && other == task)
    {
      PublishAdds(w, c.effect, replies(i), TOPIC_PENDING, Json(other));
    }
    if id == task.id && !replies(i).outcome.Refused? {
      assert OnTopic(t, TOPIC_PENDING, Json(task));
    }
  }

  lemma {:induction false} BulkPublishes(w: World, stream: seq<Item>, replies: nat -> Reply, i: nat, id: string)
    ensures var b := Bulk(w, stream, replies, i);
            && (OnPending(w, id) || id in b.ids ==> OnPending(b.w, id))
            && (Honest(replies) && OnPending(b.w, id) ==> OnPending(w, id) || id in b.ids)
    decreases |stream|
  {
    hide OnPending, Submit, Honest;
    if stream != [] {
      var n := |stream| - 1;
      BulkPublishes(w, stream[..n], replies, i, id);
      var b := Bulk(w, stream[..n], replies, i);
      SubmitPublishes(b.w, stream[n], replies, b.next, id);
    }
  }

  lemma {:induction false} BulkInOrder(w: World, stream: seq<Item>, replies: nat -> Reply, i: nat)
    ensures var ids := Bulk(w, stream, replies, i).ids;
            |ids| <= |stream| && IsSubsequence(ids, stream)
    decreases |stream|
  {
    hide Submit;
    if stream != [] {
      var n := |stream| - 1;
      BulkInOrder(w, stream[..n], replies, i);
      var ids, all := Bulk(w, stream[..n], replies, i).ids, Bulk(w, stream, replies, i).ids;
      if all != ids {
        assert all[..|all| - 1] == ids;
      }
      SkipLast(ids, stream);
    }
  }

  /**
   The reported identifiers are, in stream order, those of items that this call put on tasks.pending, and all of
   them unless an acknowledgement was lost; submitted and failed add up to the requests received.
   */
  lemma BulkAccounting(w: World, stream: seq<Item>, replies: nat -> Reply, i: nat, id: string)
    requires |stream| < TWO31
    ensures var b := Bulk(w, stream, replies, i);
            && |b.ids| <= |stream|
            && Wrap32(|b.ids|) + Wrap32(|stream| - |b.ids|) == |stream|
            && (OnPending(w, id) || id in b.ids ==> OnPending(b.w, id))
            && (Honest(replies) && OnPending(b.w, id) ==> OnPending(w, id) || id in b.ids)
            && IsSubsequence(b.ids, stream)
  {
    hide OnPending, Wrap32, Bulk, Honest, IsSubsequence;
    BulkPublishes(w, stream, replies, i, id);
    BulkInOrder(w, stream, replies, i);
    Int32Sum(|Bulk(w, stream, replies, i).ids|, |stream|);
  }

  /** Each request is accepted or not by itself: if and only if it is valid and its three acknowledgements arrive. */
  lemma BulkTurn(w: World, stream: seq<Item>, replies: nat -> Reply, i: nat, k: nat)
    requires k < |stream|
    ensures var b, x := Bulk(w, stream[..k], replies, i), stream[k];
            Bulk(w, stream[..k + 1], replies, i).ids ==
            b.ids + if && x.req.taskType != "" && x.req.payload != "" && replies(b.next).outcome.Applied?
                       && replies(b.next + 1).outcome.Applied? && replies(b.next + 3).outcome.Applied? then [x.id]
                    else []
  {
    hide Submit, OnTopic;
    assert stream[..k + 1][..k] == stream[..k];
    var b, x := Bulk(w, stream[..k], replies, i), stream[k];
    SubmitStores(b.w, x.req, x.id, x.at, replies, b.next);
  }

  /** With every reply acknowledged the accepted requests are the valid ones. */
  lemma {:induction false} BulkAcceptsValid(w: World, stream: seq<Item>, replies: nat -> Reply, i: nat, k: nat)
    requires k < |stream| && forall n :: replies(n).outcome.Applied?
    ensures stream[k].req.taskType != "" && stream[k].req.payload != "" ==>
              stream[k].id in Bulk(w, stream, replies, i).ids
    decreases |stream|
  {
    hide Bulk;
    var n := |stream| - 1;
    BulkTurn(w, stream, replies, i, n);
    assert stream[..n + 1] == stream;
    if k < n {
      BulkAcceptsValid(w, stream[..n], replies, i, k);
    }
  }

  lemma Int32Sum(ids: nat, all: nat)
    requires all < TWO31
    ensures ids <= all ==> Wrap32(ids) + Wrap32(all - ids) == all
  {
  }

  /** `ids` is what remains of the stream's identifiers when some are dropped. */
  predicate IsSubsequence(ids: seq<string>, stream: seq<Item>) {
    if ids == [] then true
    else stream != [] &&
         ((ids[|ids| - 1] == stream[|stream| - 1].id && IsSubsequence(ids[..|ids| - 1], stream[..|stream| - 1]))
          || IsSubsequence(ids, stream[..|stream| - 1]))
  }

  lemma SkipLast(ids: seq<string>, stream: seq<Item>)
    requires stream != [] && IsSubsequence(ids, stream[..|stream| - 1])
    ensures IsSubsequence(ids, stream)
  {
  }

  // ----- status reads -----

  datatype Answer<+T> = Found(value: T) | NotFound | Internal | Invalid

  /** A completion time and a duration of zero stand for a task that has not completed. */
  datatype Response = Response(taskId: string, taskType: string, status: Status, attempts: int,
                               createdAt: int, completedAt: int, durationMs: int)

  /** A poll and the worlds its lookups find; the flags say which of them work and whether the update can be sent. */
  datatype Poll =
    | Done
    | Ticked(w: World, w1: World, w2: World, metaReadable: bool, rowReadable: bool, statusReadable: bool,
             delivered: bool)

  datatype StreamEnd = Finished | Cancelled | StreamError | Polling

  function Unix(t: int): int {
    t / SECOND
  }

  /** Truncates toward zero. */
  function Milliseconds(d: int): int {
    if d >= 0 then d / 1_000_000 else -(-d / 1_000_000)
  }

  /** The task record: metadata first (in one world), the table row if that key is gone (in a later one). */
  function Lookup(w1: World, w2: World, id: string, metaReadable: bool, rowReadable: bool): Answer<Task> {
    if !metaReadable then Internal
    else if Live(w1.meta, id, w1.now).Some? then Found(w1.meta[id].value)
    else if !rowReadable then Internal
    else if id !in w2.rows then NotFound
    else Found(w2.rows[id])
  }

  /** A stored status overrides the record's. */
  function ReadStatus(record: Answer<Task>, stored: Option<Status>): Answer<Task> {
    if record.Found? && stored.Some? then Found(record.value.(status := stored.value)) else record
  }

  function Respond(a: Answer<Task>): Answer<Response> {
    match a
    case Found(t) =>
      var end := if t.completedAt.Some? then t.completedAt.value else 0;
      Found(Response(t.id, t.taskType, t.status, Wrap32(t.attempts), Unix(t.createdAt),
                     Unix(end), if t.completedAt.Some? then Milliseconds(end - t.createdAt) else 0))
    case NotFound => NotFound
    case Internal => Internal
    case Invalid => Invalid
  }

  /** The answer of the three lookups. */
  function AnswerOf(w: World, w1: World, w2: World, id: string, metaReadable: bool, rowReadable: bool,
                    statusReadable: bool): Answer<Response>
  {
    Respond(ReadStatus(Lookup(w, w1, id, metaReadable, rowReadable),
                       if statusReadable then Live(w2.status, id, w2.now) else None))
  }

  lemma UnixSeconds(t: int)
    ensures Unix(t) * 1_000_000_000 <= t < (Unix(t) + 1) * 1_000_000_000
  {
  }

  lemma MillisecondsTruncate(d: int)
    ensures d >= 0 ==> Milliseconds(d) * 1_000_000 <= d < (Milliseconds(d) + 1) * 1_000_000
    ensures d <= 0 ==> (Milliseconds(d) - 1) * 1_000_000 < d <= Milliseconds(d) * 1_000_000
  {
  }

  /** The answer lookup by lookup and field by field. */
  lemma AnswerFields(w: World, w1: World, w2: World, id: string, metaReadable: bool, rowReadable: bool,
                     statusReadable: bool)
    ensures var live := id in w.meta && w.now < w.meta[id].expires;
            var a := AnswerOf(w, w1, w2, id, metaReadable, rowReadable, statusReadable);
            && (a == Internal <==> !metaReadable || (!live && !rowReadable))
            && (a == NotFound <==> metaReadable && !live && rowReadable && id !in w1.rows)
            && (a.Found? <==> metaReadable && (live || (rowReadable && id in w1.rows)))
            && (a.Found? ==>
                  var t, r := if live then w.meta[id].value else w1.rows[id], a.value;
                  && r.taskId == t.id && r.taskType == t.taskType
                  && r.status == (if statusReadable && id in w2.status && w2.now < w2.status[id].expires then
                                    w2.status[id].value
                                  else t.status)
                  && (-0x8000_0000 <= t.attempts < 0x8000_0000 ==> r.attempts == t.attempts)
                  && r.createdAt * 1_000_000_000 <= t.createdAt < (r.createdAt + 1) * 1_000_000_000
                  && if t.completedAt.None? then r.completedAt == 0 && r.durationMs == 0
                     else
                       var d := t.completedAt.value - t.createdAt;
                       && r.completedAt * 1_000_000_000 <= t.completedAt.value < (r.completedAt + 1) * 1_000_000_000
                       && (d >= 0 ==> r.durationMs * 1_000_000 <= d < (r.durationMs + 1) * 1_000_000)
                       && (d <= 0 ==> (r.durationMs - 1) * 1_000_000 < d <= r.durationMs * 1_000_000))
  {
    hide Unix, Milliseconds;
    var a := ReadStatus(Lookup(w, w1, id, metaReadable, rowReadable),
                        if statusReadable then Live(w2.status, id, w2.now) else None);
    if a.Found? {
      UnixSeconds(a.value.createdAt);
      if a.value.completedAt.Some? {
        UnixSeconds(a.value.completedAt.value);
        MillisecondsTruncate(a.value.completedAt.value - a.value.createdAt);
      }
    }
    assert Unix(0) == 0 by {
      UnixSeconds(0);
    }
  }

  function AnswerAt(poll: Poll, id: string): Answer<Response>
    requires poll.Ticked?
  {
    AnswerOf(poll.w, poll.w1, poll.w2, id, poll.metaReadable, poll.rowReadable, poll.statusReadable)
  }

  predicate Sends(poll: Poll, id: string, resp: Response) {
    poll.Ticked? && AnswerAt(poll, id) == Found(resp) && poll.delivered
  }

  predicate Reads(a: Answer<Response>, s: Status) {
    a.Found? && a.value.status == s
  }

  /** A step of another process that writes nothing about the task. */
  predicate Foreign(e: Effect, id: string) {
    match e
    case StatusSet(other, _) => other != id
    case MetaSet(task) => task.id != id
    case RowCreated(task) => task.id != id
    case RowUpdated(other, _) => other != id
    case _ => true
  }

  /** One step of the run: the finishing worker's next write, or anything foreign. */
  datatype Event = Own(reply: Reply) | Other(effect: Effect, reply: Reply)

  datatype Progress = Progress(w: World, n: nat)

  function Proceed(p: Progress, finish: seq<Cmd>, e: Event): Progress {
    match e
    case Other(effect, reply) => p.(w := Apply(p.w, effect, reply))
    case Own(reply) =>
      if p.n < |finish| then Progress(Apply(p.w, finish[p.n].effect, reply), p.n + 1) else p
  }

  function ProceedAll(p: Progress, finish: seq<Cmd>, es: seq<Event>): Progress {
    if es == [] then p else Proceed(ProceedAll(p, finish, es[..|es| - 1]), finish, es[|es| - 1])
  }

  predicate Allowed(es: seq<Event>, id: string) {
    forall k :: 0 <= k < |es| ==>
      if es[k].Own? then es[k].reply.outcome.Applied? else Foreign(es[k].effect, id)
  }

  /** The finish in progress: n of its writes done, the first of them at time t0. */
  predicate Finishing(p: Progress, finish: seq<Cmd>, id: string, s: Status, t0: int) {
    && p.n >= 1 && id in p.w.status && p.w.status[id] == Entry(s, t0 + STATE_TTL)
    && (p.n >= 2 ==> && |finish| >= 4 && finish[1].effect.MetaSet? && finish[1].effect.task.status == s
                     && id in p.w.meta && p.w.meta[id].value == finish[1].effect.task)
    && (p.n >= 4 && id in p.w.rows ==> p.w.rows[id].status == s && (p.w.rows[id].completedAt.Some? <==> IsTerminal(s)))
  }

  /** What no write of a finish changes in the task's row. */
  predicate SameRow(w: World, t: World, id: string) {
    && (id in t.rows <==> id in w.rows)
    && (id in w.rows ==> && t.rows[id].id == w.rows[id].id && t.rows[id].taskType == w.rows[id].taskType
                         && t.rows[id].attempts == w.rows[id].attempts && t.rows[id].createdAt == w.rows[id].createdAt)
  }

  /** The two endings of a delivery, as the worker runs them. */
  predicate IsFinish(finish: seq<Cmd>, id: string, s: Status) {
    && |finish| >= 4 && finish[0].effect == StatusSet(id, s)
    && finish[1].effect.MetaSet? && finish[1].effect.task.id == id && finish[1].effect.task.status == s
    && finish[2].effect.ExecutionAdded? && finish[3].effect == RowUpdated(id, s)
    && forall k :: 4 <= k < |finish| ==> finish[k].effect.Published?
  }

  lemma WorkerFinishes(cfg: Config, task: Task, d: Delivery)
    ensures IsFinish(Finish(cfg, task, d), task.id, LastStatus(cfg, d))
  {
  }

  lemma ProceedKeeps(p: Progress, finish: seq<Cmd>, e: Event, id: string, s: Status, t0: int)
    requires Finishing(p, finish, id, s, t0) && IsFinish(finish, id, s)
    requires if e.Own? then e.reply.outcome.Applied? else Foreign(e.effect, id)
    ensures Finishing(Proceed(p, finish, e), finish, id, s, t0) && Proceed(p, finish, e).n >= p.n
    ensures SameRow(p.w, Proceed(p, finish, e).w, id)
  {
    if e.Other? {
      ForeignKeeps(p, finish, e, id, s, t0);
    } else {
      hide Foreign;
    }
  }

  lemma ForeignKeeps(p: Progress, finish: seq<Cmd>, e: Event, id: string, s: Status, t0: int)
    requires Finishing(p, finish, id, s, t0) && e.Other? && Foreign(e.effect, id)
    ensures Finishing(Proceed(p, finish, e), finish, id, s, t0) && SameRow(p.w, Proceed(p, finish, e).w, id)
  {
    ForeignSpares(p.w, e.effect, e.reply, id);
    hide Apply, Foreign;
  }

  lemma ForeignSpares(w: World, e: Effect, r: Reply, id: string)
    requires Foreign(e, id)
    ensures var t := Apply(w, e, r);
            && (id in t.status <==> id in w.status) && (id in w.status ==> t.status[id] == w.status[id])
            && (id in t.meta <==> id in w.meta) && (id in w.meta ==> t.meta[id] == w.meta[id])
            && (id in t.rows <==> id in w.rows) && (id in w.rows ==> t.rows[id] == w.rows[id])
  {
  }

  lemma {:induction false} ProceedAllKeeps(p: Progress, finish: seq<Cmd>, es: seq<Event>, id: string, s: Status,
                                           t0: int)
    requires Finishing(p, finish, id, s, t0) && IsFinish(finish, id, s) && Allowed(es, id)
    ensures Finishing(ProceedAll(p, finish, es), finish, id, s, t0) && ProceedAll(p, finish, es).n >= p.n
    ensures SameRow(p.w, ProceedAll(p, finish, es).w, id)
    decreases |es|
  {
    hide Finishing, IsFinish, Proceed;
    if es != [] {
      ProceedAllKeeps(p, finish, es[..|es| - 1], id, s, t0);
      ProceedKeeps(ProceedAll(p, finish, es[..|es| - 1]), finish, es[|es| - 1], id, s, t0);
    }
  }

  function FirstWrite(w: World, id: string, s: Status, r: Reply): Progress {
    Progress(Apply(w, StatusSet(id, s), r), 1)
  }

  /**
   From the terminal status write on, a status read gives that status, whichever keys have expired, however
   other processes interleave and whichever writes of the finish are still to come. The read looks up the
   metadata, the row and the status at three different moments; it must either reach the status key before it
   can expire or start after the finish is complete.
   */
  lemma TerminalReadsStable(w: World, id: string, s: Status, r: Reply, finish: seq<Cmd>,
                            es1: seq<Event>, es2: seq<Event>, es3: seq<Event>)
    requires id in w.rows && r.outcome.Applied? && IsFinish(finish, id, s)
    requires Allowed(es1, id) && Allowed(es2, id) && Allowed(es3, id)
    requires var p1 := ProceedAll(FirstWrite(w, id, s, r), finish, es1);
             var p3 := ProceedAll(ProceedAll(p1, finish, es2), finish, es3);
             p3.w.now < w.now + r.after + STATE_TTL || p1.n >= 4
    ensures var p1 := ProceedAll(FirstWrite(w, id, s, r), finish, es1);
            var p2 := ProceedAll(p1, finish, es2);
            var p3 := ProceedAll(p2, finish, es3);
            var a := AnswerOf(p1.w, p2.w, p3.w, id, true, true, true);
            && Reads(a, s)
            && (p1.n >= 2 && Live(p1.w.meta, id, p1.w.now).Some? ==>
                  var task := finish[1].effect.task;
                  && (-TWO31 <= task.attempts < TWO31 ==> a.value.attempts == task.attempts)
                  && (task.completedAt.Some? ==>
                        a.value.completedAt * SECOND <= task.completedAt.value < (a.value.completedAt + 1) * SECOND))
  {
    hide IsFinish, ProceedAll, Allowed, AnswerOf;
    var t0 := w.now + r.after;
    var p0 := FirstWrite(w, id, s, r);
    ProceedAllKeeps(p0, finish, es1, id, s, t0);
    var p1 := ProceedAll(p0, finish, es1);
    ProceedAllKeeps(p1, finish, es2, id, s, t0);
    var p2 := ProceedAll(p1, finish, es2);
    ProceedAllKeeps(p2, finish, es3, id, s, t0);
    AnswerFields(p1.w, p2.w, ProceedAll(p2, finish, es3).w, id, true, true, true);
  }

  /**
   When the finish is complete and both keys have expired, the answer is the terminal status exactly if the
   task has a row; tasks fired by the scheduler have none.
   */
  lemma AfterBothExpire(w: World, id: string, s: Status, r: Reply, finish: seq<Cmd>, es: seq<Event>)
    requires r.outcome.Applied? && IsFinish(finish, id, s) && Allowed(es, id)
    requires var p := ProceedAll(FirstWrite(w, id, s, r), finish, es);
             && p.n >= 4 && Live(p.w.status, id, p.w.now).None? && Live(p.w.meta, id, p.w.now).None?
    ensures var p := ProceedAll(FirstWrite(w, id, s, r), finish, es);
            var a := AnswerOf(p.w, p.w, p.w, id, true, true, true);
            if id !in w.rows then a == NotFound
            else
              && Reads(a, s) && a.value.taskType == w.rows[id].taskType
              && (-TWO31 <= w.rows[id].attempts < TWO31 ==> a.value.attempts == w.rows[id].attempts)
  {
    hide IsFinish, ProceedAll, Allowed, AnswerOf;
    ProceedAllKeeps(FirstWrite(w, id, s, r), finish, es, id, s, w.now + r.after);
    var p := ProceedAll(FirstWrite(w, id, s, r), finish, es);
    AnswerFields(p.w, p.w, p.w, id, true, true, true);
  }

  /**
   While the metadata of a finished task lives, the answer has the number of handler calls and, after a success, the
   completion time; the row, which no write of the finish gives the number to, has whatever it had before.
   */
  lemma FinishedAnswer(cfg: Config, task: Task, d: Delivery, w: World, r: Reply, es: seq<Event>)
    requires task.id in w.rows && r.outcome.Applied? && Allowed(es, task.id)
    requires |TraceOf(Executed(cfg, task, d)).calls| < TWO31
    requires var p := ProceedAll(FirstWrite(w, task.id, LastStatus(cfg, d), r), Finish(cfg, task, d), es);
             p.n >= 4 && Live(p.w.meta, task.id, p.w.now).Some?
    ensures var p := ProceedAll(FirstWrite(w, task.id, LastStatus(cfg, d), r), Finish(cfg, task, d), es);
            var a, k := AnswerOf(p.w, p.w, p.w, task.id, true, true, true), |TraceOf(Executed(cfg, task, d)).calls|;
            && Reads(a, if d.script.ok(k) then Status.Done else Status.Dead) && a.value.attempts == k
            && (d.script.ok(k) ==> a.value.completedAt * SECOND <= d.at < (a.value.completedAt + 1) * SECOND)
            && task.id in p.w.rows && p.w.rows[task.id].attempts == w.rows[task.id].attempts
  {
    hide ProceedAll, Allowed, TraceOf, Executed, Finish, IsFinish, AnswerOf;
    var s, finish := LastStatus(cfg, d), Finish(cfg, task, d);
    WorkerFinishes(cfg, task, d);
    FinishRecords(cfg, task, d);
    DeliveryTrace(cfg, task, d);
    var p0 := FirstWrite(w, task.id, s, r);
    ProceedAllKeeps(p0, finish, es, task.id, s, w.now + r.after);
    var p := ProceedAll(p0, finish, es);
    NothingMore(p, finish);
    NoneAllowed(task.id);
    TerminalReadsStable(w, task.id, s, r, finish, es, [], []);
  }

  lemma NothingMore(p: Progress, finish: seq<Cmd>)
    ensures ProceedAll(p, finish, []) == p
  {
  }

  lemma NoneAllowed(id: string)
    ensures Allowed([], id)
  {
  }
}
