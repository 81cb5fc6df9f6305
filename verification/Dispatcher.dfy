/** The dispatcher (services/dispatcher/dispatcher.go): every pending message goes on to exactly one topic. */
module Dispatcher {
  import opened Domain
  import opened Backend
  import opened RateLimiter
  import Worker

  /** The limiter is off, failed, or answered. */
  datatype Verdict = Off | Unknown | Admit | Deny

  /** The topic a message is bound for. */
  function Target(raw: Raw, v: Verdict): string {
    if raw.Junk? || raw.task.taskType == "" || v == Deny then TOPIC_DLQ else WorkerTopic(raw.task.taskType)
  }

  function RouteProgram(raw: Raw, v: Verdict): seq<Cmd> {
    if Target(raw, v) == TOPIC_DLQ then [Cmd(Published(TOPIC_DLQ, "", raw), true)]
    else [Cmd(Published(Target(raw, v), raw.task.id, raw), true), Cmd(StatusSet(raw.task.id, Queued), false)]
  }

  /** A message and what the limiter's transaction does when it is consulted at `at`. */
  datatype Arrival = Arrival(raw: Raw, at: nat, reply: Outcome)

  predicate OfType(a: Arrival, taskType: string) {
    a.raw.Json? && a.raw.task.taskType == taskType != ""
  }

  predicate Consults(a: Arrival) {
    a.raw.Json? && a.raw.task.taskType != ""
  }

  function KeysAfterOne(cfg: Config, keys: map<string, Key>, a: Arrival): map<string, Key> {
    if Consults(a) && !a.reply.Refused? then
      keys[a.raw.task.taskType := Called(cfg, KeyOf(keys, a.raw.task.taskType), a.at)]
    else keys
  }

  function Judge(cfg: Config, keys: map<string, Key>, a: Arrival): Verdict {
    if !Consults(a) || !a.reply.Applied? then Unknown
    else if |Called(cfg, KeyOf(keys, a.raw.task.taskType), a.at).times| <= cfg.limit then Admit
    else Deny
  }

  /** One partition has grown by these messages, the others not at all. */
  ghost predicate Appended(before: map<Partition, seq<Raw>>, after: map<Partition, seq<Raw>>, at: Partition,
                           raws: seq<Raw>)
  {
    forall p :: LogOf(after, p) == LogOf(before, p) + if p == at then raws else []
  }

  class Dispatcher {
    const services: Services
    const limiter: Limiter?

    constructor (services: Services, limiter: Limiter?)
      ensures this.services == services && this.limiter == limiter
    {
      this.services, this.limiter := services, limiter;
    }

    method Route(a: Arrival) returns (err: bool, v: Verdict)
      modifies services`w, services`step
      modifies if limiter != null then {limiter} else {}
      ensures Execute(old(services.w), RouteProgram(a.raw, v), services.replies, old(services.step))
              == Ended(services.w, err, services.step)
      ensures var dlq := a.raw.Junk? || a.raw.task.taskType == "" || v == Deny;
              var r := services.replies(old(services.step));
              && (err <==> !r.outcome.Applied?)
              && Appended(old(services.w.logs), services.w.logs,
                          Partition(if dlq then "tasks.dlq" else "tasks.worker." + a.raw.task.taskType, r.partition),
                          if r.outcome.Refused? then [] else [a.raw])
              && (dlq || err || services.replies(old(services.step) + 1).outcome.Refused? ==>
                    services.w.status == old(services.w.status))
              && (!dlq && !err && !services.replies(old(services.step) + 1).outcome.Refused? ==>
                    var id := a.raw.task.id;
                    && id in services.w.status && services.w.status[id].value == Queued
                    && services.w.status == old(services.w.status)[id := services.w.status[id]])
      ensures limiter != null && a.raw.Json? && a.raw.task.taskType != "" ==>
                && (v == Unknown <==> !a.reply.Applied?)
                && (v == Admit <==>
                      a.reply.Applied? && |KeyOf(limiter.keys, a.raw.task.taskType).times| <= limiter.cfg.limit)
                && (v == Deny <==>
                      a.reply.Applied? && |KeyOf(limiter.keys, a.raw.task.taskType).times| > limiter.cfg.limit)
      ensures limiter == null ==> v == Off
      ensures limiter != null ==> && v == Judge(limiter.cfg, old(limiter.keys), a)
                                  && limiter.keys == KeysAfterOne(limiter.cfg, old(limiter.keys), a)
    {
      hide Called, Execute, Appended, RouteProgram;
      v := if limiter == null then Off else Unknown;
      if a.raw.Junk? {
        err := ToDLQ(a.raw, v);
        return;
      }
      var task := a.raw.task;
      if task.taskType == "" {
        err := ToDLQ(a.raw, v);
        return;
      }
      if limiter != null {
        var allowed, failed := limiter.Allow(task.taskType, a.at, a.reply);
        if !failed {
          v := if allowed then Admit else Deny;
          if !allowed {
            err := ToDLQ(a.raw, v);
            return;
          }
        }
      }
      err := ToWorker(a.raw, v);
    }

    method ToDLQ(raw: Raw, ghost v: Verdict) returns (err: bool)
      requires Target(raw, v) == TOPIC_DLQ
      modifies services`w, services`step
      ensures var r := services.replies(old(services.step));
              && (err <==> !r.outcome.Applied?) && services.w.status == old(services.w.status)
              && Appended(old(services.w.logs), services.w.logs, Partition("tasks.dlq", r.partition),
                          if r.outcome.Refused? then [] else [raw])
      ensures Execute(old(services.w), RouteProgram(raw, v), services.replies, old(services.step))
              == Ended(services.w, err, services.step)
    {
      assert RouteProgram(raw, v) == [Cmd(Published(TOPIC_DLQ, "", raw), true)] + [];
      ExecuteCons(services.w, Cmd(Published(TOPIC_DLQ, "", raw), true), [], services.replies, services.step);
      err := services.Publish(TOPIC_DLQ, "", raw);
    }

    method ToWorker(raw: Raw, ghost v: Verdict) returns (err: bool)
      requires raw.Json? && raw.task.taskType != "" && v != Deny
      modifies services`w, services`step
      ensures var r := services.replies(old(services.step));
              && (err <==> !r.outcome.Applied?)
              && Appended(old(services.w.logs), services.w.logs,
                          Partition("tasks.worker." + raw.task.taskType, r.partition),
                          if r.outcome.Refused? then [] else [raw])
              && (err || services.replies(old(services.step) + 1).outcome.Refused? ==>
                    services.w.status == old(services.w.status))
              && (!err && !services.replies(old(services.step) + 1).outcome.Refused? ==>
                    && raw.task.id in services.w.status && services.w.status[raw.task.id].value == Queued
                    && services.w.status == old(services.w.status)[raw.task.id := services.w.status[raw.task.id]])
      ensures Execute(old(services.w), RouteProgram(raw, v), services.replies, old(services.step))
              == Ended(services.w, err, services.step)
    {
      WorkerTopicsDistinct(raw.task.taskType, raw.task.taskType);
      ghost var publish := Cmd(Published(WorkerTopic(raw.task.taskType), raw.task.id, raw), true);
      ghost var queued := Cmd(StatusSet(raw.task.id, Queued), false);
      assert RouteProgram(raw, v) == [publish] + [queued];
      ExecuteCons(services.w, publish, [queued], services.replies, services.step);
      err := services.Publish(WorkerTopic(raw.task.taskType), raw.task.id, raw);
      if !err {
        assert [queued] == [queued] + [];
        ExecuteCons(services.w, queued, [], services.replies, services.step);
        var _ := services.SetStatus(raw.task.id, Queued);
      }
    }
  }

  // ----- conservation over any sequence of messages -----

  datatype Input = Input(raw: Raw, v: Verdict, publish: Reply, queued: Reply)

  function RouteOne(w: World, x: Input): Ended {
    Execute(w, RouteProgram(x.raw, x.v), n => if n == 0 then x.publish else x.queued, 0)
  }

  function RouteAll(w: World, xs: seq<Input>): World {
    if xs == [] then w else RouteOne(RouteAll(w, xs[..|xs| - 1]), xs[|xs| - 1]).w
  }

  /** Where a message ends up: its target's partition, unless the publish was refused. */
  predicate Lands(x: Input, p: Partition) {
    !x.publish.outcome.Refused? && p == Partition(Target(x.raw, x.v), x.publish.partition)
  }

  /** The messages of a sequence that land on a partition, in order. */
  function Landed(xs: seq<Input>, p: Partition): seq<Raw> {
    if xs == [] then []
    else Landed(xs[..|xs| - 1], p) + if Lands(xs[|xs| - 1], p) then [xs[|xs| - 1].raw] else []
  }

  /**
   One call: it returns nil exactly when its single publish is acknowledged, and then the unchanged bytes are
   appended once, to one partition of one topic; a refused publish appends nothing.
   */
  lemma RouteOnce(w: World, x: Input, p: Partition)
    ensures RouteOne(w, x).err <==> !x.publish.outcome.Applied?
    ensures LogOf(RouteOne(w, x).w.logs, p) == LogOf(w.logs, p) + if Lands(x, p) then [x.raw] else []
  {
    var program := RouteProgram(x.raw, x.v);
    var replies: nat -> Reply := n => if n == 0 then x.publish else x.queued;
    var w1 := Apply(w, program[0].effect, x.publish);
    assert LogOf(w1.logs, p) == LogOf(w.logs, p) + if Lands(x, p) then [x.raw] else [];
    if x.publish.outcome.Applied? {
      assert Execute(w, program, replies, 0) == Execute(w1, program[1..], replies, 1);
      QueuedKeepsLogs(w1, x, replies);
    }
  }

  lemma QueuedKeepsLogs(w: World, x: Input, replies: nat -> Reply)
    ensures var run := Execute(w, RouteProgram(x.raw, x.v)[1..], replies, 1);
            !run.err && run.w.logs == w.logs
  {
    var rest := RouteProgram(x.raw, x.v)[1..];
    if rest != [] {
      assert rest == [Cmd(StatusSet(x.raw.task.id, Queued), false)] + [];
      ExecuteCons(w, rest[0], [], replies, 1);
    }
  }

  /** Over any sequence, each partition grows by exactly the messages bound for it, in order and unchanged. */
  lemma {:induction false} RouteAllConserves(w: World, xs: seq<Input>, p: Partition)
    ensures LogOf(RouteAll(w, xs).logs, p) == LogOf(w.logs, p) + Landed(xs, p)
    decreases |xs|
  {
    if xs != [] {
      var n := |xs| - 1;
      RouteAllConserves(w, xs[..n], p);
      RouteOnce(RouteAll(w, xs[..n]), xs[n], p);
    }
  }

  /** Every message on a worker topic decodes to that topic's type. */
  predicate Typed(raws: seq<Raw>, taskType: string) {
    forall raw :: raw in raws ==> raw.Json? && raw.task.taskType == taskType
  }

  lemma {:induction false} LandedTyped(xs: seq<Input>, p: Partition, taskType: string)
    requires p.topic == WorkerTopic(taskType)
    ensures Typed(Landed(xs, p), taskType)
    decreases |xs|
  {
    if xs != [] {
      var x := xs[|xs| - 1];
      LandedTyped(xs[..|xs| - 1], p, taskType);
      WorkerTopicsDistinct(taskType, if x.raw.Json? then x.raw.task.taskType else "");
    }
  }

  /**
   Whatever the dispatcher routes, a worker topic that held only messages of its type still does; so a worker
   with a handler for the type never takes the no-handler branch on them.
   */
  lemma TypedTopics(w: World, xs: seq<Input>, p: Partition, taskType: string,
                    cfg: Worker.Config, d: Worker.Delivery, guard: Option<Status>)
    requires p.topic == WorkerTopic(taskType) && Typed(LogOf(w.logs, p), taskType)
    ensures Typed(LogOf(RouteAll(w, xs).logs, p), taskType)
    ensures d.raw in LogOf(RouteAll(w, xs).logs, p) && taskType in cfg.registry ==>
              Worker.Program(cfg, d, guard) ==
              if guard.Some? && IsTerminal(guard.value) then [] else Worker.Executed(cfg, d.raw.task, d)
  {
    RouteAllConserves(w, xs, p);
    LandedTyped(xs, p, taskType);
  }

  // ----- the admission bound -----

  function KeysAfter(cfg: Config, arrivals: seq<Arrival>): map<string, Key> {
    if arrivals == [] then map[]
    else KeysAfterOne(cfg, KeysAfter(cfg, arrivals[..|arrivals| - 1]), arrivals[|arrivals| - 1])
  }

  predicate Counted(a: Arrival, taskType: string) {
    OfType(a, taskType) && !a.reply.Refused?
  }

  /** The times of the limiter calls for one type that reached Redis. */
  function CallsOf(taskType: string, arrivals: seq<Arrival>): seq<nat> {
    if arrivals == [] then []
    else
      var a := arrivals[|arrivals| - 1];
      CallsOf(taskType, arrivals[..|arrivals| - 1]) + if Counted(a, taskType) then [a.at] else []
  }

  lemma {:induction false} KeyIsRun(cfg: Config, taskType: string, arrivals: seq<Arrival>)
    ensures KeyOf(KeysAfter(cfg, arrivals), taskType) == Run(cfg, CallsOf(taskType, arrivals))
    decreases |arrivals|
  {
    hide Called;
    if arrivals != [] {
      var n := |arrivals| - 1;
      KeyIsRun(cfg, taskType, arrivals[..n]);
      var calls := CallsOf(taskType, arrivals);
      if Counted(arrivals[n], taskType) {
        assert calls[..|calls| - 1] == CallsOf(taskType, arrivals[..n]);
      } else {
        assert calls == CallsOf(taskType, arrivals[..n]);
      }
    }
  }

  function VerdictAt(cfg: Config, arrivals: seq<Arrival>, i: nat): Verdict
    requires i < |arrivals|
  {
    Judge(cfg, KeysAfter(cfg, arrivals[..i]), arrivals[i])
  }

  /** The verdict of a limiter that answers is that of the log of the type's own calls, this one included. */
  lemma VerdictExact(cfg: Config, taskType: string, arrivals: seq<Arrival>, i: nat)
    requires i < |arrivals| && OfType(arrivals[i], taskType) && arrivals[i].reply.Applied?
    ensures VerdictAt(cfg, arrivals, i) ==
            if Allowed(cfg, CallsOf(taskType, arrivals[..i + 1])) then Admit else Deny
  {
    hide Called;
    KeyIsRun(cfg, taskType, arrivals[..i]);
    assert arrivals[..i + 1][..i] == arrivals[..i];
    var calls := CallsOf(taskType, arrivals[..i + 1]);
    assert calls[..|calls| - 1] == CallsOf(taskType, arrivals[..i]);
  }

  predicate Within(a: Arrival, taskType: string, lo: nat, len: nat) {
    OfType(a, taskType) && lo <= a.at < lo + len
  }

  /** The messages of a type, consulted in an interval, that are sent to the worker topic. */
  function SentOn(cfg: Config, taskType: string, arrivals: seq<Arrival>, lo: nat, len: nat): set<nat> {
    set i | 0 <= i < |arrivals| && Within(arrivals[i], taskType, lo, len) &&
            Target(arrivals[i].raw, VerdictAt(cfg, arrivals, i)) == WorkerTopic(taskType)
  }

  /** Those of them for which the limiter failed. */
  function LimiterErrors(taskType: string, arrivals: seq<Arrival>, lo: nat, len: nat): set<nat> {
    set i | 0 <= i < |arrivals| && Within(arrivals[i], taskType, lo, len) && !arrivals[i].reply.Applied?
  }

  function Admitted(cfg: Config, taskType: string, arrivals: seq<Arrival>, lo: nat, len: nat): set<nat> {
    set i | 0 <= i < |arrivals| && Within(arrivals[i], taskType, lo, len) && VerdictAt(cfg, arrivals, i) == Admit
  }

  /** Position of an arrival's call in the log of its type. */
  function CallIndex(taskType: string, arrivals: seq<Arrival>, i: nat): nat
    requires i <= |arrivals|
  {
    |CallsOf(taskType, arrivals[..i])|
  }

  lemma {:induction false} CallsPrefix(taskType: string, arrivals: seq<Arrival>, i: nat)
    requires i <= |arrivals|
    ensures CallsOf(taskType, arrivals[..i]) <= CallsOf(taskType, arrivals)
    decreases |arrivals|
  {
    if i == |arrivals| {
      assert arrivals[..i] == arrivals;
    } else {
      var n := |arrivals| - 1;
      CallsPrefix(taskType, arrivals[..n], i);
      assert arrivals[..n][..i] == arrivals[..i];
    }
  }

  /** An admitted arrival is an allowed call of its type's log. */
  lemma AdmittedIsAllowed(cfg: Config, taskType: string, arrivals: seq<Arrival>, lo: nat, len: nat, i: nat)
    requires i in Admitted(cfg, taskType, arrivals, lo, len)
    ensures CallIndex(taskType, arrivals, i) in AllowedIn(cfg, CallsOf(taskType, arrivals), lo, len)
  {
    hide Called, Run;
    var before, upto := arrivals[..i], arrivals[..i + 1];
    assert upto[..i] == before && upto[i] == arrivals[i];
    var calls, k := CallsOf(taskType, arrivals), CallIndex(taskType, arrivals, i);
    CallsPrefix(taskType, arrivals, i + 1);
    assert CallsOf(taskType, upto) == CallsOf(taskType, before) + [arrivals[i].at];
    assert calls[..k + 1] == CallsOf(taskType, upto);
    KeyIsRun(cfg, taskType, upto);
    assert KeysAfter(cfg, upto) == KeysAfterOne(cfg, KeysAfter(cfg, before), arrivals[i]);
    assert Allowed(cfg, calls[..k + 1]);
  }

  /** Different counted arrivals have different positions. */
  lemma CallIndexStrict(taskType: string, arrivals: seq<Arrival>, i: nat, j: nat)
    requires i < j <= |arrivals| && Counted(arrivals[i], taskType)
    ensures CallIndex(taskType, arrivals, i) < CallIndex(taskType, arrivals, j)
  {
    var upto := arrivals[..i + 1];
    assert upto[..i] == arrivals[..i] && upto[i] == arrivals[i];
    assert CallsOf(taskType, upto) == CallsOf(taskType, arrivals[..i]) + [arrivals[i].at];
    CallsPrefix(taskType, arrivals[..j], i + 1);
    assert arrivals[..j][..i + 1] == upto;
  }

  function Indices(taskType: string, arrivals: seq<Arrival>, s: set<nat>): set<nat>
    requires forall i :: i in s ==> i < |arrivals|
  {
    set i | i in s :: CallIndex(taskType, arrivals, i)
  }

  lemma {:induction false} IndicesCount(taskType: string, arrivals: seq<Arrival>, s: set<nat>)
    requires forall i :: i in s ==> i < |arrivals| && Counted(arrivals[i], taskType)
    ensures |Indices(taskType, arrivals, s)| == |s|
    decreases |s|
  {
    hide CallIndex, Counted;
    if s != {} {
      var x :| x in s;
      var rest := s - {x};
      IndicesCount(taskType, arrivals, rest);
      var k := CallIndex(taskType, arrivals, x);
      assert Indices(taskType, arrivals, s) == Indices(taskType, arrivals, rest) + {k};
      if k in Indices(taskType, arrivals, rest) {
        var i :| i in rest && CallIndex(taskType, arrivals, i) == k;
        if i < x {
          CallIndexStrict(taskType, arrivals, i, x);
        } else {
          CallIndexStrict(taskType, arrivals, x, i);
        }
        assert false;
      }
    }
  }

  lemma AdmittedBound(cfg: Config, taskType: string, arrivals: seq<Arrival>, lo: nat, len: nat)
    requires cfg.window <= cfg.ttl && Retains(cfg, lo, len) && StrictlySorted(CallsOf(taskType, arrivals))
    ensures |Admitted(cfg, taskType, arrivals, lo, len)| <= if cfg.limit < 0 then 0 else cfg.limit
  {
    hide Retains;
    var s := Admitted(cfg, taskType, arrivals, lo, len);
    var allowed := AllowedIn(cfg, CallsOf(taskType, arrivals), lo, len);
    forall i | i in s
      ensures CallIndex(taskType, arrivals, i) in allowed
    {
      AdmittedIsAllowed(cfg, taskType, arrivals, lo, len, i);
    }
    IndicesCount(taskType, arrivals, s);
    SubsetCount(Indices(taskType, arrivals, s), allowed);
    AllowedCalls(cfg, CallsOf(taskType, arrivals), lo, len);
  }

  /**
   Over any run, the messages of a type sent to its worker topic whose limiter call falls in an interval whose
   entries retain each other number at most the limit plus the limiter errors for the type in that interval.
   */
  lemma AdmissionBound(cfg: Config, taskType: string, arrivals: seq<Arrival>, lo: nat, len: nat)
    requires cfg.window <= cfg.ttl && Retains(cfg, lo, len) && StrictlySorted(CallsOf(taskType, arrivals))
    ensures |SentOn(cfg, taskType, arrivals, lo, len)|
            <= (if cfg.limit < 0 then 0 else cfg.limit) + |LimiterErrors(taskType, arrivals, lo, len)|
  {
    hide Retains;
    var sent := SentOn(cfg, taskType, arrivals, lo, len);
    var admitted := Admitted(cfg, taskType, arrivals, lo, len);
    var errors := LimiterErrors(taskType, arrivals, lo, len);
    WorkerTopicsDistinct(taskType, taskType);
    assert sent <= admitted + errors;
    SubsetCount(sent, admitted + errors);
    AdmittedBound(cfg, taskType, arrivals, lo, len);
    assert |admitted + errors| <= |admitted| + |errors|;
  }

  /** With exact scores that is every half-open interval of one window. */
  lemma ExactAdmissionBound(cfg: Config, taskType: string, arrivals: seq<Arrival>, lo: nat)
    requires cfg.scores == Exact && cfg.window <= cfg.ttl && StrictlySorted(CallsOf(taskType, arrivals))
    ensures |SentOn(cfg, taskType, arrivals, lo, cfg.window)|
            <= (if cfg.limit < 0 then 0 else cfg.limit) + |LimiterErrors(taskType, arrivals, lo, cfg.window)|
  {
    ExactRetains(cfg, lo);
    AdmissionBound(cfg, taskType, arrivals, lo, cfg.window);
  }

  /** With float64 scores, every half-open interval of one window less 256 ns. */
  lemma FloatAdmissionBound(cfg: Config, taskType: string, arrivals: seq<Arrival>, lo: nat)
    requires cfg.scores == Float64 && 256 < cfg.window <= cfg.ttl && StrictlySorted(CallsOf(taskType, arrivals))
    requires TWO60 + cfg.window <= lo && lo + cfg.window < TWO61
    ensures |SentOn(cfg, taskType, arrivals, lo, cfg.window - 256)|
            <= (if cfg.limit < 0 then 0 else cfg.limit) + |LimiterErrors(taskType, arrivals, lo, cfg.window - 256)|
  {
    FloatRetains(cfg, lo);
    AdmissionBound(cfg, taskType, arrivals, lo, cfg.window - 256);
  }

  /** With float64 scores and the expiry that Allow really sets, nothing is left to assume about the key. */
  lemma DeployedAdmissionBound(cfg: Config, taskType: string, arrivals: seq<Arrival>, lo: nat)
    requires cfg.scores == Float64 && 256 < cfg.window && cfg.ttl == Ttl(cfg.window)
    requires StrictlySorted(CallsOf(taskType, arrivals))
    requires TWO60 + cfg.window <= lo && lo + cfg.window < TWO61
    ensures |SentOn(cfg, taskType, arrivals, lo, cfg.window - 256)|
            <= (if cfg.limit < 0 then 0 else cfg.limit) + |LimiterErrors(taskType, arrivals, lo, cfg.window - 256)|
  {
    hide SentOn, LimiterErrors, CallsOf;
    TtlCoversWindow(cfg.window);
    FloatAdmissionBound(cfg, taskType, arrivals, lo);
  }
}
