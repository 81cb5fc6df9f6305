/** The retry engine (pkg/retry/retry.go), driven by the closures the worker gives it. */
module Retry {
  import opened Domain
  import opened Backend

  const TWO63: int := 0x8000_0000_0000_0000

  /** Two's-complement int64. */
  function Wrap64(x: int): (r: int)
    ensures -TWO63 <= r < TWO63
    ensures -TWO63 <= x < TWO63 ==> r == x
  {
    (x + TWO63) % (2 * TWO63) - TWO63
  }

  /** Nothing but multiples of 2^64 is lost. */
  lemma Wrap64Congruent(x: int)
    ensures (x - Wrap64(x)) % (2 * TWO63) == 0
  {
  }

  /** The delay computed after attempt n; both products wrap. */
  function Delay(base: int, n: nat): int {
    Wrap64(base * Wrap64(n * n))
  }

  /** A timer with a negative duration fires at once. */
  function Wait(base: int, n: nat): nat {
    if Delay(base, n) < 0 then 0 else Delay(base, n)
  }

  /** The waits of a configuration, as a function of the attempt. */
  function Schedule(base: int): nat -> nat {
    n => Wait(base, n)
  }

  /**
   What the environment does to one call of Do: whether the n-th call of the handler succeeds and how long
   it takes, and whether the context is done before the wait after attempt n is over, and how far into it.
   */
  datatype Script = Script(ok: nat -> bool, took: nat -> nat, cancel: nat -> bool, cut: nat -> nat)

  function Limit(maxAttempts: int): (m: nat)
    ensures m >= 1
  {
    if maxAttempts <= 0 then 1 else maxAttempts
  }

  predicate Stops(script: Script, limit: nat, n: nat) {
    script.ok(n) || n == limit || script.cancel(n)
  }

  /** The attempt Do ends at, when it has reached attempt n. */
  function Last(script: Script, limit: nat, n: nat): (k: nat)
    requires 1 <= n <= limit
    ensures n <= k <= limit && Stops(script, limit, k)
    ensures forall j :: n <= j < k ==> !Stops(script, limit, j)
    decreases limit - n
  {
    if Stops(script, limit, n) then n else Last(script, limit, n + 1)
  }

  datatype Result = Nil | LastError(attempt: nat) | Cancelled(attempt: nat)

  function ResultAt(script: Script, limit: nat, k: nat): Result {
    if script.ok(k) then Nil else if k == limit then LastError(k) else Cancelled(k)
  }

  /** The effects from attempt n on: a handler call, and a RETRYING write per OnRetry callback. */
  function Attempts(id: string, script: Script, limit: nat, n: nat): seq<Cmd>
    requires 1 <= n <= limit
    decreases limit - n
  {
    [Cmd(Invoked(id, script.ok(n)), false)] +
    if script.ok(n) || n == limit then []
    else [Cmd(StatusSet(id, Retrying), false)] +
         if script.cancel(n) then [] else Attempts(id, script, limit, n + 1)
  }

  /** The sum of f over the attempts before k. */
  function Total(f: nat -> nat, k: nat): nat {
    if k <= 1 then 0 else Total(f, k - 1) + f(k - 1)
  }

  /** All the waits between k attempts, and what the cancelled one took when there is one. */
  function Waited(script: Script, wait: nat -> nat, limit: nat, k: nat): nat {
    Total(wait, k) +
    if ResultAt(script, limit, k).Cancelled? then (if script.cut(k) < wait(k) then script.cut(k) else wait(k)) else 0
  }

  /** The two closures of processMessage and the counter they share. */
  class Closures {
    const services: Services
    const id: string
    const script: Script
    var attempts: nat

    constructor (services: Services, id: string, script: Script)
      ensures this.services == services && this.id == id && this.script == script && attempts == 0
    {
      this.services, this.id, this.script, this.attempts := services, id, script, 0;
    }

    method Fn() returns (ok: bool, took: nat)
      modifies this`attempts, services`w, services`step
      ensures attempts == old(attempts) + 1 && ok == script.ok(attempts) && took == script.took(attempts)
      ensures services.w == old(services.After(Invoked(id, script.ok(attempts + 1))))
      ensures services.step == old(services.step) + 1
    {
      attempts := attempts + 1;
      ok, took := script.ok(attempts), script.took(attempts);
      services.Invoke(id, ok);
    }

    method OnRetry(attempt: nat)
      modifies this`attempts, services`w, services`step
      ensures attempts == attempt
      ensures services.w == old(services.After(StatusSet(id, Retrying))) && services.step == old(services.step) + 1
    {
      attempts := attempt;
      var _ := services.SetStatus(id, Retrying);
    }
  }

  /** How running the effects from attempt n on begins. */
  lemma AttemptStep(w: World, id: string, script: Script, limit: nat, n: nat, replies: nat -> Reply, i: nat)
    requires 1 <= n <= limit
    ensures var called := Apply(w, Invoked(id, script.ok(n)), replies(i));
            var run := Execute(w, Attempts(id, script, limit, n), replies, i);
            if script.ok(n) || n == limit then run == Ended(called, false, i + 1)
            else
              var retried := Apply(called, StatusSet(id, Retrying), replies(i + 1));
              if script.cancel(n) then run == Ended(retried, false, i + 2)
              else run == Execute(retried, Attempts(id, script, limit, n + 1), replies, i + 2)
  {
    var call := Cmd(Invoked(id, script.ok(n)), false);
    var called := Apply(w, call.effect, replies(i));
    if script.ok(n) || n == limit {
      assert Attempts(id, script, limit, n) == [call] + [];
      ExecuteCons(w, call, [], replies, i);
    } else {
      var retry := Cmd(StatusSet(id, Retrying), false);
      var rest := if script.cancel(n) then [] else Attempts(id, script, limit, n + 1);
      assert Attempts(id, script, limit, n) == [call] + ([retry] + rest);
      ExecuteCons(w, call, [retry] + rest, replies, i);
      ExecuteCons(called, retry, rest, replies, i + 1);
    }
  }

  lemma {:induction false} LastUnique(script: Script, limit: nat, n: nat, k: nat)
    requires 1 <= n <= k <= limit && Stops(script, limit, k)
    requires forall j :: n <= j < k ==> !Stops(script, limit, j)
    ensures Last(script, limit, n) == k
    decreases k - n
  {
    if n < k {
      LastUnique(script, limit, n + 1, k);
    }
  }

  /** Do calls the handler until a success, the last attempt or a cancelled wait, whichever comes first. */
  method Do(c: Closures, maxAttempts: int, base: int) returns (res: Result, worked: nat, waited: nat)
    requires c.attempts == 0
    modifies c`attempts, c.services`w, c.services`step
    ensures var m, k := if maxAttempts <= 0 then 1 else maxAttempts, c.attempts;
            && 1 <= k <= m && (c.script.ok(k) || c.script.cancel(k) || k == m)
            && (forall j :: 1 <= j < k ==> !c.script.ok(j) && !c.script.cancel(j))
            && (res == Nil <==> c.script.ok(k))
            && (res == LastError(k) <==> !c.script.ok(k) && k == m)
            && (res == Cancelled(k) <==> !c.script.ok(k) && k < m)
    ensures c.attempts == Last(c.script, Limit(maxAttempts), 1)
    ensures res == ResultAt(c.script, Limit(maxAttempts), c.attempts)
    ensures Execute(old(c.services.w), Attempts(c.id, c.script, Limit(maxAttempts), 1), c.services.replies,
                    old(c.services.step))
            == Ended(c.services.w, false, c.services.step)
    ensures worked == Total(c.script.took, c.attempts + 1)
    ensures waited == Waited(c.script, Schedule(base), Limit(maxAttempts), c.attempts)
  {
    hide Last, Attempts, Execute, Waited, Total;
    var max := maxAttempts;
    if max <= 0 {
      max := 1;
    }
    res, worked, waited := Loop(c, max, Schedule(base));
    LastUnique(c.script, max, 1, c.attempts);
    NoneBefore(c.script, max, c.attempts);
  }

  lemma NoneBefore(script: Script, limit: nat, k: nat)
    requires forall j :: 1 <= j < k ==> !Stops(script, limit, j)
    ensures forall j :: 1 <= j < k ==> !script.ok(j) && !script.cancel(j)
  {
    forall j | 1 <= j < k
      ensures !script.ok(j) && !script.cancel(j)
    {
      assert !Stops(script, limit, j);
    }
  }

  /** The counted loop of Do. */
  method Loop(c: Closures, max: nat, wait: nat -> nat) returns (res: Result, worked: nat, waited: nat)
    requires c.attempts == 0 && max >= 1
    modifies c`attempts, c.services`w, c.services`step
    ensures 1 <= c.attempts <= max && Stops(c.script, max, c.attempts)
    ensures forall j :: 1 <= j < c.attempts ==> !Stops(c.script, max, j)
    ensures res == ResultAt(c.script, max, c.attempts)
    ensures Execute(old(c.services.w), Attempts(c.id, c.script, max, 1), c.services.replies, old(c.services.step))
            == Ended(c.services.w, false, c.services.step)
    ensures worked == Total(c.script.took, c.attempts + 1)
    ensures waited == Waited(c.script, wait, max, c.attempts)
  {
    hide Execute, Attempts;
    worked, waited := 0, 0;
    var attempt := 1;
    ghost var goal := Execute(c.services.w, Attempts(c.id, c.script, max, 1), c.services.replies, c.services.step);
    while true
      invariant 1 <= attempt <= max
      invariant c.attempts == attempt - 1
      invariant forall j :: 1 <= j < attempt ==> !Stops(c.script, max, j)
      invariant goal == Execute(c.services.w, Attempts(c.id, c.script, max, attempt), c.services.replies,
                                c.services.step)
      invariant worked == Total(c.script.took, attempt)
      invariant waited == Total(wait, attempt)
      decreases max - attempt
    {
      var ended, took, slept := Turn(c, max, wait, attempt);
      worked, waited := worked + took, waited + slept;
      if ended.Some? {
        res := ended.value;
        return;
      }
      attempt := attempt + 1;
    }
  }

  /** One turn of the loop: a call and, unless it was the last, the callback and the wait. */
  method Turn(c: Closures, max: nat, wait: nat -> nat, attempt: nat)
    returns (ended: Option<Result>, took: nat, slept: nat)
    requires 1 <= attempt <= max && c.attempts == attempt - 1
    modifies c`attempts, c.services`w, c.services`step
    ensures c.attempts == attempt && took == c.script.took(attempt)
    ensures ended == if Stops(c.script, max, attempt) then Some(ResultAt(c.script, max, attempt)) else None
    ensures slept == if ended == Some(Nil) || attempt == max then 0
                     else if ended.None? || wait(attempt) <= c.script.cut(attempt) then wait(attempt)
                     else c.script.cut(attempt)
    ensures Execute(old(c.services.w), Attempts(c.id, c.script, max, attempt), c.services.replies, old(c.services.step))
            == if ended.Some? then Ended(c.services.w, false, c.services.step)
               else Execute(c.services.w, Attempts(c.id, c.script, max, attempt + 1), c.services.replies,
                            c.services.step)
  {
    AttemptStep(c.services.w, c.id, c.script, max, attempt, c.services.replies, c.services.step);
    var ok;
    ok, took := c.Fn();
    if ok {
      return Some(Nil), took, 0;
    }
    if attempt == max {
      return Some(LastError(attempt)), took, 0;
    }
    c.OnRetry(attempt);
    ended, slept := None, wait(attempt);
    if c.script.cancel(attempt) {
      ended := Some(Cancelled(attempt));
      if c.script.cut(attempt) < slept {
        slept := c.script.cut(attempt);
      }
    }
  }

  // ----- what one call of Do adds up to -----

  function Repeat<T>(n: nat, x: T): seq<T> {
    seq(n, _ => x)
  }

  /** The OnRetry callbacks when Do ends at attempt k: one less than the calls, unless the wait after k is cut short. */
  function Retries(script: Script, limit: nat, k: nat): (r: nat)
    requires k >= 1
    ensures k - 1 <= r <= k
  {
    if ResultAt(script, limit, k).Cancelled? then k else k - 1
  }

  /** The calls, callbacks and writes of attempts n to k. */
  function Burst(script: Script, limit: nat, n: nat, k: nat): Trace
    requires 1 <= n <= k
  {
    Trace(Repeat(k - n, false) + [script.ok(k)], Repeat(Retries(script, limit, k) - (n - 1), Retrying), [], [])
  }

  lemma EmptyTrace()
    ensures TraceOf([]) == Trace([], [], [], [])
  {
  }

  lemma BurstStep(script: Script, limit: nat, n: nat, k: nat)
    requires 1 <= n < k
    ensures Burst(script, limit, n, k) ==
            Join(Trace([false], [], [], []), Join(Trace([], [Retrying], [], []), Burst(script, limit, n + 1, k)))
  {
    hide Retries;
    RepeatCons(k - n, false);
    RepeatCons(Retries(script, limit, k) - (n - 1), Retrying);
  }

  lemma RepeatCons<T>(n: nat, x: T)
    requires n >= 1
    ensures Repeat(n, x) == [x] + Repeat(n - 1, x)
  {
  }

  /** The i-th effect from attempt n on. */
  predicate InOrder(id: string, script: Script, n: nat, i: nat, c: Cmd) {
    c == if i % 2 == 0 then Cmd(Invoked(id, script.ok(n + i / 2)), false) else Cmd(StatusSet(id, Retrying), false)
  }

  /**
   From attempt n on, in order: a call, and after each call but the last RETRYING; after the last one too if the wait
   that follows is cut short.
   */
  lemma AttemptsOrder(id: string, script: Script, limit: nat, n: nat)
    requires 1 <= n <= limit
    ensures var p, k := Attempts(id, script, limit, n), Last(script, limit, n);
            && |p| == 2 * (k - n) + (if script.ok(k) || k == limit then 1 else 2)
            && (forall i :: 0 <= i < |p| ==> InOrder(id, script, n, i, p[i]))
  {
    hide Attempts, InOrder, Last;
    AttemptsLength(id, script, limit, n);
    EachInOrder(id, script, limit, n);
  }

  lemma {:induction false} AttemptsLength(id: string, script: Script, limit: nat, n: nat)
    requires 1 <= n <= limit
    ensures var k := Last(script, limit, n);
            |Attempts(id, script, limit, n)| == 2 * (k - n) + (if script.ok(k) || k == limit then 1 else 2)
    decreases limit - n
  {
    if !Stops(script, limit, n) {
      AttemptsLength(id, script, limit, n + 1);
    }
  }

  lemma {:induction false} EachInOrder(id: string, script: Script, limit: nat, n: nat)
    requires 1 <= n <= limit
    ensures forall i :: 0 <= i < |Attempts(id, script, limit, n)| ==>
              InOrder(id, script, n, i, Attempts(id, script, limit, n)[i])
    decreases limit - n
  {
    hide InOrder;
    var p := Attempts(id, script, limit, n);
    if script.ok(n) || n == limit {
      OrderStart(id, script, n);
      assert p == [Cmd(Invoked(id, script.ok(n)), false)];
    } else {
      var rest := if script.cancel(n) then [] else Attempts(id, script, limit, n + 1);
      assert p == [Cmd(Invoked(id, script.ok(n)), false), Cmd(StatusSet(id, Retrying), false)] + rest;
      hide Attempts;
      if !script.cancel(n) {
        EachInOrder(id, script, limit, n + 1);
      }
      OrderCons(id, script, n, p, rest);
    }
  }

  lemma OrderStart(id: string, script: Script, n: nat)
    ensures InOrder(id, script, n, 0, Cmd(Invoked(id, script.ok(n)), false))
    ensures InOrder(id, script, n, 1, Cmd(StatusSet(id, Retrying), false))
  {
  }

  lemma OrderCons(id: string, script: Script, n: nat, p: seq<Cmd>, rest: seq<Cmd>)
    requires p == [Cmd(Invoked(id, script.ok(n)), false), Cmd(StatusSet(id, Retrying), false)] + rest
    requires forall i :: 0 <= i < |rest| ==> InOrder(id, script, n + 1, i, rest[i])
    ensures forall i :: 0 <= i < |p| ==> InOrder(id, script, n, i, p[i])
  {
    hide InOrder;
    OrderStart(id, script, n);
    forall i | 2 <= i < |p|
      ensures InOrder(id, script, n, i, p[i])
    {
      assert p[i] == rest[i - 2];
      OrderShift(id, script, n, i - 2, p[i]);
    }
  }

  lemma OrderShift(id: string, script: Script, n: nat, i: nat, c: Cmd)
    requires InOrder(id, script, n + 1, i, c)
    ensures InOrder(id, script, n, i + 2, c)
  {
    assert (i + 2) / 2 == i / 2 + 1 && (i + 2) % 2 == i % 2;
  }

  /** From attempt n on: calls that fail up to the last one, and RETRYING once per callback. */
  lemma {:induction false} AttemptsTrace(id: string, script: Script, limit: nat, n: nat)
    requires 1 <= n <= limit
    ensures TraceOf(Attempts(id, script, limit, n)) == Burst(script, limit, n, Last(script, limit, n))
    decreases limit - n
  {
    var call := Cmd(Invoked(id, script.ok(n)), false);
    var retry := Cmd(StatusSet(id, Retrying), false);
    hide TraceOf;
    if script.ok(n) || n == limit {
      assert Attempts(id, script, limit, n) == [call] + [];
      TraceCons(call, []);
      EmptyTrace();
    } else {
      var rest := if script.cancel(n) then [] else Attempts(id, script, limit, n + 1);
      assert Attempts(id, script, limit, n) == [call] + ([retry] + rest);
      TraceCons(call, [retry] + rest);
      TraceCons(retry, rest);
      if script.cancel(n) {
        EmptyTrace();
      } else {
        AttemptsTrace(id, script, limit, n + 1);
        BurstStep(script, limit, n, Last(script, limit, n));
      }
    }
  }

  // ----- timing -----

  /** No delay computed before the last attempt wraps. */
  predicate DelaysExact(base: nat, limit: nat) {
    forall n: nat :: 1 <= n < limit ==> Delay(base, n) == base * (n * n)
  }

  /** No delay Do can compute wraps exactly when the largest one fits in int64. */
  lemma DelaysExactIff(base: nat, maxAttempts: nat)
    requires maxAttempts >= 2
    ensures DelaysExact(base, maxAttempts) <==> base * ((maxAttempts - 1) * (maxAttempts - 1)) < TWO63
  {
    var m := maxAttempts - 1;
    if base * (m * m) < TWO63 {
      forall n: nat | 1 <= n < maxAttempts
        ensures Delay(base, n) == base * (n * n)
      {
        SquareMonotone(base, n, m);
        if base == 0 {
          assert base * Wrap64(n * n) == 0;
        }
      }
    } else {
      assert Delay(base, m) < TWO63;
    }
  }

  lemma SquareMonotone(base: nat, n: nat, m: nat)
    requires n <= m
    ensures base * (n * n) <= base * (m * m)
    ensures base >= 1 ==> n * n <= base * (n * n)
  {
    assert n * n <= m * m;
    MulMonotone(base, n * n, m * m);
    if base >= 1 {
      MulMonotone(n * n, 1, base);
    }
  }

  /** With the default base of one second the bound is 96039 attempts. */
  lemma OneSecondBound(maxAttempts: nat)
    requires maxAttempts >= 2
    ensures DelaysExact(SECOND, maxAttempts) <==> maxAttempts <= 96039
  {
    DelaysExactIff(SECOND, maxAttempts);
    var m := maxAttempts - 1;
    if m <= 96038 {
      SquareMonotone(SECOND, m, 96038);
    } else {
      SquareMonotone(SECOND, 96039, m);
    }
  }

  lemma {:induction false} TotalGrows(f: nat -> nat, n: nat, m: nat)
    requires n <= m
    ensures Total(f, n) <= Total(f, m)
    decreases m - n
  {
    if n < m {
      TotalGrows(f, n, m - 1);
    }
  }

  /** Sum of the squares below k, six times over. */
  function Pyramid(k: nat): int {
    (k - 1) * k * (2 * k - 1)
  }

  lemma PyramidStep(base: int, m: nat)
    ensures base * Pyramid(m + 1) == base * Pyramid(m) + 6 * (base * (m * m))
  {
    var p, q := Pyramid(m), m * m;
    assert Pyramid(m + 1) == p + 6 * q;
    assert base * (p + 6 * q) == base * p + 6 * (base * q);
  }

  predicate Quadratic(wait: nat -> nat, base: nat, limit: nat) {
    forall n: nat :: 1 <= n < limit ==> wait(n) == base * (n * n)
  }

  lemma {:induction false} TotalOfQuadratic(wait: nat -> nat, base: nat, limit: nat, k: nat)
    requires 1 <= k <= limit && Quadratic(wait, base, limit)
    ensures 6 * Total(wait, k) == base * Pyramid(k)
  {
    if k > 1 {
      var m: nat := k - 1;
      TotalOfQuadratic(wait, base, limit, m);
      PyramidStep(base, m);
      assert wait(m) == base * (m * m);
      assert Total(wait, k) == Total(wait, m) + wait(m);
    } else {
      assert Pyramid(k) == 0;
    }
  }

  lemma TotalClosedForm(base: nat, limit: nat, k: nat)
    requires 1 <= k <= limit && DelaysExact(base, limit)
    ensures 6 * Total(Schedule(base), k) == base * Pyramid(k)
  {
    forall n: nat | 1 <= n < limit
      ensures Schedule(base)(n) == base * (n * n)
    {
      assert Delay(base, n) == base * (n * n);
      MulMonotone(base, 0, n * n);
    }
    TotalOfQuadratic(Schedule(base), base, limit, k);
  }

  /** k calls without cancellation wait for base * (k-1) * k * (2k-1) / 6 in all. */
  lemma TotalWait(script: Script, base: nat, limit: nat)
    requires limit >= 1 && DelaysExact(base, limit)
    ensures var k := Last(script, limit, 1);
            !ResultAt(script, limit, k).Cancelled? ==>
              6 * Waited(script, Schedule(base), limit, k) == base * ((k - 1) * k * (2 * k - 1))
  {
    TotalClosedForm(base, limit, Last(script, limit, 1));
  }

  lemma {:induction false} TotalBound(f: nat -> nat, k: nat, most: nat)
    requires k >= 1 && forall j :: f(j) <= most
    ensures Total(f, k) <= (k - 1) * most
  {
    if k > 1 {
      TotalBound(f, k - 1, most);
      assert (k - 1) * most == (k - 2) * most + most;
    }
  }

  lemma WaitedBound(script: Script, wait: nat -> nat, limit: nat)
    requires limit >= 1
    ensures Waited(script, wait, limit, Last(script, limit, 1)) <= Total(wait, limit)
  {
    var k := Last(script, limit, 1);
    if ResultAt(script, limit, k).Cancelled? {
      TotalGrows(wait, k + 1, limit);
    } else {
      TotalGrows(wait, k, limit);
    }
  }

  /** With r retries and handlers that keep to the timeout, the retry phase is bounded, cancelled or not. */
  lemma RetryPhaseBound(script: Script, base: nat, r: nat, timeout: nat)
    requires forall j :: script.took(j) <= timeout
    requires DelaysExact(base, r + 1)
    ensures var k := Last(script, Limit(r + 1), 1);
            6 * (Total(script.took, k + 1) + Waited(script, Schedule(base), Limit(r + 1), k))
            <= 6 * ((r + 1) * timeout) + base * (r * (r + 1) * (2 * r + 1))
  {
    var k := Last(script, r + 1, 1);
    assert Total(script.took, k + 1) <= (r + 1) * timeout by {
      TotalBound(script.took, k + 1, timeout);
      MulMonotone(timeout, k, r + 1);
    }
    WaitedBound(script, Schedule(base), r + 1);
    TotalClosedForm(base, r + 1, r + 1);
  }
}
