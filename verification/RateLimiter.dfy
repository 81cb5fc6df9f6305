/**
 The sliding-window limiter (internal/redis/rate_limiter.go): a sorted set of call times per key, pruned,
 extended, counted and re-expired in one transaction per call.

 Library assumptions: sorted-set scores and range bounds are float64 (section 4.3.1 of IEEE 754-2019, round to
 nearest, ties to even); EXPIRE takes whole seconds, rounded down, at least one.
 */
module RateLimiter {
  import opened Domain
  import opened Backend

  const TWO52: nat := 0x10_0000_0000_0000
  const TWO53: nat := 0x20_0000_0000_0000
  const TWO60: nat := 0x1000_0000_0000_0000
  const TWO61: nat := 0x2000_0000_0000_0000

  /** Whether scores are kept exactly or go through float64. */
  datatype Scores = Exact | Float64

  datatype Config = Config(limit: int, window: nat, ttl: nat, scores: Scores)

  /** The expiry of a key after a call, as the client sends it for twice the window. */
  function Ttl(window: nat): nat {
    if 0 < 2 * window < SECOND then SECOND else 2 * window / SECOND * SECOND
  }

  /** However EXPIRE rounds, a key outlives its window. */
  lemma TtlCoversWindow(window: nat)
    ensures window <= Ttl(window) && Ttl(window) % SECOND == 0
    ensures 2 * window >= SECOND ==> 2 * window - SECOND < Ttl(window) <= 2 * window
  {
  }

  // ----- float64 -----

  /** The spacing of float64 values around x. */
  function Ulp(x: nat): (u: nat)
    ensures u >= 1
  {
    if x < TWO53 then 1 else 2 * Ulp(x / 2)
  }

  /** x rounded to a multiple of u, ties to the even multiple. */
  function RoundEven(x: nat, u: nat): int
    requires u >= 1
  {
    var q, r := x / u, x % u;
    if 2 * r < u || (2 * r == u && q % 2 == 0) then q * u else q * u + u
  }

  predicate Nearest(x: int, y: int, u: int, m: int) {
    2 * (y - x) <= u && 2 * (x - y) <= u && (2 * (y - x) == u || 2 * (x - y) == u ==> m % 2 == 0)
  }

  /** No multiple of u is nearer, and of two equally near the even one is taken. */
  lemma RoundEvenNearest(x: nat, u: nat) returns (m: nat)
    requires u >= 1
    ensures RoundEven(x, u) == m * u && Nearest(x, m * u, u, m)
  {
    hide RoundEven, Nearest;
    var q, r := x / u, x % u;
    var up := !(2 * r < u || (2 * r == u && q % 2 == 0));
    m := if up then q + 1 else q;
    RoundsTo(x, u, q, r);
    HalfwayCases(x, q * u, u, q, r);
  }

  lemma RoundsTo(x: nat, u: nat, q: nat, r: nat)
    requires u >= 1 && q == x / u && r == x % u
    ensures x == q * u + r && r < u && (q + 1) * u == q * u + u
    ensures RoundEven(x, u) == if 2 * r < u || (2 * r == u && q % 2 == 0) then q * u else q * u + u
  {
  }

  lemma HalfwayCases(x: int, low: int, u: int, q: int, r: int)
    requires x == low + r && 0 <= r < u
    ensures if 2 * r < u || (2 * r == u && q % 2 == 0) then Nearest(x, low, u, q) else Nearest(x, low + u, u, q + 1)
  {
  }

  function Score(scores: Scores, t: int): int {
    match scores
    case Exact => t
    case Float64 => if t >= 0 then RoundEven(t, Ulp(t)) else -RoundEven(-t, Ulp(-t))
  }

  lemma {:induction false} UlpBounds(x: nat)
    ensures x < Ulp(x) * TWO53
    ensures x >= TWO53 ==> Ulp(x) * TWO52 <= x
  {
    if x >= TWO53 {
      UlpBounds(x / 2);
    }
  }

  lemma {:induction false} UlpMonotone(x: nat, y: nat)
    requires x <= y
    ensures Ulp(x) == Ulp(y) || 2 * Ulp(x) <= Ulp(y)
  {
    if y >= TWO53 {
      if x >= TWO53 {
        UlpMonotone(x / 2, y / 2);
      }
    }
  }

  lemma QuotientStep(a: nat, b: nat, u: nat)
    requires a < b
    ensures a * u + u <= b * u
  {
    MulMonotone(u, a + 1, b);
  }

  lemma QuotientMonotone(x: nat, y: nat, u: nat)
    requires u >= 1 && x <= y
    ensures x / u <= y / u
    ensures x / u == y / u ==> x % u <= y % u
  {
    var p, q := x / u, y / u;
    assert x == p * u + x % u && y == q * u + y % u;
    if q < p {
      QuotientStep(q, p, u);
    }
  }

  lemma RoundEvenMonotone(x: nat, y: nat, u: nat)
    requires u >= 1 && x <= y
    ensures RoundEven(x, u) <= RoundEven(y, u)
  {
    QuotientMonotone(x, y, u);
    if x / u < y / u {
      QuotientStep(x / u, y / u, u);
    }
  }

  lemma ScoreMonotoneNat(x: nat, y: nat)
    requires x <= y
    ensures Score(Float64, x) <= Score(Float64, y)
  {
    var u, v := Ulp(x), Ulp(y);
    UlpMonotone(x, y);
    if u == v {
      RoundEvenMonotone(x, y, u);
    } else {
      UlpBounds(x);
      UlpBounds(y);
      BelowBinade(x, u);
      AboveBinade(y, v);
    }
  }

  /** Rounding never leaves the binade upwards. */
  lemma BelowBinade(x: nat, u: nat)
    requires u >= 1 && x < u * TWO53
    ensures RoundEven(x, u) <= u * TWO53
  {
    var q := x / u;
    assert x == q * u + x % u;
    if q >= TWO53 {
      MulMonotone(u, TWO53, q);
      assert false;
    }
    QuotientStep(q, TWO53, u);
  }

  lemma AboveBinade(y: nat, v: nat)
    requires v >= 1 && v * TWO52 <= y
    ensures v * TWO52 <= RoundEven(y, v)
  {
    var q := y / v;
    assert y == q * v + y % v;
    if q < TWO52 {
      QuotientStep(q, TWO52, v);
      assert false;
    }
    MulMonotone(v, TWO52, q);
  }

  lemma RoundEvenNonnegative(x: nat, u: nat)
    requires u >= 1
    ensures RoundEven(x, u) >= 0
  {
    MulMonotone(u, 0, x / u);
  }

  lemma ScoreMonotone(scores: Scores, a: int, b: int)
    requires a <= b
    ensures Score(scores, a) <= Score(scores, b)
  {
    hide RoundEven, Ulp;
    if scores == Float64 {
      if a >= 0 {
        ScoreMonotoneNat(a, b);
      } else if b < 0 {
        ScoreMonotoneNat(-b, -a);
      } else {
        RoundEvenNonnegative(-a, Ulp(-a));
        RoundEvenNonnegative(b, Ulp(b));
      }
    }
  }

  /** Nanosecond timestamps between 2006 and 2043 are 256 apart as float64. */
  lemma UlpOfNow(x: nat)
    requires TWO60 <= x < TWO61
    ensures Ulp(x) == 256
  {
    assert Ulp(x / 2) == 2 * Ulp(x / 2 / 2);
    assert Ulp(x / 2 / 2 / 2) == 2 * Ulp(x / 2 / 2 / 2 / 2);
    assert Ulp(x / 2 / 2) == 2 * Ulp(x / 2 / 2 / 2);
    var y := x / 2 / 2 / 2 / 2;
    assert Ulp(y / 2) == 2 * Ulp(y / 2 / 2);
    assert Ulp(y / 2 / 2) == 2 * Ulp(y / 2 / 2 / 2);
    assert Ulp(y / 2 / 2 / 2) == 2 * Ulp(y / 2 / 2 / 2 / 2);
    assert Ulp(y) == 2 * Ulp(y / 2);
  }

  /** More than one spacing apart, scores differ; exactly one spacing apart they may not. */
  lemma ApartByMoreThanAnUlp(t: nat, s: nat)
    requires TWO60 <= s && s + 256 < t < TWO61
    ensures Score(Float64, s) < Score(Float64, t)
  {
    UlpOfNow(t);
    UlpOfNow(s);
  }

  lemma ApartByOneUlp()
    ensures Score(Float64, TWO60 + 384) == Score(Float64, TWO60 + 640)
  {
    UlpOfNow(TWO60 + 384);
    UlpOfNow(TWO60 + 640);
  }

  // ----- one key -----

  /** The times recorded for a key and when the key expires. */
  datatype Key = Key(times: set<nat>, expires: int)

  /** An entry for a call at t survives the pruning of a call at s. */
  predicate Kept(cfg: Config, t: int, s: int) {
    Score(cfg.scores, t) > Score(cfg.scores, s - cfg.window)
  }

  function Present(k: Key, now: int): set<nat> {
    if now < k.expires then k.times else {}
  }

  /** A call at `now`: prune, add, and re-expire. */
  function Called(cfg: Config, k: Key, now: nat): Key {
    Key((set t | t in Present(k, now) && Kept(cfg, t, now)) + {now}, now + cfg.ttl)
  }

  function KeyOf(keys: map<string, Key>, key: string): Key {
    if key in keys then keys[key] else Key({}, 0)
  }

  class Limiter {
    const cfg: Config
    var keys: map<string, Key>

    constructor (cfg: Config)
      ensures this.cfg == cfg && keys == map[]
    {
      this.cfg, this.keys := cfg, map[];
    }

    /** Allow counts the call itself, denied or not; an error says nothing about whether it was counted. */
    method Allow(key: string, now: nat, outcome: Outcome) returns (allowed: bool, err: bool)
      modifies this`keys
      ensures keys == if outcome.Refused? then old(keys) else old(keys)[key := Called(cfg, KeyOf(old(keys), key), now)]
      ensures err == !outcome.Applied?
      ensures allowed <==> !err && |KeyOf(keys, key).times| <= cfg.limit
    {
      hide Score;
      if !outcome.Refused? {
        var members := if key in keys && now < keys[key].expires then keys[key].times else {};
        var windowStart := now - cfg.window;
        members := set t | t in members && Score(cfg.scores, t) > Score(cfg.scores, windowStart);
        members := members + {now};
        assert Key(members, now + cfg.ttl) == Called(cfg, KeyOf(keys, key), now);
        keys := keys[key := Key(members, now + cfg.ttl)];
        allowed := |members| <= cfg.limit && outcome.Applied?;
      } else {
        allowed := false;
      }
      err := !outcome.Applied?;
    }
  }

  // ----- the set against the whole log of calls -----

  function Run(cfg: Config, calls: seq<nat>): Key {
    if calls == [] then Key({}, 0) else Called(cfg, Run(cfg, calls[..|calls| - 1]), calls[|calls| - 1])
  }

  predicate Sorted(calls: seq<nat>) {
    forall i, j :: 0 <= i < j < |calls| ==> calls[i] <= calls[j]
  }

  predicate StrictlySorted(calls: seq<nat>) {
    forall i, j :: 0 <= i < j < |calls| ==> calls[i] < calls[j]
  }

  /** The filter over the whole log, denied calls included. */
  function InWindow(cfg: Config, calls: seq<nat>, now: nat): set<nat> {
    (set t | t in calls && Kept(cfg, t, now)) + {now}
  }

  lemma KeptAntitone(cfg: Config, t: int, s: int, later: int)
    requires s <= later && Kept(cfg, t, later)
    ensures Kept(cfg, t, s)
  {
    ScoreMonotone(cfg.scores, s - cfg.window, later - cfg.window);
  }

  lemma OldNotKept(cfg: Config, t: int, s: int)
    requires t + cfg.window <= s
    ensures !Kept(cfg, t, s)
  {
    ScoreMonotone(cfg.scores, t, s - cfg.window);
  }

  /** One more call at `now`, when the set is the filter over the log so far. */
  lemma CallRefines(cfg: Config, before: seq<nat>, last: nat, now: nat)
    requires cfg.window <= cfg.ttl && last in before && last <= now && forall t :: t in before ==> t <= last
    ensures Called(cfg, Key(InWindow(cfg, before, last), last + cfg.ttl), now).times ==
            InWindow(cfg, before + [now], now)
  {
    hide Kept;
    var k := Key(InWindow(cfg, before, last), last + cfg.ttl);
    forall t | t in before && Kept(cfg, t, now)
      ensures t in Present(k, now)
    {
      KeptAntitone(cfg, t, last, now);
      if now >= last + cfg.ttl {
        OldNotKept(cfg, t, now);
        assert false;
      }
    }
  }

  lemma CalledExpires(cfg: Config, k: Key, now: nat)
    ensures Called(cfg, k, now).expires == now + cfg.ttl
  {
  }

  lemma SortedEnd(calls: seq<nat>)
    requires calls != [] && Sorted(calls)
    ensures var n := |calls| - 1;
            && Sorted(calls[..n])
            && (n > 0 ==> calls[n - 1] <= calls[n] && forall t :: t in calls[..n] ==> t <= calls[n - 1])
  {
  }

  /**
   For nondecreasing call times and a key that outlives its window, the stored set after each call is the
   filter over the whole log: pruning early and letting the key expire lose nothing that still counts.
   */
  lemma {:induction false} RefinesLog(cfg: Config, calls: seq<nat>)
    requires cfg.window <= cfg.ttl && calls != [] && Sorted(calls)
    ensures Run(cfg, calls) == Key(InWindow(cfg, calls, calls[|calls| - 1]), calls[|calls| - 1] + cfg.ttl)
    decreases |calls|
  {
    hide Kept, InWindow, Called, Sorted;
    var n := |calls| - 1;
    var before, now := calls[..n], calls[n];
    assert calls == before + [now];
    SortedEnd(calls);
    CalledExpires(cfg, Run(cfg, before), now);
    if n > 0 {
      RefinesLog(cfg, before);
      CallRefines(cfg, before, before[n - 1], now);
    } else {
      FirstCall(cfg, now);
      assert calls == [now];
    }
  }

  lemma FirstCall(cfg: Config, now: nat)
    ensures Called(cfg, Key({}, 0), now).times == {now} == InWindow(cfg, [now], now)
  {
  }

  /** With exact scores the stored set is the distinct call times in (now - window, now]. */
  lemma ExactWindow(cfg: Config, calls: seq<nat>)
    requires cfg.scores == Exact && 0 < cfg.window <= cfg.ttl && calls != [] && Sorted(calls)
    ensures var now := calls[|calls| - 1];
            Run(cfg, calls).times == set t | t in calls && now - cfg.window < t <= now
  {
    RefinesLog(cfg, calls);
  }

  /** So with exact scores a call is allowed if and only if at most `limit` instants of its window saw a call. */
  lemma ExactAllowedIff(cfg: Config, calls: seq<nat>)
    requires cfg.scores == Exact && 0 < cfg.window <= cfg.ttl && calls != [] && Sorted(calls)
    ensures var now := calls[|calls| - 1];
            Allowed(cfg, calls) <==> |set t | t in calls && now - cfg.window < t <= now| <= cfg.limit
  {
    hide Run;
    ExactWindow(cfg, calls);
  }

  /** The expiry never changes what is stored at a call, so it never changes a verdict. */
  lemma ExpiryNeverMatters(cfg: Config, other: Config, calls: seq<nat>)
    requires other == cfg.(ttl := other.ttl) && cfg.window <= cfg.ttl && cfg.window <= other.ttl && Sorted(calls)
    ensures Run(cfg, calls).times == Run(other, calls).times
  {
    if calls != [] {
      RefinesLog(cfg, calls);
      RefinesLog(other, calls);
      var now := calls[|calls| - 1];
      assert forall t :: t in calls ==> (Kept(cfg, t, now) <==> Kept(other, t, now));
      assert InWindow(cfg, calls, now) == InWindow(other, calls, now);
    }
  }

  /**
   With float64 scores for present-day timestamps, entries of age at least the window are never stored, and
   entries younger than the window less 256 ns always are.
   */
  lemma FloatWindow(cfg: Config, calls: seq<nat>, t: nat)
    requires cfg.scores == Float64 && 256 < cfg.window <= cfg.ttl && calls != [] && Sorted(calls) && t in calls
    requires TWO60 + cfg.window <= calls[|calls| - 1] < TWO61
    ensures var now := calls[|calls| - 1];
            && (t in Run(cfg, calls).times ==> now - cfg.window < t)
            && (now - cfg.window + 256 < t ==> t in Run(cfg, calls).times)
  {
    RefinesLog(cfg, calls);
    var now := calls[|calls| - 1];
    if now - cfg.window + 256 < t {
      assert t <= now;
      ApartByMoreThanAnUlp(t, now - cfg.window);
    }
    if t + cfg.window <= now {
      OldNotKept(cfg, t, now);
    }
  }

  // ----- how many calls are allowed -----

  /** The verdict on the last call of a log. */
  predicate Allowed(cfg: Config, calls: seq<nat>) {
    |Run(cfg, calls).times| <= cfg.limit
  }

  /** The calls allowed in [lo, lo + len), by position in the log. */
  function AllowedIn(cfg: Config, calls: seq<nat>, lo: nat, len: nat): set<nat> {
    set i | 0 <= i < |calls| && lo <= calls[i] < lo + len && Allowed(cfg, calls[..i + 1])
  }

  function TimesAt(calls: seq<nat>, positions: set<nat>): set<nat>
    requires forall i :: i in positions ==> i < |calls|
  {
    set i | i in positions :: calls[i]
  }

  /** Entries of one interval all survive each other's pruning. */
  predicate Retains(cfg: Config, lo: nat, len: nat) {
    forall t: nat, s: nat :: lo <= t <= s < lo + len ==> Kept(cfg, t, s)
  }

  lemma {:induction false} Largest(positions: set<nat>) returns (m: nat)
    requires positions != {}
    ensures m in positions && forall i :: i in positions ==> i <= m
    decreases |positions|
  {
    var x :| x in positions;
    if positions == {x} {
      m := x;
    } else {
      var rest := positions - {x};
      assert positions == rest + {x};
      m := Largest(rest);
      if x > m {
        m := x;
      }
    }
  }

  lemma {:induction false} TimesCount(calls: seq<nat>, positions: set<nat>)
    requires StrictlySorted(calls) && forall i :: i in positions ==> i < |calls|
    ensures |TimesAt(calls, positions)| == |positions|
    decreases |positions|
  {
    if positions != {} {
      var x :| x in positions;
      var rest := positions - {x};
      TimesCount(calls, rest);
      assert TimesAt(calls, positions) == TimesAt(calls, rest) + {calls[x]};
      assert calls[x] !in TimesAt(calls, rest) by {
        forall i | i in rest
          ensures calls[i] != calls[x]
        {
          assert i < x || x < i;
        }
      }
    }
  }

  lemma SubsetCount<T>(a: set<T>, b: set<T>)
    requires a <= b
    ensures |a| <= |b|
  {
    assert |b| == |a| + |b - a| by {
      assert b == a + (b - a);
    }
  }

  /** In such an interval, an earlier call is still stored at a later one. */
  lemma StillStored(cfg: Config, calls: seq<nat>, lo: nat, len: nat, i: nat, m: nat)
    requires cfg.window <= cfg.ttl && Sorted(calls) && Retains(cfg, lo, len) && i <= m < |calls|
    requires lo <= calls[i] && calls[m] < lo + len
    ensures calls[i] in Run(cfg, calls[..m + 1]).times
  {
    hide Run;
    var log := calls[..m + 1];
    assert Sorted(log) && log[m] == calls[m] && log[i] == calls[i];
    RefinesLog(cfg, log);
    assert Kept(cfg, calls[i], calls[m]);
    assert calls[i] in log;
  }

  /** At most `limit` distinct instants of an interval whose entries retain each other see an allowed call. */
  lemma AllowedInstants(cfg: Config, calls: seq<nat>, lo: nat, len: nat)
    requires cfg.window <= cfg.ttl && Sorted(calls) && Retains(cfg, lo, len)
    ensures AllowedIn(cfg, calls, lo, len) != {} ==>
              |TimesAt(calls, AllowedIn(cfg, calls, lo, len))| <= cfg.limit
  {
    hide Kept, Run, Sorted, Retains;
    var positions := AllowedIn(cfg, calls, lo, len);
    if positions != {} {
      var m := Largest(positions);
      forall t | t in TimesAt(calls, positions)
        ensures t in Run(cfg, calls[..m + 1]).times
      {
        var i :| i in positions && calls[i] == t;
        StillStored(cfg, calls, lo, len, i, m);
      }
      SubsetCount(TimesAt(calls, positions), Run(cfg, calls[..m + 1]).times);
    }
  }

  /** When no two calls share an instant, at most `limit` calls are allowed there. */
  lemma AllowedCalls(cfg: Config, calls: seq<nat>, lo: nat, len: nat)
    requires cfg.window <= cfg.ttl && StrictlySorted(calls) && Retains(cfg, lo, len)
    ensures AllowedIn(cfg, calls, lo, len) != {} ==> |AllowedIn(cfg, calls, lo, len)| <= cfg.limit
  {
    AllowedInstants(cfg, calls, lo, len);
    TimesCount(calls, AllowedIn(cfg, calls, lo, len));
  }

  lemma ExactRetains(cfg: Config, lo: nat)
    requires cfg.scores == Exact
    ensures Retains(cfg, lo, cfg.window)
  {
  }

  lemma FloatRetains(cfg: Config, lo: nat)
    requires cfg.scores == Float64 && 256 < cfg.window
    requires TWO60 + cfg.window <= lo && lo + cfg.window < TWO61
    ensures Retains(cfg, lo, cfg.window - 256)
  {
    forall t: nat, s: nat | lo <= t <= s < lo + (cfg.window - 256)
      ensures Kept(cfg, t, s)
    {
      ApartByMoreThanAnUlp(t, s - cfg.window);
    }
  }

  /** Exact scores: the bound holds for every half-open interval of one window. */
  lemma ExactBound(cfg: Config, calls: seq<nat>, lo: nat)
    requires cfg.scores == Exact && cfg.window <= cfg.ttl && StrictlySorted(calls)
    ensures |AllowedIn(cfg, calls, lo, cfg.window)| <= if cfg.limit < 0 then 0 else cfg.limit
  {
    ExactRetains(cfg, lo);
    AllowedCalls(cfg, calls, lo, cfg.window);
  }

  /** Float64 scores: it holds for every half-open interval of one window less 256 ns. */
  lemma FloatBound(cfg: Config, calls: seq<nat>, lo: nat)
    requires cfg.scores == Float64 && 256 < cfg.window <= cfg.ttl && StrictlySorted(calls)
    requires TWO60 + cfg.window <= lo && lo + cfg.window < TWO61
    ensures |AllowedIn(cfg, calls, lo, cfg.window - 256)| <= if cfg.limit < 0 then 0 else cfg.limit
  {
    FloatRetains(cfg, lo);
    AllowedCalls(cfg, calls, lo, cfg.window - 256);
  }

  /** Two calls in the same nanosecond are one member of the set: a limit of one lets both through. */
  lemma SameInstantCountsOnce(window: nat, now: nat)
    requires 0 < window
    ensures var cfg := Config(1, window, window, Exact);
            Allowed(cfg, [now]) && Allowed(cfg, [now, now])
  {
    var cfg := Config(1, window, window, Exact);
    RefinesLog(cfg, [now]);
    RefinesLog(cfg, [now, now]);
    assert InWindow(cfg, [now], now) == {now} == InWindow(cfg, [now, now], now);
  }

  function Elements(s: seq<nat>): set<nat> {
    set t | t in s
  }

  lemma {:induction false} ElementsCount(s: seq<nat>)
    ensures |Elements(s)| <= |s|
  {
    if s == [] {
      assert Elements(s) == {};
    } else {
      var n := |s| - 1;
      ElementsCount(s[..n]);
      assert Elements(s) == Elements(s[..n]) + {s[n]};
    }
  }

  /** A call is allowed when it and those still counted are among `limit` times. */
  lemma FewAllowed(cfg: Config, calls: seq<nat>, counted: seq<nat>)
    requires cfg.window <= cfg.ttl && calls != [] && Sorted(calls) && |counted| <= cfg.limit
    requires calls[|calls| - 1] in counted
    requires forall t :: t in calls && Kept(cfg, t, calls[|calls| - 1]) ==> t in counted
    ensures Allowed(cfg, calls)
  {
    hide Kept, Run;
    RefinesLog(cfg, calls);
    ElementsCount(counted);
    SubsetCount(InWindow(cfg, calls, calls[|calls| - 1]), Elements(counted));
  }

  /** A time halfway between two float64 values, and the one 256 ns before it, round to the same value. */
  lemma RoundedAway(cfg: Config, t: nat)
    requires cfg.scores == Float64 && 256 <= cfg.window && t % 512 == 128 && TWO60 + 256 <= t < TWO61
    ensures !Kept(cfg, t, t + cfg.window - 256)
  {
    hide RoundEven, Ulp;
    UlpOfNow(t);
    UlpOfNow(t - 256);
    TiesToEven(t / 512);
    assert t == 512 * (t / 512) + 128;
  }

  lemma TiesToEven(m: nat)
    requires m >= 1
    ensures RoundEven(512 * m + 128, 256) == 512 * m == RoundEven(512 * m - 128, 256)
  {
    assert (512 * m + 128) / 256 == 2 * m && (512 * m + 128) % 256 == 128;
    assert (512 * m - 128) / 256 == 2 * m - 1 && (512 * m - 128) % 256 == 128;
  }

  function Below(n: nat): (s: set<nat>)
    ensures |s| == n && forall i: nat :: i in s <==> i < n
  {
    if n == 0 then {} else Below(n - 1) + {n - 1}
  }

  /** The first call, `limit` - 1 more at once, and one 256 ns before the window is over. */
  function Overfull(cfg: Config, t: nat): seq<nat>
    requires cfg.limit >= 1 && 256 + cfg.limit <= cfg.window
  {
    seq(cfg.limit, i requires 0 <= i < cfg.limit => t + i) + [t + cfg.window - 256]
  }

  /**
   The float64 bound is tight for every limit and window: 1 ns more and a first call lost to rounding lets `limit` + 1
   calls through.
   */
  lemma FloatBoundTight(cfg: Config, t: nat)
    requires cfg.scores == Float64 && cfg.limit >= 1 && 256 + cfg.limit <= cfg.window <= cfg.ttl
    requires t % 512 == 128 && TWO60 + 256 <= t < TWO61
    ensures StrictlySorted(Overfull(cfg, t)) && |Overfull(cfg, t)| == cfg.limit + 1
    ensures |AllowedIn(cfg, Overfull(cfg, t), t, cfg.window - 255)| == cfg.limit + 1
  {
    hide Allowed, Overfull;
    OverfullShape(cfg, t);
    var calls := Overfull(cfg, t);
    forall i: nat | i in Below(|calls|)
      ensures Allowed(cfg, calls[..i + 1])
    {
      OverfullAllowed(cfg, t, i);
    }
    assert AllowedIn(cfg, calls, t, cfg.window - 255) == Below(|calls|);
  }

  lemma OverfullShape(cfg: Config, t: nat)
    requires cfg.limit >= 1 && 256 + cfg.limit <= cfg.window
    ensures var calls := Overfull(cfg, t);
            && StrictlySorted(calls) && |calls| == cfg.limit + 1
            && (forall k :: 0 <= k < |calls| ==> t <= calls[k] < t + cfg.window - 255)
  {
  }

  lemma OverfullAllowed(cfg: Config, t: nat, i: nat)
    requires cfg.scores == Float64 && cfg.limit >= 1 && 256 + cfg.limit <= cfg.window <= cfg.ttl && i <= cfg.limit
    requires t % 512 == 128 && TWO60 + 256 <= t < TWO61
    ensures Allowed(cfg, Overfull(cfg, t)[..i + 1])
  {
    hide Kept;
    var log := Overfull(cfg, t)[..i + 1];
    if i < cfg.limit {
      FewAllowed(cfg, log, log);
    } else {
      RoundedAway(cfg, t);
      assert log[0] == t && log[i] == t + cfg.window - 256 && log[i] in log[1..];
      assert forall x :: x in log ==> x == log[0] || x in log[1..];
      FewAllowed(cfg, log, log[1..]);
    }
  }
}
