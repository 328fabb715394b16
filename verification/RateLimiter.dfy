/**
 The per-key token bucket of internal/api/ratelimit.go, with the background sweep
 that forgets buckets and the later requests that recreate them.  Times are
 nanoseconds on a clock that never runs backwards.
 */
module RateLimiterSpec {

  const TEN_MINUTES: int := 600_000_000_000

  type Key = string

  datatype Config = Config(rate: int, burst: int, interval: int)

  datatype Bucket = Bucket(tokens: int, lastFill: int)

  type Buckets = map<Key, Bucket>

  /** Go's integer division, which truncates toward zero. */
  function TruncatingDiv(a: int, b: int): int
    requires b > 0
  {
    if a >= 0 then a / b else -((-a) / b)
  }

  /** Whole intervals become tokens; the remainder stays on the clock. */
  function Refilled(cfg: Config, b: Bucket, now: int): Bucket
    requires cfg.interval > 0
  {
    var intervals := TruncatingDiv(now - b.lastFill, cfg.interval);
    var refill := intervals * cfg.rate;
    if refill > 0 then
      Bucket(if b.tokens + refill > cfg.burst then cfg.burst else b.tokens + refill,
             b.lastFill + intervals * cfg.interval)
    else b
  }

  predicate Granted(cfg: Config, m: Buckets, key: Key, now: int)
    requires cfg.interval > 0
  {
    key !in m || Refilled(cfg, m[key], now).tokens > 0
  }

  function AfterAllow(cfg: Config, m: Buckets, key: Key, now: int): Buckets
    requires cfg.interval > 0
  {
    if key !in m then m[key := Bucket(cfg.burst - 1, now)]
    else
      var b := Refilled(cfg, m[key], now);
      m[key := if b.tokens <= 0 then b else b.(tokens := b.tokens - 1)]
  }

  predicate Stale(b: Bucket, now: int) {
    b.lastFill < now - TEN_MINUTES
  }

  function AfterSweep(m: Buckets, now: int): Buckets {
    map k | k in m && !Stale(m[k], now) :: m[k]
  }
}

module RateLimiterImpl {
  import opened RateLimiterSpec

  class RateLimiter {
    var buckets: Buckets
    const rate: int
    const burst: int
    const interval: int

    constructor (rate: int, burst: int, interval: int)
      ensures this.rate == rate && this.burst == burst && this.interval == interval
      ensures buckets == map[]
    {
      this.rate, this.burst, this.interval := rate, burst, interval;
      buckets := map[];
    }

    function Settings(): Config {
      Config(rate, burst, interval)
    }

    method Allow(key: Key, now: int) returns (allowed: bool)
      requires interval > 0
      modifies this
      ensures allowed == Granted(Settings(), old(buckets), key, now)
      ensures buckets == AfterAllow(Settings(), old(buckets), key, now)
    {
      if key !in buckets {
        buckets := buckets[key := Bucket(burst - 1, now)];
        return true;
      }
      var b := buckets[key];
      var elapsed := now - b.lastFill;
      var intervals := TruncatingDiv(elapsed, interval);
      var refill := intervals * rate;
      if refill > 0 {
        var tokens := b.tokens + refill;
        if tokens > burst {
          tokens := burst;
        }
        b := Bucket(tokens, b.lastFill + intervals * interval);
      }
      if b.tokens <= 0 {
        buckets := buckets[key := b];
        return false;
      }
      buckets := buckets[key := b.(tokens := b.tokens - 1)];
      return true;
    }

    /** One tick of the cleanup goroutine. */
    method Cleanup(now: int)
      modifies this
      ensures buckets == AfterSweep(old(buckets), now)
    {
      var cutoff := now - TEN_MINUTES;
      ghost var before := buckets;
      var unread := buckets.Keys;
      while unread != {}
        invariant unread <= before.Keys
        invariant buckets == map k | k in before && (k in unread || !Stale(before[k], now)) :: before[k]
      {
        var key :| key in unread;
        if buckets[key].lastFill < cutoff {
          buckets := buckets - {key};
        }
        unread := unread - {key};
      }
    }
  }
}

module RateLimiterRuns {
  import opened RateLimiterSpec

  datatype Event = Request(key: Key, now: int) | Sweep(now: int)

  function After(cfg: Config, m: Buckets, e: Event): Buckets
    requires cfg.interval > 0
  {
    match e
    case Request(key, now) => AfterAllow(cfg, m, key, now)
    case Sweep(now) => AfterSweep(m, now)
  }

  /** Event times never decrease, starting at `t`. */
  predicate Ordered(events: seq<Event>, t: int) {
    events == [] || (t <= events[0].now && Ordered(events[1..], events[0].now))
  }

  predicate Counts(cfg: Config, m: Buckets, e: Event, key: Key, lo: int, hi: int)
    requires cfg.interval > 0
  {
    e.Request? && e.key == key && lo <= e.now <= hi && Granted(cfg, m, key, e.now)
  }

  /** How many requests for `key` with times in lo .. hi a run grants. */
  function Grants(cfg: Config, m: Buckets, events: seq<Event>, key: Key, lo: int, hi: int): nat
    requires cfg.interval > 0
    decreases |events|
  {
    if events == [] then 0
    else (if Counts(cfg, m, events[0], key, lo, hi) then 1 else 0)
         + Grants(cfg, After(cfg, m, events[0]), events[1..], key, lo, hi)
  }

  predicate Positive(cfg: Config) {
    cfg.rate > 0 && cfg.burst >= 1 && cfg.interval > 0
  }

  /** The least age at which a sweep can forget a bucket. */
  const FORGOTTEN := TEN_MINUTES + 1

  /** The settings for which the bound holds: what a forgotten bucket would have earned
      makes up for the burst of the one that replaces it. */
  predicate Earned(cfg: Config)
    requires cfg.interval > 0
  {
    if cfg.interval > FORGOTTEN then cfg.burst * ((cfg.interval + FORGOTTEN - 1) / FORGOTTEN) <= cfg.rate
    else if cfg.interval > 1 && (FORGOTTEN + 1) % cfg.interval == 0
    then 2 * cfg.burst <= cfg.rate * (2 * (FORGOTTEN / cfg.interval) + 1)
    else cfg.burst <= cfg.rate * (FORGOTTEN / cfg.interval)
  }

  predicate BucketOk(cfg: Config, b: Bucket, t: int) {
    0 <= b.tokens <= cfg.burst && b.lastFill <= t
  }

  ghost predicate Ok(cfg: Config, m: Buckets, t: int) {
    forall k {:trigger BucketOk(cfg, m[k], t)} {:trigger k in m} :: k in m ==> BucketOk(cfg, m[k], t)
  }

  // ------------------------------------------------------------- arithmetic

  /** Whole intervals in a span; none in an empty one. */
  function Whole(cfg: Config, span: int): nat
    requires cfg.interval > 0
  {
    if span < 0 then 0 else span / cfg.interval
  }

  lemma MulMono(a: int, b: int, c: int)
    requires a <= b && 0 <= c
    ensures a * c <= b * c && c * a <= c * b
  {
    assert (b - a) * c >= 0;
    assert (b - a) * c == b * c - a * c;
  }

  lemma DivUnique(a: int, q: int, r: int, d: int)
    requires d > 0 && 0 <= r < d && a == q * d + r
    ensures a / d == q
  {
    var p := a / d;
    assert (p - q) * d == r - a % d;
    assert (q - p) * d == -((p - q) * d);
    if p > q {
      MulMono(1, p - q, d);
    } else if p < q {
      MulMono(1, q - p, d);
    }
  }

  lemma DivShift(a: int, n: int, d: int)
    requires d > 0
    ensures (a + n * d) / d == a / d + n
  {
    var q, r := a / d, a % d;
    assert a + n * d == (q + n) * d + r;
    DivUnique(a + n * d, q + n, r, d);
  }

  lemma DivMono(a: int, b: int, d: int)
    requires d > 0 && a <= b
    ensures a / d <= b / d
  {
    assert (b / d + 1) * d == b / d * d + d;
    if b / d + 1 <= a / d {
      MulMono(b / d + 1, a / d, d);
    }
  }

  /** A quotient from below. */
  lemma DivAtLeast(a: int, q: int, d: int)
    requires d > 0 && q * d <= a
    ensures q <= a / d
  {
    DivShift(0, q, d);
    DivMono(q * d, a, d);
  }

  lemma DivAdds(a: int, b: int, d: int)
    requires d > 0
    ensures a / d + b / d <= (a + b) / d
  {
    DivShift(b, a / d, d);
    DivMono(b + a / d * d, a + b, d);
  }

  lemma MulAdds(c: int, a: int, b: int)
    ensures c * (a + b) == c * a + c * b
  {
  }

  // ------------------------------------------------------------ one request

  lemma RefillIsSane(cfg: Config, b: Bucket, now: int)
    requires cfg.rate > 0 && cfg.burst >= 1 && cfg.interval > 0 && BucketOk(cfg, b, now)
    ensures var r := Refilled(cfg, b, now);
            BucketOk(cfg, r, now) && now - cfg.interval < r.lastFill
    ensures var n := (now - b.lastFill) / cfg.interval;
            Refilled(cfg, b, now).tokens <= b.tokens + cfg.rate * n
            && Refilled(cfg, b, now).lastFill == b.lastFill + n * cfg.interval
  {
    var n := (now - b.lastFill) / cfg.interval;
    if n > 0 {
      MulMono(1, n, cfg.rate);
      assert n * cfg.rate == cfg.rate * n;
    } else {
      assert n == 0;
    }
  }

  lemma StepKeepsOk(cfg: Config, m: Buckets, e: Event, t: int)
    requires cfg.rate > 0 && cfg.burst >= 1 && cfg.interval > 0 && Ok(cfg, m, t) && t <= e.now
    ensures Ok(cfg, After(cfg, m, e), e.now)
  {
    if e.Request? && e.key in m {
      assert BucketOk(cfg, m[e.key], t);
      RefillIsSane(cfg, m[e.key], e.now);
    }
  }

  // ------------------------------------------------------------------ plans

  /** What an interval can add to a bucket. */
  function Gain(cfg: Config): int {
    if cfg.burst < cfg.rate then cfg.burst else cfg.rate
  }

  /** How a run may grant a key requests up to a time: the bucket it has is refilled for
      `refills` intervals and forgotten, then `created` buckets follow, the first at `start`
      and each forgotten at once. With none created, it has its bucket to the end. */
  datatype Plan = Plan(created: nat, refills: nat, start: int)

  predicate PlanFits(cfg: Config, m: Buckets, key: Key, t: int, hi: int, p: Plan) {
    if p.created == 0 then key in m && p.refills == 0
    else
      && t <= p.start && p.start + (p.created - 1) * FORGOTTEN <= hi
      && if key in m then m[key].lastFill + p.refills * cfg.interval + FORGOTTEN <= p.start else p.refills == 0
  }

  function Worth(cfg: Config, m: Buckets, key: Key, hi: int, p: Plan): int
    requires cfg.interval > 0 && (p.created == 0 ==> key in m)
  {
    var first := if key in m then m[key].tokens else 0;
    if p.created == 0 then first + Gain(cfg) * Whole(cfg, hi - m[key].lastFill)
    else first + Gain(cfg) * p.refills + p.created * cfg.burst
         + Gain(cfg) * Whole(cfg, hi - p.start - (p.created - 1) * FORGOTTEN)
  }

  /** A refill adds at most the gain of each of its intervals. */
  lemma RefillGains(cfg: Config, b: Bucket, now: int)
    requires Positive(cfg) && BucketOk(cfg, b, now)
    ensures var n := (now - b.lastFill) / cfg.interval;
            && n >= 0 && Refilled(cfg, b, now).tokens <= b.tokens + Gain(cfg) * n
            && Refilled(cfg, b, now).lastFill == b.lastFill + n * cfg.interval <= now
  {
    RefillIsSane(cfg, b, now);
    var n := (now - b.lastFill) / cfg.interval;
    DivMono(0, now - b.lastFill, cfg.interval);
    if n >= 1 && cfg.burst < cfg.rate {
      MulMono(1, n, cfg.burst);
    }
  }

  lemma WholeGrows(cfg: Config, a: int, b: int)
    requires Positive(cfg) && a <= b
    ensures Gain(cfg) * Whole(cfg, a) <= Gain(cfg) * Whole(cfg, b)
  {
    if a >= 0 { DivMono(a, b, cfg.interval); } else if b >= 0 { DivMono(0, b, cfg.interval); }
    MulMono(Whole(cfg, a), Whole(cfg, b), Gain(cfg));
  }

  /** Waiting n intervals before a span is worth n gains. */
  lemma WholeAfter(cfg: Config, n: nat, span: int, all: int)
    requires Positive(cfg) && 0 <= span && n * cfg.interval + span <= all
    ensures Gain(cfg) * n + Gain(cfg) * Whole(cfg, span) <= Gain(cfg) * Whole(cfg, all)
  {
    DivShift(span, n, cfg.interval);
    MulAdds(Gain(cfg), n, Whole(cfg, span));
    MulMono(0, n, cfg.interval);
    WholeGrows(cfg, span + n * cfg.interval, all);
  }

  /** A created bucket that lasts n intervals is no better than one forgotten at once. */
  lemma CreatedPlan(cfg: Config, m: Buckets, key: Key, t: int, now: int, hi: int, p: Plan) returns (q: Plan)
    requires Positive(cfg) && key !in m && t <= now <= hi
    requires PlanFits(cfg, m[key := Bucket(cfg.burst - 1, now)], key, now, hi, p)
    ensures PlanFits(cfg, m, key, t, hi, q)
    ensures 1 + Worth(cfg, m[key := Bucket(cfg.burst - 1, now)], key, hi, p) <= Worth(cfg, m, key, hi, q)
  {
    q := Plan(p.created + 1, 0, now);
    MulMono(0, p.refills, cfg.interval);
    assert (p.created + 1) * cfg.burst == p.created * cfg.burst + cfg.burst;
    if p.created > 0 {
      WholeAfter(cfg, p.refills, hi - p.start - (p.created - 1) * FORGOTTEN, hi - now - p.created * FORGOTTEN);
    }
  }

  /** A plan of a refilled bucket, less `g` tokens, gives a plan of the bucket before. */
  lemma RefilledPlan(cfg: Config, m: Buckets, key: Key, t: int, now: int, hi: int, g: nat, p: Plan) returns (q: Plan)
    requires Positive(cfg) && key in m && BucketOk(cfg, m[key], now) && t <= now <= hi
    requires var r := Refilled(cfg, m[key], now); PlanFits(cfg, m[key := r.(tokens := r.tokens - g)], key, now, hi, p)
    ensures PlanFits(cfg, m, key, t, hi, q)
    ensures var r := Refilled(cfg, m[key], now);
            g + Worth(cfg, m[key := r.(tokens := r.tokens - g)], key, hi, p) <= Worth(cfg, m, key, hi, q)
  {
    RefillGains(cfg, m[key], now);
    var n := (now - m[key].lastFill) / cfg.interval;
    var last := Refilled(cfg, m[key], now).lastFill;
    if p.created == 0 {
      q := p;
      WholeAfter(cfg, n, hi - last, hi - m[key].lastFill);
    } else {
      q := p.(refills := p.refills + n);
      MulAdds(Gain(cfg), p.refills, n);
      assert (p.refills + n) * cfg.interval == p.refills * cfg.interval + n * cfg.interval;
    }
  }

  /** Any plan made later is a plan made now; and forgetting a bucket only delays its successor. */
  lemma SweptPlan(cfg: Config, m: Buckets, key: Key, t: int, now: int, hi: int, p: Plan)
    requires Positive(cfg) && Ok(cfg, m, now) && t <= now <= hi
    requires PlanFits(cfg, AfterSweep(m, now), key, now, hi, p)
    ensures PlanFits(cfg, m, key, t, hi, p)
    ensures Worth(cfg, AfterSweep(m, now), key, hi, p) <= Worth(cfg, m, key, hi, p)
  {
    if key in m { assert BucketOk(cfg, m[key], now); }
  }

  lemma RequestPlan(cfg: Config, m: Buckets, k: Key, key: Key, t: int, now: int, hi: int, p: Plan) returns (q: Plan)
    requires Positive(cfg) && Ok(cfg, m, now) && t <= now <= hi
    requires PlanFits(cfg, AfterAllow(cfg, m, k, now), key, now, hi, p)
    ensures PlanFits(cfg, m, key, t, hi, q)
    ensures (if k == key && Granted(cfg, m, key, now) then 1 else 0)
            + Worth(cfg, AfterAllow(cfg, m, k, now), key, hi, p)
            <= Worth(cfg, m, key, hi, q)
  {
    if k != key {
      q := p;
    } else if key !in m {
      q := CreatedPlan(cfg, m, key, t, now, hi, p);
    } else {
      assert BucketOk(cfg, m[key], now);
      var r := Refilled(cfg, m[key], now);
      var g := if r.tokens > 0 then 1 else 0;
      assert AfterAllow(cfg, m, key, now) == m[key := r.(tokens := r.tokens - g)];
      q := RefilledPlan(cfg, m, key, t, now, hi, g, p);
    }
  }

  lemma {:induction false} NothingAfterTheWindow(
    cfg: Config, m: Buckets, events: seq<Event>, key: Key, t: int, lo: int, hi: int)
    requires cfg.interval > 0 && Ordered(events, t) && hi < t
    ensures Grants(cfg, m, events, key, lo, hi) == 0
    decreases |events|
  {
    if events != [] {
      NothingAfterTheWindow(cfg, After(cfg, m, events[0]), events[1..], key, events[0].now, lo, hi);
    }
  }

  /** Every run grants a key no more than some plan is worth. */
  lemma {:induction false} GrantsWithinPlan(
    cfg: Config, m: Buckets, events: seq<Event>, key: Key, t: int, lo: int, hi: int) returns (p: Plan)
    requires Positive(cfg) && Ok(cfg, m, t) && Ordered(events, t) && t <= hi
    ensures PlanFits(cfg, m, key, t, hi, p)
    ensures Grants(cfg, m, events, key, lo, hi) <= Worth(cfg, m, key, hi, p)
    decreases |events|
  {
    if events == [] || hi < events[0].now {
      p := if key in m then Plan(0, 0, t) else Plan(1, 0, t);
      MulMono(0, Whole(cfg, hi - t), Gain(cfg));
      if key in m {
        assert BucketOk(cfg, m[key], t);
        MulMono(0, Whole(cfg, hi - m[key].lastFill), Gain(cfg));
      }
      if events != [] {
        NothingAfterTheWindow(cfg, After(cfg, m, events[0]), events[1..], key, events[0].now, lo, hi);
      }
    } else {
      var e := events[0];
      StepKeepsOk(cfg, m, e, t);
      var rest := GrantsWithinPlan(cfg, After(cfg, m, e), events[1..], key, e.now, lo, hi);
      match e
      case Request(k, now) => p := RequestPlan(cfg, m, k, key, t, now, hi, rest);
      case Sweep(now) =>
        SweptPlan(cfg, m, key, t, now, hi, rest);
        p := rest;
    }
  }

  // ------------------------------------------------------------- the bound

  /** What the window allows beyond the first burst. */
  function Allowance(cfg: Config, span: int): int
    requires cfg.interval > 0
  {
    cfg.rate * (span / cfg.interval + 1)
  }

  lemma EarnedInWholes(b: int, r: int, q: int, i: int, k: nat)
    requires i > 0 && r > 0 && b <= r * q && q * i <= FORGOTTEN
    ensures k * b <= r * ((k * FORGOTTEN + 1) / i)
  {
    MulMono(b, r * q, k);
    assert k * (r * q) == r * (k * q);
    MulMono(q * i, FORGOTTEN, k);
    assert k * (q * i) == (k * q) * i;
    DivAtLeast(k * FORGOTTEN + 1, k * q, i);
    MulMono(k * q, (k * FORGOTTEN + 1) / i, r);
  }

  /** An interval that ends just after a bucket is forgotten: every other one is lost. */
  lemma LosingEveryOther(q: int, i: int, k: nat)
    requires i >= 2 && (q + 1) * i == FORGOTTEN + 1
    ensures k * (q + 1) - k / 2 <= (k * FORGOTTEN + 1) / i
  {
    var h := k / 2;
    assert k * ((q + 1) * i) == k * FORGOTTEN + k;
    assert (k * (q + 1) - h) * i == k * ((q + 1) * i) - h * i;
    MulMono(2, i, h);
    DivAtLeast(k * FORGOTTEN + 1, k * (q + 1) - h, i);
  }

  lemma EarnedInHalves(b: int, r: int, q: int, i: int, k: nat)
    requires i >= 2 && r > 0 && 2 * b <= r * (2 * q + 1) && (q + 1) * i == FORGOTTEN + 1
    ensures k * b <= r * ((k * FORGOTTEN + 1) / i)
  {
    var n, most := k * (q + 1) - k / 2, (k * FORGOTTEN + 1) / i;
    LosingEveryOther(q, i, k);
    MulMono(2 * b, r * (2 * q + 1), k);
    assert k * (2 * b) == 2 * (k * b);
    assert k * (2 * q + 1) == 2 * (k * (q + 1)) - k;
    assert k * (r * (2 * q + 1)) == r * (k * (2 * q + 1));
    MulMono(k * (2 * q + 1), 2 * n, r);
    MulMono(n, most, r);
    assert r * (2 * n) == 2 * (r * n);
  }

  /** Buckets forgotten at once, k in a row, stay within the rate. */
  lemma ForgettingIsEarned(cfg: Config, k: nat)
    requires Positive(cfg) && cfg.interval <= FORGOTTEN && Earned(cfg)
    ensures k * cfg.burst <= cfg.rate * ((k * FORGOTTEN + 1) / cfg.interval)
  {
    var i := cfg.interval;
    var q := FORGOTTEN / i;
    if i > 1 && (FORGOTTEN + 1) % i == 0 {
      DivUnique(FORGOTTEN, (FORGOTTEN + 1) / i - 1, i - 1, i);
      EarnedInHalves(cfg.burst, cfg.rate, q, i, k);
    } else {
      EarnedInWholes(cfg.burst, cfg.rate, q, i, k);
    }
  }

  lemma SlowForgettingFits(cfg: Config, k: nat, n: nat, rest: nat, span: nat)
    requires Positive(cfg) && cfg.interval <= FORGOTTEN && Earned(cfg) && k >= 1
    requires rest + k * FORGOTTEN + n * cfg.interval + 1 - cfg.interval <= span
    ensures Gain(cfg) * n + k * cfg.burst + Gain(cfg) * Whole(cfg, rest) <= Allowance(cfg, span)
  {
    var i, r, lost := cfg.interval, cfg.rate, k * FORGOTTEN + 1;
    DivShift(span, 1, i);
    DivAdds(rest, lost, i);
    DivShift(rest + lost, n, i);
    DivMono(rest + lost + n * i, span + i, i);
    var whole := rest / i;
    MulMono(whole + lost / i + n, span / i + 1, r);
    MulAdds(r, whole + lost / i, n);
    MulAdds(r, whole, lost / i);
    DivMono(0, rest, i);
    MulMono(Gain(cfg), r, n);
    MulMono(Gain(cfg), r, whole);
    ForgettingIsEarned(cfg, k);
  }

  /** Several buckets may be forgotten in one interval. */
  lemma ForgottenInAnInterval(cfg: Config)
    requires Positive(cfg) && cfg.interval > FORGOTTEN
    ensures var c := (cfg.interval + FORGOTTEN - 1) / FORGOTTEN;
            c >= 2 && (c - 1) * FORGOTTEN < cfg.interval <= c * FORGOTTEN
  {
  }

  /** Cutting k stretches out of what is left of the periods. */
  lemma StretchesFit(i: int, c: int, left: int, k: int)
    requires 0 < i <= c * FORGOTTEN && 0 <= k * FORGOTTEN < left * i
    ensures left >= 1 && k < left * c
  {
    if left <= 0 { MulMono(left, 0, i); }
    MulMono(i, c * FORGOTTEN, left);
    assert left * (c * FORGOTTEN) == (left * c) * FORGOTTEN;
  }

  lemma BucketsFit(i: int, c: int, early: nat, k: nat, periods: int, span: int)
    requires 0 < i <= c * FORGOTTEN && c >= 1 && early * i + k * FORGOTTEN <= span < periods * i
    ensures early + k + 1 <= periods * c
  {
    assert (periods - early) * i == periods * i - early * i;
    StretchesFit(i, c, periods - early, k);
    MulMono(1, c, early);
    assert early * c + (periods - early) * c == periods * c;
  }

  /** At most c buckets for each period of the allowance. */
  lemma BucketsOfASpan(i: int, c: int, k: nat, n: nat, rest: nat, span: nat)
    requires 0 < i <= c * FORGOTTEN && c >= 1 && k >= 1
    requires rest + (k - 1) * FORGOTTEN <= span
    requires n > 0 ==> rest + k * FORGOTTEN + n * i + 1 - i <= span
    ensures n + k + rest / i <= (span / i + 1) * c
  {
    var whole, periods := rest / i, span / i + 1;
    DivMono(0, rest, i);
    assert whole * i <= rest;
    assert (span / i) * i + i == periods * i && span < (span / i) * i + i;
    if n == 0 {
      BucketsFit(i, c, whole, k - 1, periods, span);
    } else {
      assert (whole + n - 1) * i == whole * i + n * i - i;
      BucketsFit(i, c, whole + n - 1, k, periods, span);
    }
  }

  /** c bursts for each period are paid by its rate. */
  lemma BurstsArePaid(b: int, r: int, c: int, n: nat, k: nat, whole: nat, periods: nat)
    requires b >= 1 && b * c <= r && n + k + whole <= periods * c
    ensures b * n + k * b + b * whole <= r * periods
  {
    MulMono(n + k + whole, periods * c, b);
    assert (periods * c) * b == periods * (b * c);
    MulMono(b * c, r, periods);
    assert (n + k + whole) * b == b * n + k * b + b * whole;
  }

  lemma FastForgettingFits(cfg: Config, k: nat, n: nat, rest: nat, span: nat)
    requires Positive(cfg) && cfg.interval > FORGOTTEN && Earned(cfg) && k >= 1
    requires rest + (k - 1) * FORGOTTEN <= span
    requires n > 0 ==> rest + k * FORGOTTEN + n * cfg.interval + 1 - cfg.interval <= span
    ensures Gain(cfg) * n + k * cfg.burst + Gain(cfg) * Whole(cfg, rest) <= Allowance(cfg, span)
  {
    var c := (cfg.interval + FORGOTTEN - 1) / FORGOTTEN;
    ForgottenInAnInterval(cfg);
    BucketsOfASpan(cfg.interval, c, k, n, rest, span);
    DivMono(0, span, cfg.interval);
    DivMono(0, rest, cfg.interval);
    MulMono(1, c, cfg.burst);
    BurstsArePaid(cfg.burst, cfg.rate, c, n, k, rest / cfg.interval, span / cfg.interval + 1);
  }

  /** A plan of a bucket filled less than an interval before the window, when buckets can
      be forgotten within an interval or later. */
  lemma PlanFitsWindow(cfg: Config, m: Buckets, key: Key, now: int, lo: int, hi: int, p: Plan)
    requires Positive(cfg) && Earned(cfg) && lo <= now <= hi && key in m
    requires now - cfg.interval < m[key].lastFill && PlanFits(cfg, m, key, now, hi, p)
    ensures Worth(cfg, m, key, hi, p) <= m[key].tokens + Allowance(cfg, hi - lo)
  {
    var i, span := cfg.interval, hi - lo;
    if p.created == 0 {
      DivShift(span, 1, i);
      DivMono(0, span, i);
      WholeGrows(cfg, hi - m[key].lastFill, span + 1 * i);
      MulMono(Gain(cfg), cfg.rate, span / i + 1);
    } else if i <= FORGOTTEN {
      SlowForgettingFits(cfg, p.created, p.refills, hi - p.start - (p.created - 1) * FORGOTTEN, span);
    } else {
      FastForgettingFits(cfg, p.created, p.refills, hi - p.start - (p.created - 1) * FORGOTTEN, span);
    }
  }

  /** A request leaves its bucket filled less than an interval ago, with its burst at most. */
  lemma TouchedBucketIsRecent(cfg: Config, m: Buckets, key: Key, now: int)
    requires Positive(cfg) && (key in m ==> BucketOk(cfg, m[key], now))
    ensures var n := AfterAllow(cfg, m, key, now);
            && now - cfg.interval < n[key].lastFill
            && n[key].tokens + (if Granted(cfg, m, key, now) then 1 else 0) <= cfg.burst
  {
    if key in m { RefillIsSane(cfg, m[key], now); }
  }

  lemma {:induction false} WindowBound(cfg: Config, m: Buckets, events: seq<Event>, key: Key, t: int, lo: int, hi: int)
    requires Positive(cfg) && Earned(cfg) && Ok(cfg, m, t) && Ordered(events, t) && lo <= hi
    ensures Grants(cfg, m, events, key, lo, hi) <= cfg.burst + Allowance(cfg, hi - lo)
    decreases |events|
  {
    DivMono(0, hi - lo, cfg.interval);
    MulMono(0, (hi - lo) / cfg.interval + 1, cfg.rate);
    if events != [] {
      var e := events[0];
      StepKeepsOk(cfg, m, e, t);
      var m' := After(cfg, m, e);
      if hi < e.now {
        NothingAfterTheWindow(cfg, m', events[1..], key, e.now, lo, hi);
      } else if e.Request? && e.key == key && lo <= e.now {
        var p := GrantsWithinPlan(cfg, m', events[1..], key, e.now, lo, hi);
        TouchedBucketIsRecent(cfg, m, key, e.now);
        PlanFitsWindow(cfg, m', key, e.now, lo, hi, p);
      } else {
        WindowBound(cfg, m', events[1..], key, e.now, lo, hi);
      }
    }
  }

  /** The rate limit: in any window of length hi - lo, over any run of requests and sweeps. */
  lemma RateLimitHolds(cfg: Config, events: seq<Event>, key: Key, start: int, lo: int, hi: int)
    requires Positive(cfg) && Earned(cfg) && Ordered(events, start) && lo <= hi
    ensures Grants(cfg, map[], events, key, lo, hi) <= cfg.burst + cfg.rate * ((hi - lo) / cfg.interval + 1)
  {
    WindowBound(cfg, map[], events, key, start, lo, hi);
  }

  // ---------------------------------------------------------- the other side

  /** Rest is always repaid: a request a full interval after the last fill is granted. */
  lemma RestIsRepaid(cfg: Config, m: Buckets, key: Key, t: int, now: int)
    requires cfg.rate > 0 && cfg.burst >= 1 && cfg.interval > 0 && Ok(cfg, m, t)
    requires key in m ==> m[key].lastFill + cfg.interval <= now
    ensures Granted(cfg, m, key, now)
  {
    if key in m {
      var n := (now - m[key].lastFill) / cfg.interval;
      DivShift(now - m[key].lastFill - cfg.interval, 1, cfg.interval);
      DivMono(0, now - m[key].lastFill - cfg.interval, cfg.interval);
      MulMono(1, n, cfg.rate);
      assert BucketOk(cfg, m[key], t);
    }
  }

  function Run(cfg: Config, m: Buckets, events: seq<Event>): Buckets
    requires cfg.interval > 0
    decreases |events|
  {
    if events == [] then m else Run(cfg, After(cfg, m, events[0]), events[1..])
  }

  lemma RefillOnlyAdds(cfg: Config, b: Bucket, now: int)
    requires cfg.interval > 0 && b.tokens <= cfg.burst
    ensures Refilled(cfg, b, now).tokens >= b.tokens
  {
  }

  lemma {:induction false} OrderedUpTo(events: seq<Event>, t: int, now: int)
    requires Ordered(events, t) && events != [] && events[|events| - 1].now <= now
    ensures t <= events[0].now <= now
    ensures events[1..] != [] ==> events[1..][|events[1..]| - 1].now <= now
    decreases |events|
  {
    if |events| > 1 {
      OrderedUpTo(events[1..], events[0].now, now);
    }
  }

  /** Events after `t` are counted the same however early the window opens. */
  lemma {:induction false} WiderWindow(cfg: Config, m: Buckets, events: seq<Event>, key: Key, t: int, lo: int, hi: int)
    requires cfg.interval > 0 && Ordered(events, t) && lo <= t
    ensures Grants(cfg, m, events, key, lo, hi) == Grants(cfg, m, events, key, t, hi)
    decreases |events|
  {
    if events != [] {
      var e := events[0];
      WiderWindow(cfg, After(cfg, m, e), events[1..], key, e.now, lo, hi);
      WiderWindow(cfg, After(cfg, m, e), events[1..], key, e.now, t, hi);
    }
  }

  /** The burst is really available: a key is refused only after `burst` grants. */
  lemma {:induction false} RefusedOnlyAfterBurst(
    cfg: Config, m: Buckets, events: seq<Event>, key: Key, t: int, now: int)
    requires cfg.rate > 0 && cfg.burst >= 1 && cfg.interval > 0
    requires Ok(cfg, m, t) && Ordered(events, t) && (events != [] ==> events[|events| - 1].now <= now) && t <= now
    requires !Granted(cfg, Run(cfg, m, events), key, now)
    ensures Grants(cfg, m, events, key, t, now) >= if key in m then m[key].tokens else cfg.burst
    decreases |events|
  {
    if events == [] {
      RefillIsSane(cfg, m[key], now);
    } else {
      var e := events[0];
      var m' := After(cfg, m, e);
      StepKeepsOk(cfg, m, e, t);
      OrderedUpTo(events, t, now);
      RefusedOnlyAfterBurst(cfg, m', events[1..], key, e.now, now);
      WiderWindow(cfg, m', events[1..], key, e.now, t, now);
      if e.Request? && e.key == key && key in m {
        RefillOnlyAdds(cfg, m[key], e.now);
      }
    }
  }

  // --------------------------------------- why the burst has to be earned

  function Repeat(key: Key, now: int, n: nat): seq<Event> {
    if n == 0 then [] else [Request(key, now)] + Repeat(key, now, n - 1)
  }

  /** The bucket has `n` tokens for a request at `now`, and was last filled at `last`. */
  predicate HasTokens(cfg: Config, m: Buckets, key: Key, now: int, n: int, last: int)
    requires cfg.interval > 0
  {
    && last <= now < last + cfg.interval
    && (if key in m then Refilled(cfg, m[key], now) == Bucket(n, last) else cfg.burst == n && last == now)
  }

  lemma SpendOne(cfg: Config, m: Buckets, key: Key, now: int, n: nat, last: int, rest: seq<Event>, lo: int, hi: int)
    requires cfg.interval > 0 && lo <= now <= hi && n > 0 && HasTokens(cfg, m, key, now, n, last)
    ensures Grants(cfg, m, Repeat(key, now, n) + rest, key, lo, hi)
            == 1 + Grants(cfg, m[key := Bucket(n - 1, last)], Repeat(key, now, n - 1) + rest, key, lo, hi)
  {
    var all := Repeat(key, now, n) + rest;
    assert all[1..] == Repeat(key, now, n - 1) + rest;
    assert After(cfg, m, all[0]) == m[key := Bucket(n - 1, last)];
  }

  lemma NotYetRefilled(cfg: Config, b: Bucket, now: int)
    requires cfg.interval > 0 && b.lastFill <= now < b.lastFill + cfg.interval
    ensures Refilled(cfg, b, now) == b
  {
    DivUnique(now - b.lastFill, 0, now - b.lastFill, cfg.interval);
  }

  lemma {:induction false} Drain(
    cfg: Config, m: Buckets, key: Key, now: int, n: nat, last: int, rest: seq<Event>, lo: int, hi: int)
    requires cfg.interval > 0 && lo <= now <= hi && last <= now < last + cfg.interval
    requires key in m && m[key] == Bucket(n, last)
    ensures Grants(cfg, m, Repeat(key, now, n) + rest, key, lo, hi)
            == n + Grants(cfg, m[key := Bucket(0, last)], rest, key, lo, hi)
  {
    if n == 0 {
      assert Repeat(key, now, n) + rest == rest;
      assert m[key := Bucket(0, last)] == m;
    } else {
      NotYetRefilled(cfg, m[key], now);
      SpendOne(cfg, m, key, now, n, last, rest, lo, hi);
      var m' := m[key := Bucket(n - 1, last)];
      Drain(cfg, m', key, now, n - 1, last, rest, lo, hi);
      assert m'[key := Bucket(0, last)] == m[key := Bucket(0, last)];
    }
  }

  /** A client with a full bucket can spend a whole burst at once. */
  lemma FullBurst(cfg: Config, m: Buckets, key: Key, now: int, last: int, rest: seq<Event>, lo: int, hi: int)
    requires cfg.interval > 0 && cfg.burst >= 1 && lo <= now <= hi && HasTokens(cfg, m, key, now, cfg.burst, last)
    ensures Grants(cfg, m, Repeat(key, now, cfg.burst) + rest, key, lo, hi)
            == cfg.burst + Grants(cfg, m[key := Bucket(0, last)], rest, key, lo, hi)
  {
    SpendOne(cfg, m, key, now, cfg.burst, last, rest, lo, hi);
    var m' := m[key := Bucket(cfg.burst - 1, last)];
    Drain(cfg, m', key, now, cfg.burst - 1, last, rest, lo, hi);
    assert m'[key := Bucket(0, last)] == m[key := Bucket(0, last)];
  }

  lemma {:induction false} RepeatIsOrdered(key: Key, now: int, n: nat, rest: seq<Event>, t: int)
    requires n > 0 && Ordered(rest, now) && t <= now
    ensures Ordered(Repeat(key, now, n) + rest, t)
  {
    if n == 1 {
      assert (Repeat(key, now, n) + rest)[1..] == rest;
    } else {
      RepeatIsOrdered(key, now, n - 1, rest, now);
      assert (Repeat(key, now, n) + rest)[1..] == Repeat(key, now, n - 1) + rest;
    }
  }

  /** A sweep that finds no bucket stale changes nothing. */
  lemma EarlySweepForgetsNothing(m: Buckets, now: int)
    requires forall key :: key in m ==> now < m[key].lastFill + FORGOTTEN
    ensures AfterSweep(m, now) == m
  {
  }

  /** k times, as soon as the bucket is stale: a sweep, and a burst from the bucket that
      replaces it.

      The sweeper's ticks are five minutes apart, but a tick is served only when the
      goroutine gets to run and to the lock, so two sweeps can be ten minutes and a
      nanosecond apart. The one between them comes while the bucket is less than ten
      minutes old and so forgets nothing (EarlySweepForgetsNothing); the run leaves such
      sweeps out. */
  function Forgetting(cfg: Config, key: Key, at: int, k: nat): seq<Event>
    requires cfg.burst >= 1
    decreases k
  {
    if k == 0 then []
    else [Sweep(at)] + (Repeat(key, at, cfg.burst) + Forgetting(cfg, key, at + FORGOTTEN, k - 1))
  }

  lemma {:induction false} ForgettingIsOrdered(cfg: Config, key: Key, at: int, k: nat, t: int)
    requires cfg.burst >= 1 && t <= at
    ensures Ordered(Forgetting(cfg, key, at, k), t)
    decreases k
  {
    if k > 0 {
      var rest := Forgetting(cfg, key, at + FORGOTTEN, k - 1);
      ForgettingIsOrdered(cfg, key, at + FORGOTTEN, k - 1, at);
      RepeatIsOrdered(key, at, cfg.burst, rest, at);
      assert Forgetting(cfg, key, at, k)[1..] == Repeat(key, at, cfg.burst) + rest;
    }
  }

  lemma {:induction false} ForgettingGrants(cfg: Config, key: Key, last: int, at: int, k: nat, lo: int, hi: int)
    requires cfg.interval > 0 && cfg.burst >= 1 && last + FORGOTTEN <= at
    requires lo <= at && (k > 0 ==> at + (k - 1) * FORGOTTEN <= hi)
    ensures Grants(cfg, map[key := Bucket(0, last)], Forgetting(cfg, key, at, k), key, lo, hi) == k * cfg.burst
    decreases k
  {
    if k > 0 {
      var m := map[key := Bucket(0, last)];
      var rest := Forgetting(cfg, key, at + FORGOTTEN, k - 1);
      assert AfterSweep(m, at) == map[];
      assert Forgetting(cfg, key, at, k)[1..] == Repeat(key, at, cfg.burst) + rest;
      FullBurst(cfg, map[], key, at, at, rest, lo, hi);
      ForgettingGrants(cfg, key, at, at + FORGOTTEN, k - 1, lo, hi);
    }
  }

  /** When the bucket of the first burst can be forgotten, which is at once if the interval
      is longer than that takes. */
  function FirstSweep(cfg: Config): int {
    if cfg.interval <= FORGOTTEN then cfg.interval + FORGOTTEN else 2 * cfg.interval - 1
  }

  /** A full bucket whose refill time is as old as can be; a burst; and k more. */
  function Evasion(cfg: Config, key: Key, k: nat): seq<Event>
    requires cfg.burst >= 1
  {
    [Request(key, 0)] + (Repeat(key, 2 * cfg.interval - 1, cfg.burst) + Forgetting(cfg, key, FirstSweep(cfg), k))
  }

  lemma EvasionIsOrdered(cfg: Config, key: Key, k: nat)
    requires Positive(cfg)
    ensures Ordered(Evasion(cfg, key, k), 0)
  {
    var rest := Forgetting(cfg, key, FirstSweep(cfg), k);
    ForgettingIsOrdered(cfg, key, FirstSweep(cfg), k, 2 * cfg.interval - 1);
    RepeatIsOrdered(key, 2 * cfg.interval - 1, cfg.burst, rest, 0);
    assert Evasion(cfg, key, k)[1..] == Repeat(key, 2 * cfg.interval - 1, cfg.burst) + rest;
  }

  lemma EvasionGrants(cfg: Config, key: Key, k: nat, hi: int)
    requires Positive(cfg) && k >= 1 && hi == FirstSweep(cfg) + (k - 1) * FORGOTTEN
    ensures Grants(cfg, map[], Evasion(cfg, key, k), key, 2 * cfg.interval - 1, hi) == (k + 1) * cfg.burst
  {
    var i, first := cfg.interval, 2 * cfg.interval - 1;
    var m := map[key := Bucket(cfg.burst - 1, 0)];
    var rest := Forgetting(cfg, key, FirstSweep(cfg), k);
    assert Evasion(cfg, key, k)[1..] == Repeat(key, first, cfg.burst) + rest;
    assert After(cfg, map[], Request(key, 0)) == m;
    DivUnique(first, 1, i - 1, i);
    FullBurst(cfg, m, key, first, i, rest, first, hi);
    assert m[key := Bucket(0, i)] == map[key := Bucket(0, i)];
    ForgettingGrants(cfg, key, i, FirstSweep(cfg), k, first, hi);
    assert (k + 1) * cfg.burst == k * cfg.burst + cfg.burst;
  }

  predicate WithinLimit(cfg: Config, events: seq<Event>, key: Key, lo: int, hi: int)
    requires cfg.interval > 0
  {
    Grants(cfg, map[], events, key, lo, hi) <= cfg.burst + cfg.rate * ((hi - lo) / cfg.interval + 1)
  }

  /** Whatever the run and the window. */
  ghost predicate LimitHolds(cfg: Config, key: Key)
    requires cfg.interval > 0
  {
    forall events, start, lo, hi {:trigger Ordered(events, start), WithinLimit(cfg, events, key, lo, hi)} ::
      Ordered(events, start) && lo <= hi ==> WithinLimit(cfg, events, key, lo, hi)
  }

  /** Forgetting k buckets in a row breaks a limit that does not pay for them. */
  lemma EvasionBreaksTheLimit(cfg: Config, key: Key, k: nat)
    requires Positive(cfg) && k >= 1
    requires if cfg.interval <= FORGOTTEN then k * cfg.burst > cfg.rate * ((k * FORGOTTEN + 1) / cfg.interval)
             else k * cfg.burst > cfg.rate && (k - 1) * FORGOTTEN < cfg.interval
    ensures !LimitHolds(cfg, key)
  {
    var i, events := cfg.interval, Evasion(cfg, key, k);
    var lo, hi := 2 * i - 1, FirstSweep(cfg) + (k - 1) * FORGOTTEN;
    EvasionIsOrdered(cfg, key, k);
    EvasionGrants(cfg, key, k, hi);
    assert (k + 1) * cfg.burst == k * cfg.burst + cfg.burst;
    if i <= FORGOTTEN {
      assert hi - lo == k * FORGOTTEN + 1 - i;
      DivShift(hi - lo, 1, i);
    } else {
      DivUnique(hi - lo, 0, hi - lo, i);
    }
    assert Ordered(events, 0) && lo <= hi && !WithinLimit(cfg, events, key, lo, hi);
  }

  /** How many buckets to forget. */
  function Enough(cfg: Config): nat
    requires Positive(cfg)
  {
    if cfg.interval > FORGOTTEN then (cfg.interval + FORGOTTEN - 1) / FORGOTTEN
    else if (FORGOTTEN + 1) % cfg.interval != 0 then 1
    else if cfg.interval > 1 then 2
    else cfg.rate + 1
  }

  lemma EveryNanosecond(b: int, r: int)
    requires r > 0 && b > r * FORGOTTEN
    ensures (r + 1) * b > r * ((r + 1) * FORGOTTEN + 1)
  {
    MulMono(r * FORGOTTEN + 1, b, r + 1);
    assert (r + 1) * (r * FORGOTTEN + 1) == r * ((r + 1) * FORGOTTEN) + r + 1;
  }

  lemma EnoughIsTooMany(cfg: Config)
    requires Positive(cfg) && !Earned(cfg)
    ensures var k := Enough(cfg);
            k >= 1 && if cfg.interval <= FORGOTTEN then k * cfg.burst > cfg.rate * ((k * FORGOTTEN + 1) / cfg.interval)
                      else k * cfg.burst > cfg.rate && (k - 1) * FORGOTTEN < cfg.interval
  {
    var i, q := cfg.interval, FORGOTTEN / cfg.interval;
    if i > FORGOTTEN {
      ForgottenInAnInterval(cfg);
    } else if (FORGOTTEN + 1) % i != 0 {
      DivUnique(FORGOTTEN, (FORGOTTEN + 1) / i, (FORGOTTEN + 1) % i - 1, i);
    } else if i > 1 {
      DivUnique(FORGOTTEN, (FORGOTTEN + 1) / i - 1, i - 1, i);
      assert (2 * q + 1) * i == 2 * ((q + 1) * i) - i;
      DivUnique(2 * FORGOTTEN + 1, 2 * q + 1, i - 1, i);
    } else {
      EveryNanosecond(cfg.burst, cfg.rate);
    }
  }

  /** For every positive setting the limit holds over all runs and windows exactly when
      what a forgotten bucket would have earned makes up for its successor's burst. */
  lemma LimitHoldsExactlyWhenEarned(cfg: Config, key: Key)
    requires Positive(cfg)
    ensures LimitHolds(cfg, key) <==> Earned(cfg)
  {
    if Earned(cfg) {
      forall events, start, lo, hi | Ordered(events, start) && lo <= hi ensures WithinLimit(cfg, events, key, lo, hi) {
        RateLimitHolds(cfg, events, key, start, lo, hi);
      }
    } else {
      EnoughIsTooMany(cfg);
      EvasionBreaksTheLimit(cfg, key, Enough(cfg));
    }
  }
}
