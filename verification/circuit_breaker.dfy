/**
  The three-state breaker of the circuitbreaker package.  Each mutex-guarded method is one step;
  `now` is the reading a method decides with and `stamp` the later one transitionTo stores.
  Durations are nanoseconds; the backoff product is exact before it is truncated.
 */
module CircuitBreaker {
  import opened Wrappers

  datatype Status = Closed | Open | HalfOpen

  datatype Config = Config(
    failureThreshold: nat,
    successThreshold: nat,
    openTimeout: int,
    maxOpenTimeout: int,
    backoffMultiplier: real,
    halfOpenMaxRequests: nat,
    retryableErrors: seq<string>,
    nonRetryableErrors: seq<string>)

  const DEFAULT_CONFIG := Config(5, 2, 30_000_000_000, 3_600_000_000_000, 2.0, 1,
    ["timeout", "connection_refused", "connection_reset", "dns_error", "rate_limited", "service_unavailable",
      "server_error"],
    ["auth_error", "forbidden", "validation_error", "not_found"])

  datatype Breaker = Breaker(
    state: Status,
    failures: nat,
    successes: nat,
    halfOpenRequests: nat,
    lastStateChange: int,
    lastFailure: int,
    consecutiveOpens: nat,
    currentOpenTimeout: int)

  function New(cfg: Config, now: int): Breaker {
    Breaker(Closed, 0, 0, 0, now, 0, 0, cfg.openTimeout)
  }

  /** The allow-list never decides: a bucket counts unless it is on the deny-list. */
  method IsRetryableError(cfg: Config, bucket: string) returns (r: bool)
    ensures r <==> bucket !in cfg.nonRetryableErrors
  {
    for i := 0 to |cfg.nonRetryableErrors|
      invariant bucket !in cfg.nonRetryableErrors[..i]
    {
      if cfg.nonRetryableErrors[i] == bucket { return false; }
    }
    assert cfg.nonRetryableErrors[..|cfg.nonRetryableErrors|] == cfg.nonRetryableErrors;
    for i := 0 to |cfg.retryableErrors| {
      if cfg.retryableErrors[i] == bucket { return true; }
    }
    return true;
  }

  predicate Counts(cfg: Config, bucket: string) {
    bucket !in cfg.nonRetryableErrors
  }

  /** Conversion of a float to a Duration: toward zero. */
  function Truncate(x: real): int {
    if x >= 0.0 then x.Floor else -(-x).Floor
  }

  function Grow(cfg: Config, timeout: int): int {
    Truncate(timeout as real * cfg.backoffMultiplier)
  }

  function Cap(cfg: Config, timeout: int): int {
    if cfg.maxOpenTimeout > 0 && timeout > cfg.maxOpenTimeout then cfg.maxOpenTimeout else timeout
  }

  function TransitionTo(cfg: Config, b: Breaker, next: Status, stamp: int): Breaker {
    if b.state == next then b
    else
      var t := b.(state := next, lastStateChange := stamp, successes := 0, halfOpenRequests := 0);
      match next
      case Closed => t.(failures := 0, consecutiveOpens := 0, currentOpenTimeout := cfg.openTimeout)
      case Open =>
        if b.state != HalfOpen then t
        else t.(consecutiveOpens := b.consecutiveOpens + 1,
                currentOpenTimeout := if cfg.backoffMultiplier > 0.0 then Cap(cfg, Grow(cfg, b.currentOpenTimeout))
                                      else b.currentOpenTimeout)
      case HalfOpen => t
  }

  function Allowed(cfg: Config, b: Breaker, now: int, stamp: int): (Breaker, bool) {
    match b.state
    case Closed => (b, true)
    case Open =>
      if now - b.lastStateChange >= b.currentOpenTimeout
      then (TransitionTo(cfg, b, HalfOpen, stamp).(halfOpenRequests := 1), true)
      else (b, false)
    case HalfOpen =>
      if b.halfOpenRequests < cfg.halfOpenMaxRequests
      then (b.(halfOpenRequests := b.halfOpenRequests + 1), true)
      else (b, false)
  }

  function Succeeded(cfg: Config, b: Breaker, stamp: int): Breaker {
    match b.state
    case Closed => b.(failures := 0)
    case HalfOpen =>
      var t := b.(successes := b.successes + 1);
      if t.successes >= cfg.successThreshold then TransitionTo(cfg, t, Closed, stamp) else t
    case Open => b.(successes := b.successes + 1)
  }

  function Failed(cfg: Config, b: Breaker, bucket: string, now: int, stamp: int): Breaker {
    if bucket == "" || !Counts(cfg, bucket) then b
    else
      var t := b.(lastFailure := now);
      match b.state
      case Closed =>
        var u := t.(failures := t.failures + 1);
        if u.failures >= cfg.failureThreshold then TransitionTo(cfg, u, Open, stamp) else u
      case HalfOpen => TransitionTo(cfg, t, Open, stamp)
      case Open => t.(failures := t.failures + 1)
  }

  /** The breaker as the package keeps it: fields updated in place under a lock. */
  class CircuitBreaker {
    const config: Config
    var state: Status
    var failures: nat
    var successes: nat
    var halfOpenRequests: nat
    var lastStateChange: int
    var lastFailure: int
    var consecutiveOpens: nat
    var currentOpenTimeout: int

    ghost function View(): Breaker
      reads this
    {
      Breaker(state, failures, successes, halfOpenRequests, lastStateChange, lastFailure, consecutiveOpens,
        currentOpenTimeout)
    }

    constructor (cfg: Config, now: int)
      ensures config == cfg && View() == New(cfg, now)
    {
      config, state := cfg, Closed;
      failures, successes, halfOpenRequests, consecutiveOpens := 0, 0, 0, 0;
      lastStateChange, lastFailure, currentOpenTimeout := now, 0, cfg.openTimeout;
    }

    method Allow(now: int, stamp: int) returns (ok: bool)
      modifies this
      ensures (View(), ok) == Allowed(config, old(View()), now, stamp)
    {
      match state {
        case Closed => return true;
        case Open =>
          if now - lastStateChange >= currentOpenTimeout {
            Transition(HalfOpen, stamp);
            halfOpenRequests := 1;
            return true;
          }
          return false;
        case HalfOpen =>
          if halfOpenRequests < config.halfOpenMaxRequests {
            halfOpenRequests := halfOpenRequests + 1;
            return true;
          }
          return false;
      }
    }

    method RecordSuccess(stamp: int)
      modifies this
      ensures View() == Succeeded(config, old(View()), stamp)
    {
      match state {
        case Closed => failures := 0;
        case HalfOpen =>
          successes := successes + 1;
          if successes >= config.successThreshold {
            Transition(Closed, stamp);
          }
        case Open => successes := successes + 1;
      }
    }

    method RecordFailure(bucket: string, now: int, stamp: int)
      modifies this
      ensures View() == Failed(config, old(View()), bucket, now, stamp)
    {
      if bucket == "" { return; }
      var counts := IsRetryableError(config, bucket);
      if !counts { return; }
      lastFailure := now;
      match state {
        case Closed =>
          failures := failures + 1;
          if failures >= config.failureThreshold {
            Transition(Open, stamp);
          }
        case HalfOpen => Transition(Open, stamp);
        case Open => failures := failures + 1;
      }
    }

    method Reset(stamp: int)
      modifies this
      ensures View() == TransitionTo(config, old(View()), Closed, stamp)
    {
      Transition(Closed, stamp);
    }

    method Transition(next: Status, stamp: int)
      modifies this
      ensures View() == TransitionTo(config, old(View()), next, stamp)
    {
      if state == next { return; }
      var prev := state;
      state, lastStateChange := next, stamp;
      match next {
        case Closed =>
          failures, successes, halfOpenRequests, consecutiveOpens := 0, 0, 0, 0;
          currentOpenTimeout := config.openTimeout;
        case Open =>
          successes, halfOpenRequests := 0, 0;
          if prev == HalfOpen {
            consecutiveOpens := consecutiveOpens + 1;
            if config.backoffMultiplier > 0.0 {
              currentOpenTimeout := Grow(config, currentOpenTimeout);
              if config.maxOpenTimeout > 0 && currentOpenTimeout > config.maxOpenTimeout {
                currentOpenTimeout := config.maxOpenTimeout;
              }
            }
          }
        case HalfOpen => successes, halfOpenRequests := 0, 0;
      }
    }
  }

  // ----- runs of the breaker

  datatype Event = Allow(now: int, stamp: int) | Success(stamp: int) | Failure(bucket: string, now: int, stamp: int)
    | Reset(stamp: int)

  function Step(cfg: Config, b: Breaker, e: Event): Breaker {
    match e
    case Allow(now, stamp) => Allowed(cfg, b, now, stamp).0
    case Success(stamp) => Succeeded(cfg, b, stamp)
    case Failure(bucket, now, stamp) => Failed(cfg, b, bucket, now, stamp)
    case Reset(stamp) => TransitionTo(cfg, b, Closed, stamp)
  }

  function Run(cfg: Config, b: Breaker, es: seq<Event>): Breaker {
    if es == [] then b else Step(cfg, Run(cfg, b, es[..|es| - 1]), es[|es| - 1])
  }

  // ----- tripping

  predicate IsCountedFailure(cfg: Config, e: Event) {
    e.Failure? && e.bucket != "" && Counts(cfg, e.bucket)
  }

  /** Counted failures since the last success; Reset of a closed breaker does not touch them. */
  function Streak(cfg: Config, es: seq<Event>): nat {
    if es == [] then 0
    else
      var n, e := Streak(cfg, es[..|es| - 1]), es[|es| - 1];
      if e.Success? then 0 else if IsCountedFailure(cfg, e) then n + 1 else n
  }

  /** A new breaker opens exactly when counted failures in a row first reach FailureThreshold. */
  lemma {:induction false} TripsOnTheStreak(cfg: Config, start: int, es: seq<Event>)
    requires forall i :: 0 <= i < |es| ==> Streak(cfg, es[..i]) < cfg.failureThreshold
    ensures var b := Run(cfg, New(cfg, start), es);
      if es == [] || Streak(cfg, es) < cfg.failureThreshold then b.state == Closed && b.failures == Streak(cfg, es)
      else b.state == Open
  {
    if es != [] {
      var n := |es| - 1;
      assert forall i :: 0 <= i < n ==> es[..n][..i] == es[..i];
      TripsOnTheStreak(cfg, start, es[..n]);
      assert Streak(cfg, es[..n]) < cfg.failureThreshold;
    }
  }

  // ----- the open spell

  /**
    While nothing resets the breaker and no Allow comes as late as currentOpenTimeout after it
    opened, the spell goes on: every Allow is rejected, whatever else is reported meanwhile.
   */
  lemma {:induction false} OpenSpellRejects(cfg: Config, b: Breaker, es: seq<Event>)
    requires b.state == Open
    requires forall i :: 0 <= i < |es| ==> !es[i].Reset?
    requires forall i :: 0 <= i < |es| && es[i].Allow? ==> es[i].now < b.lastStateChange + b.currentOpenTimeout
    ensures var t := Run(cfg, b, es);
      t.state == Open && t.lastStateChange == b.lastStateChange && t.currentOpenTimeout == b.currentOpenTimeout
    ensures forall i :: 0 <= i < |es| && es[i].Allow? ==> !Allowed(cfg, Run(cfg, b, es[..i]), es[i].now, es[i].stamp).1
  {
    if es != [] {
      var n := |es| - 1;
      OpenSpellRejects(cfg, b, es[..n]);
      forall i | 0 <= i < |es| && es[i].Allow?
        ensures !Allowed(cfg, Run(cfg, b, es[..i]), es[i].now, es[i].stamp).1
      {
        if i < n { assert es[..n][..i] == es[..i]; }
      }
    }
  }

  // ----- backoff

  function Iterate(cfg: Config, n: nat): int {
    if n == 0 then cfg.openTimeout else Grow(cfg, Iterate(cfg, n - 1))
  }

  lemma {:induction false} GrowGrows(cfg: Config, s: int, t: int)
    requires cfg.backoffMultiplier >= 1.0 && 0 <= s <= t
    ensures t <= Grow(cfg, t) && Grow(cfg, s) <= Grow(cfg, t)
  {
    var m, x, y := cfg.backoffMultiplier, s as real, t as real;
    assert x <= y;
    assert (m - 1.0) * y >= 0.0;
    assert m * (y - x) >= 0.0;
    assert y <= y * m && x * m <= y * m;
  }

  /** Capping after every step is the same as growing freely and capping once. */
  lemma {:induction false} CapOnce(cfg: Config, t: int)
    requires cfg.backoffMultiplier >= 1.0 && t >= 0
    ensures Cap(cfg, Grow(cfg, Cap(cfg, t))) == Cap(cfg, Grow(cfg, t))
  {
    if Cap(cfg, t) != t {
      GrowGrows(cfg, cfg.maxOpenTimeout, t);
      GrowGrows(cfg, 0, cfg.maxOpenTimeout);
    }
  }

  /** The timeout after n failed probes in a row; a multiplier of zero or less disables growth and cap. */
  function Backoff(cfg: Config, n: nat): int {
    if n == 0 || cfg.backoffMultiplier <= 0.0 then cfg.openTimeout else Cap(cfg, Grow(cfg, Backoff(cfg, n - 1)))
  }

  /** The probes that failed since the breaker was last closed: half-open episodes that ended open. */
  function FailedProbes(cfg: Config, start: int, es: seq<Event>): nat {
    if es == [] then 0
    else
      var before := es[..|es| - 1];
      var was, next := Run(cfg, New(cfg, start), before).state, Run(cfg, New(cfg, start), es).state;
      if next == Closed then 0 else FailedProbes(cfg, start, before) + if was == HalfOpen && next == Open then 1 else 0
  }

  /** The timeout of every reachable state is given by the probes that failed since the breaker was last closed. */
  lemma {:induction false} BackoffInEveryRun(cfg: Config, start: int, es: seq<Event>)
    ensures var b, n := Run(cfg, New(cfg, start), es), FailedProbes(cfg, start, es);
      && b.consecutiveOpens == n && b.currentOpenTimeout == Backoff(cfg, n)
      && (b.state == Closed ==> b.currentOpenTimeout == cfg.openTimeout)
  {
    if es != [] { BackoffInEveryRun(cfg, start, es[..|es| - 1]); }
  }

  /** The base timeout is within the cap. */
  predicate CapFits(cfg: Config) {
    cfg.maxOpenTimeout <= 0 || cfg.openTimeout <= cfg.maxOpenTimeout
  }

  /** Below one the multiplier moves every timeout toward zero. */
  lemma {:induction false} GrowShrinks(cfg: Config, t: int)
    requires 0.0 < cfg.backoffMultiplier < 1.0
    ensures t > 0 ==> 0 <= Grow(cfg, t) < t
    ensures t <= 0 ==> t <= Grow(cfg, t) <= 0
  {
    var m, x := cfg.backoffMultiplier, t as real;
    if t > 0 {
      Fraction(x, m);
    } else {
      Fraction(-x, m);
      assert -(x * m) == -x * m;
    }
  }

  /** A fraction of a magnitude is a smaller magnitude. */
  lemma {:induction false} Fraction(x: real, m: real)
    requires x >= 0.0 && 0.0 < m < 1.0
    ensures 0.0 <= x * m <= x && (x > 0.0 ==> x * m < x)
  {
    Product(x, m);
    Product(x, 1.0 - m);
    Distribute(x, 1.0, -m);
    assert x * -m == -(x * m) && 1.0 + -m == 1.0 - m;
  }

  lemma {:induction false} Product(x: real, y: real)
    requires x >= 0.0 && y >= 0.0
    ensures x * y >= 0.0 && (x > 0.0 && y > 0.0 ==> x * y > 0.0)
  {
  }

  lemma {:induction false} Distribute(x: real, y: real, z: real)
    ensures x * (y + z) == x * y + x * z
  {
  }

  /** A negative timeout grows away from zero, if truncation leaves anything of the growth. */
  lemma {:induction false} GrowBelowZero(cfg: Config, t: int)
    requires cfg.backoffMultiplier > 0.0 && t <= 0
    ensures Grow(cfg, t) <= 0
    ensures Grow(cfg, t) < t <==> -t as real * (cfg.backoffMultiplier - 1.0) >= 1.0
  {
    var m, x := cfg.backoffMultiplier, -t as real;
    Product(x, m);
    Distribute(x, 1.0, m - 1.0);
    assert 1.0 + (m - 1.0) == m && x * 1.0 == x;
    assert -(t as real * m) == x * m;
  }

  /** Multiplied and truncated n times and capped once, if the multiplier is at least one or the base within the cap. */
  lemma {:induction false} BackoffCappedOnce(cfg: Config, n: nat)
    requires cfg.backoffMultiplier >= 1.0 || (cfg.backoffMultiplier > 0.0 && CapFits(cfg))
    ensures n > 0 ==> Backoff(cfg, n) == Cap(cfg, Iterate(cfg, n))
    ensures if cfg.openTimeout <= 0 then Iterate(cfg, n) <= 0
            else if cfg.backoffMultiplier >= 1.0 then Iterate(cfg, n) >= cfg.openTimeout
            else 0 <= Iterate(cfg, n) <= cfg.openTimeout
  {
    if n > 0 {
      var t := Iterate(cfg, n - 1);
      BackoffCappedOnce(cfg, n - 1);
      if cfg.openTimeout <= 0 {
        GrowBelowZero(cfg, t);
      } else if cfg.backoffMultiplier >= 1.0 {
        GrowGrows(cfg, 0, t);
        CapOnce(cfg, t);
      } else {
        GrowShrinks(cfg, t);
      }
    }
  }

  // ----- when a failed probe shortens the timeout

  /** The configurations under which a failed probe makes the next open spell shorter. */
  predicate Shortens(cfg: Config) {
    && cfg.backoffMultiplier > 0.0
    && if cfg.openTimeout >= 0 then cfg.openTimeout > 0 && (cfg.backoffMultiplier < 1.0 || !CapFits(cfg))
       else -cfg.openTimeout as real * (cfg.backoffMultiplier - 1.0) >= 1.0
  }

  /** The first failed probe shortens the timeout under exactly these. */
  lemma {:induction false} FirstReopenShrinksIff(cfg: Config, b: Breaker, stamp: int)
    requires b.state == HalfOpen && b.currentOpenTimeout == cfg.openTimeout
    ensures TransitionTo(cfg, b, Open, stamp).currentOpenTimeout < cfg.openTimeout <==> Shortens(cfg)
  {
    if cfg.backoffMultiplier > 0.0 {
      if cfg.openTimeout <= 0 {
        GrowBelowZero(cfg, cfg.openTimeout);
      } else if cfg.backoffMultiplier < 1.0 {
        GrowShrinks(cfg, cfg.openTimeout);
      } else {
        GrowGrows(cfg, 0, cfg.openTimeout);
      }
    }
  }

  /** Where the timeout can be under any other configuration. */
  ghost predicate Held(cfg: Config, t: int) {
    if cfg.backoffMultiplier <= 0.0 then t == cfg.openTimeout
    else if cfg.openTimeout > 0 then t >= cfg.openTimeout && Cap(cfg, t) == t
    else cfg.openTimeout <= t <= 0
  }

  lemma {:induction false} ReopenHolds(cfg: Config, t: int)
    requires !Shortens(cfg) && cfg.backoffMultiplier > 0.0 && Held(cfg, t)
    ensures t <= Cap(cfg, Grow(cfg, t)) && Held(cfg, Cap(cfg, Grow(cfg, t)))
  {
    if cfg.openTimeout > 0 {
      GrowGrows(cfg, 0, t);
    } else {
      GrowBelowZero(cfg, t);
      LessGrowth(cfg.openTimeout, t, cfg.backoffMultiplier);
    }
  }

  lemma {:induction false} LessGrowth(base: int, t: int, m: real)
    requires base <= t <= 0 && (base == 0 || -base as real * (m - 1.0) < 1.0)
    ensures -t as real * (m - 1.0) < 1.0
  {
    var x, y, g := -t as real, -base as real, m - 1.0;
    if g >= 0.0 {
      Product(y - x, g);
      Distribute(g, x, y - x);
      assert x + (y - x) == y;
      assert g * y == y * g && g * x == x * g && g * (y - x) == (y - x) * g;
    } else {
      Product(x, -g);
      assert x * -g == -(x * g);
    }
  }

  /** Something other than closing made the timeout shorter. */
  predicate ShortenedBy(cfg: Config, b: Breaker, e: Event) {
    Step(cfg, b, e).state != Closed && Step(cfg, b, e).currentOpenTimeout < b.currentOpenTimeout
  }

  lemma {:induction false} HeldInEveryRun(cfg: Config, start: int, es: seq<Event>)
    requires !Shortens(cfg)
    ensures Held(cfg, Run(cfg, New(cfg, start), es).currentOpenTimeout)
  {
    if es != [] {
      var before := es[..|es| - 1];
      HeldInEveryRun(cfg, start, before);
      var t := Run(cfg, New(cfg, start), before).currentOpenTimeout;
      if cfg.backoffMultiplier > 0.0 { ReopenHolds(cfg, t); }
    }
  }

  /** Under any other configuration only closing ever shortens the timeout. */
  lemma {:induction false} TimeoutNeverShrinksInAStreak(cfg: Config, start: int, es: seq<Event>, e: Event)
    requires !Shortens(cfg)
    ensures !ShortenedBy(cfg, Run(cfg, New(cfg, start), es), e)
  {
    var b := Run(cfg, New(cfg, start), es);
    HeldInEveryRun(cfg, start, es);
    if cfg.backoffMultiplier > 0.0 { ReopenHolds(cfg, b.currentOpenTimeout); }
  }

  /** A base within the cap keeps every timeout within it, whatever the multiplier. */
  lemma {:induction false} TimeoutStaysWithinCap(cfg: Config, start: int, es: seq<Event>)
    requires CapFits(cfg)
    ensures var b := Run(cfg, New(cfg, start), es);
      cfg.maxOpenTimeout > 0 ==> b.currentOpenTimeout <= cfg.maxOpenTimeout
  {
    if es != [] { TimeoutStaysWithinCap(cfg, start, es[..|es| - 1]); }
  }

  // ----- clocks

  /** The reading an event decides with; the stamp comes later in the same call. */
  function Reading(e: Event): int {
    if e.Success? || e.Reset? then e.stamp else e.now
  }

  /** The instant a run has reached. */
  function Clock(from: int, es: seq<Event>): int {
    if es == [] then from else es[|es| - 1].stamp
  }

  /** Readings never go back, within an event or from one to the next. */
  predicate Clocked(from: int, es: seq<Event>) {
    forall i :: 0 <= i < |es| ==> Clock(from, es[..i]) <= Reading(es[i]) <= es[i].stamp
  }

  lemma {:induction false} ClockedAppend(from: int, es: seq<Event>, e: Event)
    requires Clocked(from, es) && Clock(from, es) <= Reading(e) <= e.stamp
    ensures Clocked(from, es + [e])
  {
    var whole := es + [e];
    forall i | 0 <= i < |whole| ensures Clock(from, whole[..i]) <= Reading(whole[i]) <= whole[i].stamp {
      assert whole[..i] == es[..i];
    }
    assert es[..|es|] == es;
  }

  function LaterOf(x: int, y: int): int {
    if x > y then x else y
  }

  /** A bucket longer than every non-retryable one counts. */
  function Longest(words: seq<string>): (n: nat)
    ensures forall i :: 0 <= i < |words| ==> |words[i]| <= n
  {
    if words == [] then 0
    else var n := Longest(words[1..]); if |words[0]| > n then |words[0]| else n
  }

  function CountedBucket(cfg: Config): (bucket: string)
    ensures bucket != "" && Counts(cfg, bucket)
  {
    seq(Longest(cfg.nonRetryableErrors) + 1, _ => 'x')
  }

  /** Failures reported one after another at the same instant. */
  function Failures(bucket: string, at: int, n: nat): (es: seq<Event>)
    ensures |es| == n && forall i :: 0 <= i < n ==> es[i] == Failure(bucket, at, at)
  {
    seq(n, _ => Failure(bucket, at, at))
  }

  lemma {:induction false} FailuresClocked(bucket: string, at: int, n: nat)
    ensures Clocked(at, Failures(bucket, at, n)) && Clock(at, Failures(bucket, at, n)) == at
  {
  }

  /** As many failures as it takes open a new breaker. */
  lemma {:induction false} Trip(cfg: Config, start: int) returns (es: seq<Event>)
    ensures Clocked(start, es) && Clock(start, es) == start
    ensures var b := Run(cfg, New(cfg, start), es);
      b.state == Open && b.lastStateChange == start && b.currentOpenTimeout == cfg.openTimeout
  {
    var n := if cfg.failureThreshold > 0 then cfg.failureThreshold - 1 else 0;
    var bucket := CountedBucket(cfg);
    var fails, last := Failures(bucket, start, n), Failure(bucket, start, start);
    if n > 0 { CountedRun(cfg, start, fails); }
    CountedTimeout(cfg, start, fails);
    FailuresClocked(bucket, start, n);
    ClockedAppend(start, fails, last);
    es := fails + [last];
    assert es[..n] == fails;
  }

  lemma {:induction false} CountedTimeout(cfg: Config, start: int, fails: seq<Event>)
    requires fails == [] || |fails| < cfg.failureThreshold
    requires forall i :: 0 <= i < |fails| ==> IsCountedFailure(cfg, fails[i])
    ensures var b := Run(cfg, New(cfg, start), fails); b.state == Closed && b.currentOpenTimeout == cfg.openTimeout
  {
    if fails != [] {
      CountedRun(cfg, start, fails[..|fails| - 1]);
      CountedTimeout(cfg, start, fails[..|fails| - 1]);
    }
  }

  /** A new breaker trips, is probed as soon as it may be, and the probe fails. */
  lemma {:induction false} FirstReopen(cfg: Config, start: int) returns (es: seq<Event>, e: Event)
    ensures Clocked(start, es + [e])
    ensures var b := Run(cfg, New(cfg, start), es);
      && b.state == HalfOpen && b.currentOpenTimeout == cfg.openTimeout
      && e.Failure? && Step(cfg, b, e) == TransitionTo(cfg, b.(lastFailure := e.now), Open, e.stamp)
  {
    var trip := Trip(cfg, start);
    var late := LaterOf(start, start + cfg.openTimeout);
    var probe := Allow(late, late);
    ClockedAppend(start, trip, probe);
    es, e := trip + [probe], Failure(CountedBucket(cfg), late, late);
    assert es[..|trip|] == trip;
    ClockedAppend(start, es, e);
  }

  /** Some run on a clock that never goes back has a step, other than closing, that shortens the timeout. */
  ghost predicate CanShorten(cfg: Config, start: int) {
    exists es, e :: Clocked(start, es + [e]) && ShortenedBy(cfg, Run(cfg, New(cfg, start), es), e)
  }

  /** And that happens under exactly those configurations. */
  lemma {:induction false} TimeoutCanShrinkIff(cfg: Config, start: int)
    ensures CanShorten(cfg, start) <==> Shortens(cfg)
  {
    if Shortens(cfg) {
      var es, e := FirstReopen(cfg, start);
      var b := Run(cfg, New(cfg, start), es);
      FirstReopenShrinksIff(cfg, b.(lastFailure := e.now), e.stamp);
      assert ShortenedBy(cfg, b, e);
    } else if CanShorten(cfg, start) {
      var es, e :| Clocked(start, es + [e]) && ShortenedBy(cfg, Run(cfg, New(cfg, start), es), e);
      TimeoutNeverShrinksInAStreak(cfg, start, es, e);
    }
  }

  /** A base of one minute under a cap of half a minute is halved; so is half a minute with a multiplier of a half. */
  lemma {:induction false} ReopenCanShrink(b: Breaker, stamp: int)
    requires b.state == HalfOpen
    ensures var cfg := DEFAULT_CONFIG.(openTimeout := 60_000_000_000, maxOpenTimeout := 30_000_000_000);
      b.currentOpenTimeout == cfg.openTimeout ==> TransitionTo(cfg, b, Open, stamp).currentOpenTimeout == 30_000_000_000
    ensures var cfg := DEFAULT_CONFIG.(backoffMultiplier := 0.5);
      b.currentOpenTimeout == cfg.openTimeout ==> TransitionTo(cfg, b, Open, stamp).currentOpenTimeout == 15_000_000_000
  {
    assert Truncate(60_000_000_000.0 * 2.0) == 120_000_000_000;
    assert Truncate(30_000_000_000.0 * 0.5) == 15_000_000_000;
  }

  // ----- Reset

  /** After a Reset no failure counts, exactly when the breaker was not closed or had none. */
  lemma {:induction false} ResetForgetsFailuresIff(cfg: Config, b: Breaker, stamp: int)
    ensures TransitionTo(cfg, b, Closed, stamp).failures == 0 <==> b.state != Closed || b.failures == 0
  {
  }

  /** A failure reported before a Reset still trips the breaker after it. */
  lemma {:induction false} ResetKeepsTheStreak(cfg: Config, start: int, fails: seq<Event>, stamp: int, last: Event)
    requires |fails| + 1 == cfg.failureThreshold
    requires IsCountedFailure(cfg, last) && forall i :: 0 <= i < |fails| ==> IsCountedFailure(cfg, fails[i])
    ensures Run(cfg, New(cfg, start), fails + [Reset(stamp)] + [last]).state == Open
  {
    var es := fails + [Reset(stamp)] + [last];
    assert es[..|es| - 1] == fails + [Reset(stamp)] && (fails + [Reset(stamp)])[..|fails|] == fails;
    CountedRun(cfg, start, fails);
  }

  lemma {:induction false} CountedRun(cfg: Config, start: int, fails: seq<Event>)
    requires |fails| < cfg.failureThreshold && forall i :: 0 <= i < |fails| ==> IsCountedFailure(cfg, fails[i])
    ensures var b := Run(cfg, New(cfg, start), fails); b.state == Closed && b.failures == |fails|
  {
    if fails != [] { CountedRun(cfg, start, fails[..|fails| - 1]); }
  }

  // ----- the half-open budget, with callers

  /**
    A breaker and its callers.  `episode` numbers the half-open episodes from 1 and `admitted`
    counts the calls let through in the current one; `tickets` holds, for every admitted call whose
    outcome is not yet reported, the episode it was admitted in (0 when it was not half-open).
   */
  datatype World = World(b: Breaker, episode: nat, admitted: nat, tickets: multiset<nat>)

  datatype Outcome = Succeeds | Fails(bucket: string)

  datatype Action =
    | Start(now: int, stamp: int)
    | Finish(ticket: nat, outcome: Outcome, now: int, stamp: int)
    | ForceClosed(stamp: int)  // Reset

  predicate Enabled(w: World, a: Action) {
    a.Finish? ==> a.ticket in w.tickets
  }

  /** Nobody calls Reset, and an outcome that arrives while half-open is that of a call of this very episode. */
  predicate Timely(w: World, a: Action) {
    !a.ForceClosed? && (a.Finish? && w.b.state == HalfOpen ==> a.ticket == w.episode)
  }

  function Next(cfg: Config, w: World, a: Action): World
    requires Enabled(w, a)
  {
    match a
    case Start(now, stamp) =>
      var (b, ok) := Allowed(cfg, w.b, now, stamp);
      if !ok then w
      else if w.b.state == Open then World(b, w.episode + 1, 1, w.tickets + multiset{w.episode + 1})
      else if w.b.state == HalfOpen then World(b, w.episode, w.admitted + 1, w.tickets + multiset{w.episode})
      else w.(b := b, tickets := w.tickets + multiset{0})
    case Finish(ticket, outcome, now, stamp) =>
      w.(b := if outcome.Succeeds? then Succeeded(cfg, w.b, stamp) else Failed(cfg, w.b, outcome.bucket, now, stamp),
         tickets := w.tickets - multiset{ticket})
    case ForceClosed(stamp) => w.(b := TransitionTo(cfg, w.b, Closed, stamp))
  }

  /** The world after a run of actions; None when an action was not enabled. */
  function After(cfg: Config, w: World, acts: seq<Action>): Option<World> {
    if acts == [] then Some(w)
    else
      var r := After(cfg, w, acts[..|acts| - 1]);
      if r.Some? && Enabled(r.value, acts[|acts| - 1]) then Some(Next(cfg, r.value, acts[|acts| - 1])) else None
  }

  /** Every action of the run was timely. */
  ghost predicate AllTimely(cfg: Config, w: World, acts: seq<Action>) {
    forall i :: 0 <= i < |acts| ==> After(cfg, w, acts[..i]).Some? ==> Timely(After(cfg, w, acts[..i]).value, acts[i])
  }

  function Fresh(cfg: Config, start: int): World {
    World(New(cfg, start), 0, 0, multiset{})
  }

  function Budget(cfg: Config): nat {
    if cfg.halfOpenMaxRequests > 1 then cfg.halfOpenMaxRequests else 1
  }

  ghost predicate BudgetInv(cfg: Config, w: World) {
    && (w.b.state == HalfOpen ==> w.episode > 0 && 1 <= w.admitted == w.b.halfOpenRequests <= Budget(cfg))
    && forall e :: e in w.tickets ==> e <= w.episode
  }

  lemma {:induction false} BudgetStep(cfg: Config, w: World, a: Action)
    requires BudgetInv(cfg, w) && Enabled(w, a)
    ensures BudgetInv(cfg, Next(cfg, w, a))
  {
  }

  /** One half-open episode admits at most max(1, HalfOpenMaxRequests) calls in total, in every run. */
  lemma {:induction false} EpisodeBudget(cfg: Config, start: int, acts: seq<Action>)
    requires After(cfg, Fresh(cfg, start), acts).Some?
    ensures BudgetInv(cfg, After(cfg, Fresh(cfg, start), acts).value)
  {
    if acts != [] {
      var before := acts[..|acts| - 1];
      EpisodeBudget(cfg, start, before);
      BudgetStep(cfg, After(cfg, Fresh(cfg, start), before).value, acts[|acts| - 1]);
    }
  }

  // ----- when a breaker can recover

  /** Successes counted and outcomes still out are both paid for by the episode's admissions. */
  ghost predicate ProbeInv(cfg: Config, w: World) {
    && BudgetInv(cfg, w)
    && (w.b.state == HalfOpen ==> w.b.successes + w.tickets[w.episode] <= w.admitted)
  }

  lemma {:induction false} ProbeStep(cfg: Config, w: World, a: Action)
    requires ProbeInv(cfg, w) && Enabled(w, a) && Timely(w, a)
    ensures ProbeInv(cfg, Next(cfg, w, a))
  {
    BudgetStep(cfg, w, a);
  }

  lemma {:induction false} TimelyPrefix(cfg: Config, w: World, acts: seq<Action>)
    requires acts != [] && After(cfg, w, acts).Some? && AllTimely(cfg, w, acts)
    ensures var n := |acts| - 1;
      After(cfg, w, acts[..n]).Some? && AllTimely(cfg, w, acts[..n]) && Timely(After(cfg, w, acts[..n]).value, acts[n])
  {
    var n := |acts| - 1;
    forall i | 0 <= i < n && After(cfg, w, acts[..n][..i]).Some?
      ensures Timely(After(cfg, w, acts[..n][..i]).value, acts[..n][i])
    {
      assert acts[..n][..i] == acts[..i];
    }
  }

  /** Too high a threshold: from an open breaker no run of timely outcomes ever closes it. */
  lemma {:induction false} NeverCloses(cfg: Config, w: World, acts: seq<Action>)
    requires BudgetInv(cfg, w) && w.b.state == Open && cfg.successThreshold > Budget(cfg)
    requires After(cfg, w, acts).Some? && AllTimely(cfg, w, acts)
    ensures ProbeInv(cfg, After(cfg, w, acts).value) && After(cfg, w, acts).value.b.state != Closed
  {
    if acts != [] {
      var n := |acts| - 1;
      TimelyPrefix(cfg, w, acts);
      NeverCloses(cfg, w, acts[..n]);
      ProbeStep(cfg, After(cfg, w, acts[..n]).value, acts[n]);
    }
  }

  /** The reading an action decides with; the stamp comes later in the same call. */
  function ReadingOf(a: Action): int {
    if a.ForceClosed? then a.stamp else a.now
  }

  /** The instant a run has reached. */
  function Instant(from: int, acts: seq<Action>): int {
    if acts == [] then from else acts[|acts| - 1].stamp
  }

  /** Readings never go back, within an action or from one to the next. */
  predicate InTime(from: int, acts: seq<Action>) {
    forall i :: 0 <= i < |acts| ==> Instant(from, acts[..i]) <= ReadingOf(acts[i]) <= acts[i].stamp
  }

  lemma {:induction false} InTimeAppend(from: int, acts: seq<Action>, a: Action)
    requires InTime(from, acts) && Instant(from, acts) <= ReadingOf(a) <= a.stamp
    ensures InTime(from, acts + [a]) && Instant(from, acts + [a]) == a.stamp
  {
    var whole := acts + [a];
    forall i | 0 <= i < |whole| ensures Instant(from, whole[..i]) <= ReadingOf(whole[i]) <= whole[i].stamp {
      assert whole[..i] == acts[..i];
    }
    assert acts[..|acts|] == acts;
  }

  /** The breaker is probed as soon after `at` as it may be. */
  function Probe(b: Breaker, at: int): Action {
    var t := LaterOf(at, b.lastStateChange + b.currentOpenTimeout);
    Start(t, t)
  }

  /** A run of timely actions on a clock that never goes back. */
  ghost predicate TimelyRun(cfg: Config, w: World, acts: seq<Action>) {
    After(cfg, w, acts).Some? && AllTimely(cfg, w, acts) && InTime(w.b.lastStateChange, acts)
  }

  /** Some such run closes the breaker. */
  ghost predicate CanClose(cfg: Config, w: World) {
    exists acts :: TimelyRun(cfg, w, acts) && After(cfg, w, acts).value.b.state == Closed
  }

  lemma {:induction false} TimelyAppend(cfg: Config, w: World, acts: seq<Action>, a: Action)
    requires After(cfg, w, acts).Some? && AllTimely(cfg, w, acts)
    requires Enabled(After(cfg, w, acts).value, a) && Timely(After(cfg, w, acts).value, a)
    ensures After(cfg, w, acts + [a]) == Some(Next(cfg, After(cfg, w, acts).value, a))
    ensures AllTimely(cfg, w, acts + [a])
  {
    var whole := acts + [a];
    assert whole[..|acts|] == acts;
    forall i | 0 <= i < |whole| && After(cfg, w, whole[..i]).Some?
      ensures Timely(After(cfg, w, whole[..i]).value, whole[i])
    {
      if i < |acts| { assert whole[..i] == acts[..i]; }
    }
  }

  lemma {:induction false} ExtendRun(cfg: Config, w: World, acts: seq<Action>, a: Action)
    requires TimelyRun(cfg, w, acts) && Instant(w.b.lastStateChange, acts) <= ReadingOf(a) <= a.stamp
    requires Enabled(After(cfg, w, acts).value, a) && Timely(After(cfg, w, acts).value, a)
    ensures TimelyRun(cfg, w, acts + [a])
    ensures After(cfg, w, acts + [a]) == Some(Next(cfg, After(cfg, w, acts).value, a))
  {
    TimelyAppend(cfg, w, acts, a);
    InTimeAppend(w.b.lastStateChange, acts, a);
  }

  /** An open breaker is probed k times; all k calls are let through. */
  lemma {:induction false} ProbeTimes(cfg: Config, w: World, k: nat) returns (acts: seq<Action>)
    requires BudgetInv(cfg, w) && w.b.state == Open && 1 <= k <= Budget(cfg)
    ensures TimelyRun(cfg, w, acts)
    ensures var t := After(cfg, w, acts).value;
      t.b.state == HalfOpen && t.b.successes == 0 && t.tickets[t.episode] == k && t.b.halfOpenRequests == k
  {
    acts := [];
    if k > 1 { acts := ProbeTimes(cfg, w, k - 1); }
    var a := Probe(w.b, Instant(w.b.lastStateChange, acts));
    ExtendRun(cfg, w, acts, a);
    acts := acts + [a];
  }

  /** A probe of the present episode succeeds. */
  lemma {:induction false} ProbeSucceeds(cfg: Config, w: World, at: int)
    requires w.b.state == HalfOpen && w.tickets[w.episode] > 0
    ensures var a := Finish(w.episode, Succeeds, at, at);
      && Enabled(w, a) && Timely(w, a)
      && var t := Next(cfg, w, a);
         && t.episode == w.episode && t.tickets[t.episode] == w.tickets[w.episode] - 1
         && if w.b.successes + 1 >= cfg.successThreshold then t.b.state == Closed
            else t.b.state == HalfOpen && t.b.successes == w.b.successes + 1
  {
  }

  /** The probes succeed one after another until the threshold is met. */
  lemma {:induction false} SucceedUntilClosed(cfg: Config, w: World, acts: seq<Action>, left: nat)
    returns (whole: seq<Action>)
    requires TimelyRun(cfg, w, acts)
    requires var t := After(cfg, w, acts).value;
      t.b.state == HalfOpen && t.tickets[t.episode] == left > 0 && t.b.successes + left >= cfg.successThreshold
    ensures TimelyRun(cfg, w, whole) && After(cfg, w, whole).value.b.state == Closed
    decreases left
  {
    var t, at := After(cfg, w, acts).value, Instant(w.b.lastStateChange, acts);
    var a := Finish(t.episode, Succeeds, at, at);
    ProbeSucceeds(cfg, t, at);
    ExtendRun(cfg, w, acts, a);
    whole := acts + [a];
    if Next(cfg, t, a).b.state != Closed {
      whole := SucceedUntilClosed(cfg, w, whole, left - 1);
    }
  }

  /** Counting only outcomes of its own probes, an open breaker can close again iff this holds. */
  lemma {:induction false} RecoversIff(cfg: Config, w: World)
    requires BudgetInv(cfg, w) && w.b.state == Open
    ensures CanClose(cfg, w) <==> cfg.successThreshold <= Budget(cfg)
  {
    if cfg.successThreshold <= Budget(cfg) {
      var k := if cfg.successThreshold > 1 then cfg.successThreshold else 1;
      var acts := ProbeTimes(cfg, w, k);
      acts := SucceedUntilClosed(cfg, w, acts, k);
    } else if CanClose(cfg, w) {
      var acts :| TimelyRun(cfg, w, acts) && After(cfg, w, acts).value.b.state == Closed;
      NeverCloses(cfg, w, acts);
    }
  }

  // ----- recovery when late outcomes count too

  predicate NoReset(acts: seq<Action>) {
    forall i :: 0 <= i < |acts| ==> !acts[i].ForceClosed?
  }

  /** A run without Reset on a clock that never goes back. */
  ghost predicate Unaided(cfg: Config, w: World, from: int, acts: seq<Action>) {
    NoReset(acts) && InTime(from, acts) && After(cfg, w, acts).Some?
  }

  /** Some such run closes the breaker; outcomes may arrive in any later episode. */
  ghost predicate CanRecover(cfg: Config, w: World) {
    exists acts :: ClosingRun(cfg, w, acts)
  }

  ghost predicate ClosingRun(cfg: Config, w: World, acts: seq<Action>) {
    Unaided(cfg, w, w.b.lastStateChange, acts) && After(cfg, w, acts).value.b.state == Closed
  }

  /** With one probe per episode, successes and outcomes still out never exceed total, or total + 1 while half-open. */
  ghost predicate SparseInv(cfg: Config, w: World, total: nat) {
    && BudgetInv(cfg, w)
    && match w.b.state
       case Open => |w.tickets| <= total
       case HalfOpen => w.b.successes + |w.tickets| <= total + 1
       case Closed => false
  }

  lemma {:induction false} SparseStep(cfg: Config, w: World, a: Action, total: nat)
    requires SparseInv(cfg, w, total) && Enabled(w, a) && !a.ForceClosed?
    requires Budget(cfg) == 1 && cfg.successThreshold > total + 1
    ensures SparseInv(cfg, Next(cfg, w, a), total)
  {
    BudgetStep(cfg, w, a);
    if a.Finish? {
      assert |w.tickets - multiset{a.ticket}| == |w.tickets| - 1;
    }
  }

  lemma {:induction false} SparseRun(cfg: Config, w: World, acts: seq<Action>)
    requires BudgetInv(cfg, w) && w.b.state == Open && NoReset(acts) && After(cfg, w, acts).Some?
    requires Budget(cfg) == 1 && cfg.successThreshold > |w.tickets| + 1
    ensures SparseInv(cfg, After(cfg, w, acts).value, |w.tickets|)
  {
    if acts != [] {
      var n := |acts| - 1;
      SparseRun(cfg, w, acts[..n]);
      SparseStep(cfg, After(cfg, w, acts[..n]).value, acts[n], |w.tickets|);
    }
  }

  lemma {:induction false} Extend(cfg: Config, w: World, from: int, acts: seq<Action>, a: Action)
    requires Unaided(cfg, w, from, acts) && !a.ForceClosed? && Enabled(After(cfg, w, acts).value, a)
    requires Instant(from, acts) <= ReadingOf(a) <= a.stamp
    ensures Unaided(cfg, w, from, acts + [a]) && Instant(from, acts + [a]) == a.stamp
    ensures After(cfg, w, acts + [a]) == Some(Next(cfg, After(cfg, w, acts).value, a))
  {
    assert (acts + [a])[..|acts|] == acts;
    InTimeAppend(from, acts, a);
  }

  /** Outcomes still out, whatever episode they belong to, succeed one after another. */
  lemma {:induction false} SucceedAll(cfg: Config, w: World, acts: seq<Action>) returns (whole: seq<Action>)
    requires Unaided(cfg, w, w.b.lastStateChange, acts)
    requires var t := After(cfg, w, acts).value;
      t.b.state == HalfOpen && |t.tickets| > 0 && t.b.successes + |t.tickets| >= cfg.successThreshold
    ensures ClosingRun(cfg, w, whole)
    decreases |After(cfg, w, acts).value.tickets|
  {
    var t, at := After(cfg, w, acts).value, Instant(w.b.lastStateChange, acts);
    var ticket :| ticket in t.tickets;
    assert |t.tickets - multiset{ticket}| == |t.tickets| - 1;
    var a := Finish(ticket, Succeeds, at, at);
    Extend(cfg, w, w.b.lastStateChange, acts, a);
    whole := acts + [a];
    if After(cfg, w, whole).value.b.state != Closed {
      whole := SucceedAll(cfg, w, whole);
    }
  }

  lemma {:induction false} FirstProbe(cfg: Config, w: World, at: int)
    requires w.b.state == Open
    ensures var t := Next(cfg, w, Probe(w.b, at));
      t.b.state == HalfOpen && t.b.halfOpenRequests == 1 && t.tickets == w.tickets + multiset{t.episode}
  {
  }

  lemma {:induction false} AnotherProbe(cfg: Config, w: World, at: int)
    requires w.b.state == HalfOpen && w.b.halfOpenRequests < cfg.halfOpenMaxRequests
    ensures var t := Next(cfg, w, Start(at, at));
      t.b.state == HalfOpen && t.episode == w.episode && t.tickets == w.tickets + multiset{w.episode}
  {
  }

  lemma {:induction false} FailedProbe(cfg: Config, w: World, a: Action)
    requires w.b.state == HalfOpen && Enabled(w, a) && a.Finish? && a.outcome == Fails(CountedBucket(cfg))
    ensures var t := Next(cfg, w, a); t.b.state == Open && t.tickets == w.tickets - multiset{a.ticket}
  {
  }

  /** Two probes of which one fails: the breaker is open again, with one more outcome out. */
  lemma {:induction false} OneMoreOut(cfg: Config, w: World, acts: seq<Action>) returns (whole: seq<Action>)
    requires Unaided(cfg, w, w.b.lastStateChange, acts) && After(cfg, w, acts).value.b.state == Open && Budget(cfg) >= 2
    ensures Unaided(cfg, w, w.b.lastStateChange, whole)
    ensures var t := After(cfg, w, whole).value;
      t.b.state == Open && |t.tickets| == |After(cfg, w, acts).value.tickets| + 1
  {
    var from, t0 := w.b.lastStateChange, After(cfg, w, acts).value;
    var a1 := Probe(t0.b, Instant(from, acts));
    Extend(cfg, w, from, acts, a1);
    FirstProbe(cfg, t0, Instant(from, acts));
    var t1, at := Next(cfg, t0, a1), a1.stamp;
    var a2 := Start(at, at);
    Extend(cfg, w, from, acts + [a1], a2);
    AnotherProbe(cfg, t1, at);
    var t2 := Next(cfg, t1, a2);
    var a3 := Finish(t1.episode, Fails(CountedBucket(cfg)), at, at);
    Extend(cfg, w, from, acts + [a1] + [a2], a3);
    FailedProbe(cfg, t2, a3);
    whole := acts + [a1] + [a2] + [a3];
    assert t1.tickets + multiset{t1.episode} - multiset{t1.episode} == t1.tickets;
  }

  /** With two probes per episode any number of outcomes can be out at once. */
  lemma {:induction false} Hoard(cfg: Config, w: World, acts: seq<Action>, n: nat) returns (whole: seq<Action>)
    requires Unaided(cfg, w, w.b.lastStateChange, acts) && After(cfg, w, acts).value.b.state == Open && Budget(cfg) >= 2
    ensures Unaided(cfg, w, w.b.lastStateChange, whole)
    ensures After(cfg, w, whole).value.b.state == Open && |After(cfg, w, whole).value.tickets| >= n
    decreases n - |After(cfg, w, acts).value.tickets|
  {
    whole := acts;
    if |After(cfg, w, acts).value.tickets| < n {
      whole := OneMoreOut(cfg, w, acts);
      whole := Hoard(cfg, w, whole, n);
    }
  }

  /** One more probe, then everything that is out succeeds. */
  lemma {:induction false} ProbeAndClose(cfg: Config, w: World, acts: seq<Action>) returns (whole: seq<Action>)
    requires Unaided(cfg, w, w.b.lastStateChange, acts)
    requires var t := After(cfg, w, acts).value; t.b.state == Open && cfg.successThreshold <= |t.tickets| + 1
    ensures ClosingRun(cfg, w, whole)
  {
    var from, t := w.b.lastStateChange, After(cfg, w, acts).value;
    var a := Probe(t.b, Instant(from, acts));
    Extend(cfg, w, from, acts, a);
    whole := SucceedAll(cfg, w, acts + [a]);
  }

  /**
    Counting every outcome, the late ones of earlier calls included, an open breaker can close
    without Reset iff it admits two probes per episode or enough calls are still out.
   */
  lemma {:induction false} RecoversWithLateOutcomesIff(cfg: Config, w: World)
    requires BudgetInv(cfg, w) && w.b.state == Open
    ensures CanRecover(cfg, w) <==> Budget(cfg) >= 2 || cfg.successThreshold <= |w.tickets| + 1
  {
    if Budget(cfg) >= 2 {
      var acts := Hoard(cfg, w, [], cfg.successThreshold);
      acts := ProbeAndClose(cfg, w, acts);
    } else if cfg.successThreshold <= |w.tickets| + 1 {
      var acts := ProbeAndClose(cfg, w, []);
    } else if CanRecover(cfg, w) {
      var acts :| ClosingRun(cfg, w, acts);
      SparseRun(cfg, w, acts);
    }
  }

  /** The budget is spent and no call at all is out: the breaker is stuck half-open. */
  ghost predicate Wedged(cfg: Config, w: World) {
    w.b.state == HalfOpen && w.b.halfOpenRequests >= cfg.halfOpenMaxRequests && w.tickets == multiset{}
  }

  /** A wedged breaker rejects every call and never changes again, until somebody calls Reset. */
  lemma {:induction false} WedgedForever(cfg: Config, w: World, acts: seq<Action>)
    requires Wedged(cfg, w) && NoReset(acts) && After(cfg, w, acts).Some?
    ensures After(cfg, w, acts).value == w
    ensures forall now, stamp :: !Allowed(cfg, After(cfg, w, acts).value.b, now, stamp).1
  {
    if acts != [] {
      WedgedForever(cfg, w, acts[..|acts| - 1]);
    }
  }

  /**
    DefaultConfig: an open breaker can close without Reset iff some earlier call is still out.  When
    none is, the first successful probe, far from closing the circuit, wedges it.
   */
  lemma {:induction false} DefaultConfigWedges(w: World, now: int, stamp: int, now': int, stamp': int)
    requires BudgetInv(DEFAULT_CONFIG, w) && w.b.state == Open
    requires now - w.b.lastStateChange >= w.b.currentOpenTimeout
    ensures CanRecover(DEFAULT_CONFIG, w) <==> w.tickets != multiset{}
    ensures w.tickets == multiset{} ==>
      var probing := Next(DEFAULT_CONFIG, w, Start(now, stamp));
      && Enabled(probing, Finish(probing.episode, Succeeds, now', stamp'))
      && Wedged(DEFAULT_CONFIG, Next(DEFAULT_CONFIG, probing, Finish(probing.episode, Succeeds, now', stamp')))
  {
    RecoversWithLateOutcomesIff(DEFAULT_CONFIG, w);
  }

  // ----- how a new breaker gets wedged

  /** Every outcome reported is a failure with this bucket. */
  predicate OnlyFails(acts: seq<Action>, bucket: string) {
    forall i :: 0 <= i < |acts| && acts[i].Finish? ==> acts[i].outcome == Fails(bucket)
  }

  /** A call that fails while the breaker is closed. */
  lemma {:induction false} FailedCall(cfg: Config, w: World, from: int, acts: seq<Action>, bucket: string)
    returns (whole: seq<Action>)
    requires Unaided(cfg, w, from, acts) && OnlyFails(acts, bucket)
    requires var t := After(cfg, w, acts).value; t.b.state == Closed && t.tickets == multiset{}
    ensures Unaided(cfg, w, from, whole) && OnlyFails(whole, bucket) && Instant(from, whole) == Instant(from, acts)
    ensures |whole| == |acts| + 2
    ensures var t, t', at := After(cfg, w, acts).value, After(cfg, w, whole).value, Instant(from, acts);
      t' == t.(b := Failed(cfg, t.b, bucket, at, at))
  {
    var at, t := Instant(from, acts), After(cfg, w, acts).value;
    var a1, a2 := Start(at, at), Finish(0, Fails(bucket), at, at);
    Extend(cfg, w, from, acts, a1);
    assert Next(cfg, t, a1) == t.(tickets := multiset{0});
    Extend(cfg, w, from, acts + [a1], a2);
    whole := acts + [a1] + [a2];
    assert multiset{0} - multiset{0} == multiset{};
  }

  /** Fewer failing calls than the threshold leave a new breaker closed, and are counted. */
  lemma {:induction false} FailedCalls(cfg: Config, start: int, bucket: string, n: nat) returns (acts: seq<Action>)
    requires bucket != "" && Counts(cfg, bucket) && (n == 0 || n < cfg.failureThreshold)
    ensures Unaided(cfg, Fresh(cfg, start), start, acts) && OnlyFails(acts, bucket) && Instant(start, acts) == start
    ensures |acts| == 2 * n
    ensures var t := After(cfg, Fresh(cfg, start), acts).value;
      && t.b.state == Closed && t.b.failures == n && t.b.currentOpenTimeout == cfg.openTimeout
      && t.tickets == multiset{} && t.episode == 0
  {
    acts := [];
    if n > 0 {
      acts := FailedCalls(cfg, start, bucket, n - 1);
      acts := FailedCall(cfg, Fresh(cfg, start), start, acts, bucket);
    }
  }

  /** One failing call after another opens a new breaker, with no call left out. */
  lemma {:induction false} FailedOpen(cfg: Config, start: int, bucket: string) returns (acts: seq<Action>)
    requires bucket != "" && Counts(cfg, bucket)
    ensures Unaided(cfg, Fresh(cfg, start), start, acts) && OnlyFails(acts, bucket) && Instant(start, acts) == start
    ensures |acts| == if cfg.failureThreshold > 0 then 2 * cfg.failureThreshold else 2
    ensures var t := After(cfg, Fresh(cfg, start), acts).value;
      && t.b.state == Open && t.b.lastStateChange == start && t.b.currentOpenTimeout == cfg.openTimeout
      && t.tickets == multiset{} && t.episode == 0
  {
    acts := FailedCalls(cfg, start, bucket, if cfg.failureThreshold > 0 then cfg.failureThreshold - 1 else 0);
    acts := FailedCall(cfg, Fresh(cfg, start), start, acts, bucket);
  }

  /** The probe after that, and its success. */
  lemma {:induction false} SucceedingProbe(cfg: Config, w: World, from: int, acts: seq<Action>)
    returns (probe: Action, success: Action)
    requires Unaided(cfg, w, from, acts) && After(cfg, w, acts).value.b.state == Open
    ensures Unaided(cfg, w, from, acts + [probe] + [success])
    ensures probe.Start? && success.Finish? && success.outcome.Succeeds?
    ensures var t := After(cfg, w, acts).value;
      && Enabled(t, probe) && Enabled(Next(cfg, t, probe), success)
      && After(cfg, w, acts + [probe] + [success]) == Some(Next(cfg, Next(cfg, t, probe), success))
      && probe.now - t.b.lastStateChange >= t.b.currentOpenTimeout && success.ticket == t.episode + 1
  {
    var t := After(cfg, w, acts).value;
    probe := Probe(t.b, Instant(from, acts));
    Extend(cfg, w, from, acts, probe);
    success := Finish(t.episode + 1, Succeeds, probe.stamp, probe.stamp);
    Extend(cfg, w, from, acts + [probe], success);
  }

  /** Five calls in a row that time out and then one successful probe wedge a new breaker with DefaultConfig. */
  lemma {:induction false} FreshDefaultWedges(start: int)
    returns (fails: seq<Action>, probe: Action, success: Action)
    ensures |fails| == 10 && OnlyFails(fails, "timeout") && probe.Start? && success.Finish? && success.outcome.Succeeds?
    ensures Unaided(DEFAULT_CONFIG, Fresh(DEFAULT_CONFIG, start), start, fails + [probe] + [success])
    ensures var cfg, w := DEFAULT_CONFIG, Fresh(DEFAULT_CONFIG, start);
      && After(cfg, w, fails).Some? && After(cfg, w, fails).value.b.state == Open
      && After(cfg, w, fails).value.tickets == multiset{}
      && Wedged(cfg, After(cfg, w, fails + [probe] + [success]).value)
  {
    var cfg, w := DEFAULT_CONFIG, Fresh(DEFAULT_CONFIG, start);
    fails := FailedOpen(cfg, start, "timeout");
    EpisodeBudget(cfg, start, fails);
    probe, success := SucceedingProbe(cfg, w, start, fails);
    DefaultConfigWedges(After(cfg, w, fails).value, probe.now, probe.stamp, success.now, success.stamp);
  }

  /** Probes are admitted at one instant until the budget is spent. */
  lemma {:induction false} SpendBudget(cfg: Config, w: World, from: int, acts: seq<Action>) returns (whole: seq<Action>)
    requires Unaided(cfg, w, from, acts) && After(cfg, w, acts).value.b.state == HalfOpen
    ensures Unaided(cfg, w, from, whole)
    ensures var t := After(cfg, w, whole).value;
      t.b.state == HalfOpen && t.b.halfOpenRequests >= cfg.halfOpenMaxRequests
    decreases cfg.halfOpenMaxRequests - After(cfg, w, acts).value.b.halfOpenRequests
  {
    whole := acts;
    if After(cfg, w, acts).value.b.halfOpenRequests < cfg.halfOpenMaxRequests {
      var at := Instant(from, acts);
      Extend(cfg, w, from, acts, Start(at, at));
      whole := SpendBudget(cfg, w, from, acts + [Start(at, at)]);
    }
  }

  /** Outcomes that do not count change nothing but who is still out. */
  lemma {:induction false} IgnoredOutcomes(cfg: Config, w: World, from: int, acts: seq<Action>)
    returns (whole: seq<Action>)
    requires Unaided(cfg, w, from, acts)
    ensures Unaided(cfg, w, from, whole)
    ensures After(cfg, w, whole).value == After(cfg, w, acts).value.(tickets := multiset{})
    decreases |After(cfg, w, acts).value.tickets|
  {
    var t, at := After(cfg, w, acts).value, Instant(from, acts);
    whole := acts;
    if t.tickets != multiset{} {
      var ticket :| ticket in t.tickets;
      assert |t.tickets - multiset{ticket}| == |t.tickets| - 1;
      var a := Finish(ticket, Fails(""), at, at);
      Extend(cfg, w, from, acts, a);
      whole := IgnoredOutcomes(cfg, w, from, acts + [a]);
    }
  }

  /**
    No configuration is safe: probes that all end in errors that do not count leave their admissions
    spent, so every new breaker has a run without Reset that wedges it.
   */
  lemma {:induction false} EveryConfigCanWedge(cfg: Config, start: int) returns (acts: seq<Action>)
    ensures Unaided(cfg, Fresh(cfg, start), start, acts)
    ensures Wedged(cfg, After(cfg, Fresh(cfg, start), acts).value)
  {
    var w := Fresh(cfg, start);
    acts := FailedOpen(cfg, start, CountedBucket(cfg));
    var a := Probe(After(cfg, w, acts).value.b, Instant(start, acts));
    Extend(cfg, w, start, acts, a);
    acts := SpendBudget(cfg, w, start, acts + [a]);
    acts := IgnoredOutcomes(cfg, w, start, acts);
  }
}
