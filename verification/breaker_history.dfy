/**
  The circuit breaker by its history alone: when it changes state and what Allow answers, said in
  terms of the events since the last change of state and not of the counters it keeps.
 */
module BreakerHistory {
  import opened CircuitBreaker

  /** The breaker after a run from new. */
  function At(cfg: Config, start: int, es: seq<Event>): Breaker {
    Run(cfg, New(cfg, start), es)
  }

  /** How many events had happened when the present state was entered. */
  function Since(cfg: Config, start: int, es: seq<Event>): (k: nat)
    ensures k <= |es|
  {
    if es == [] then 0
    else
      var before := es[..|es| - 1];
      if At(cfg, start, es).state != At(cfg, start, before).state then |es| else Since(cfg, start, before)
  }

  /** When that was. */
  function EnteredAt(cfg: Config, start: int, es: seq<Event>): int {
    var k := Since(cfg, start, es);
    if k == 0 then start else es[k - 1].stamp
  }

  function Allows(es: seq<Event>): nat {
    if es == [] then 0 else Allows(es[..|es| - 1]) + if es[|es| - 1].Allow? then 1 else 0
  }

  function Successes(es: seq<Event>): nat {
    if es == [] then 0 else Successes(es[..|es| - 1]) + if es[|es| - 1].Success? then 1 else 0
  }

  /** The reading of the last failure that counted; zero when there was none. */
  function LastFailure(cfg: Config, es: seq<Event>): int {
    if es == [] then 0
    else if IsCountedFailure(cfg, es[|es| - 1]) then es[|es| - 1].now
    else LastFailure(cfg, es[..|es| - 1])
  }

  function Smaller(x: int, y: int): int {
    if x < y then x else y
  }

  // ----- the counters are the history

  /** What the counters say, given the events since the present state was entered. */
  ghost predicate Tallied(cfg: Config, b: Breaker, entered: int, tail: seq<Event>) {
    && b.lastStateChange == entered
    && (b.state == Closed ==> b.failures == Streak(cfg, tail))
    && (b.state == HalfOpen ==>
          && b.successes == Successes(tail)
          && b.halfOpenRequests ==
             Smaller(1 + Allows(tail), if cfg.halfOpenMaxRequests > 1 then cfg.halfOpenMaxRequests else 1))
  }

  lemma {:induction false} TalliesAppend(cfg: Config, tail: seq<Event>, e: Event)
    ensures Allows(tail + [e]) == Allows(tail) + if e.Allow? then 1 else 0
    ensures Successes(tail + [e]) == Successes(tail) + if e.Success? then 1 else 0
    ensures Streak(cfg, tail + [e]) ==
            if e.Success? then 0 else Streak(cfg, tail) + if IsCountedFailure(cfg, e) then 1 else 0
  {
    assert (tail + [e])[..|tail|] == tail;
  }

  lemma {:induction false} TallyStep(cfg: Config, b: Breaker, entered: int, tail: seq<Event>, e: Event)
    requires Tallied(cfg, b, entered, tail)
    ensures var t := Step(cfg, b, e);
      if t.state == b.state then Tallied(cfg, t, entered, tail + [e]) else Tallied(cfg, t, e.stamp, [])
  {
    TalliesAppend(cfg, tail, e);
  }

  lemma {:induction false} TailNext(cfg: Config, start: int, es: seq<Event>)
    requires es != []
    ensures var n := |es| - 1;
      var before, k := es[..n], Since(cfg, start, es);
      if At(cfg, start, es).state == At(cfg, start, before).state
      then es[k..] == before[Since(cfg, start, before)..] + [es[n]]
           && EnteredAt(cfg, start, es) == EnteredAt(cfg, start, before)
      else es[k..] == [] && EnteredAt(cfg, start, es) == es[n].stamp
  {
  }

  lemma {:induction false} Tally(cfg: Config, start: int, es: seq<Event>)
    ensures Tallied(cfg, At(cfg, start, es), EnteredAt(cfg, start, es), es[Since(cfg, start, es)..])
  {
    if es != [] {
      var n := |es| - 1;
      var before := es[..n];
      Tally(cfg, start, before);
      TailNext(cfg, start, es);
      TallyStep(cfg, At(cfg, start, before), EnteredAt(cfg, start, before), before[Since(cfg, start, before)..], es[n]);
    }
  }

  // ----- when the state changes

  /** An open breaker lets a probe through at this instant. */
  ghost predicate Ripe(cfg: Config, start: int, es: seq<Event>, now: int) {
    now - EnteredAt(cfg, start, es) >= Backoff(cfg, FailedProbes(cfg, start, es))
  }

  /**
    Closed: opens exactly on the counted failure that brings those since it was closed or last succeeded to
    the threshold.  Open: goes half-open exactly on an Allow that comes late enough, closes on Reset.
    Half-open: opens exactly on a counted failure, closes on Reset or on the success that brings those since
    it went half-open to the threshold.  Nothing else changes the state.
   */
  lemma {:induction false} ChangesExactly(cfg: Config, start: int, es: seq<Event>, e: Event)
    ensures var b, tail := At(cfg, start, es), es[Since(cfg, start, es)..];
      var next := Step(cfg, b, e).state;
      match b.state
      case Closed =>
        next == if IsCountedFailure(cfg, e) && Streak(cfg, tail) + 1 >= cfg.failureThreshold then Open else Closed
      case Open =>
        next == if e.Allow? && Ripe(cfg, start, es, e.now) then HalfOpen else if e.Reset? then Closed else Open
      case HalfOpen =>
        next == if IsCountedFailure(cfg, e) then Open
              else if e.Reset? || (e.Success? && Successes(tail) + 1 >= cfg.successThreshold) then Closed
              else HalfOpen
  {
    Tally(cfg, start, es);
    BackoffInEveryRun(cfg, start, es);
  }

  /**
    Allow admits exactly: any call while closed, a late enough one while open, and as many in all as
    HalfOpenMaxRequests, the first probe included, while half-open.
   */
  lemma {:induction false} AdmitsExactly(cfg: Config, start: int, es: seq<Event>, now: int, stamp: int)
    ensures Allowed(cfg, At(cfg, start, es), now, stamp).1 <==>
            match At(cfg, start, es).state
            case Closed => true
            case Open => Ripe(cfg, start, es, now)
            case HalfOpen => 1 + Allows(es[Since(cfg, start, es)..]) < cfg.halfOpenMaxRequests
  {
    Tally(cfg, start, es);
    BackoffInEveryRun(cfg, start, es);
  }

  /** Stats: the last failure that counted. */
  lemma {:induction false} RemembersLastFailure(cfg: Config, start: int, es: seq<Event>)
    ensures At(cfg, start, es).lastFailure == LastFailure(cfg, es)
  {
    if es != [] { RemembersLastFailure(cfg, start, es[..|es| - 1]); }
  }

  // ----- closing ends the backoff

  /** However long the backoff had grown, a breaker that closed and opened again is probed after the base timeout. */
  lemma {:induction false} ClosingRestoresTheBase(
      cfg: Config, start: int, es: seq<Event>, more: seq<Event>, now: int, stamp: int)
    requires At(cfg, start, es).state == Closed && At(cfg, start, es + more).state == Open
    requires forall i :: 0 <= i <= |more| ==> At(cfg, start, es + more[..i]).state != HalfOpen
    ensures Allowed(cfg, At(cfg, start, es + more), now, stamp).1 <==>
            now - EnteredAt(cfg, start, es + more) >= cfg.openTimeout
  {
    NoProbeFailed(cfg, start, es, more);
    AdmitsExactly(cfg, start, es + more, now, stamp);
  }

  lemma {:induction false} NoProbeFailed(cfg: Config, start: int, es: seq<Event>, more: seq<Event>)
    requires At(cfg, start, es).state == Closed
    requires forall i :: 0 <= i <= |more| ==> At(cfg, start, es + more[..i]).state != HalfOpen
    ensures FailedProbes(cfg, start, es + more) == 0
  {
    if more == [] {
      assert es + more == es;
    } else {
      var n := |more| - 1;
      assert (es + more)[..|es| + n] == es + more[..n];
      assert forall i :: 0 <= i <= n ==> more[..n][..i] == more[..i];
      NoProbeFailed(cfg, start, es, more[..n]);
      assert At(cfg, start, es + more[..n]).state != HalfOpen;
    }
  }

  // ----- the defaults

  function Doubled(n: nat): nat {
    if n == 0 then 1 else 2 * Doubled(n - 1)
  }

  lemma {:induction false} DefaultGrowth(t: nat)
    ensures Cap(DEFAULT_CONFIG, Grow(DEFAULT_CONFIG, t)) == Smaller(2 * t, 3_600_000_000_000)
  {
    assert t as real * 2.0 == (2 * t) as real;
  }

  /** With the defaults an open spell lasts half a minute, doubled by every failed probe in a row, an hour at most. */
  lemma {:induction false} DefaultBackoff(n: nat)
    ensures Backoff(DEFAULT_CONFIG, n) == if n < 7 then 30_000_000_000 * Doubled(n) else 3_600_000_000_000
  {
    if n > 0 {
      DefaultBackoff(n - 1);
      assert Doubled(6) == 64;
      if n < 7 { DoubledGrows(n, 6); }
      DefaultGrowth(Backoff(DEFAULT_CONFIG, n - 1));
    }
  }

  lemma {:induction false} DoubledGrows(m: nat, n: nat)
    requires m <= n
    ensures Doubled(m) <= Doubled(n)
  {
    if m < n { DoubledGrows(m, n - 1); }
  }

  // ----- the breaker among its callers

  /** What the breaker sees of a caller's action. */
  function Seen(a: Action): Event {
    match a
    case Start(now, stamp) => Allow(now, stamp)
    case Finish(_, outcome, now, stamp) =>
      if outcome.Succeeds? then Success(stamp) else Failure(outcome.bucket, now, stamp)
    case ForceClosed(stamp) => Reset(stamp)
  }

  function SeenAll(acts: seq<Action>): (r: seq<Event>)
    ensures |r| == |acts| && forall i :: 0 <= i < |acts| ==> r[i] == Seen(acts[i])
  {
    seq(|acts|, i requires 0 <= i < |acts| => Seen(acts[i]))
  }

  lemma {:induction false} SeenStep(cfg: Config, w: World, a: Action)
    requires Enabled(w, a)
    ensures Next(cfg, w, a).b == Step(cfg, w.b, Seen(a))
  {
  }

  lemma {:induction false} RunNext(cfg: Config, b: Breaker, es: seq<Event>, e: Event)
    ensures Run(cfg, b, es + [e]) == Step(cfg, Run(cfg, b, es), e)
  {
    assert (es + [e])[..|es|] == es;
  }

  /** So every law about runs of the breaker holds among callers too. */
  lemma {:induction false} CallersDriveTheBreaker(cfg: Config, start: int, acts: seq<Action>)
    requires After(cfg, Fresh(cfg, start), acts).Some?
    ensures After(cfg, Fresh(cfg, start), acts).value.b == At(cfg, start, SeenAll(acts))
  {
    if acts != [] {
      var before, a := acts[..|acts| - 1], acts[|acts| - 1];
      CallersDriveTheBreaker(cfg, start, before);
      SeenStep(cfg, After(cfg, Fresh(cfg, start), before).value, a);
      RunNext(cfg, New(cfg, start), SeenAll(before), Seen(a));
      assert SeenAll(acts) == SeenAll(before) + [Seen(a)];
    }
  }
}
