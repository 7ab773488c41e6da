/**
  The token bucket of the ratelimit package, over exact reals.  Instants are seconds, and every
  locked section (Allow, Tokens, one turn of Wait's loop, Close) is one operation.
 */
module TokenBucket {
  /** `inflow(t)` is what t seconds add to the bucket. */
  datatype Params = Params(capacity: real, rate: real, inflow: real -> real)

  function Limit(capacity: real, rate: real): Params {
    Params(capacity, rate, elapsed => elapsed * rate)
  }

  ghost predicate Splits(f: real -> real, t: real, u: real) {
    f(u - t) == f(u) - f(t)
  }

  ghost predicate Rises(f: real -> real, t: real) {
    (t >= 0.0 ==> f(t) >= 0.0) && (t > 0.0 ==> f(t) > 0.0)
  }

  /** What the theory below needs of the inflow; LimitIsSteady shows that a limiter's has it. */
  ghost predicate Steady(p: Params) {
    && p.capacity > 0.0 && p.rate > 0.0
    && (forall t, u :: Splits(p.inflow, t, u))
    && (forall t :: Rises(p.inflow, t))
  }

  lemma {:induction false} LimitIsSteady(capacity: real, rate: real)
    requires capacity > 0.0 && rate > 0.0
    ensures Steady(Limit(capacity, rate))
  {
    var f := Limit(capacity, rate).inflow;
    forall t, u ensures Splits(f, t, u) {
      Distribute(rate, t, u);
    }
    forall t ensures Rises(f, t) {
      if t > 0.0 { Product(rate, t); }
    }
  }

  lemma {:induction false} Product(rate: real, t: real)
    requires rate > 0.0 && t > 0.0
    ensures t * rate > 0.0
  {
  }

  lemma {:induction false} Distribute(rate: real, t: real, u: real)
    ensures (u - t) * rate == u * rate - t * rate
  {
  }

  datatype Bucket = Bucket(tokens: real, last: real, closed: bool)

  datatype Op = Allow(now: real) | WaitTurn(now: real) | Tokens(now: real) | Close

  datatype Outcome = Granted | Denied | Sleep(nanos: int) | Level(tokens: real) | ErrClosed | Done

  function New(p: Params, now: real): Bucket {
    Bucket(p.capacity, now, false)
  }

  function Refill(p: Params, b: Bucket, now: real): Bucket {
    var elapsed := now - b.last;
    if elapsed <= 0.0 then b
    else
      var tokens := b.tokens + p.inflow(elapsed);
      b.(tokens := if tokens > p.capacity then p.capacity else tokens, last := now)
  }

  function Nanos(x: real): int {
    if x >= 0.0 then x.Floor else -(-x).Floor
  }

  /** How long a turn of Wait sleeps when no token is there. */
  function SleepFor(p: Params, b: Bucket): int
    requires p.rate > 0.0
  {
    Nanos((1.0 - b.tokens) / p.rate * 1000000000.0)
  }

  function Step(p: Params, b: Bucket, op: Op): (Bucket, Outcome)
    requires p.rate > 0.0
  {
    match op
    case Allow(now) =>
      var r := Refill(p, b, now);
      if r.tokens >= 1.0 then (r.(tokens := r.tokens - 1.0), Granted) else (r, Denied)
    case WaitTurn(now) =>
      if b.closed then (b, ErrClosed)
      else
        var r := Refill(p, b, now);
        if r.tokens >= 1.0 then (r.(tokens := r.tokens - 1.0), Granted) else (r, Sleep(SleepFor(p, r)))
    case Tokens(now) => var r := Refill(p, b, now); (r, Level(r.tokens))
    case Close => (b.(closed := true), Done)
  }

  class Limiter {
    const capacity: real
    const rate: real
    var tokens: real
    var lastRefill: real
    var closed: bool

    ghost function View(): Bucket
      reads this
    {
      Bucket(tokens, lastRefill, closed)
    }

    constructor (capacity: real, rate: real, now: real)
      requires capacity > 0.0 && rate > 0.0
      ensures this.capacity == capacity && this.rate == rate && View() == New(Limit(capacity, rate), now)
    {
      this.capacity, this.rate := capacity, rate;
      tokens, lastRefill, closed := capacity, now, false;
    }

    method RefillNow(now: real)
      modifies this
      ensures View() == Refill(Limit(capacity, rate), old(View()), now)
    {
      var elapsed := now - lastRefill;
      if elapsed <= 0.0 { return; }
      tokens := tokens + elapsed * rate;
      if tokens > capacity {
        tokens := capacity;
      }
      lastRefill := now;
    }

    method Allow(now: real) returns (ok: bool)
      requires rate > 0.0
      modifies this
      ensures (View(), if ok then Granted else Denied) == Step(Limit(capacity, rate), old(View()), Op.Allow(now))
    {
      RefillNow(now);
      if tokens >= 1.0 {
        tokens := tokens - 1.0;
        return true;
      }
      return false;
    }

    method CurrentTokens(now: real) returns (level: real)
      requires rate > 0.0
      modifies this
      ensures (View(), Level(level)) == Step(Limit(capacity, rate), old(View()), Op.Tokens(now))
    {
      RefillNow(now);
      return tokens;
    }

    /** One turn of Wait's loop, under the lock. */
    method Turn(now: real) returns (o: Outcome)
      requires rate > 0.0
      modifies this
      ensures (View(), o) == Step(Limit(capacity, rate), old(View()), Op.WaitTurn(now))
    {
      if closed {
        return ErrClosed;
      }
      RefillNow(now);
      if tokens >= 1.0 {
        tokens := tokens - 1.0;
        return Granted;
      }
      return Sleep(SleepFor(Limit(capacity, rate), Bucket(tokens, lastRefill, closed)));
    }

    method Perform(op: Op) returns (o: Outcome)
      requires rate > 0.0
      modifies this
      ensures (View(), o) == Step(Limit(capacity, rate), old(View()), op)
    {
      match op
      case Allow(now) => var ok := Allow(now); return if ok then Granted else Denied;
      case WaitTurn(now) => o := Turn(now);
      case Tokens(now) => var level := CurrentTokens(now); return Level(level);
      case Close => CloseLimiter(); return Done;
    }

    /** What other callers do while this one does not hold the lock. */
    method Others(ops: seq<Op>)
      requires rate > 0.0
      modifies this
      ensures View() == Run(Limits(Limit(capacity, rate)), old(View()), ops)
    {
      for i := 0 to |ops|
        invariant View() == Run(Limits(Limit(capacity, rate)), old(View()), ops[..i])
      {
        RunNext(Limits(Limit(capacity, rate)), old(View()), ops, i);
        var _ := Perform(ops[i]);
      }
      assert ops[..|ops|] == ops;
    }

    /**
      Wait, given when each of its turns gets the lock and what other callers did since the turn before.
      A last outcome Sleep, or Done when there was no turn, means the context ended first.
     */
    method Wait(wakes: seq<Wake>) returns (r: Outcome, turns: nat)
      requires rate > 0.0
      modifies this
      ensures turns <= |wakes|
      ensures View() == Run(Limits(Limit(capacity, rate)), old(View()), Schedule(wakes[..turns]))
      ensures Slept(Limits(Limit(capacity, rate)), old(View()), wakes, turns - 1)
      ensures turns > 0 ==> r == TurnOutcome(Limits(Limit(capacity, rate)), old(View()), wakes, turns - 1)
      ensures turns == 0 ==> r == Done
      ensures r.Granted? || r.ErrClosed? || turns == |wakes|
    {
      ghost var step, start := Limits(Limit(capacity, rate)), View();
      turns, r := 0, Done;
      while turns < |wakes|
        invariant turns <= |wakes|
        invariant View() == Run(step, start, Schedule(wakes[..turns]))
        invariant r == if turns == 0 then Done else TurnOutcome(step, start, wakes, turns - 1)
        invariant Slept(step, start, wakes, turns)
      {
        ScheduleNext(step, start, wakes, turns);
        Others(wakes[turns].others);
        r := Turn(wakes[turns].now);
        turns := turns + 1;
        if !r.Sleep? {
          return;
        }
        SleptOnce(step, start, wakes, turns - 1);
      }
    }

    method CloseLimiter()
      modifies this
      ensures View() == old(View()).(closed := true)
    {
      closed := true;
    }
  }

  // ----- runs, of any step function

  type Stepper = (Bucket, Op) -> (Bucket, Outcome)

  /** The steps of a limiter with the given parameters. */
  function Limits(p: Params): Stepper
    requires p.rate > 0.0
  {
    (b, op) => Step(p, b, op)
  }

  function Run(step: Stepper, b: Bucket, ops: seq<Op>): Bucket {
    if ops == [] then b else step(Run(step, b, ops[..|ops| - 1]), ops[|ops| - 1]).0
  }

  lemma {:induction false} RunAppend(step: Stepper, b: Bucket, ops: seq<Op>, op: Op)
    ensures Run(step, b, ops + [op]) == step(Run(step, b, ops), op).0
  {
    assert (ops + [op])[..|ops|] == ops;
  }

  lemma {:induction false} RunNext(step: Stepper, b: Bucket, ops: seq<Op>, i: nat)
    requires i < |ops|
    ensures Run(step, b, ops[..i + 1]) == step(Run(step, b, ops[..i]), ops[i]).0
  {
    assert ops[..i + 1][..i] == ops[..i];
  }

  lemma {:induction false} RunConcat(step: Stepper, b: Bucket, x: seq<Op>, y: seq<Op>)
    ensures Run(step, b, x + y) == Run(step, Run(step, b, x), y)
  {
    if y == [] {
      assert x + y == x;
    } else {
      var n := |y| - 1;
      assert (x + y)[..|x| + n] == x + y[..n];
      RunConcat(step, b, x, y[..n]);
    }
  }

  /** A turn of Wait: what other callers did since the turn before, and when this one gets the lock. */
  datatype Wake = Wake(others: seq<Op>, now: real)

  /** The operations of a Wait and of everybody else meanwhile, in the order they got the lock. */
  function Schedule(wakes: seq<Wake>): seq<Op> {
    if wakes == [] then []
    else
      var w := wakes[|wakes| - 1];
      Schedule(wakes[..|wakes| - 1]) + w.others + [WaitTurn(w.now)]
  }

  /** What turn i of the Wait came to. */
  function TurnOutcome(step: Stepper, b: Bucket, wakes: seq<Wake>, i: nat): Outcome
    requires i < |wakes|
  {
    step(Run(step, b, Schedule(wakes[..i]) + wakes[i].others), WaitTurn(wakes[i].now)).1
  }

  /** The first n turns found no token. */
  ghost predicate Slept(step: Stepper, b: Bucket, wakes: seq<Wake>, n: int)
    requires n <= |wakes|
  {
    forall i :: 0 <= i < n ==> TurnOutcome(step, b, wakes, i).Sleep?
  }

  lemma {:induction false} SleptOnce(step: Stepper, b: Bucket, wakes: seq<Wake>, n: nat)
    requires n < |wakes| && Slept(step, b, wakes, n) && TurnOutcome(step, b, wakes, n).Sleep?
    ensures Slept(step, b, wakes, n + 1)
  {
  }

  lemma {:induction false} ScheduleNext(step: Stepper, b: Bucket, wakes: seq<Wake>, i: nat)
    requires i < |wakes|
    ensures var before := Run(step, Run(step, b, Schedule(wakes[..i])), wakes[i].others);
      && Run(step, b, Schedule(wakes[..i + 1])) == step(before, WaitTurn(wakes[i].now)).0
      && TurnOutcome(step, b, wakes, i) == step(before, WaitTurn(wakes[i].now)).1
  {
    var ops := Schedule(wakes[..i]) + wakes[i].others;
    assert wakes[..i + 1][..i] == wakes[..i];
    assert Schedule(wakes[..i + 1]) == ops + [WaitTurn(wakes[i].now)];
    RunConcat(step, b, Schedule(wakes[..i]), wakes[i].others);
    RunAppend(step, b, ops, WaitTurn(wakes[i].now));
  }

  function Grant(o: Outcome): real {
    if o.Granted? then 1.0 else 0.0
  }

  /** Each step keeps tokens in range and pays for what it grants out of the potential phi. */
  ghost predicate Pays(step: Stepper, capacity: real, phi: Bucket -> real) {
    forall b: Bucket, op: Op :: 0.0 <= b.tokens <= capacity ==>
      var (t, o) := step(b, op);
      && 0.0 <= t.tokens <= capacity
      && Grant(o) + phi(t) <= phi(b)
      && Grant(o) + t.tokens <= capacity
  }

  lemma {:induction false} RunInRange(step: Stepper, capacity: real, phi: Bucket -> real, b: Bucket, ops: seq<Op>)
    requires Pays(step, capacity, phi) && 0.0 <= b.tokens <= capacity
    ensures 0.0 <= Run(step, b, ops).tokens <= capacity
  {
    if ops != [] { RunInRange(step, capacity, phi, b, ops[..|ops| - 1]); }
  }

  /** How many of the operations lo .. hi-1 of a run were granted a token. */
  function Grants(step: Stepper, b: Bucket, ops: seq<Op>, lo: nat, hi: nat): real
    requires lo <= hi <= |ops|
  {
    if lo == hi then 0.0
    else Grants(step, b, ops, lo, hi - 1) + Grant(step(Run(step, b, ops[..hi - 1]), ops[hi - 1]).1)
  }

  lemma {:induction false} WindowPays(
      step: Stepper, capacity: real, phi: Bucket -> real, b: Bucket, ops: seq<Op>, i: nat, j: nat)
    requires Pays(step, capacity, phi) && 0.0 <= b.tokens <= capacity && i <= j < |ops|
    ensures var first, last := Run(step, b, ops[..i + 1]), Run(step, b, ops[..j + 1]);
      Grants(step, b, ops, i, j + 1) + phi(last) <= capacity - first.tokens + phi(first)
    decreases j
  {
    assert ops[..j + 1][..j] == ops[..j];
    RunInRange(step, capacity, phi, b, ops[..j]);
    if i < j {
      WindowPays(step, capacity, phi, b, ops, i, j - 1);
    } else {
      assert Grants(step, b, ops, i, i) == 0.0;
    }
  }

  // ----- the bound, for the limiter

  /** Tokens left, less everything that has flowed in. */
  function Potential(p: Params, b: Bucket): real {
    b.tokens - p.inflow(b.last)
  }

  lemma {:induction false} RefillFacts(p: Params, b: Bucket, now: real)
    requires Steady(p) && 0.0 <= b.tokens <= p.capacity
    ensures var r := Refill(p, b, now);
      0.0 <= r.tokens <= p.capacity && r.last >= b.last && Potential(p, r) <= Potential(p, b)
  {
    assert Rises(p.inflow, now - b.last) && Splits(p.inflow, b.last, now);
  }

  lemma {:induction false} LimiterPays(p: Params)
    requires Steady(p)
    ensures Pays(Limits(p), p.capacity, b => Potential(p, b))
  {
    forall b: Bucket, op: Op | 0.0 <= b.tokens <= p.capacity
      ensures var (t, o) := Limits(p)(b, op);
        && 0.0 <= t.tokens <= p.capacity
        && Grant(o) + Potential(p, t) <= Potential(p, b)
        && Grant(o) + t.tokens <= p.capacity
    {
      if !op.Close? { RefillFacts(p, b, op.now); }
    }
  }

  /** Tokens stay within [0, capacity] in every run, even when the clock steps back. */
  lemma {:induction false} TokensInRange(p: Params, start: real, ops: seq<Op>)
    requires Steady(p)
    ensures 0.0 <= Run(Limits(p), New(p, start), ops).tokens <= p.capacity
  {
    LimiterPays(p);
    RunInRange(Limits(p), p.capacity, b => Potential(p, b), New(p, start), ops);
  }

  /** The bucket's own time once operation i has run. */
  function TimeAt(p: Params, b: Bucket, ops: seq<Op>, i: nat): real
    requires p.rate > 0.0 && i < |ops|
  {
    Run(Limits(p), b, ops[..i + 1]).last
  }

  lemma {:induction false} SteadyWindow(p: Params, start: real, ops: seq<Op>, i: nat, j: nat)
    requires Steady(p) && i <= j < |ops|
    ensures var b := New(p, start);
      Grants(Limits(p), b, ops, i, j + 1) <= p.capacity + p.inflow(TimeAt(p, b, ops, j) - TimeAt(p, b, ops, i))
  {
    var b := New(p, start);
    var first, last := Run(Limits(p), b, ops[..i + 1]), Run(Limits(p), b, ops[..j + 1]);
    assert Grants(Limits(p), b, ops, i, j + 1) + Potential(p, last) <=
      p.capacity - first.tokens + Potential(p, first) by {
      LimiterPays(p);
      WindowPays(Limits(p), p.capacity, x => Potential(p, x), b, ops, i, j);
    }
    assert last.tokens >= 0.0 by { TokensInRange(p, start, ops[..j + 1]); }
    assert Splits(p.inflow, first.last, last.last);
  }

  /** The inflow is the elapsed time times the rate. */
  ghost predicate Linear(p: Params) {
    forall t :: p.inflow(t) == t * p.rate
  }

  lemma {:induction false} LimitIsLinear(capacity: real, rate: real)
    ensures Linear(Limit(capacity, rate))
  {
  }

  lemma {:induction false} LinearIsSteady(p: Params)
    requires p.capacity > 0.0 && p.rate > 0.0 && Linear(p)
    ensures Steady(p)
  {
    forall t, u ensures Splits(p.inflow, t, u) {
      Distribute(p.rate, t, u);
    }
    forall t ensures Rises(p.inflow, t) {
      if t > 0.0 { Product(p.rate, t); }
    }
  }

  /** In every run, the operations i .. j are granted at most capacity + rate * (bucket time between them). */
  lemma {:induction false} WindowBound(p: Params, start: real, ops: seq<Op>, i: nat, j: nat)
    requires p.capacity > 0.0 && p.rate > 0.0 && Linear(p) && i <= j < |ops|
    ensures var b := New(p, start);
      Grants(Limits(p), b, ops, i, j + 1) <= p.capacity + (TimeAt(p, b, ops, j) - TimeAt(p, b, ops, i)) * p.rate
  {
    var b := New(p, start);
    var t := TimeAt(p, b, ops, j) - TimeAt(p, b, ops, i);
    LinearIsSteady(p);
    SteadyWindow(p, start, ops, i, j);
    assert p.inflow(t) == t * p.rate;
  }

  // ----- operations that take nothing can be left out

  function Outcomes(p: Params, b: Bucket, ops: seq<Op>): (r: seq<Outcome>)
    requires p.rate > 0.0
    ensures |r| == |ops|
    decreases |ops|
  {
    if ops == [] then [] else var (t, o) := Step(p, b, ops[0]); [o] + Outcomes(p, t, ops[1..])
  }

  function Keep<T>(mask: seq<bool>, xs: seq<T>): seq<T>
    requires |mask| == |xs|
  {
    if xs == [] then [] else (if mask[0] then [xs[0]] else []) + Keep(mask[1..], xs[1..])
  }

  /** Readings from `from` on, never going back. */
  ghost predicate Forward(from: real, ops: seq<Op>)
    decreases |ops|
  {
    ops == []
    || (if ops[0].Close? then Forward(from, ops[1..]) else from <= ops[0].now && Forward(ops[0].now, ops[1..]))
  }

  /** Everything left out was a Tokens call or found no token. */
  ghost predicate OnlyIdleDropped(mask: seq<bool>, ops: seq<Op>, outcomes: seq<Outcome>) {
    && |mask| == |ops| == |outcomes|
    && forall i :: 0 <= i < |ops| && !mask[i] ==> ops[i].Tokens? || outcomes[i].Denied? || outcomes[i].Sleep?
  }

  /** c is b before some refills that b has already had. */
  ghost predicate Behind(p: Params, c: Bucket, b: Bucket) {
    c.last <= b.last && Refill(p, c, b.last) == b
  }

  /** Refilling twice is refilling once. */
  lemma {:induction false} RefillTwice(p: Params, c: Bucket, t: real, u: real)
    requires Steady(p) && 0.0 <= c.tokens <= p.capacity && c.last <= t <= u
    ensures Refill(p, Refill(p, c, t), u) == Refill(p, c, u)
  {
    assert Rises(p.inflow, t - c.last) && Rises(p.inflow, u - t);
    assert Splits(p.inflow, t - c.last, u - c.last) && (u - c.last) - (t - c.last) == u - t;
  }

  lemma {:induction false} IdleOperationsDoNotMatter(
      p: Params, b: Bucket, c: Bucket, ops: seq<Op>, mask: seq<bool>, from: real)
    requires Steady(p) && 0.0 <= b.tokens <= p.capacity && 0.0 <= c.tokens <= p.capacity
    requires Behind(p, c, b) && b.last <= from && Forward(from, ops)
    requires OnlyIdleDropped(mask, ops, Outcomes(p, b, ops))
    ensures Outcomes(p, c, Keep(mask, ops)) == Keep(mask, Outcomes(p, b, ops))
    decreases |ops|
  {
    if ops != [] {
      var op, rest := ops[0], ops[1..];
      var (b', o) := Step(p, b, op);
      var (c', o') := Step(p, c, op);
      if !op.Close? {
        RefillFacts(p, b, op.now);
        RefillFacts(p, c, op.now);
        RefillTwice(p, c, b.last, op.now);
      }
      var next := if mask[0] then c' else c;
      assert Behind(p, next, b');
      assert mask[0] ==> o == o';
      assert Outcomes(p, b, ops)[0] == o && Outcomes(p, b, ops)[1..] == Outcomes(p, b', rest);
      forall i | 0 <= i < |rest| && !mask[1..][i]
        ensures rest[i].Tokens? || Outcomes(p, b', rest)[i].Denied? || Outcomes(p, b', rest)[i].Sleep?
      {
        assert rest[i] == ops[i + 1] && mask[1..][i] == mask[i + 1];
        assert Outcomes(p, b', rest)[i] == Outcomes(p, b, ops)[i + 1];
      }
      IdleOperationsDoNotMatter(p, b', next, rest, mask[1..], if op.Close? then from else op.now);
      if mask[0] {
        assert Keep(mask, ops) == [op] + Keep(mask[1..], rest);
        assert Keep(mask, ops)[1..] == Keep(mask[1..], rest);
      } else {
        assert Keep(mask, ops) == Keep(mask[1..], rest);
        assert Keep(mask, Outcomes(p, b, ops)) == Keep(mask[1..], Outcomes(p, b, ops)[1..]);
      }
    }
  }

  /** On a clock that does not go back, leaving such calls out changes no other answer of a limiter. */
  lemma {:induction false} DroppingIdleCalls(capacity: real, rate: real, start: real, ops: seq<Op>, mask: seq<bool>)
    requires capacity > 0.0 && rate > 0.0 && Forward(start, ops)
    requires OnlyIdleDropped(mask, ops, Outcomes(Limit(capacity, rate), New(Limit(capacity, rate), start), ops))
    ensures var p := Limit(capacity, rate);
      Outcomes(p, New(p, start), Keep(mask, ops)) == Keep(mask, Outcomes(p, New(p, start), ops))
  {
    var p := Limit(capacity, rate);
    LimitIsSteady(capacity, rate);
    IdleOperationsDoNotMatter(p, New(p, start), New(p, start), ops, mask, start);
  }

  // ----- how long Wait sleeps

  lemma {:induction false} TokensAfter(p: Params, b: Bucket, elapsed: real, exact: real)
    requires Steady(p) && p.capacity >= 1.0 && 0.0 <= b.tokens < 1.0
    requires p.inflow(exact) == 1.0 - b.tokens
    ensures Refill(p, b, b.last + elapsed).tokens >= 1.0 <==> elapsed >= exact
  {
    assert (b.last + elapsed) - b.last == elapsed;
    assert Splits(p.inflow, exact, elapsed) && Splits(p.inflow, elapsed, exact) && Splits(p.inflow, exact, exact);
    assert Rises(p.inflow, exact - elapsed) && Rises(p.inflow, elapsed - exact) && Rises(p.inflow, -exact);
    assert Splits(p.inflow, exact, 0.0) && Splits(p.inflow, elapsed, 0.0) && Rises(p.inflow, -elapsed)
      && 0.0 - exact == -exact;
  }

  lemma {:induction false} Quotient(deficit: real, rate: real)
    requires deficit > 0.0 && rate > 0.0
    ensures deficit / rate * rate == deficit && deficit / rate >= 0.0
  {
  }

  /** Wait's sleep ends less than a nanosecond before a token is there, and never after. */
  lemma {:induction false} SleepIsTight(capacity: real, rate: real, b: Bucket, nanos: real)
    requires capacity >= 1.0 && rate > 0.0 && 0.0 <= b.tokens < 1.0
    ensures var p := Limit(capacity, rate);
      && (nanos < SleepFor(p, b) as real ==> Refill(p, b, b.last + nanos / 1000000000.0).tokens < 1.0)
      && (nanos >= SleepFor(p, b) as real + 1.0 ==> Refill(p, b, b.last + nanos / 1000000000.0).tokens >= 1.0)
  {
    var exact := (1.0 - b.tokens) / rate;
    Quotient(1.0 - b.tokens, rate);
    LimitIsSteady(capacity, rate);
    TokensAfter(Limit(capacity, rate), b, nanos / 1000000000.0, exact);
    assert SleepFor(Limit(capacity, rate), b) == Nanos(exact * 1000000000.0);
  }

  /** New accepts a capacity below one, but such a limiter never grants anything. */
  lemma {:induction false} TooSmallNeverGrants(p: Params, start: real, ops: seq<Op>, op: Op)
    requires Steady(p) && p.capacity < 1.0
    ensures !Step(p, Run(Limits(p), New(p, start), ops), op).1.Granted?
  {
    TokensInRange(p, start, ops);
    if !op.Close? { RefillFacts(p, Run(Limits(p), New(p, start), ops), op.now); }
  }

  ghost predicate GrantsAfter(p: Params, start: real, ops: seq<Op>, op: Op)
    requires p.rate > 0.0
  {
    Step(p, Run(Limits(p), New(p, start), ops), op).1.Granted?
  }

  /** And that is the only case: a limiter can grant something iff its capacity is at least one. */
  lemma {:induction false} GrantsIff(capacity: real, rate: real, start: real)
    requires capacity > 0.0 && rate > 0.0
    ensures (exists ops, op :: GrantsAfter(Limit(capacity, rate), start, ops, op)) <==> capacity >= 1.0
  {
    var p := Limit(capacity, rate);
    LimitIsSteady(capacity, rate);
    if capacity >= 1.0 {
      assert GrantsAfter(p, start, [], Allow(start));
    } else {
      forall ops, op ensures !GrantsAfter(p, start, ops, op) {
        TooSmallNeverGrants(p, start, ops, op);
      }
    }
  }

  // ----- what is granted, exactly

  /** A token is taken exactly when the level shown at that instant is at least one; only Wait minds being closed. */
  lemma {:induction false} LevelDecides(p: Params, b: Bucket, now: real)
    requires p.rate > 0.0
    ensures Step(p, b, Tokens(now)).1.Level?
    ensures var level, (t, o) := Step(p, b, Tokens(now)).1.tokens, Step(p, b, Allow(now));
      if level >= 1.0 then o == Granted && t.tokens == level - 1.0 else o == Denied && t.tokens == level
    ensures var level, (t, o) := Step(p, b, Tokens(now)).1.tokens, Step(p, b, WaitTurn(now));
      if b.closed then o == ErrClosed && t == b
      else if level >= 1.0 then o == Granted && t.tokens == level - 1.0
      else o.Sleep? && t.tokens == level
  {
  }

  /** n Allow calls at one instant. */
  function Burst(n: nat, now: real): seq<Op> {
    seq(n, _ => Allow(now))
  }

  /** What a burst of n leaves of a level. */
  function LeftOf(level: real, n: nat): real {
    if n as real <= level then level - n as real else level - level.Floor as real
  }

  lemma {:induction false} LeftNext(level: real, n: nat)
    requires level >= 0.0
    ensures LeftOf(level, n) >= 1.0 <==> (n + 1) as real <= level
    ensures LeftOf(level, n + 1) == if LeftOf(level, n) >= 1.0 then LeftOf(level, n) - 1.0 else LeftOf(level, n)
  {
    var f := level.Floor;
    assert f as real <= level < f as real + 1.0;
    if n as real <= level && !((n + 1) as real <= level) { assert n == f; }
  }

  lemma {:induction false} AfterBurst(p: Params, b: Bucket, now: real, n: nat)
    requires p.rate > 0.0 && Refill(p, b, now).tokens >= 0.0
    ensures Refill(p, Run(Limits(p), b, Burst(n, now)), now).tokens == LeftOf(Refill(p, b, now).tokens, n)
  {
    var level := Refill(p, b, now).tokens;
    if n == 0 {
      assert Burst(0, now) == [];
    } else {
      AfterBurst(p, b, now, n - 1);
      assert Burst(n, now) == Burst(n - 1, now) + [Allow(now)];
      RunAppend(Limits(p), b, Burst(n - 1, now), Allow(now));
      LeftNext(level, n - 1);
    }
  }

  /** Of the Allow calls made at one instant exactly the first floor(level) are granted, on any bucket. */
  lemma {:induction false} BurstIsExact(p: Params, b: Bucket, now: real, i: nat)
    requires p.rate > 0.0 && Refill(p, b, now).tokens >= 0.0
    ensures Step(p, Run(Limits(p), b, Burst(i, now)), Allow(now)).1.Granted? <==>
            (i + 1) as real <= Step(p, b, Tokens(now)).1.tokens
  {
    AfterBurst(p, b, now, i);
    LeftNext(Refill(p, b, now).tokens, i);
  }

  /** On a new limiter: n calls at once are all granted iff n is at most the capacity. */
  lemma {:induction false} NewLimiterBurst(capacity: real, rate: real, start: real, n: nat)
    requires capacity > 0.0 && rate > 0.0
    ensures var p := Limit(capacity, rate);
      (forall i :: 0 <= i < n ==> AllowGranted(p, New(p, start), start, i)) <==> n == 0 || n as real <= capacity
  {
    var p := Limit(capacity, rate);
    var b := New(p, start);
    assert Refill(p, b, start) == b;
    forall i | 0 <= i < n ensures AllowGranted(p, b, start, i) <==> (i + 1) as real <= capacity {
      BurstIsExact(p, b, start, i);
    }
    if n > 0 { assert AllowGranted(p, b, start, n - 1) <==> n as real <= capacity; }
  }

  /** The i-th of the Allow calls made at one instant is granted. */
  predicate AllowGranted(p: Params, b: Bucket, now: real, i: nat)
    requires p.rate > 0.0
  {
    Step(p, Run(Limits(p), b, Burst(i, now)), Allow(now)).1.Granted?
  }

  /** The bucket after Allow calls at these instants. */
  function AfterAllows(p: Params, b: Bucket, times: seq<real>): Bucket
    requires p.rate > 0.0
  {
    if times == [] then b
    else Step(p, AfterAllows(p, b, times[..|times| - 1]), Allow(times[|times| - 1])).0
  }

  function AllowsAt(times: seq<real>): seq<Op> {
    seq(|times|, i requires 0 <= i < |times| => Allow(times[i]))
  }

  lemma {:induction false} AfterAllowsIsARun(p: Params, b: Bucket, times: seq<real>)
    requires p.rate > 0.0
    ensures AfterAllows(p, b, times) == Run(Limits(p), b, AllowsAt(times))
  {
    if times == [] {
      assert AllowsAt(times) == [];
    } else {
      var n := |times| - 1;
      AfterAllowsIsARun(p, b, times[..n]);
      assert AllowsAt(times) == AllowsAt(times[..n]) + [Allow(times[n])];
      RunAppend(Limits(p), b, AllowsAt(times[..n]), Allow(times[n]));
    }
  }

  /** The wait before call i is worth a token. */
  predicate WorthAToken(p: Params, times: seq<real>, i: nat)
    requires 0 < i < |times|
  {
    (times[i] - times[i - 1]) * p.rate >= 1.0
  }

  lemma {:induction false} WorthATokenIsLater(p: Params, t: real)
    requires Steady(p) && p.inflow(t) >= 1.0
    ensures t > 0.0
  {
    assert Splits(p.inflow, t, t) && Splits(p.inflow, t, 0.0) && t - t == 0.0 && 0.0 - t == -t;
    assert Rises(p.inflow, -t);
  }

  /** A call was granted, at its own instant. */
  ghost predicate Served(p: Params, r: (Bucket, Outcome), now: real) {
    r.1.Granted? && r.0.last == now && 0.0 <= r.0.tokens <= p.capacity
  }

  lemma {:induction false} RefilledByOne(p: Params, b: Bucket, now: real)
    requires Steady(p) && p.capacity >= 1.0 && 0.0 <= b.tokens <= p.capacity && p.inflow(now - b.last) >= 1.0
    ensures Served(p, Step(p, b, Allow(now)), now)
  {
    WorthATokenIsLater(p, now - b.last);
  }

  lemma {:induction false} FirstCall(p: Params, start: real, now: real)
    requires Steady(p) && p.capacity >= 1.0 && now >= start
    ensures Served(p, Step(p, New(p, start), Allow(now)), now)
  {
    assert Rises(p.inflow, now - start);
  }

  /** A caller of a new limiter who keeps to the rate is never denied. */
  lemma {:induction false} PacedCallsAreGranted(p: Params, start: real, times: seq<real>)
    requires p.capacity >= 1.0 && p.rate > 0.0 && Linear(p) && times != [] && times[0] >= start
    requires forall i :: 0 < i < |times| ==> WorthAToken(p, times, i)
    ensures var n := |times| - 1;
      Served(p, Step(p, AfterAllows(p, New(p, start), times[..n]), Allow(times[n])), times[n])
  {
    var n := |times| - 1;
    assert Steady(p) by { LinearIsSteady(p); }
    if n == 0 {
      FirstCall(p, start, times[0]);
    } else {
      var before := times[..n];
      forall i | 0 < i < |before| ensures WorthAToken(p, before, i) {
        assert WorthAToken(p, times, i);
      }
      PacedCallsAreGranted(p, start, before);
      assert before[..n - 1] == times[..n - 1];
      var b := AfterAllows(p, New(p, start), before);
      assert WorthAToken(p, times, n) && p.inflow(times[n] - b.last) == (times[n] - b.last) * p.rate;
      RefilledByOne(p, b, times[n]);
    }
  }
}
