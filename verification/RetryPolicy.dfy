/**
 Retry and backoff (`retry_policy.py`): the delay schedule of a policy, and the two retry loops
 run against any script of outcomes.  Delays are reals, so the schedule has no rounding; but a power that
 floats cannot hold raises, and so does a sleep for a negative time, each out of the handler it is in.
 */
module RetryPolicies {
  import opened Wrappers

  /** A policy, and with it the `range` of the arithmetic: the largest power that does not raise. */
  datatype RetryPolicy = RetryPolicy(
    maxAttempts: Option<int>,
    baseDelay: real,
    maxDelay: real,
    multiplier: real,
    jitter: real,
    range: real)

  function Power(x: real, n: nat): real {
    if n == 0 then 1.0 else x * Power(x, n - 1)
  }

  function Uncapped(p: RetryPolicy, attempt: int): real
    requires attempt >= 2
  {
    p.baseDelay * Power(p.multiplier, attempt - 2)
  }

  /** The delay before the jitter is applied. */
  function Backoff(p: RetryPolicy, attempt: int): real {
    if attempt <= 1 then 0.0 else Min(p.maxDelay, Uncapped(p, attempt))
  }

  /** `draw` is what `random.uniform(-jitter, jitter)` returned; it is not read without jitter. */
  function DelayForAttempt(p: RetryPolicy, attempt: int, draw: real): real {
    if p.jitter > 0.0 then Max(0.0, Backoff(p, attempt) + draw) else Backoff(p, attempt)
  }

  /** The power is raised before the cap is applied. */
  predicate Overflows(p: RetryPolicy, attempt: int) {
    attempt >= 2 && !(-p.range <= Power(p.multiplier, attempt - 2) <= p.range)
  }

  /** Backing off before the attempt raises: the delay, or a blocking sleep (`asyncio.sleep` takes any time). */
  predicate BackoffRaises(p: RetryPolicy, blocking: bool, attempt: int, draw: real) {
    Overflows(p, attempt) || (blocking && DelayForAttempt(p, attempt, draw) < 0.0)
  }

  /** Policies whose uncapped schedule grows. */
  predicate Growing(p: RetryPolicy) {
    p.baseDelay > 0.0 && p.multiplier >= 1.0
  }

  // ---------------------------------------------------------------- the delay schedule

  lemma {:induction false} PowerGrows(x: real, m: nat, n: nat)
    requires x >= 1.0 && m <= n
    ensures 1.0 <= Power(x, m) <= Power(x, n)
    decreases n
  {
    if n == 0 {
    } else if m == n {
      PowerGrows(x, n - 1, n - 1);
      assert x * Power(x, n - 1) >= 1.0 * Power(x, n - 1);
    } else {
      PowerGrows(x, m, n - 1);
      assert x * Power(x, n - 1) >= 1.0 * Power(x, n - 1);
    }
  }

  /** Without the cap, a later attempt never waits less. */
  lemma UncappedGrows(p: RetryPolicy, a: int, b: int)
    requires Growing(p) && 2 <= a <= b
    ensures 0.0 < Uncapped(p, a) <= Uncapped(p, b)
  {
    PowerGrows(p.multiplier, a - 2, b - 2);
    var x, y := Power(p.multiplier, a - 2), Power(p.multiplier, b - 2);
    assert p.baseDelay * (y - x) >= 0.0;
  }

  lemma BackoffOrdered(p: RetryPolicy, a: int, b: int)
    requires Growing(p) && p.maxDelay >= 0.0 && a <= b
    ensures Backoff(p, a) <= Backoff(p, b)
  {
    if a >= 2 {
      UncappedGrows(p, a, b);
    } else if b >= 2 {
      UncappedGrows(p, b, b);
    }
  }

  /** The schedule of a growing policy without jitter is non-decreasing exactly when its cap is not negative. */
  lemma ScheduleNonDecreasing(p: RetryPolicy, draw: int -> real)
    requires Growing(p) && p.jitter <= 0.0
    ensures (forall a: int, b: int :: a <= b ==> DelayForAttempt(p, a, draw(a)) <= DelayForAttempt(p, b, draw(b)))
       <==> p.maxDelay >= 0.0
  {
    if p.maxDelay >= 0.0 {
      forall a: int, b: int | a <= b
        ensures DelayForAttempt(p, a, draw(a)) <= DelayForAttempt(p, b, draw(b))
      {
        BackoffOrdered(p, a, b);
      }
    } else {
      assert DelayForAttempt(p, 1, draw(1)) == 0.0;
      assert DelayForAttempt(p, 2, draw(2)) < 0.0;
    }
  }

  /** Once a delay has reached the cap every later delay is the cap, and no delay is above it. */
  lemma CapIsAbsorbing(p: RetryPolicy, a: int, b: int)
    requires Growing(p) && 2 <= a <= b
    ensures Backoff(p, b) <= p.maxDelay
    ensures Backoff(p, a) == p.maxDelay ==> Backoff(p, b) == p.maxDelay
  {
    UncappedGrows(p, a, b);
  }

  /** The schedule computed without ever multiplying past the cap. */
  function SaturatingDelay(p: RetryPolicy, attempt: int): real
    decreases attempt
  {
    if attempt <= 1 then 0.0
    else if attempt == 2 then Min(p.maxDelay, p.baseDelay)
    else
      var previous := SaturatingDelay(p, attempt - 1);
      if previous >= p.maxDelay then p.maxDelay else Min(p.maxDelay, previous * p.multiplier)
  }

  /** Raising the power first and capping afterwards gives the saturating schedule. */
  lemma {:induction false} BackoffSaturates(p: RetryPolicy, attempt: int)
    requires Growing(p)
    ensures Backoff(p, attempt) == SaturatingDelay(p, attempt)
    decreases attempt
  {
    if attempt <= 1 {
    } else if attempt == 2 {
      assert Uncapped(p, 2) == p.baseDelay;
    } else {
      BackoffSaturates(p, attempt - 1);
      UncappedGrows(p, attempt - 1, attempt);
      UncappedStep(p, attempt);
    }
  }

  lemma UncappedStep(p: RetryPolicy, attempt: int)
    requires attempt >= 3
    ensures Uncapped(p, attempt) == Uncapped(p, attempt - 1) * p.multiplier
  {
    var x := Power(p.multiplier, attempt - 3);
    assert p.baseDelay * (p.multiplier * x) == (p.baseDelay * x) * p.multiplier;
  }

  /** The sum of the delays before attempts 2 .. n. */
  function TotalBackoff(p: RetryPolicy, n: int): real
    decreases n
  {
    if n <= 1 then 0.0 else TotalBackoff(p, n - 1) + Backoff(p, n)
  }

  lemma ScaleOrdered(a: real, b: real, c: real)
    requires a <= b && c >= 0.0
    ensures a * c <= b * c
  {
    assert (b - a) * c >= 0.0;
  }

  /** `total <= base * (power - 1) / (multiplier - 1)`, the geometric sum up to the term `base * power`. */
  predicate GeometricallyBounded(total: real, p: RetryPolicy, power: real) {
    total * (p.multiplier - 1.0) <= p.baseDelay * (power - 1.0)
  }

  /** A backoff that is at most the term of the geometric sum, and the power of the next term. */
  predicate NextTerm(p: RetryPolicy, delay: real, power: real, next: real) {
    delay <= p.baseDelay * power && next == p.multiplier * power
  }

  lemma GeometricStep(p: RetryPolicy, total: real, delay: real, power: real, next: real)
    requires p.multiplier > 1.0 && NextTerm(p, delay, power, next)
    requires GeometricallyBounded(total, p, power)
    ensures GeometricallyBounded(total + delay, p, next)
  {
    var m, base := p.multiplier, p.baseDelay;
    var term := base * power;
    GeometricTerm(base, power, m);
    Distributes(base, power);
    Distributes(base, m * power);
    SumTimes(total, delay, m - 1.0);
    ScaleOrdered(delay, term, m - 1.0);
  }

  lemma GeometricTerm(base: real, power: real, m: real)
    ensures base * power * (m - 1.0) == base * (m * power) - base * power
  {
    var x := base * power;
    assert x * m == base * (m * power);
    Distributes(x, m);
  }

  lemma Distributes(x: real, y: real)
    ensures x * (y - 1.0) == x * y - x
  {
  }

  lemma SumTimes(x: real, y: real, z: real)
    ensures (x + y) * z == x * z + y * z
  {
  }

  /** The time spent backing off over n attempts is at most the cap per wait. */
  lemma {:induction false} TotalBelowCaps(p: RetryPolicy, n: int)
    requires n >= 1
    ensures TotalBackoff(p, n) <= (n - 1) as real * p.maxDelay
    decreases n
  {
    TotalUnfolds(p, n);
    hide *;
    if n > 1 {
      TotalBelowCaps(p, n - 1);
      OneMoreCap(TotalBackoff(p, n - 1), Backoff(p, n), p.maxDelay, n - 2);
    } else {
      NoCap(n - 1, p.maxDelay);
    }
  }

  lemma OneMoreCap(total: real, delay: real, cap: real, n: int)
    requires total <= n as real * cap && delay <= cap
    ensures total + delay <= (n + 1) as real * cap
  {
    var x := n as real;
    assert (n + 1) as real == x + 1.0;
    assert (x + 1.0) * cap == x * cap + cap;
  }

  lemma NoCap(n: int, cap: real)
    requires n == 0
    ensures n as real * cap == 0.0
  {
    var x := n as real;
    assert x == 0.0;
  }

  lemma TotalUnfolds(p: RetryPolicy, n: int)
    ensures n <= 1 ==> TotalBackoff(p, n) == 0.0
    ensures n > 1 ==> TotalBackoff(p, n) == TotalBackoff(p, n - 1) + Backoff(p, n) && Backoff(p, n) <= p.maxDelay
  {
    hide Uncapped;
  }

  /**
   It is also at most the uncapped geometric sum, which is
   `base * (multiplier^(n-1) - 1) / (multiplier - 1)` when the multiplier is above 1.
   */
  lemma {:induction false} TotalBelowGeometric(p: RetryPolicy, n: int)
    requires p.multiplier > 1.0 && n >= 1
    ensures GeometricallyBounded(TotalBackoff(p, n), p, Power(p.multiplier, n - 1))
    decreases n
  {
    TotalUnfolds(p, n);
    hide *;
    if n == 1 {
      NothingBounded(p);
    } else {
      TotalBelowGeometric(p, n - 1);
      UncappedAbove(p, n);
      GeometricStep(p, TotalBackoff(p, n - 1), Backoff(p, n), Power(p.multiplier, n - 2), Power(p.multiplier, n - 1));
    }
  }

  lemma NothingBounded(p: RetryPolicy)
    ensures GeometricallyBounded(0.0, p, Power(p.multiplier, 0))
  {
    assert Power(p.multiplier, 0) == 1.0;
  }

  lemma UncappedAbove(p: RetryPolicy, n: int)
    requires n >= 2
    ensures NextTerm(p, Backoff(p, n), Power(p.multiplier, n - 2), Power(p.multiplier, n - 1))
  {
  }

  /** With jitter every delay stays between 0 and the cap plus the jitter. */
  lemma JitterBounded(p: RetryPolicy, attempt: int, draw: real)
    requires p.jitter > 0.0 && -p.jitter <= draw <= p.jitter && p.maxDelay >= 0.0
    ensures 0.0 <= DelayForAttempt(p, attempt, draw) <= p.maxDelay + p.jitter
    ensures Backoff(p, attempt) + draw >= 0.0 ==>
              -p.jitter <= DelayForAttempt(p, attempt, draw) - Backoff(p, attempt) <= p.jitter
  {
  }

  // ---------------------------------------------------------------- backing off without raising

  function Abs(x: real): real {
    if x < 0.0 then -x else x
  }

  /** No blocking sleep of the first n backoffs is negative. */
  predicate NonNegative(p: RetryPolicy, n: nat) {
    || p.jitter > 0.0
    || (p.maxDelay >= 0.0 && p.baseDelay >= 0.0 && (n <= 1 || p.multiplier >= 0.0 || p.baseDelay == 0.0))
  }

  /** The first n backoffs do not raise. */
  predicate Safe(p: RetryPolicy, blocking: bool, n: nat) {
    n == 0
    || (1.0 <= p.range && Power(Abs(p.multiplier), n - 1) <= p.range && (blocking ==> NonNegative(p, n)))
  }

  /** No backoff ever raises. */
  predicate AlwaysSafe(p: RetryPolicy, blocking: bool) {
    1.0 <= p.range && -1.0 <= p.multiplier <= 1.0 && (blocking ==> NonNegative(p, 2))
  }

  lemma {:induction false} PowerAbs(x: real, n: nat)
    ensures Power(Abs(x), n) == Abs(Power(x, n)) >= 0.0
  {
    if n > 0 {
      PowerAbs(x, n - 1);
      AbsTimes(x, Power(x, n - 1));
    }
  }

  lemma AbsTimes(x: real, y: real)
    ensures Abs(x * y) == Abs(x) * Abs(y) >= 0.0
  {
    if x >= 0.0 && y >= 0.0 {
      assert x * y >= 0.0;
    } else if x >= 0.0 {
      assert x * -y >= 0.0;
      assert x * -y == -(x * y);
    } else if y >= 0.0 {
      assert -x * y >= 0.0;
      assert -x * y == -(x * y);
    } else {
      assert -x * -y >= 0.0;
      assert -x * -y == x * y;
    }
  }

  lemma {:induction false} PowerNonNegative(x: real, n: nat)
    requires x >= 0.0
    ensures Power(x, n) >= 0.0
  {
    if n > 0 {
      PowerNonNegative(x, n - 1);
      ScaleOrdered(0.0, x, Power(x, n - 1));
    }
  }

  lemma {:induction false} PowerOfSmall(x: real, n: nat)
    requires 0.0 <= x <= 1.0
    ensures Power(x, n) <= 1.0
  {
    if n > 0 {
      PowerOfSmall(x, n - 1);
      PowerNonNegative(x, n - 1);
      SmallTimes(x, Power(x, n - 1));
    }
  }

  lemma SmallTimes(x: real, y: real)
    requires 0.0 <= x <= 1.0 && 0.0 <= y <= 1.0
    ensures x * y <= 1.0
  {
    var rest := 1.0 - x;
    assert rest * y >= 0.0;
    assert x * y == y - rest * y;
  }

  /** The powers of the first n backoffs stay in range exactly when 1 and the last of them do. */
  lemma PowersInRange(p: RetryPolicy, n: nat)
    requires n >= 1
    ensures (forall a: int :: 2 <= a <= n + 1 ==> !Overflows(p, a))
       <==> 1.0 <= p.range && Power(Abs(p.multiplier), n - 1) <= p.range
  {
    var x := Abs(p.multiplier);
    PowerAbs(p.multiplier, n - 1);
    assert Power(p.multiplier, 0) == 1.0;
    if 1.0 <= p.range && Power(x, n - 1) <= p.range {
      forall a: int | 2 <= a <= n + 1
        ensures !Overflows(p, a)
      {
        PowerAbs(p.multiplier, a - 2);
        if x <= 1.0 {
          PowerOfSmall(x, a - 2);
        } else {
          PowerGrows(x, a - 2, n - 1);
        }
      }
    } else {
      assert Overflows(p, 2) || Overflows(p, n + 1);
    }
  }

  /** The sign of a backoff is that of the smaller of the cap and the uncapped delay; the jitter cuts at 0. */
  lemma NegativeIff(p: RetryPolicy, attempt: int, draw: real)
    requires attempt >= 2
    ensures DelayForAttempt(p, attempt, draw) < 0.0
       <==> p.jitter <= 0.0 && (p.maxDelay < 0.0 || p.baseDelay * Power(p.multiplier, attempt - 2) < 0.0)
  {
  }

  lemma NonNegativeSleeps(p: RetryPolicy, n: nat, attempt: int, draw: real)
    requires NonNegative(p, n) && 2 <= attempt <= n + 1
    ensures DelayForAttempt(p, attempt, draw) >= 0.0
  {
    NegativeIff(p, attempt, draw);
    if attempt == 2 {
      assert Power(p.multiplier, 0) == 1.0;
    } else if p.jitter <= 0.0 && p.baseDelay > 0.0 {
      PowerNonNegative(p.multiplier, attempt - 2);
      ScaleOrdered(0.0, p.baseDelay, Power(p.multiplier, attempt - 2));
    }
  }

  lemma NegativeSleeps(p: RetryPolicy, n: nat)
    requires !NonNegative(p, n) && n >= 1
    ensures (forall draw: real :: DelayForAttempt(p, 2, draw) < 0.0)
         || (n >= 2 && forall draw: real :: DelayForAttempt(p, 3, draw) < 0.0)
  {
    assert Power(p.multiplier, 0) == 1.0;
    if p.maxDelay >= 0.0 && p.baseDelay >= 0.0 {
      assert Power(p.multiplier, 1) == p.multiplier * 1.0;
      ScaleStrict(p.baseDelay, -p.multiplier);
      assert p.baseDelay * -p.multiplier == -(p.baseDelay * p.multiplier);
    }
  }

  lemma ScaleStrict(x: real, y: real)
    requires x > 0.0 && y > 0.0
    ensures x * y > 0.0
  {
  }

  lemma SleepsNonNegative(p: RetryPolicy, n: nat, draw: int -> real)
    requires n >= 1
    ensures NonNegative(p, n) <==> forall a: int :: 2 <= a <= n + 1 ==> DelayForAttempt(p, a, draw(a)) >= 0.0
  {
    if NonNegative(p, n) {
      forall a: int | 2 <= a <= n + 1
        ensures DelayForAttempt(p, a, draw(a)) >= 0.0
      {
        NonNegativeSleeps(p, n, a, draw(a));
      }
    } else {
      NegativeSleeps(p, n);
      assert DelayForAttempt(p, 2, draw(2)) < 0.0 || (n >= 2 && DelayForAttempt(p, 3, draw(3)) < 0.0);
    }
  }

  /** `Safe` is exactly what it says, whatever the jitter draws. */
  lemma SafeExact(p: RetryPolicy, blocking: bool, n: nat, draw: int -> real)
    ensures Safe(p, blocking, n)
       <==> forall a: int :: 2 <= a <= n + 1 ==> !BackoffRaises(p, blocking, a, draw(a))
  {
    if n > 0 {
      PowersInRange(p, n);
      SleepsNonNegative(p, n, draw);
      hide Overflows, DelayForAttempt, NonNegative;
      assert forall a: int :: 2 <= a <= n + 1 ==>
        (BackoffRaises(p, blocking, a, draw(a)) <==> Overflows(p, a) || (blocking && DelayForAttempt(p, a, draw(a)) < 0.0));
    }
  }

  lemma {:induction false} Bernoulli(x: real, n: nat)
    requires x >= 0.0
    ensures Power(1.0 + x, n) >= 1.0 + n as real * x
  {
    if n > 0 {
      Bernoulli(x, n - 1);
      var before := Power(1.0 + x, n - 1);
      var low := 1.0 + (n - 1) as real * x;
      ScaleOrdered(low, before, 1.0 + x);
      ScaleOrdered(0.0, (n - 1) as real * x, x);
      assert low * (1.0 + x) == low + (1.0 * x + (n - 1) as real * x * x);
      assert low + x == 1.0 + n as real * x;
    }
  }

  /** A multiplier beyond 1 in size overflows any range in the end. */
  lemma PowersUnbounded(x: real, range: real) returns (n: nat)
    requires x > 1.0
    ensures Power(x, n) > range
  {
    var y := x - 1.0;
    if range <= 0.0 {
      n := 0;
    } else {
      n := (range / y).Floor + 1;
      Bernoulli(y, n);
      assert n as real > range / y;
      ScaleOrdered(range / y, n as real, y);
      assert range / y * y == range;
    }
  }

  /** A policy is always safe exactly when it is safe for every number of failures. */
  lemma AlwaysSafeExact(p: RetryPolicy, blocking: bool)
    ensures AlwaysSafe(p, blocking) <==> forall n: nat :: Safe(p, blocking, n)
  {
    if AlwaysSafe(p, blocking) {
      forall n: nat
        ensures Safe(p, blocking, n)
      {
        if n > 0 {
          PowerOfSmall(Abs(p.multiplier), n - 1);
        }
      }
    } else if 1.0 <= p.range && !(-1.0 <= p.multiplier <= 1.0) {
      var k := PowersUnbounded(Abs(p.multiplier), p.range);
      assert !Safe(p, blocking, k + 1);
    } else {
      assert !Safe(p, blocking, 2);
    }
  }

  /**
   With a multiplier beyond 1 in size the powers up to some last exponent e are in range, and the first
   backoff that raises is number e+2: with doubles and multiplier 2, e is 1023 and the number 1025.
   */
  lemma SafeUpTo(p: RetryPolicy, blocking: bool, e: nat, n: nat)
    requires Abs(p.multiplier) > 1.0 && (blocking ==> NonNegative(p, 2))
    requires Power(Abs(p.multiplier), e) <= p.range < Power(Abs(p.multiplier), e + 1)
    ensures Safe(p, blocking, n) <==> n <= e + 1
  {
    var x := Abs(p.multiplier);
    PowerGrows(x, 0, e);
    if 0 < n {
      if n <= e + 1 {
        PowerGrows(x, n - 1, e);
      } else {
        PowerGrows(x, e + 1, n - 1);
      }
    }
  }

  lemma SafeAt(p: RetryPolicy, blocking: bool, n: nat, attempt: int, draw: real)
    requires Safe(p, blocking, n) && 2 <= attempt <= n + 1
    ensures !BackoffRaises(p, blocking, attempt, draw)
  {
    var draws := (a: int) => draw;
    SafeExact(p, blocking, n, draws);
    assert !BackoffRaises(p, blocking, attempt, draws(attempt));
  }

  lemma AlwaysSafeNeverRaises(p: RetryPolicy, blocking: bool, attempt: int, draw: real)
    requires AlwaysSafe(p, blocking) && attempt >= 2
    ensures !BackoffRaises(p, blocking, attempt, draw)
  {
    AlwaysSafeExact(p, blocking);
    SafeAt(p, blocking, attempt - 1, attempt, draw);
  }

  lemma SomeBackoffRaises(p: RetryPolicy, blocking: bool) returns (n: nat)
    requires !AlwaysSafe(p, blocking)
    ensures BackoffRaises(p, blocking, n + 2, 0.0)
  {
    AlwaysSafeExact(p, blocking);
    var m: nat :| !Safe(p, blocking, m);
    var draws := (a: int) => 0.0;
    SafeExact(p, blocking, m, draws);
    var a: int :| 2 <= a <= m + 1 && BackoffRaises(p, blocking, a, draws(a));
    n := a - 2;
  }

  /** With a multiplier beyond 1 in size, backoff k+1 raises exactly when k is beyond the last exponent in range. */
  lemma RaisesBeyond(p: RetryPolicy, blocking: bool, e: nat, k: nat, draw: real)
    requires Abs(p.multiplier) > 1.0 && (blocking ==> NonNegative(p, 2))
    requires Power(Abs(p.multiplier), e) <= p.range < Power(Abs(p.multiplier), e + 1)
    ensures BackoffRaises(p, blocking, k + 2, draw) <==> k > e
  {
    if k <= e {
      SafeUpTo(p, blocking, e, k + 1);
      SafeAt(p, blocking, k + 1, k + 2, draw);
    } else {
      PowerGrows(Abs(p.multiplier), e + 1, k);
      PowerAbs(p.multiplier, k);
      assert Overflows(p, k + 2);
    }
  }

  // ---------------------------------------------------------------- the retry loops

  /** What one call did: returned, raised an `Exception`, or raised something no `except Exception` catches. */
  datatype Outcome<T, E> = Returns(value: T) | Raises(error: E) | Interrupts(error: E)

  /** The environment's part in one turn of a loop: the stop predicate's answer, the call, the jitter draw. */
  datatype Turn<T, E> = Turn(stop: bool, outcome: Outcome<T, E>, draw: real)

  /** `sync_retry`, with or without a stop predicate, or `async_retry`. */
  datatype Loop = Sync(polled: bool) | Async {
    predicate Stops(stop: bool) {
      Sync? && polled && stop
    }
  }

  /** How a loop ended; `BackoffRaised` when backing off raised, `Running` when the script ends before the loop does. */
  datatype Verdict<T, E> = Returned(value: T) | Raised(error: E) | BackoffRaised | Aborted | Running

  datatype RetryLog<T, E> = RetryLog(verdict: Verdict<T, E>, calls: nat, sleeps: seq<real>)

  /** The policy gives up after `failures` failed calls. */
  predicate GivesUp(p: RetryPolicy, failures: nat) {
    p.maxAttempts.Some? && failures >= p.maxAttempts.value
  }

  /** The loop leaves in turn k, whatever happened before. */
  predicate Ends<T, E>(p: RetryPolicy, loop: Loop, turn: Turn<T, E>, k: nat) {
    || loop.Stops(turn.stop)
    || !turn.outcome.Raises?
    || GivesUp(p, k + 1)
    || BackoffRaises(p, loop.Sync?, k + 2, turn.draw)
  }

  /** The first turn in which the loop leaves, or the script's length. */
  function FirstEnd<T, E>(p: RetryPolicy, loop: Loop, script: seq<Turn<T, E>>, from: nat := 0): (k: nat)
    requires from <= |script|
    ensures from <= k <= |script|
    ensures k < |script| ==> Ends(p, loop, script[k], k)
    ensures forall j :: from <= j < k ==> !Ends(p, loop, script[j], j)
    decreases |script| - from
  {
    if from == |script| || Ends(p, loop, script[from], from) then from
    else FirstEnd(p, loop, script, from + 1)
  }

  /** The delays slept after the first n failures. */
  function Sleeps<T, E>(p: RetryPolicy, script: seq<Turn<T, E>>, n: nat): (r: seq<real>)
    requires n <= |script|
    ensures |r| == n
  {
    seq(n, i requires 0 <= i < n => DelayForAttempt(p, i + 2, script[i].draw))
  }

  /** What a retry loop does on a script, read off the first turn that ends it. */
  function Retried<T, E>(p: RetryPolicy, loop: Loop, script: seq<Turn<T, E>>): RetryLog<T, E> {
    var k := FirstEnd(p, loop, script);
    if k == |script| then RetryLog(Running, k, Sleeps(p, script, k))
    else if loop.Stops(script[k].stop) then
      RetryLog(if k == 0 then Aborted else
               assert !Ends(p, loop, script[k - 1], k - 1); Raised(script[k - 1].outcome.error),
               k, Sleeps(p, script, k))
    else if script[k].outcome.Returns? then
      RetryLog(Returned(script[k].outcome.value), k + 1, Sleeps(p, script, k))
    else if script[k].outcome.Interrupts? || GivesUp(p, k + 1) then
      RetryLog(Raised(script[k].outcome.error), k + 1, Sleeps(p, script, k))
    else RetryLog(BackoffRaised, k + 1, Sleeps(p, script, k))
  }

  lemma FirstEndIs<T, E>(p: RetryPolicy, loop: Loop, script: seq<Turn<T, E>>, k: nat)
    requires k <= |script|
    requires k < |script| ==> Ends(p, loop, script[k], k)
    requires forall j :: 0 <= j < k ==> !Ends(p, loop, script[j], j)
    ensures FirstEnd(p, loop, script) == k
  {
  }

  /** `sync_retry`; `polled` says whether a stop predicate was given. */
  method SyncRetry<T, E>(p: RetryPolicy, polled: bool, script: seq<Turn<T, E>>) returns (log: RetryLog<T, E>)
    ensures log == Retried(p, Sync(polled), script)
  {
    ghost var loop := Sync(polled);
    var attempt := 1;
    var lastError: Option<E> := None;
    var sleeps: seq<real> := [];
    while attempt <= |script|
      invariant 1 <= attempt <= |script| + 1
      invariant forall j :: 0 <= j < attempt - 1 ==> !Ends(p, loop, script[j], j)
      invariant sleeps == Sleeps(p, script, attempt - 1)
      invariant lastError == if attempt == 1 then None else Some(script[attempt - 2].outcome.error)
    {
      var turn := script[attempt - 1];
      if Ends(p, loop, turn, attempt - 1) {
        FirstEndIs(p, loop, script, attempt - 1);
      }
      if polled && turn.stop {
        return RetryLog(if lastError.Some? then Raised(lastError.value) else Aborted, attempt - 1, sleeps);
      }
      match turn.outcome {
        case Returns(value) =>
          return RetryLog(Returned(value), attempt, sleeps);
        case Interrupts(error) =>
          return RetryLog(Raised(error), attempt, sleeps);
        case Raises(error) =>
          lastError := Some(error);
          if p.maxAttempts.Some? && attempt >= p.maxAttempts.value {
            return RetryLog(Raised(error), attempt, sleeps);
          }
          if Overflows(p, attempt + 1) {
            return RetryLog(BackoffRaised, attempt, sleeps);
          }
          var delay := DelayForAttempt(p, attempt + 1, turn.draw);
          if delay < 0.0 {
            return RetryLog(BackoffRaised, attempt, sleeps);
          }
          sleeps := sleeps + [delay];
          attempt := attempt + 1;
      }
    }
    FirstEndIs(p, loop, script, |script|);
    log := RetryLog(Running, |script|, sleeps);
  }

  /** `async_retry`: no stop predicate, a sleep that takes any time, and the exception being handled is the one raised. */
  method AsyncRetry<T, E>(p: RetryPolicy, script: seq<Turn<T, E>>) returns (log: RetryLog<T, E>)
    ensures log == Retried(p, Async, script)
  {
    var attempt := 1;
    var sleeps: seq<real> := [];
    while attempt <= |script|
      invariant 1 <= attempt <= |script| + 1
      invariant forall j :: 0 <= j < attempt - 1 ==> !Ends(p, Async, script[j], j)
      invariant sleeps == Sleeps(p, script, attempt - 1)
    {
      var turn := script[attempt - 1];
      if Ends(p, Async, turn, attempt - 1) {
        FirstEndIs(p, Async, script, attempt - 1);
      }
      match turn.outcome {
        case Returns(value) =>
          return RetryLog(Returned(value), attempt, sleeps);
        case Interrupts(error) =>
          return RetryLog(Raised(error), attempt, sleeps);
        case Raises(error) =>
          if p.maxAttempts.Some? && attempt >= p.maxAttempts.value {
            return RetryLog(Raised(error), attempt, sleeps);
          }
          if Overflows(p, attempt + 1) {
            return RetryLog(BackoffRaised, attempt, sleeps);
          }
          sleeps := sleeps + [DelayForAttempt(p, attempt + 1, turn.draw)];
          attempt := attempt + 1;
      }
    }
    FirstEndIs(p, Async, script, |script|);
    log := RetryLog(Running, |script|, sleeps);
  }

  /** The number of calls a policy allows. */
  function Allowed(p: RetryPolicy): (n: int)
    requires p.maxAttempts.Some?
    ensures n >= 1 && n >= p.maxAttempts.value && (n == 1 || n == p.maxAttempts.value)
  {
    if p.maxAttempts.value < 1 then 1 else p.maxAttempts.value
  }

  /** `Safe` for the draws of a script. */
  lemma SafeForScript<T, E>(p: RetryPolicy, blocking: bool, script: seq<Turn<T, E>>, n: nat)
    requires n <= |script|
    ensures Safe(p, blocking, n)
       <==> forall j :: 0 <= j < n ==> !BackoffRaises(p, blocking, j + 2, script[j].draw)
  {
    var draw := (a: int) => if 2 <= a < |script| + 2 then script[a - 2].draw else 0.0;
    SafeExact(p, blocking, n, draw);
    hide BackoffRaises, Safe;
    assert forall j :: 0 <= j < n ==> draw(j + 2) == script[j].draw;
    if forall j :: 0 <= j < n ==> !BackoffRaises(p, blocking, j + 2, script[j].draw) {
      forall a: int | 2 <= a <= n + 1
        ensures !BackoffRaises(p, blocking, a, draw(a))
      {
        assert !BackoffRaises(p, blocking, a - 2 + 2, script[a - 2].draw);
      }
    }
  }

  /**
   Without a stop, take a script whose first success is call s (or that has none, s > |script|).  It ends
   after min(s, max(1, maxAttempts)) calls and one sleep fewer, in that success or in the last failure,
   exactly when the policy is safe for that many sleeps; otherwise it ends earlier, in a raising backoff.
   */
  lemma CallCountExact<T, E>(p: RetryPolicy, loop: Loop, script: seq<Turn<T, E>>, s: nat)
    requires p.maxAttempts.Some?
    requires forall j :: 0 <= j < |script| && j + 1 < s ==> script[j].outcome.Raises?
    requires forall j :: 0 <= j < |script| ==> !loop.Stops(script[j].stop)
    requires 1 <= s && (s <= |script| ==> script[s - 1].outcome.Returns?)
    requires |script| >= s || |script| >= Allowed(p)
    ensures var log := Retried(p, loop, script);
            var calls := if s <= Allowed(p) then s else Allowed(p);
            && (log.calls == calls <==> Safe(p, loop.Sync?, calls - 1))
            && (if log.calls == calls
                then && |log.sleeps| == calls - 1
                     && log.verdict == if s <= Allowed(p) then Returned(script[s - 1].outcome.value)
                                       else Raised(script[calls - 1].outcome.error)
                else 1 <= log.calls < calls && |log.sleeps| == log.calls - 1 && log.verdict.BackoffRaised?)
  {
    var calls := if s <= Allowed(p) then s else Allowed(p);
    SafeForScript(p, loop.Sync?, script, calls - 1);
    hide BackoffRaises, Safe;
    var f := FirstEnd(p, loop, script);
    assert Ends(p, loop, script[calls - 1], calls - 1);
    if f < calls - 1 {
      assert Ends(p, loop, script[f], f) && BackoffRaises(p, loop.Sync?, f + 2, script[f].draw);
    }
  }

  /** If the stop predicate first holds before call k, at most k-1 calls are made, and nothing is called after it. */
  lemma StopBoundsCalls<T, E>(p: RetryPolicy, script: seq<Turn<T, E>>, k: nat)
    requires 1 <= k <= |script| && script[k - 1].stop
    ensures var log := Retried(p, Sync(true), script);
            && log.calls <= k - 1
            && !log.verdict.Running?
            && |log.sleeps| <= log.calls
            && (log.verdict.Aborted? <==> script[0].stop)
            && (log.verdict.Raised? ==> 1 <= log.calls && !script[log.calls - 1].outcome.Returns?
                                        && log.verdict.error == script[log.calls - 1].outcome.error)
  {
    var f := FirstEnd(p, Sync(true), script);
    assert Ends(p, Sync(true), script[k - 1], k - 1);
    if f > 0 {
      assert !Ends(p, Sync(true), script[f - 1], f - 1);
    }
  }

  /** A policy without a limit goes on exactly as long as every call fails, no stop is seen and its backoffs are safe. */
  lemma UnlimitedNeverGivesUp<T, E>(p: RetryPolicy, loop: Loop, script: seq<Turn<T, E>>)
    requires p.maxAttempts.None?
    ensures Retried(p, loop, script).verdict.Running? <==>
            && (forall j :: 0 <= j < |script| ==> script[j].outcome.Raises? && !loop.Stops(script[j].stop))
            && Safe(p, loop.Sync?, |script|)
  {
    SafeForScript(p, loop.Sync?, script, |script|);
    hide BackoffRaises, Safe;
    var f := FirstEnd(p, loop, script);
    if f < |script| {
      assert Ends(p, loop, script[f], f);
    } else {
      assert forall j :: 0 <= j < |script| ==> !Ends(p, loop, script[j], j);
    }
  }

  /** A negative cap without jitter: the first failure's sleep raises out of `sync_retry`, whatever the limit. */
  lemma NegativeCapRaises<T, E>(p: RetryPolicy, polled: bool, script: seq<Turn<T, E>>)
    requires p.maxDelay < 0.0 && p.jitter <= 0.0 && !GivesUp(p, 1)
    requires script != [] && script[0].outcome.Raises? && !(polled && script[0].stop)
    ensures Retried(p, Sync(polled), script) == RetryLog(BackoffRaised, 1, [])
  {
    NegativeIff(p, 2, script[0].draw);
    FirstEndIs(p, Sync(polled), script, 0);
  }

  /**
   With a multiplier beyond 1 in size an unlimited loop does not go on for ever: if every call fails it
   ends after call e+2 exactly, by the overflow of the power, where e is the last exponent in range.
   */
  lemma OverflowEnds<T, E>(p: RetryPolicy, loop: Loop, script: seq<Turn<T, E>>, e: nat)
    requires p.maxAttempts.None? && Abs(p.multiplier) > 1.0 && (loop.Sync? ==> NonNegative(p, 2))
    requires Power(Abs(p.multiplier), e) <= p.range < Power(Abs(p.multiplier), e + 1)
    requires |script| >= e + 2
    requires forall j :: 0 <= j < |script| ==> script[j].outcome.Raises? && !loop.Stops(script[j].stop)
    ensures var log := Retried(p, loop, script);
            log.verdict.BackoffRaised? && log.calls == e + 2 && |log.sleeps| == e + 1
  {
    SafeUpTo(p, loop.Sync?, e, e + 1);
    SafeForScript(p, loop.Sync?, script, e + 1);
    PowerAbs(p.multiplier, e + 1);
    assert Overflows(p, e + 3);
    FirstEndIs(p, loop, script, e + 1);
  }

  // ---------------------------------------------------------------- what is slept, and how a loop is cut short

  /** A loop's log has the sleeps of as many failures as it slept for. */
  lemma LogSleeps<T, E>(p: RetryPolicy, loop: Loop, script: seq<Turn<T, E>>)
    ensures var log := Retried(p, loop, script);
            |log.sleeps| <= |script| && log.sleeps == Sleeps(p, script, |log.sleeps|)
  {
    hide Ends, DelayForAttempt;
  }

  /**
   The sleep after failure i+1 is `base * multiplier^i`, or the cap if that is less; with jitter it is that
   and what was drawn, but not below 0.
   */
  lemma SleepsExact<T, E>(p: RetryPolicy, loop: Loop, script: seq<Turn<T, E>>, i: nat)
    requires i < |Retried(p, loop, script).sleeps|
    ensures i < |script|
    ensures var plain := p.baseDelay * Power(p.multiplier, i);
            var delay := if p.maxDelay < plain then p.maxDelay else plain;
            var drawn := delay + script[i].draw;
            Retried(p, loop, script).sleeps[i] == if p.jitter <= 0.0 then delay else if drawn < 0.0 then 0.0 else drawn
  {
    hide *;
    LogSleeps(p, loop, script);
    SleepAt(p, script, |Retried(p, loop, script).sleeps|, i);
    DelayExact(p, i, script[i].draw);
  }

  lemma SleepAt<T, E>(p: RetryPolicy, script: seq<Turn<T, E>>, n: nat, i: nat)
    requires i < n <= |script|
    ensures Sleeps(p, script, n)[i] == DelayForAttempt(p, i + 2, script[i].draw)
  {
    hide DelayForAttempt;
  }

  /** The delay of attempt i+2, in one formula. */
  lemma DelayExact(p: RetryPolicy, i: nat, draw: real)
    ensures var plain := p.baseDelay * Power(p.multiplier, i);
            var delay := if p.maxDelay < plain then p.maxDelay else plain;
            DelayForAttempt(p, i + 2, draw)
            == if p.jitter <= 0.0 then delay else if delay + draw < 0.0 then 0.0 else delay + draw
  {
    hide Power;
  }

  /** An exception that `except Exception` does not catch leaves the loop at once, whatever the policy. */
  lemma InterruptLeaves<T, E>(p: RetryPolicy, loop: Loop, turn: Turn<T, E>, rest: seq<Turn<T, E>>)
    requires turn.outcome.Interrupts? && !loop.Stops(turn.stop)
    ensures Retried(p, loop, [turn] + rest) == RetryLog(Raised(turn.outcome.error), 1, [])
  {
    FirstEndIs(p, loop, [turn] + rest, 0);
  }

  /**
   If the stop predicate first holds before call k and the k-1 calls before it failed without using up the
   policy, exactly those calls are made, each slept for, and the last of their errors is raised.
   */
  lemma StopExact<T, E>(p: RetryPolicy, script: seq<Turn<T, E>>, k: nat)
    requires 1 <= k <= |script| && script[k - 1].stop
    requires forall j :: 0 <= j < k - 1 ==> script[j].outcome.Raises? && !script[j].stop && !GivesUp(p, j + 1)
    requires Safe(p, true, k - 1)
    ensures var log := Retried(p, Sync(true), script);
            && log.calls == k - 1 && |log.sleeps| == k - 1
            && log.verdict == if k == 1 then Aborted else Raised(script[k - 2].outcome.error)
  {
    SafeForScript(p, true, script, k - 1);
    hide BackoffRaises, Safe;
    FirstEndIs(p, Sync(true), script, k - 1);
  }

  /** `async_retry` never looks at a stop. */
  lemma AsyncNeverStops(stop: bool)
    ensures !Async.Stops(stop) && !Sync(false).Stops(stop) && (Sync(true).Stops(stop) <==> stop)
  {
  }
}
