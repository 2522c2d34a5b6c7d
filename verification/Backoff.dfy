/** Retry backoff: the attempt bound and the delay, in exact arithmetic. */
module Backoff {
  import opened Basics
  import opened History
  import opened Program

  /** Durations are 64-bit nanosecond counts. */
  const DURATION_RANGE := 9223372036854775808.0

  const SECOND := 1_000_000_000

  function Pow(c: real, n: nat): real {
    if n == 0 then 1.0 else Pow(c, n - 1) * c
  }

  function Initial(p: RetryPolicy): int {
    if p.initialInterval <= 0 then SECOND else p.initialInterval
  }

  function Coefficient(p: RetryPolicy): real {
    if p.backoffCoefficient < 1.0 then 2.0 else p.backoffCoefficient
  }

  predicate CanRetry(p: RetryPolicy, attempt: int) {
    !(p.maxAttempts > 0 && attempt >= p.maxAttempts)
  }

  /** The unclamped delay before attempt + 1: initial times coefficient to the power attempt - 1. */
  function Ideal(p: RetryPolicy, attempt: int): real {
    Initial(p) as real * Pow(Coefficient(p), if attempt < 1 then 0 else attempt - 1)
  }

  function Clamp(d: int, max: int): int {
    if max > 0 && d > max then max else d
  }

  /** Converting an out-of-range float to an integer yields a value the platform chooses. */
  function ToDuration(x: real, outOfRange: int): int {
    if x < DURATION_RANGE then x.Floor else outOfRange
  }

  function Delay(p: RetryPolicy, attempt: int, outOfRange: int): int {
    Clamp(ToDuration(Ideal(p, attempt), outOfRange), p.maxInterval)
  }

  /** The loop multiplies step by step; the closed form is a power. */
  method NextRetryDelay(policy: Option<RetryPolicy>, attempt: int, outOfRange: int) returns (delay: int, ok: bool)
    ensures ok <==> CanRetry(PolicyOrDefault(policy), attempt)
    ensures !ok <==> if policy.Some? then 0 < policy.value.maxAttempts <= attempt else 5 <= attempt
    ensures !ok ==> delay == 0
    ensures ok ==> delay == Delay(PolicyOrDefault(policy), attempt, outOfRange)
    ensures ok && Ideal(PolicyOrDefault(policy), attempt) < DURATION_RANGE ==>
              delay == Clamp(Ideal(PolicyOrDefault(policy), attempt).Floor, PolicyOrDefault(policy).maxInterval)
  {
    hide Pow;
    var p := PolicyOrDefault(policy);
    if p.maxAttempts > 0 && attempt >= p.maxAttempts {
      return 0, false;
    }
    var initial := p.initialInterval;
    if initial <= 0 {
      initial := SECOND;
    }
    var coeff := p.backoffCoefficient;
    if coeff < 1.0 {
      coeff := 2.0;
    }
    var d := initial as real;
    var i := 1;
    PowZero(initial as real, coeff);
    while i < attempt
      invariant 1 <= i
      invariant i <= attempt || i == 1
      invariant d == initial as real * Pow(coeff, i - 1)
    {
      d := d * coeff;
      PowStep(initial as real, coeff, i - 1);
      i := i + 1;
    }
    delay := ToDuration(d, outOfRange);
    if p.maxInterval > 0 && delay > p.maxInterval {
      delay := p.maxInterval;
    }
    ok := true;
  }

  /** The first wait, and each next one, on the policy's own fields. */
  lemma IdealPlain(p: RetryPolicy, attempt: int)
    requires p.initialInterval > 0 && p.backoffCoefficient >= 1.0
    ensures attempt <= 1 ==> Ideal(p, attempt) == p.initialInterval as real
    ensures attempt >= 1 ==> Ideal(p, attempt + 1) == Ideal(p, attempt) * p.backoffCoefficient
  {
    hide Pow;
    PowZero(p.initialInterval as real, p.backoffCoefficient);
    if attempt >= 1 {
      PowStep(p.initialInterval as real, p.backoffCoefficient, attempt - 1);
    }
  }

  /** Fields out of their range: no positive interval means one second, a coefficient below one means two. */
  lemma IdealDefaults(p: RetryPolicy, attempt: int)
    ensures p.initialInterval <= 0 ==> Ideal(p, attempt) == Ideal(p.(initialInterval := 1_000_000_000), attempt)
    ensures p.backoffCoefficient < 1.0 ==> Ideal(p, attempt) == Ideal(p.(backoffCoefficient := 2.0), attempt)
  {
  }

  /** The wait itself: the whole part of that power, or a positive maximum below it. */
  lemma DelayPlain(p: RetryPolicy, attempt: int, outOfRange: int)
    requires Ideal(p, attempt) < 9223372036854775808.0
    ensures Delay(p, attempt, outOfRange)
            == if 0 < p.maxInterval < Ideal(p, attempt).Floor then p.maxInterval else Ideal(p, attempt).Floor
  {
    hide Ideal;
  }

  /** A retry is refused exactly when a positive bound on attempts has been reached. */
  lemma RefusedExactly(p: RetryPolicy, attempt: int)
    ensures !CanRetry(p, attempt) <==> 0 < p.maxAttempts <= attempt
  {
  }

  lemma PowStep(a: real, c: real, n: nat)
    ensures a * Pow(c, n) * c == a * Pow(c, n + 1)
  {
  }

  lemma PowZero(a: real, c: real)
    ensures a * Pow(c, 0) == a
  {
  }

  lemma {:induction false} PowGrows(c: real, m: nat, n: nat)
    requires c >= 1.0 && m <= n
    ensures 1.0 <= Pow(c, m) <= Pow(c, n)
  {
    if n > 0 {
      if m < n {
        PowGrows(c, m, n - 1);
      } else {
        PowGrows(c, m - 1, n - 1);
      }
      ScaleUp(Pow(c, n - 1), c);
    }
  }

  lemma ScaleUp(x: real, c: real)
    requires x >= 1.0 && c >= 1.0
    ensures x * c >= x
  {
  }

  lemma ScaleMonotone(a: real, x: real, y: real)
    requires a >= 0.0 && x <= y
    ensures a * x <= a * y
  {
  }

  lemma IdealMonotone(p: RetryPolicy, a: int, b: int)
    requires a <= b
    ensures 1.0 <= Ideal(p, a) <= Ideal(p, b)
  {
    hide Pow;
    var m, n := if a < 1 then 0 else a - 1, if b < 1 then 0 else b - 1;
    PowGrows(Coefficient(p), m, n);
    ScaleMonotone(Initial(p) as real, Pow(Coefficient(p), m), Pow(Coefficient(p), n));
    ScaleMonotone(Initial(p) as real, 1.0, Pow(Coefficient(p), m));
    assert Ideal(p, a) == Initial(p) as real * Pow(Coefficient(p), m);
    assert Ideal(p, b) == Initial(p) as real * Pow(Coefficient(p), n);
  }

  /** Later attempts never wait less, and a positive maximum is never exceeded. */
  lemma DelayMonotone(p: RetryPolicy, a: int, b: int, outOfRange: int)
    requires a <= b && Ideal(p, b) < DURATION_RANGE
    ensures 0 < Delay(p, a, outOfRange) <= Delay(p, b, outOfRange)
    ensures p.maxInterval > 0 ==> Delay(p, b, outOfRange) <= p.maxInterval
  {
    hide Ideal;
    IdealMonotone(p, a, b);
    FloorMonotone(1.0, Ideal(p, a));
    FloorMonotone(Ideal(p, a), Ideal(p, b));
  }

  lemma FloorMonotone(x: real, y: real)
    requires x <= y
    ensures x.Floor <= y.Floor
  {
  }

  /** A 64-bit duration. */
  predicate IsDuration(d: int) {
    -DURATION_RANGE <= d as real < DURATION_RANGE
  }

  /**
   The clamp meets the documented min(ideal, max), or the plain power without a maximum, exactly when
   the conversion was in range or the platform saturates at least to a maximum there is. On amd64 an
   out-of-range conversion yields the smallest integer, so the delay comes out negative.
   */
  lemma ClampExact(p: RetryPolicy, attempt: int, outOfRange: int)
    requires IsDuration(p.maxInterval) && IsDuration(outOfRange)
    ensures Delay(p, attempt, outOfRange) == Clamp(Ideal(p, attempt).Floor, p.maxInterval)
            <==> Ideal(p, attempt) < DURATION_RANGE || (p.maxInterval > 0 && outOfRange >= p.maxInterval)
  {
    hide Ideal;
    if Ideal(p, attempt) >= DURATION_RANGE {
      assert Ideal(p, attempt).Floor >= 0x8000_0000_0000_0000;
      assert outOfRange < 0x8000_0000_0000_0000;
    }
  }

  /** Unlimited doubling from one second leaves the 64-bit range at attempt 35. */
  lemma OverflowCounterexample()
    ensures var p := RetryPolicy(SECOND, 2.0, 100 * SECOND, 0);
            CanRetry(p, 35) && Delay(p, 35, -0x8000_0000_0000_0000) < 0
  {
    PowAdd(2.0, 8, 0);
    PowAdd(2.0, 8, 8);
    PowAdd(2.0, 16, 16);
    PowAdd(2.0, 32, 2);
    PowOfTwo();
  }

  lemma {:induction false} PowAdd(c: real, m: nat, n: nat)
    ensures Pow(c, m + n) == Pow(c, m) * Pow(c, n)
  {
    if n > 0 {
      PowAdd(c, m, n - 1);
      assert Pow(c, m + n) == Pow(c, m + n - 1) * c;
      Associate(Pow(c, m), Pow(c, n - 1), c);
    }
  }

  lemma Associate(x: real, y: real, z: real)
    ensures x * y * z == x * (y * z)
  {
  }

  lemma PowOfTwo()
    ensures Pow(2.0, 2) == 4.0 && Pow(2.0, 8) == 256.0
  {
    assert Pow(2.0, 1) == 2.0;
    assert Pow(2.0, 2) == 4.0;
    assert Pow(2.0, 3) == 8.0;
    assert Pow(2.0, 4) == 16.0;
    assert Pow(2.0, 5) == 32.0;
    assert Pow(2.0, 6) == 64.0;
    assert Pow(2.0, 7) == 128.0;
  }

  /** Every retry the default policy allows stays in range: 1, 2, 4 and 8 seconds. */
  lemma DefaultInRange(attempt: int)
    requires 1 <= attempt && CanRetry(DEFAULT_POLICY, attempt)
    ensures Ideal(DEFAULT_POLICY, attempt) < DURATION_RANGE
    ensures Ideal(DEFAULT_POLICY, attempt) <= 8.0 * SECOND as real
  {
    assert Pow(2.0, 1) == 2.0;
    assert Pow(2.0, 2) == 4.0;
    assert Pow(2.0, 3) == 8.0;
    PowGrows(2.0, attempt - 1, 3);
  }
}
