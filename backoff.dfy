/** backoff/backoff.go: the two backoff strategies behind the `Backoff`
    interface, each a pure function from a retry index to a wait (a
    `time.Duration`, in nanoseconds). */
module Backoff {
  import opened Common

  /** The strategy and its immutable configuration. `Constant` keeps the
      interval in nanoseconds; `Exponential` keeps whole milliseconds and a
      whole-number growth factor. */
  datatype Backoff =
    | Constant(interval: int)
    | Exponential(factor: nat, initialMs: int, maxMs: int)

  function Min(a: int, b: int): int { if a <= b then a else b }

  /** `NewConstantBackoff`. */
  function NewConstantBackoff(interval: int): Backoff
  {
    Constant(interval)
  }

  /** `NewExponentialBackoff`: both timeouts are cut down to whole
      milliseconds with Go's truncating division. */
  function NewExponentialBackoff(initial: int, max: int, factor: nat): (b: Backoff)
    ensures b.Exponential? && b.factor == factor
    ensures initial >= 0 ==> b.initialMs * Millisecond <= initial < (b.initialMs + 1) * Millisecond
    ensures initial < 0 ==> (b.initialMs - 1) * Millisecond < initial <= b.initialMs * Millisecond
    ensures max >= 0 ==> b.maxMs * Millisecond <= max < (b.maxMs + 1) * Millisecond
    ensures max < 0 ==> (b.maxMs - 1) * Millisecond < max <= b.maxMs * Millisecond
  {
    Exponential(factor, GoDiv(initial, Millisecond), GoDiv(max, Millisecond))
  }

  /** `Next(retry)` of either strategy. The "constant" strategy shifts the
      interval left by `retry` bits in int64 arithmetic, so it doubles on
      every retry and wraps around on overflow; the exponential strategy
      adds `factor^retry` milliseconds to the initial timeout and caps the
      sum at the maximum. Retry indices up to 0 wait nothing. */
  function Next(b: Backoff, retry: int): (d: int)
    ensures retry <= 0 ==> d == 0
    ensures b.Constant? ==> IsInt64(d)
    ensures b.Exponential? && retry > 0 ==> d <= b.maxMs * Millisecond
  {
    if retry <= 0 then 0
    else match b
      case Constant(interval) => Wrap64(interval * Pow(2, retry))
      case Exponential(factor, initialMs, maxMs) =>
        Min(initialMs + Pow(factor, retry), maxMs) * Millisecond
  }

  lemma {:induction false} PowAdd(b: int, m: nat, n: nat)
    ensures Pow(b, m + n) == Pow(b, m) * Pow(b, n)
  {
    if n > 0 {
      PowAdd(b, m, n - 1);
    }
  }

  lemma {:induction false} PowMonotone(f: nat, m: nat, n: nat)
    requires f >= 1 && m <= n
    ensures 1 <= Pow(f, m) <= Pow(f, n)
  {
    if n > m {
      PowMonotone(f, m, n - 1);
    } else if m > 0 {
      PowMonotone(f, m - 1, m - 1);
    }
  }

  lemma WrapCongruent(a: int, b: int)
    requires (a - b) % TwoTo64 == 0
    ensures Wrap64(a) == Wrap64(b)
  {
    var q := (a - b) / TwoTo64;
    assert a == b + q * TwoTo64;
    assert a % TwoTo64 == b % TwoTo64;
  }

  /** Below overflow the "constant" strategy waits `interval * 2^retry`:
      100ms gives 800ms at retry 3. */
  lemma ConstantIsDoubling(interval: int, retry: int)
    requires retry >= 1 && IsInt64(interval * Pow(2, retry))
    ensures Next(Constant(interval), retry) == interval * Pow(2, retry)
  {
  }

  lemma ConstantExample()
    ensures Next(NewConstantBackoff(100 * Millisecond), 3) == 800 * Millisecond
  {
    ConstantIsDoubling(100 * Millisecond, 3);
  }

  /** Each retry doubles the previous wait in int64 arithmetic, and exactly
      while the doubled wait still fits in an int64. */
  lemma ConstantDoublesEachRetry(interval: int, retry: int)
    requires retry >= 1
    ensures Next(Constant(interval), retry + 1) == Wrap64(2 * Next(Constant(interval), retry))
    ensures IsInt64(2 * Next(Constant(interval), retry)) ==>
      Next(Constant(interval), retry + 1) == 2 * Next(Constant(interval), retry)
  {
    var p := Pow(2, retry);
    var x := interval * p;
    PowAdd(2, retry, 1);
    assert interval * Pow(2, retry + 1) == 2 * x by {
      MulRegroup(interval, 2, p);
    }
    var w := Wrap64(x);
    var k := (x - w) / TwoTo64;
    assert x - w == k * TwoTo64;
    ModUnique(2 * x - 2 * w, 2 * k, 0, TwoTo64);
    WrapCongruent(2 * x, 2 * w);
  }

  /** Non-decreasing for a non-negative interval, as long as the larger
      wait has not overflowed. */
  lemma ConstantMonotone(interval: int, r1: int, r2: int)
    requires interval >= 0 && 1 <= r1 <= r2
    requires interval * Pow(2, r2) <= MaxInt64
    ensures 0 <= Next(Constant(interval), r1) <= Next(Constant(interval), r2)
  {
    PowMonotone(2, r1, r2);
    var p1, p2 := Pow(2, r1), Pow(2, r2);
    MulMonotone(interval, p1, p2);
    assert 0 <= interval * p1 by { MulMonotone(interval, 0, p1); }
    ConstantIsDoubling(interval, r1);
    ConstantIsDoubling(interval, r2);
  }

  lemma MulMonotone(a: int, x: int, y: int)
    requires a >= 0 && x <= y
    ensures a * x <= a * y
  {
  }

  /** From retry 64 on, every bit of the interval has been shifted out and
      the "constant" strategy waits nothing at all. */
  lemma ConstantVanishes(interval: int, retry: int)
    requires retry >= 64
    ensures Next(Constant(interval), retry) == 0
  {
    var p := Pow(2, retry - 64);
    PowAdd(2, 64, retry - 64);
    TwoTo64IsPow();
    assert Pow(2, retry) == TwoTo64 * p;
    assert interval * Pow(2, retry) == (interval * p) * TwoTo64 by {
      MulRegroup(interval, TwoTo64, p);
    }
    ModUnique(interval * Pow(2, retry), interval * p, 0, TwoTo64);
    WrapCongruent(interval * Pow(2, retry), 0);
  }

  lemma TwoTo64IsPow()
    ensures Pow(2, 64) == TwoTo64
  {
    PowAdd(2, 8, 8);
    assert Pow(2, 16) == 0x1_0000;
    PowAdd(2, 16, 16);
    assert Pow(2, 32) == 0x1_0000_0000;
    PowAdd(2, 32, 32);
  }

  lemma MulRegroup(a: int, m: int, p: int)
    ensures a * (m * p) == (a * p) * m
  {
  }

  /** A factor of 2 or more outgrows the retry index itself. */
  lemma {:induction false} PowOutgrows(f: nat, r: nat)
    requires f >= 2
    ensures Pow(f, r) >= r + 1
  {
    if r > 0 {
      PowOutgrows(f, r - 1);
      var p := Pow(f, r - 1);
      MulMonotone(p, 2, f);
    }
  }

  /** With a factor of at least 2 the exponential wait reaches its maximum
      after at most `max - initial` retries and stays there. */
  lemma ExponentialCapped(b: Backoff, retry: int)
    requires b.Exponential? && b.factor >= 2
    requires retry >= 1 && retry >= b.maxMs - b.initialMs
    ensures Next(b, retry) == b.maxMs * Millisecond
  {
    PowOutgrows(b.factor, retry);
  }

  /** The scenario of backoff_test.go: initial 1s, maximum 2s, factor 2. */
  lemma ExponentialExample()
    ensures NewExponentialBackoff(Second, 2 * Second, 2) == Exponential(2, 1000, 2000)
    ensures Next(Exponential(2, 1000, 2000), 1) == 1002 * Millisecond
    ensures Next(Exponential(2, 1000, 2000), 2) == 1004 * Millisecond
    ensures Next(Exponential(2, 1000, 2000), 10) == 2000 * Millisecond
  {
    assert Pow(2, 10) == 1024 by {
      PowAdd(2, 5, 5);
    }
  }

  /** With a factor of at least 1 the exponential wait never shrinks from
      one retry to a later one. */
  lemma ExponentialMonotone(b: Backoff, r1: int, r2: int)
    requires b.Exponential? && b.factor >= 1 && 1 <= r1 <= r2
    ensures Next(b, r1) <= Next(b, r2)
  {
    PowMonotone(b.factor, r1, r2);
  }
}
