/** Values shared by every package of the model: Go's nil-able results,
    Go `error` values and the fixed-width integer arithmetic of Go's `int64`
    (which `time.Duration` is built on). */
module Common {

  /** A value that may be absent; `None` stands for Go's `nil`. */
  datatype Option<+T> = None | Some(value: T)

  /** A non-nil Go `error`; `msg` is what its `Error()` method returns. */
  datatype Error = Error(msg: string)

  /** A Go `(value, error)` pair where exactly one side is meaningful. */
  datatype Result<+T> = Ok(value: T) | Err(error: Error)

  /** How a Go call that may `panic` ends: it returns, or it panics with a
      value whose text is `reason`. */
  datatype Outcome<+T> = Returned(value: T) | Panicked(reason: string)

  /** The panic of reading a field or calling a method through a nil
      pointer or a nil interface. */
  const NilDereference: string := "runtime error: invalid memory address or nil pointer dereference"

  /** `errors.Wrap(err, message)` of a non-nil error: the message, a colon
      and the cause's text. */
  function Wrap(e: Error, message: string): (w: Error)
    ensures w.msg == message + ": " + e.msg
  {
    Error(message + ": " + e.msg)
  }

  const TwoTo64: int := 0x1_0000_0000_0000_0000
  const MinInt64: int := -0x8000_0000_0000_0000
  const MaxInt64: int := 0x7FFF_FFFF_FFFF_FFFF
  const MaxUint64: int := 0xFFFF_FFFF_FFFF_FFFF

  predicate IsInt64(x: int) { MinInt64 <= x <= MaxInt64 }

  /** One time unit of Go's `time` package, in nanoseconds. */
  const Millisecond: int := 1_000_000
  const Second: int := 1_000_000_000
  const Minute: int := 60_000_000_000
  const Hour: int := 3_600_000_000_000

  /** `b` raised to the power `e`. */
  function Pow(b: int, e: nat): int
  {
    if e == 0 then 1 else b * Pow(b, e - 1)
  }

  /** The int64 that Go's two's-complement arithmetic keeps of the exact
      integer `x`: the unique int64 congruent to `x` modulo 2^64. */
  function Wrap64(x: int): (r: int)
    ensures IsInt64(r)
    ensures (x - r) % TwoTo64 == 0
    ensures IsInt64(x) ==> r == x
  {
    var m := x % TwoTo64;
    if m > MaxInt64 then m - TwoTo64 else m
  }

  const TwoTo32: int := 0x1_0000_0000
  const MinInt32: int := -0x8000_0000
  const MaxInt32: int := 0x7FFF_FFFF

  predicate IsInt32(x: int) { MinInt32 <= x <= MaxInt32 }

  /** Go's conversion `int32(x)`: the unique int32 congruent to `x` modulo
      2^32. */
  function Wrap32(x: int): (r: int)
    ensures IsInt32(r)
    ensures (x - r) % TwoTo32 == 0
    ensures IsInt32(x) ==> r == x
  {
    var m := x % TwoTo32;
    if m > MaxInt32 then m - TwoTo32 else m
  }

  /** Go's integer division by a positive divisor, which truncates toward
      zero (Dafny's `/` rounds toward negative infinity for a negative `a`). */
  function GoDiv(a: int, b: int): (q: int)
    requires b > 0
    ensures a >= 0 ==> 0 <= a - q * b < b
    ensures a < 0 ==> -b < a - q * b <= 0
  {
    if a >= 0 then a / b else -((-a) / b)
  }

  /** `x == k * n + r` with `0 <= r < n` determines `x % n`. */
  lemma ModUnique(x: int, k: int, r: int, n: int)
    requires n > 0 && 0 <= r < n && x == k * n + r
    ensures x % n == r
  {
    var d := k - x / n;
    assert x == (x / n) * n + x % n;
    assert d * n == k * n - (x / n) * n;
  }

  /** The guarded assignments of configuration defaults: `v` when it is
      usable, else the default `d`. */
  function OrIfEmpty(v: string, d: string): string
  {
    if v == "" then d else v
  }

  function OrIfNotPositive(v: int, d: int): int
  {
    if v <= 0 then d else v
  }

  function OrIfZero(v: int, d: int): int
  {
    if v == 0 then d else v
  }

  /** The first of the calls `0 .. n-1` of an oracle that fails, if any. */
  function FirstFailure(dial: nat -> Result<int>, n: nat): (k: Option<nat>)
    ensures k.None? <==> forall j :: 0 <= j < n ==> dial(j).Ok?
    ensures k.Some? ==> k.value < n && dial(k.value).Err?
    ensures k.Some? ==> forall j :: 0 <= j < k.value ==> dial(j).Ok?
  {
    if n == 0 then None
    else if FirstFailure(dial, n - 1).Some? then FirstFailure(dial, n - 1)
    else if dial(n - 1).Err? then Some(n - 1)
    else None
  }

  lemma {:induction false} FirstFailureStays(dial: nat -> Result<int>, m: nat, n: nat)
    requires m <= n && FirstFailure(dial, m).Some?
    ensures FirstFailure(dial, n) == FirstFailure(dial, m)
    decreases n - m
  {
    if m < n {
      FirstFailureStays(dial, m + 1, n);
    }
  }
}
