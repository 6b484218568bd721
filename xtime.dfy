/** util/xtime/time.go: a Unix-seconds `Time` that scans from the database,
    and a `Duration` that parses from configuration text and shrinks to a
    context's deadline. */
module XTime {
  import opened Common
  import Strconv

  /** A `time.Time`, by its Unix seconds and nanoseconds within the second. */
  datatype Instant = Instant(unixSec: int, nsec: int)

  /** `time.Time.Unix()`. */
  function Unix(i: Instant): int
  {
    i.unixSec
  }

  /** `time.Unix(sec, 0)`. */
  function UnixInstant(sec: int): (i: Instant)
    ensures Unix(i) == sec && i.nsec == 0
  {
    Instant(sec, 0)
  }

  /** The dynamic value handed to `Scan`. */
  datatype ScanInput = TimeInput(instant: Instant) | StringInput(text: string) | OtherInput

  /** What `Scan` leaves in the receiver and returns, from the receiver's
      old value and the input. */
  function ScanOutcome(t: int, input: ScanInput): (r: (int, Option<Strconv.NumError>))
    ensures input.TimeInput? ==> r == (Unix(input.instant), None)
    ensures input.StringInput? ==>
      r == (Strconv.ParseInt(input.text).value, Strconv.ParseInt(input.text).err)
    ensures input.OtherInput? ==> r == (t, None)
  {
    match input
    case TimeInput(i) => (Unix(i), None)
    case StringInput(s) =>
      var p := Strconv.ParseInt(s);
      (p.value, p.err)
    case OtherInput => (t, None)
  }

  /** A `*Time` receiver. */
  class Time {
    var t: int

    constructor (t0: int)
      ensures t == t0
    {
      t := t0;
    }

    /** `Scan`: a `time.Time` stores its Unix seconds; a string stores what
        `strconv.ParseInt(s, 10, 64)` returns, even on error, and returns
        that error; any other value changes nothing. */
    method Scan(input: ScanInput) returns (err: Option<Strconv.NumError>)
      modifies this
      ensures (t, err) == ScanOutcome(old(t), input)
    {
      match input
      case TimeInput(i) =>
        t := Unix(i);
        err := None;
      case StringInput(s) =>
        var p := Strconv.ParseInt(s);
        t := p.value;
        err := p.err;
      case OtherInput =>
        err := None;
    }
  }

  /** `Time.Time()`. */
  function TimeOf(t: int): (i: Instant)
    ensures Unix(i) == t
  {
    UnixInstant(t)
  }

  /** `Time.Value()`: the same instant as `Time()`, and never an error. */
  function Value(t: int): (r: (Instant, Option<Error>))
    ensures r.0 == TimeOf(t) && r.1.None?
  {
    (UnixInstant(t), None)
  }

  /** Scanning the instant a `Time` converts to gives that `Time` back. */
  lemma ScanTimeRoundTrip(t: int, old_t: int)
    ensures ScanOutcome(old_t, TimeInput(TimeOf(t))) == (t, None)
    ensures ScanOutcome(old_t, TimeInput(Value(t).0)) == (t, None)
  {
  }

  /** Scanning the decimal text of an int64 `Time` gives it back without
      error; scanning digits followed by a character that is not a digit
      or a sign stores 0 and fails. */
  lemma ScanTextRoundTrip(t: int, old_t: int, digits: string, c: char)
    requires IsInt64(t)
    requires forall i :: 0 <= i < |digits| ==> Strconv.IsDigit(digits[i])
    requires Strconv.Horner(digits, 0) <= MaxUint64
    requires !Strconv.IsDigit(c) && c != '+' && c != '-'
    ensures ScanOutcome(old_t, StringInput(Strconv.Itoa(t))) == (t, None)
    ensures ScanOutcome(old_t, StringInput(digits + [c])) == (0, Some(Strconv.ErrSyntax))
  {
    Strconv.ParseIntItoa(t);
    Strconv.ParseIntRejectsLetter(digits, c);
  }

  /** A `*Duration` receiver, in nanoseconds. */
  class Duration {
    var d: int

    constructor (d0: int)
      ensures d == d0
    {
      d := d0;
    }

    /** `UnmarshalText`, given what `time.ParseDuration` made of the text:
        the parsed duration is stored on success, and on error the receiver
        is left as it was and the error returned. */
    method UnmarshalText(parsed: Result<int>) returns (err: Option<Error>)
      modifies this
      ensures parsed.Ok? ==> d == parsed.value && err.None?
      ensures parsed.Err? ==> d == old(d) && err == Some(parsed.error)
    {
      match parsed
      case Ok(v) =>
        d := v;
        err := None;
      case Err(e) =>
        err := Some(e);
    }
  }

  /** The context `Shrink` hands back: the caller's own, or a new one with
      a timeout. */
  datatype ContextChoice = Original | WithTimeout(timeout: int)

  /** `Shrink(c)`, given the time left until `c`'s deadline, if it has one:
      a sooner deadline wins and the caller's context is kept; otherwise the
      duration itself and a derived context with that timeout. */
  function Shrink(d: int, remaining: Option<int>): (r: (int, ContextChoice))
    ensures r.0 <= d
    ensures r.1.Original? <==> remaining.Some? && remaining.value < d
    ensures r.1.Original? ==> r.0 == remaining.value
    ensures r.1.WithTimeout? ==> r.0 == d && r.1.timeout == d
    ensures remaining.Some? ==> r.0 == Min(d, remaining.value)
  {
    if remaining.Some? && remaining.value < d then (remaining.value, Original)
    else (d, WithTimeout(d))
  }

  function Min(a: int, b: int): int
  {
    if a <= b then a else b
  }

  /** Shrinking twice against the same deadline is shrinking once. */
  lemma ShrinkIdempotent(d: int, remaining: Option<int>)
    ensures Shrink(Shrink(d, remaining).0, remaining).0 == Shrink(d, remaining).0
  {
  }
}
