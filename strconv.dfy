/** The two conversions of Go's `strconv` package the model relies on:
    decimal rendering of an integer (`Itoa`, `FormatInt(x, 10)`) and
    `ParseInt(s, 10, 64)` with its syntax and range errors. They are library
    code; they are written out here because `ecode` and `xtime` promise
    things that hold only because of how they behave. */
module Strconv {
  import opened Common

  /** The two kinds of `*strconv.NumError`. */
  datatype NumError = ErrSyntax | ErrRange

  /** What `ParseInt` returns: a value and a possibly-nil error. */
  datatype Parsed = Parsed(value: int, err: Option<NumError>)

  predicate IsDigit(c: char) { '0' <= c <= '9' }

  function DigitValue(c: char): nat
    requires IsDigit(c)
  {
    c as int - '0' as int
  }

  function DigitChar(d: nat): (c: char)
    requires d < 10
    ensures IsDigit(c) && DigitValue(c) == d
  {
    ('0' as int + d) as char
  }

  /** The decimal digits of `n`, most significant first, without leading zeros. */
  function Digits(n: nat): (s: string)
    ensures |s| > 0 && forall i :: 0 <= i < |s| ==> IsDigit(s[i])
    ensures n >= 10 ==> s[0] != '0'
  {
    if n < 10 then [DigitChar(n)] else Digits(n / 10) + [DigitChar(n % 10)]
  }

  /** `strconv.Itoa(n)`, equally `strconv.FormatInt(n, 10)`. */
  function Itoa(n: int): (s: string)
    ensures |s| > 0
    ensures s[0] == '-' <==> n < 0
    ensures s[0] != '+'
  {
    if n < 0 then "-" + Digits(-n) else Digits(n)
  }

  /** Horner evaluation of a digit string, starting from the value `acc`
      already read. */
  function Horner(s: string, acc: nat): nat
    requires forall i :: 0 <= i < |s| ==> IsDigit(s[i])
  {
    if s == [] then acc else Horner(s[1..], acc * 10 + DigitValue(s[0]))
  }

  /** The digit loop of `strconv.ParseUint(s, 10, 64)` after `acc` has been
      read: the first non-digit is a syntax error with value 0, and the first
      digit that takes the value past 2^64-1 is a range error with value
      2^64-1, whatever follows it. */
  function ParseUintFrom(s: string, acc: nat): (r: Parsed)
    requires acc <= MaxUint64
    ensures 0 <= r.value <= MaxUint64
    ensures r.err == Some(ErrSyntax) ==> r.value == 0
    ensures r.err == Some(ErrRange) ==> r.value == MaxUint64
  {
    if s == [] then Parsed(acc, None)
    else if !IsDigit(s[0]) then Parsed(0, Some(ErrSyntax))
    else if acc * 10 + DigitValue(s[0]) > MaxUint64 then Parsed(MaxUint64, Some(ErrRange))
    else ParseUintFrom(s[1..], acc * 10 + DigitValue(s[0]))
  }

  /** `strconv.ParseUint(s, 10, 64)`: the empty string is a syntax error. */
  function ParseUint(s: string): (r: Parsed)
    ensures s == [] ==> r == Parsed(0, Some(ErrSyntax))
    ensures 0 <= r.value <= MaxUint64
    ensures r.err == Some(ErrSyntax) ==> r.value == 0
    ensures r.err == Some(ErrRange) ==> r.value == MaxUint64
  {
    if s == [] then Parsed(0, Some(ErrSyntax)) else ParseUintFrom(s, 0)
  }

  /** `strconv.ParseInt(s, 10, 64)`: an optional sign, then `ParseUint` of
      the rest; a syntax error yields 0, an out-of-range value yields the
      nearest int64 bound, and a nil error comes with an int64 value. */
  function ParseInt(s: string): (r: Parsed)
    ensures r.err == Some(ErrSyntax) ==> r.value == 0
    ensures r.err == Some(ErrRange) ==> r.value == MaxInt64 || r.value == MinInt64
    ensures IsInt64(r.value)
    ensures s == [] ==> r.err == Some(ErrSyntax)
  {
    if s == [] then Parsed(0, Some(ErrSyntax))
    else
      var neg := s[0] == '-';
      var body := if s[0] == '+' || s[0] == '-' then s[1..] else s;
      var u := ParseUint(body);
      if u.err == Some(ErrSyntax) then Parsed(0, Some(ErrSyntax))
      else if !neg && u.value > MaxInt64 then Parsed(MaxInt64, Some(ErrRange))
      else if neg && u.value > -MinInt64 then Parsed(MinInt64, Some(ErrRange))
      else Parsed(if neg then -u.value else u.value, None)
  }

  lemma {:induction false} HornerAppend(s: string, c: char, acc: nat)
    requires forall i :: 0 <= i < |s| ==> IsDigit(s[i])
    requires IsDigit(c)
    ensures forall i :: 0 <= i < |s + [c]| ==> IsDigit((s + [c])[i])
    ensures Horner(s + [c], acc) == Horner(s, acc) * 10 + DigitValue(c)
  {
    if s != [] {
      assert (s + [c])[1..] == s[1..] + [c];
      HornerAppend(s[1..], c, acc * 10 + DigitValue(s[0]));
    }
  }

  lemma {:induction false} HornerDigits(n: nat)
    ensures Horner(Digits(n), 0) == n
  {
    if n >= 10 {
      HornerDigits(n / 10);
      HornerAppend(Digits(n / 10), DigitChar(n % 10), 0);
    }
  }

  lemma {:induction false} HornerGrows(s: string, acc: nat)
    requires forall i :: 0 <= i < |s| ==> IsDigit(s[i])
    ensures Horner(s, acc) >= acc
  {
    if s != [] {
      HornerGrows(s[1..], acc * 10 + DigitValue(s[0]));
    }
  }

  /** The digit loop reads a digit string whose value fits exactly. */
  lemma {:induction false} ParseUintFromDigits(s: string, acc: nat)
    requires forall i :: 0 <= i < |s| ==> IsDigit(s[i])
    requires Horner(s, acc) <= MaxUint64
    ensures acc <= MaxUint64
    ensures ParseUintFrom(s, acc) == Parsed(Horner(s, acc), None)
  {
    HornerGrows(s, acc);
    if s != [] {
      HornerGrows(s[1..], acc * 10 + DigitValue(s[0]));
      ParseUintFromDigits(s[1..], acc * 10 + DigitValue(s[0]));
    }
  }

  /** Round trip: parsing the decimal rendering of an int64 gives it back
      with a nil error. */
  lemma ParseIntItoa(n: int)
    requires IsInt64(n)
    ensures ParseInt(Itoa(n)) == Parsed(n, None)
  {
    var m: nat := if n < 0 then -n else n;
    HornerDigits(m);
    ParseUintFromDigits(Digits(m), 0);
    if n < 0 {
      assert Itoa(n)[1..] == Digits(m);
    }
  }

  /** A string made of an optional sign and digits whose value is an int64
      parses to that value with a nil error. */
  lemma ParseIntValid(sign: string, digits: string)
    requires sign == "" || sign == "+" || sign == "-"
    requires digits != [] && forall i :: 0 <= i < |digits| ==> IsDigit(digits[i])
    requires IsInt64(if sign == "-" then -(Horner(digits, 0) as int) else Horner(digits, 0))
    ensures ParseInt(sign + digits) ==
      Parsed(if sign == "-" then -(Horner(digits, 0) as int) else Horner(digits, 0), None)
  {
    ParseUintFromDigits(digits, 0);
    if sign != "" {
      assert (sign + digits)[1..] == digits;
    } else {
      assert sign + digits == digits;
      assert IsDigit(digits[0]);
    }
  }

  /** A string holding a character that is not a digit after the optional
      sign, before any overflow, is a syntax error with value 0. */
  lemma ParseIntRejectsLetter(digits: string, c: char)
    requires forall i :: 0 <= i < |digits| ==> IsDigit(digits[i])
    requires Horner(digits, 0) <= MaxUint64
    requires !IsDigit(c) && c != '+' && c != '-'
    ensures ParseInt(digits + [c]) == Parsed(0, Some(ErrSyntax))
  {
    ParseUintFromBadTail(digits, c, 0);
  }

  lemma {:induction false} ParseUintFromBadTail(s: string, c: char, acc: nat)
    requires forall i :: 0 <= i < |s| ==> IsDigit(s[i])
    requires Horner(s, acc) <= MaxUint64
    requires !IsDigit(c)
    ensures acc <= MaxUint64
    ensures ParseUintFrom(s + [c], acc) == Parsed(0, Some(ErrSyntax))
  {
    HornerGrows(s, acc);
    if s != [] {
      HornerGrows(s[1..], acc * 10 + DigitValue(s[0]));
      assert (s + [c])[1..] == s[1..] + [c];
      ParseUintFromBadTail(s[1..], c, acc * 10 + DigitValue(s[0]));
    }
  }
}
