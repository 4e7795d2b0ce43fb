/**
  Decimal digits and 64-bit integers as Go's `strconv` and integer arithmetic
  treat them: the digit strings that `strconv.ParseInt(s, 10, 64)` and
  `strconv.Atoi` accept, and the two's-complement wrap-around of `int64`.
 */
module Decimal {
  import opened Wrappers

  const TwoTo63: int := 0x8000_0000_0000_0000
  const MinInt64: int := -TwoTo63
  const MaxInt64: int := TwoTo63 - 1

  predicate IsDigit(c: char) { '0' <= c <= '9' }

  predicate AllDigits(s: string) { forall i :: 0 <= i < |s| ==> IsDigit(s[i]) }

  function DigitValue(c: char): (n: nat)
    requires IsDigit(c)
    ensures n < 10
  {
    c as int - '0' as int
  }

  function DigitChar(n: nat): (c: char)
    requires n < 10
    ensures IsDigit(c) && DigitValue(c) == n
  {
    ('0' as int + n) as char
  }

  /** The number a string of decimal digits denotes, most significant digit first. */
  function DecimalValue(s: string): nat
    requires AllDigits(s)
  {
    if s == [] then 0 else DecimalValue(s[..|s| - 1]) * 10 + DigitValue(s[|s| - 1])
  }

  /** The shortest decimal spelling of `n` (what Go's `%d` prints for a non-negative value). */
  function DecimalString(n: nat): (s: string)
    ensures s != [] && AllDigits(s)
  {
    if n < 10 then [DigitChar(n)] else DecimalString(n / 10) + [DigitChar(n % 10)]
  }

  lemma {:induction false} DecimalRoundTrip(n: nat)
    ensures DecimalValue(DecimalString(n)) == n
  {
    var s := DecimalString(n);
    if n >= 10 {
      DecimalRoundTrip(n / 10);
      assert s[..|s| - 1] == DecimalString(n / 10);
    }
  }

  /** Two's-complement wrap-around of an unbounded integer into `int64`. */
  function WrapInt64(x: int): (r: int)
    ensures MinInt64 <= r <= MaxInt64
    ensures (x - r) % (2 * TwoTo63) == 0
    ensures MinInt64 <= x <= MaxInt64 ==> r == x
  {
    (x + TwoTo63) % (2 * TwoTo63) - TwoTo63
  }

  /**
    `strconv.ParseInt(s, 10, 64)`, which is also what `strconv.Atoi` does on a
    64-bit platform: an optional `+` or `-`, then one or more decimal digits
    and nothing else (no spaces, no underscores in base 10), and a value that
    fits in `int64`; anything else is an error.
   */
  function ParseInt64(s: string): (r: Option<int>)
    ensures r.Some? ==> MinInt64 <= r.value <= MaxInt64
  {
    var neg := |s| > 0 && s[0] == '-';
    var digits := if |s| > 0 && (s[0] == '-' || s[0] == '+') then s[1..] else s;
    if digits == [] || !AllDigits(digits) then None
    else
      var v: int := if neg then -(DecimalValue(digits) as int) else DecimalValue(digits);
      if MinInt64 <= v <= MaxInt64 then Some(v) else None
  }

  /** The decimal spelling Go's `strconv.FormatInt(v, 10)` gives. */
  function FormatInt(v: int): (s: string)
  {
    if v < 0 then "-" + DecimalString(-v) else DecimalString(v)
  }

  /** Every `int64` survives a round trip through its decimal spelling. */
  lemma ParseFormatInt(v: int)
    requires MinInt64 <= v <= MaxInt64
    ensures ParseInt64(FormatInt(v)) == Some(v)
  {
    var s := FormatInt(v);
    if v < 0 {
      var digits := DecimalString(-v);
      DecimalRoundTrip(-v);
      assert s[0] == '-' && s[1..] == digits;
    } else {
      DecimalRoundTrip(v);
      assert IsDigit(s[0]);
    }
  }

  /** What `ParseInt64` accepts is exactly an optional sign followed by digits. */
  lemma ParseInt64Syntax(s: string)
    requires ParseInt64(s).Some?
    ensures |s| > 0
    ensures IsDigit(s[0]) || s[0] == '-' || s[0] == '+'
    ensures AllDigits(s[1..])
  {
  }

  /** A decimal spelling of a value beyond `int64` is a range error, not a wrapped value. */
  lemma ParseInt64RejectsOverflow(n: nat)
    requires n > MaxInt64
    ensures ParseInt64(DecimalString(n)) == None
  {
    DecimalRoundTrip(n);
  }

  lemma ParseInt64Examples()
    ensures ParseInt64("") == None
    ensures ParseInt64("42") == Some(42)
    ensures ParseInt64("-7") == Some(-7)
    ensures ParseInt64("+3") == Some(3)
    ensures ParseInt64("-") == None
    ensures ParseInt64(" 1") == None
    ensures ParseInt64("1_000") == None
  {
    assert !IsDigit(' ');
    assert !IsDigit('_') && "1_000"[1] == '_';
    assert "42"[..1] == "4";
    assert "-7"[1..] == "7";
    assert "+3"[1..] == "3";
  }
}
