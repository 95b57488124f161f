/**
 * Decimal conversion between strings and 64-bit integers, as Go's
 * `strconv.Atoi` parses a port number and `fmt.Sprintf("%d", …)` formats a
 * refresh interval.
 */
module StrConv {
  import opened Wrappers

  const MinInt64: int := -0x8000_0000_0000_0000
  const MaxInt64: int := 0x7FFF_FFFF_FFFF_FFFF

  predicate IsDigit(c: char) { '0' <= c <= '9' }

  predicate AllDigits(s: string) { forall i :: 0 <= i < |s| ==> IsDigit(s[i]) }

  function DigitValue(c: char): (d: nat)
    requires IsDigit(c)
    ensures d < 10
  {
    (c as int) - ('0' as int)
  }

  function DigitChar(d: nat): (c: char)
    requires d < 10
    ensures IsDigit(c) && DigitValue(c) == d
  {
    (('0' as int) + d) as char
  }

  /** The value of a string of decimal digits, accumulated left to right
      (`n = n*10 + digit`). */
  function DecimalValue(s: string): nat
    requires AllDigits(s)
  {
    if s == [] then 0 else DecimalValue(s[..|s| - 1]) * 10 + DigitValue(s[|s| - 1])
  }

  /** True iff `s` has an optional leading sign followed by at least one digit. */
  predicate WellFormed(s: string)
  {
    |s| > 0 && var body := Unsigned(s); |body| > 0 && AllDigits(body)
  }

  /** `s` without its leading `+` or `-`, if any. */
  function Unsigned(s: string): string
  {
    if |s| > 0 && (s[0] == '-' || s[0] == '+') then s[1..] else s
  }

  /** The signed value of a well-formed decimal string, range not yet checked. */
  function SignedValue(s: string): int
    requires WellFormed(s)
  {
    var v: int := DecimalValue(Unsigned(s));
    if s[0] == '-' then -v else v
  }

  /**
   * `strconv.Atoi` on a 64-bit platform: an optional sign, one or more ASCII
   * digits, and a value that fits `int64`; anything else is an error (`None`).
   */
  function Atoi(s: string): (r: Option<int>)
    ensures r.Some? <==> WellFormed(s) && MinInt64 <= SignedValue(s) <= MaxInt64
    ensures r.Some? ==> r.value == SignedValue(s) && MinInt64 <= r.value <= MaxInt64
  {
    if !WellFormed(s) then None
    else if MinInt64 <= SignedValue(s) <= MaxInt64 then Some(SignedValue(s))
    else None
  }

  /** The shortest decimal digits of `n`. */
  function Digits(n: nat): (s: string)
    ensures |s| > 0 && AllDigits(s)
  {
    if n < 10 then [DigitChar(n)] else Digits(n / 10) + [DigitChar(n % 10)]
  }

  /** `fmt.Sprintf("%d", n)`: a minus sign for negatives, then the digits. */
  function Itoa(n: int): string
  {
    if n < 0 then "-" + Digits(-n) else Digits(n)
  }

  lemma {:induction false} DecimalValueOfDigits(n: nat)
    ensures DecimalValue(Digits(n)) == n
  {
    var s := Digits(n);
    if n >= 10 {
      DecimalValueOfDigits(n / 10);
      assert s[..|s| - 1] == Digits(n / 10);
    }
  }

  /** Formatting an int64 and parsing it back gives the same value. */
  lemma AtoiItoa(n: int)
    requires MinInt64 <= n <= MaxInt64
    ensures Atoi(Itoa(n)) == Some(n)
  {
    var s := Itoa(n);
    if n < 0 {
      DecimalValueOfDigits(-n);
      assert Unsigned(s) == Digits(-n);
    } else {
      DecimalValueOfDigits(n);
      var d := Digits(n);
      assert IsDigit(d[0]);
      assert Unsigned(s) == d;
    }
  }
}
