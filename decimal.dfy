/**
 * Decimal text of integers, as `printf("%d", ...)` writes it in v2scan.c
 * (the iteration index in output filenames and every sample of a scan
 * file), together with a parser that reads such text back, so that
 * formatting can be shown to lose nothing.
 */
module Decimal {
  import opened Wrappers

  const TWO_31: int := 0x8000_0000
  const TWO_32: int := 0x1_0000_0000

  predicate IsDigit(c: char) {
    '0' <= c <= '9'
  }

  function DigitChar(d: int): (c: char)
    requires 0 <= d < 10
    ensures IsDigit(c) && c as int - '0' as int == d
  {
    "0123456789"[d]
  }

  /** The digits of a natural number, most significant first, without leading zeros. */
  function Digits(n: nat): (s: string)
    ensures |s| >= 1
    ensures forall k :: 0 <= k < |s| ==> IsDigit(s[k])
    ensures s[0] == '0' ==> n == 0
    decreases n
  {
    if n < 10 then [DigitChar(n)] else Digits(n / 10) + [DigitChar(n % 10)]
  }

  /** `%d` of an int: a minus sign for negative values, then the digits of the magnitude. */
  function Format(n: int): (s: string)
    ensures |s| >= 1
    ensures n < 0 <==> s[0] == '-'
    ensures forall k :: 0 < k < |s| ==> IsDigit(s[k])
    ensures n >= 0 ==> forall k :: 0 <= k < |s| ==> IsDigit(s[k])
  {
    if n < 0 then "-" + Digits(-n) else Digits(n)
  }

  /**
   * `%d` applied to a 32-bit unsigned value reads it back as a signed
   * 32-bit int: the low 32 bits of v in two's complement.
   */
  function Int32Of(v: int): (r: int)
    ensures -TWO_31 <= r < TWO_31
    ensures (v - r) % TWO_32 == 0
    ensures 0 <= v < TWO_31 ==> r == v
    ensures TWO_31 <= v < TWO_32 ==> r == v - TWO_32
  {
    var u := v % TWO_32;
    if u >= TWO_31 then u - TWO_32 else u
  }

  /** The value of a non-empty string of digits, read left to right. */
  function ParseDigits(s: string): (r: Option<nat>)
    ensures r.Some? <==> |s| >= 1 && forall k :: 0 <= k < |s| ==> IsDigit(s[k])
    decreases |s|
  {
    if |s| == 0 || !IsDigit(s[|s| - 1]) then None
    else
      var last := s[|s| - 1] as int - '0' as int;
      if |s| == 1 then Some(last)
      else match ParseDigits(s[..|s| - 1])
        case None => None
        case Some(high) => Some(high * 10 + last)
  }

  /** Reads the text `Format` writes: an optional minus sign, then digits. */
  function Parse(s: string): Option<int> {
    if |s| >= 1 && s[0] == '-' then
      match ParseDigits(s[1..])
      case None => None
      case Some(m) => Some(-(m as int))
    else
      match ParseDigits(s)
      case None => None
      case Some(m) => Some(m)
  }

  lemma {:induction false} DigitsRoundTrip(n: nat)
    ensures ParseDigits(Digits(n)) == Some(n)
    decreases n
  {
    if n >= 10 {
      var s := Digits(n);
      DigitsRoundTrip(n / 10);
      assert s[..|s| - 1] == Digits(n / 10);
    }
  }

  /** Formatting then parsing gives back the integer: `%d` text is unambiguous. */
  lemma FormatRoundTrip(n: int)
    ensures Parse(Format(n)) == Some(n)
  {
    if n < 0 {
      NegativeRoundTrip(n);
    } else {
      NonNegativeRoundTrip(n);
    }
  }

  lemma NegativeRoundTrip(n: int)
    requires n < 0
    ensures Parse(Format(n)) == Some(n)
  {
    var d := Digits(-n);
    DigitsRoundTrip(-n);
    assert ("-" + d)[1..] == d;
    assert Format(n) == "-" + d;
  }

  lemma NonNegativeRoundTrip(n: int)
    requires n >= 0
    ensures Parse(Format(n)) == Some(n)
  {
    var d := Digits(n);
    DigitsRoundTrip(n);
    assert IsDigit(d[0]);
    assert Format(n) == d;
  }

  /** Distinct integers have distinct decimal text. */
  lemma FormatInjective(a: int, b: int)
    requires Format(a) == Format(b)
    ensures a == b
  {
    FormatRoundTrip(a);
    FormatRoundTrip(b);
  }
}
