/**
 * Kotlin's 32-bit `Int` and the two conversions between it and text that the
 * settings screen relies on: `Int.toString()` (to fill the port fields) and
 * `String.toIntOrNull()` (to read them back). Only the decimal digits '0'..'9'
 * are treated as digits.
 */
module Numbers {
  import opened Wrappers

  const INT_MIN: int := -0x8000_0000
  const INT_MAX: int := 0x7fff_ffff

  /** Kotlin `Int`. */
  type Int32 = x: int | INT_MIN <= x <= INT_MAX

  predicate IsDigit(c: char) {
    '0' <= c <= '9'
  }

  /** `s.all { it.isDigit() }`: true of the empty string, too. */
  predicate AllDigits(s: string) {
    forall i :: 0 <= i < |s| ==> IsDigit(s[i])
  }

  function DigitValue(c: char): (d: nat)
    requires IsDigit(c)
    ensures d < 10
  {
    c as int - '0' as int
  }

  function DigitChar(d: nat): (c: char)
    requires d < 10
    ensures IsDigit(c) && DigitValue(c) == d
  {
    ('0' as int + d) as char
  }

  /** The value of a string of decimal digits, most significant first. */
  function DigitsValue(s: string): nat
    requires AllDigits(s)
  {
    if s == [] then 0 else DigitsValue(s[..|s| - 1]) * 10 + DigitValue(s[|s| - 1])
  }

  /** Decimal digits of `n` without leading zeros ("0" for zero). */
  function NatToString(n: nat): (s: string)
    ensures |s| > 0 && AllDigits(s) && IsDigit(s[0])
    ensures n > 0 ==> s[0] != '0'
    decreases n
  {
    if n < 10 then [DigitChar(n)] else NatToString(n / 10) + [DigitChar(n % 10)]
  }

  /** Kotlin `Int.toString()`: a minus sign before the digits of a negative number. */
  function IntToString(n: Int32): (s: string)
    ensures |s| > 0
    ensures n >= 0 <==> AllDigits(s)
    ensures n > 0 ==> s[0] != '0'
  {
    if n < 0 then
      var s := "-" + NatToString(-(n as int));
      assert !IsDigit(s[0]);
      s
    else NatToString(n)
  }

  /** The signed value of digits `body`, if it fits in an `Int`. */
  function SignedInt32(negative: bool, body: string): (r: Option<Int32>)
    requires AllDigits(body)
    ensures r.Some? <==> (if negative then -(DigitsValue(body) as int) >= INT_MIN else DigitsValue(body) <= INT_MAX)
    ensures r.Some? ==> r.value == if negative then -(DigitsValue(body) as int) else DigitsValue(body)
  {
    var v: int := if negative then -(DigitsValue(body) as int) else DigitsValue(body);
    if INT_MIN <= v <= INT_MAX then Some(v) else None
  }

  /**
   * Kotlin `String.toIntOrNull()` in radix 10: an optional leading '+' or '-'
   * followed by at least one digit and nothing else, whose value fits in an
   * `Int`; anything else gives null (None), including the empty string and a
   * value that overflows.
   */
  function ToIntOrNull(s: string): (r: Option<Int32>)
    ensures r.Some? ==> |s| > 0
    ensures AllDigits(s) ==> (r.Some? <==> |s| > 0 && DigitsValue(s) <= INT_MAX)
    ensures AllDigits(s) && r.Some? ==> r.value == DigitsValue(s)
  {
    if |s| == 0 then None
    else if s[0] == '-' || s[0] == '+' then
      var body := s[1..];
      if |body| == 0 || !AllDigits(body) then None else SignedInt32(s[0] == '-', body)
    else if AllDigits(s) then SignedInt32(false, s)
    else None
  }

  lemma {:induction false} DigitsValueOfNatToString(n: nat)
    ensures DigitsValue(NatToString(n)) == n
    decreases n
  {
    if n >= 10 {
      var s := NatToString(n);
      assert s[..|s| - 1] == NatToString(n / 10);
      DigitsValueOfNatToString(n / 10);
    }
  }

  /** Reading back what `Int.toString()` wrote gives the same `Int`. */
  lemma ToIntOrNullOfIntToString(n: Int32)
    ensures ToIntOrNull(IntToString(n)) == Some(n)
  {
    DigitsValueOfNatToString(if n < 0 then -(n as int) else n);
    if n < 0 {
      var s := IntToString(n);
      assert s[1..] == NatToString(-(n as int));
    }
  }
}
