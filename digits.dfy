/** Digit strings: the decimal rendering used by template literals and the
    digit values read by `parseInt`. */
module Digits {

  predicate IsDecimalDigit(c: char) {
    '0' <= c <= '9'
  }

  predicate AllDecimal(s: string) {
    forall i :: 0 <= i < |s| ==> IsDecimalDigit(s[i])
  }

  /** Value of `c` as a digit in any radix up to 36 (36 when it is no digit at all). */
  function DigitValue(c: char): (d: nat)
    ensures IsDecimalDigit(c) <==> d < 10
  {
    if '0' <= c <= '9' then c as int - '0' as int
    else if 'a' <= c <= 'z' then c as int - 'a' as int + 10
    else if 'A' <= c <= 'Z' then c as int - 'A' as int + 10
    else 36
  }

  predicate IsRadixDigit(c: char, radix: nat) {
    DigitValue(c) < radix
  }

  /** Number of leading characters of `t` that are digits of `radix`. */
  function RadixRun(t: string, radix: nat): (n: nat)
    ensures n <= |t|
  {
    if |t| > 0 && IsRadixDigit(t[0], radix) then 1 + RadixRun(t[1..], radix) else 0
  }

  /** Positional value of the digit string `s`, most significant digit first. */
  function Value(s: string, radix: nat): nat {
    if s == [] then 0 else Value(s[..|s| - 1], radix) * radix + DigitValue(s[|s| - 1])
  }

  function DigitChar(d: nat): (c: char)
    requires d < 10
    ensures IsDecimalDigit(c) && DigitValue(c) == d
  {
    ('0' as int + d) as char
  }

  /** Decimal rendering of `n` without leading zeros, as `${n}` gives it. */
  function DecimalString(n: nat): string {
    if n < 10 then [DigitChar(n)] else DecimalString(n / 10) + [DigitChar(n % 10)]
  }

  lemma {:induction false} DecimalStringValue(n: nat)
    ensures |DecimalString(n)| > 0 && AllDecimal(DecimalString(n))
    ensures Value(DecimalString(n), 10) == n
    ensures n < 10 <==> |DecimalString(n)| == 1
  {
    if n >= 10 {
      DecimalStringValue(n / 10);
      var s := DecimalString(n);
      assert s[..|s| - 1] == DecimalString(n / 10);
    }
  }

  /** The digits run of a digit string stops exactly where the digits stop. */
  lemma {:induction false} RadixRunOfDigits(ds: string, tail: string, radix: nat)
    requires forall i :: 0 <= i < |ds| ==> IsRadixDigit(ds[i], radix)
    requires tail == [] || !IsRadixDigit(tail[0], radix)
    ensures RadixRun(ds + tail, radix) == |ds|
  {
    if ds != [] {
      assert (ds + tail)[1..] == ds[1..] + tail;
      RadixRunOfDigits(ds[1..], tail, radix);
    } else {
      assert ds + tail == tail;
    }
  }

  /** Every character inside the digits run is a digit. */
  lemma {:induction false} RadixRunAllDigits(t: string, radix: nat)
    ensures forall i :: 0 <= i < RadixRun(t, radix) ==> IsRadixDigit(t[i], radix)
    ensures RadixRun(t, radix) < |t| ==> !IsRadixDigit(t[RadixRun(t, radix)], radix)
  {
    if |t| > 0 && IsRadixDigit(t[0], radix) {
      RadixRunAllDigits(t[1..], radix);
    }
  }

  /** The decimal digits run is a decimal digit string. */
  lemma {:induction false} DecimalRunDigits(t: string)
    ensures AllDecimal(t[..RadixRun(t, 10)])
  {
    if |t| > 0 && IsRadixDigit(t[0], 10) {
      DecimalRunDigits(t[1..]);
      var n := RadixRun(t, 10);
      assert t[..n] == [t[0]] + t[1..][..n - 1];
    }
  }
}
