/** JavaScript's global `parseInt(string)` with no radix argument, on exact
    integers: `None` stands for `NaN`. */
module JsParseInt {
  import opened Wrappers
  import opened Digits

  /** The characters `parseInt` skips before the number: white space and line terminators. */
  predicate IsJsWhiteSpace(c: char) {
    c == '\t' || c == '\n' || c == '\U{000B}' || c == '\U{000C}' || c == '\r' || c == ' '
    || c == '\U{00A0}' || c == '\U{1680}' || ('\U{2000}' <= c <= '\U{200A}')
    || c == '\U{2028}' || c == '\U{2029}' || c == '\U{202F}' || c == '\U{205F}'
    || c == '\U{3000}' || c == '\U{FEFF}'
  }

  function TrimStart(s: string): (t: string)
    ensures |t| <= |s| && t == s[|s| - |t|..]
    ensures t != [] ==> !IsJsWhiteSpace(t[0])
  {
    if |s| > 0 && IsJsWhiteSpace(s[0]) then TrimStart(s[1..]) else s
  }

  /** Everything `TrimStart` removes is white space. */
  lemma {:induction false} TrimStartDropsOnlyWhite(s: string)
    ensures forall k :: 0 <= k < |s| - |TrimStart(s)| ==> IsJsWhiteSpace(s[k])
  {
    if |s| > 0 && IsJsWhiteSpace(s[0]) {
      var rest := s[1..];
      TrimStartDropsOnlyWhite(rest);
      var n := |s| - |TrimStart(s)|;
      assert TrimStart(s) == TrimStart(rest);
      forall k | 0 < k < n
        ensures IsJsWhiteSpace(s[k])
      {
        assert s[k] == rest[k - 1];
      }
    }
  }

  /** Leading white space, one optional sign, then an unsigned number. */
  function ParseInt(s: string): Option<int> {
    var t := TrimStart(s);
    if |t| > 0 && t[0] == '-' then
      match ParseUnsigned(t[1..]) case None => None case Some(v) => Some(-(v as int))
    else if |t| > 0 && t[0] == '+' then
      match ParseUnsigned(t[1..]) case None => None case Some(v) => Some(v)
    else
      match ParseUnsigned(t) case None => None case Some(v) => Some(v)
  }

  /** An optional `0x`/`0X` prefix that selects radix 16, then the digits. */
  function ParseUnsigned(body: string): Option<nat> {
    if |body| >= 2 && body[0] == '0' && (body[1] == 'x' || body[1] == 'X') then
      LeadingNumber(body[2..], 16)
    else
      LeadingNumber(body, 10)
  }

  /** The longest run of digits of `radix` at the start of `t`; no digit at all is `NaN`. */
  function LeadingNumber(t: string, radix: nat): Option<nat> {
    var n := RadixRun(t, radix);
    if n == 0 then None else Some(Value(t[..n], radix))
  }

  lemma LeadingNumberDecimal(ds: string, tail: string)
    requires |ds| > 0 && AllDecimal(ds)
    requires tail == [] || !IsDecimalDigit(tail[0])
    ensures LeadingNumber(ds + tail, 10) == Some(Value(ds, 10))
  {
    RadixRunOfDigits(ds, tail, 10);
    assert (ds + tail)[..|ds|] == ds;
  }

  /** A decimal digit string followed by anything that is not a digit parses
      to the digits' value, unless the digits are a lone `0` followed by an
      `x`, which starts a hexadecimal number instead. */
  lemma ParseIntDecimal(ds: string, tail: string)
    requires |ds| > 0 && AllDecimal(ds)
    requires tail == [] || !IsDecimalDigit(tail[0])
    requires |ds| == 1 && ds[0] == '0' && tail != [] ==> tail[0] != 'x' && tail[0] != 'X'
    ensures ParseInt(ds + tail) == Some(Value(ds, 10))
  {
    var s := ds + tail;
    assert IsDecimalDigit(s[0]);
    assert !IsJsWhiteSpace(s[0]);
    assert TrimStart(s) == s;
    assert s[0] != '-' && s[0] != '+';
    if |s| >= 2 && s[0] == '0' {
      if |ds| == 1 { assert s[1] == tail[0]; } else { assert s[1] == ds[1]; }
    }
    assert ParseUnsigned(s) == LeadingNumber(s, 10);
    LeadingNumberDecimal(ds, tail);
  }

  lemma ParseIntDecimalString(n: nat)
    ensures ParseInt(DecimalString(n)) == Some(n)
  {
    DecimalStringValue(n);
    ParseIntDecimal(DecimalString(n), []);
    assert DecimalString(n) + [] == DecimalString(n);
  }
}
