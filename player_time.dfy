/** The player's time labels: whole seconds shown as `H:MM:SS` from an hour
    on and as `M:SS` below it. */
module PlayerTime {
  import opened Wrappers
  import opened Digits

  /** `String.prototype.padStart(width, fill)` with a one-character fill. */
  function PadStart(s: string, width: nat, fill: char): (r: string)
    ensures |r| == if |s| >= width then |s| else width
  {
    if |s| >= width then s else seq(width - |s|, _ => fill) + s
  }

  /** The padded text is `s` preceded by fill characters only. */
  lemma PadStartContent(s: string, width: nat, fill: char)
    ensures var r := PadStart(s, width, fill);
      r[|r| - |s|..] == s && forall k :: 0 <= k < |r| - |s| ==> r[k] == fill
  {
  }

  /** The three fields of a time: `Math.floor` of the divisions and remainders. */
  datatype Clock = Clock(hours: nat, minutes: nat, secs: nat)

  function ClockOf(seconds: nat): (c: Clock)
    ensures c.minutes < 60 && c.secs < 60
    ensures c.hours * 3600 + c.minutes * 60 + c.secs == seconds
    ensures c.hours > 0 <==> seconds >= 3600
  {
    Clock(seconds / 3600, (seconds % 3600) / 60, seconds % 60)
  }

  /** `n.toString().padStart(2, "0")`. */
  function TwoDigits(n: nat): string {
    PadStart(DecimalString(n), 2, '0')
  }

  function FormatTime(seconds: nat): string {
    FormatClock(ClockOf(seconds))
  }

  function FormatClock(c: Clock): string {
    if c.hours > 0 then DecimalString(c.hours) + ":" + (TwoDigits(c.minutes) + ":" + TwoDigits(c.secs))
    else DecimalString(c.minutes) + ":" + TwoDigits(c.secs)
  }

  /** A field below 60 is written with exactly two decimal digits. */
  lemma TwoDigitsValue(n: nat)
    requires n < 60
    ensures |TwoDigits(n)| == 2 && AllDecimal(TwoDigits(n)) && Value(TwoDigits(n), 10) == n
  {
    var t := TwoDigits(n);
    if n >= 10 {
      var hi, lo := DigitChar(n / 10), DigitChar(n % 10);
      assert DecimalString(n / 10) == [hi];
      assert DecimalString(n) == [hi, lo];
      assert t == [hi, lo];
      assert t[..1] == [hi];
      assert Value([hi], 10) == n / 10 by { assert [hi][..0] == []; }
    } else {
      var d := DigitChar(n);
      assert DecimalString(n) == [d];
      assert t == ['0', d];
      assert t[..1] == ['0'];
      assert Value(['0'], 10) == 0 by { assert ['0'][..0] == []; }
    }
  }

  predicate NoColon(s: string) {
    forall i :: 0 <= i < |s| ==> s[i] != ':'
  }

  /** Position of the first colon of `t`, or `|t|` when there is none. */
  function IndexOfColon(t: string): (i: nat)
    ensures i <= |t|
    ensures forall k :: 0 <= k < i ==> t[k] != ':'
    ensures i < |t| ==> t[i] == ':'
  {
    if t == [] || t[0] == ':' then 0 else 1 + IndexOfColon(t[1..])
  }

  /** The colon-separated fields of a label. */
  function Fields(t: string): seq<string>
    decreases |t|
  {
    var i := IndexOfColon(t);
    if i == |t| then [t] else [t[..i]] + Fields(t[i + 1..])
  }

  lemma FieldsColonFree(a: string)
    requires NoColon(a)
    ensures Fields(a) == [a]
  {
    assert !(IndexOfColon(a) < |a|);
  }

  lemma FieldsAfter(a: string, b: string)
    requires NoColon(a)
    ensures Fields(a + ":" + b) == [a] + Fields(b)
  {
    var t := a + ":" + b;
    var i := IndexOfColon(t);
    assert t[|a|] == ':';
    assert i == |a|;
    assert t[..i] == a;
    assert t[i + 1..] == b;
  }

  lemma DigitsHaveNoColon(s: string)
    requires AllDecimal(s)
    ensures NoColon(s)
  {
    forall i | 0 <= i < |s|
      ensures s[i] != ':'
    {
      assert IsDecimalDigit(s[i]);
    }
  }

  /** A non-empty digit string. */
  predicate IsNumber(s: string) {
    |s| > 0 && AllDecimal(s)
  }

  /** Reads a label back: `M:SS` as minutes and seconds, `H:MM:SS` as hours,
      minutes and seconds, every field a digit string. */
  function ParseTime(t: string): Option<nat> {
    ParseFields(Fields(t))
  }

  /** `M`, `SS` as minutes and seconds; `H`, `MM`, `SS` as hours, minutes and seconds. */
  function ParseFields(f: seq<string>): Option<nat> {
    if |f| == 2 && IsNumber(f[0]) && IsNumber(f[1]) then
      Some(Value(f[0], 10) * 60 + Value(f[1], 10))
    else if |f| == 3 && IsNumber(f[0]) && IsNumber(f[1]) && IsNumber(f[2]) then
      Some((Value(f[0], 10) * 60 + Value(f[1], 10)) * 60 + Value(f[2], 10))
    else None
  }

  lemma FieldsOfThree(hh: string, mm: string, ss: string)
    requires NoColon(hh) && NoColon(mm) && NoColon(ss)
    ensures Fields(hh + ":" + (mm + ":" + ss)) == [hh, mm, ss]
  {
    FieldsAfter(hh, mm + ":" + ss);
    FieldsAfter(mm, ss);
    FieldsColonFree(ss);
  }

  lemma FieldsOfTwo(ms: string, ss: string)
    requires NoColon(ms) && NoColon(ss)
    ensures Fields(ms + ":" + ss) == [ms, ss]
  {
    FieldsAfter(ms, ss);
    FieldsColonFree(ss);
  }

  /** The fields of a label: the hours (when there are any), the minutes, the seconds. */
  lemma FieldsOfLabel(c: Clock)
    requires c.minutes < 60 && c.secs < 60
    ensures Fields(FormatClock(c)) ==
      if c.hours > 0 then [DecimalString(c.hours), TwoDigits(c.minutes), TwoDigits(c.secs)]
      else [DecimalString(c.minutes), TwoDigits(c.secs)]
  {
    var hh, ms, mm, ss := DecimalString(c.hours), DecimalString(c.minutes), TwoDigits(c.minutes), TwoDigits(c.secs);
    TwoDigitsValue(c.minutes);
    TwoDigitsValue(c.secs);
    DecimalStringValue(c.hours);
    DecimalStringValue(c.minutes);
    DigitsHaveNoColon(mm);
    DigitsHaveNoColon(ss);
    if c.hours > 0 {
      DigitsHaveNoColon(hh);
      FieldsOfThree(hh, mm, ss);
    } else {
      DigitsHaveNoColon(ms);
      FieldsOfTwo(ms, ss);
    }
  }

  lemma ClockRoundTrip(c: Clock)
    requires c.minutes < 60 && c.secs < 60
    ensures ParseTime(FormatClock(c)) == Some(c.hours * 3600 + c.minutes * 60 + c.secs)
  {
    FieldsOfLabel(c);
    TwoDigitsValue(c.minutes);
    TwoDigitsValue(c.secs);
    DecimalStringValue(c.hours);
    DecimalStringValue(c.minutes);
    var hh, ms, mm, ss := DecimalString(c.hours), DecimalString(c.minutes), TwoDigits(c.minutes), TwoDigits(c.secs);
    if c.hours > 0 {
      ParseThreeFields(hh, mm, ss);
    } else {
      ParseTwoFields(ms, ss);
    }
  }

  lemma ParseThreeFields(hh: string, mm: string, ss: string)
    requires IsNumber(hh) && IsNumber(mm) && IsNumber(ss)
    ensures ParseFields([hh, mm, ss]) == Some(Value(hh, 10) * 3600 + Value(mm, 10) * 60 + Value(ss, 10))
  {
  }

  lemma ParseTwoFields(ms: string, ss: string)
    requires IsNumber(ms) && IsNumber(ss)
    ensures ParseFields([ms, ss]) == Some(Value(ms, 10) * 60 + Value(ss, 10))
  {
  }

  /** The label of a time reads back as that time, so no two times share a label. */
  lemma FormatTimeRoundTrip(seconds: nat)
    ensures ParseTime(FormatTime(seconds)) == Some(seconds)
  {
    ClockRoundTrip(ClockOf(seconds));
  }

  /** The seconds are always the last field, two digits; the hour field is
      there exactly from one hour on and never reads as zero; the minutes
      then take two digits. */
  lemma FormatTimeShape(seconds: nat)
    ensures var f := Fields(FormatTime(seconds));
      && (|f| == 3 <==> seconds >= 3600) && (|f| == 2 <==> seconds < 3600)
      && |f[|f| - 1]| == 2 && Value(f[|f| - 1], 10) == seconds % 60
      && (seconds >= 3600 ==> |f[1]| == 2 && Value(f[1], 10) < 60 && Value(f[0], 10) == seconds / 3600 > 0)
  {
    var c := ClockOf(seconds);
    FieldsOfLabel(c);
    TwoDigitsValue(c.minutes);
    TwoDigitsValue(c.secs);
    DecimalStringValue(c.hours);
  }
}
