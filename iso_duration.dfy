/** The duration parser of the feed refresh: YouTube's `contentDetails.duration`
    (ISO 8601, section 4.4.3.2, in its `PTnHnMnS` form) read with the regular
    expression `PT(\d+H)?(\d+M)?(\d+S)?` and turned into whole seconds. */
module IsoDuration {
  import opened Wrappers
  import opened Digits
  import opened JsParseInt

  /** First index at or after `from` where the text `PT` starts: the place where
      the unanchored pattern matches, since every group after `PT` is optional. */
  function IndexOfPT(s: string, from: nat): (r: Option<nat>)
    decreases |s| - from
    ensures r.Some? ==> from <= r.value && r.value + 2 <= |s| && s[r.value] == 'P' && s[r.value + 1] == 'T'
    ensures r.Some? ==> forall k :: from <= k < r.value ==> !(s[k] == 'P' && s[k + 1] == 'T')
    ensures r.None? ==> forall k :: from <= k < |s| - 1 ==> !(s[k] == 'P' && s[k + 1] == 'T')
  {
    if from + 2 > |s| then None
    else if s[from] == 'P' && s[from + 1] == 'T' then Some(from)
    else IndexOfPT(s, from + 1)
  }

  /** The optional group `(\d+U)` at the start of `t`: a non-empty run of
      decimal digits directly followed by the unit letter `unit`. */
  function Group(t: string, unit: char): Option<string> {
    var n := RadixRun(t, 10);
    if 0 < n < |t| && t[n] == unit then Some(t[..n] + [unit]) else None
  }

  function Consumed(g: Option<string>): nat {
    match g
    case None => 0
    case Some(text) => |text|
  }

  /** `parseInt(match?.[i]) || 0`: an absent group, `NaN` and `0` all give 0. */
  function Component(g: Option<string>): int {
    match g
    case None => 0
    case Some(text) =>
      match ParseInt(text)
      case None => 0
      case Some(v) => if v == 0 then 0 else v
  }

  predicate IsUnitLetter(unit: char) {
    unit == 'H' || unit == 'M' || unit == 'S'
  }

  /** A matched group is the digits' value; an unmatched one consumes nothing. */
  lemma GroupValue(t: string, unit: char)
    requires IsUnitLetter(unit)
    ensures Consumed(Group(t, unit)) <= |t|
    ensures Group(t, unit).Some? ==>
      var n := RadixRun(t, 10);
      && Group(t, unit).value == t[..n] + [unit]
      && Component(Group(t, unit)) == Value(t[..n], 10)
    ensures Component(Group(t, unit)) >= 0
  {
    if Group(t, unit).Some? {
      GroupDigits(t, unit);
      ComponentOfDigits(t[..RadixRun(t, 10)], unit);
    }
  }

  lemma GroupDigits(t: string, unit: char)
    requires Group(t, unit).Some?
    ensures var n := RadixRun(t, 10);
      0 < n < |t| && AllDecimal(t[..n]) && Group(t, unit).value == t[..n] + [unit]
  {
    DecimalRunDigits(t);
  }

  lemma ComponentOfDigits(ds: string, unit: char)
    requires |ds| > 0 && AllDecimal(ds) && IsUnitLetter(unit)
    ensures Component(Some(ds + [unit])) == Value(ds, 10)
  {
    ParseIntDecimal(ds, [unit]);
  }

  /** One optional group: its value (`parseInt(...) || 0`) and the text after it. */
  function ReadGroup(t: string, unit: char): (r: (int, string))
    requires IsUnitLetter(unit)
    ensures r.0 >= 0
  {
    GroupValue(t, unit);
    (Component(Group(t, unit)), t[Consumed(Group(t, unit))..])
  }

  /** The three optional groups that follow `PT`, in the order `H`, `M`, `S`. */
  function GroupsSeconds(t0: string): (r: int)
    ensures r >= 0
  {
    var (hours, t1) := ReadGroup(t0, 'H');
    var (minutes, t2) := ReadGroup(t1, 'M');
    var (seconds, _) := ReadGroup(t2, 'S');
    hours * 3600 + minutes * 60 + seconds
  }

  /** Seconds of the first `PT...` match; a string without `PT` counts as 0. */
  function DurationSeconds(s: string): (r: int)
    ensures r >= 0
  {
    match IndexOfPT(s, 0)
    case None => 0
    case Some(k) => GroupsSeconds(s[k + 2..])
  }

  /** The text of one optional component: its digits and unit letter, or nothing. */
  function Field(digits: Option<string>, unit: char): string {
    match digits
    case None => ""
    case Some(ds) => ds + [unit]
  }

  function FieldValue(digits: Option<string>): nat {
    match digits
    case None => 0
    case Some(ds) => Value(ds, 10)
  }

  predicate WellFormedField(digits: Option<string>) {
    digits.Some? ==> |digits.value| > 0 && AllDecimal(digits.value)
  }

  /** A present field is read as its digits and is consumed whole. */
  lemma GroupPresent(ds: string, unit: char, tail: string)
    requires IsUnitLetter(unit) && |ds| > 0 && AllDecimal(ds)
    ensures Group(ds + [unit] + tail, unit) == Some(ds + [unit])
    ensures Component(Group(ds + [unit] + tail, unit)) == Value(ds, 10)
  {
    var t := ds + [unit] + tail;
    assert t == ds + ([unit] + tail);
    RadixRunOfDigits(ds, [unit] + tail, 10);
    assert t[..|ds| + 1] == ds + [unit];
    GroupValue(t, unit);
    assert t[..|ds|] == ds;
  }

  /** A group whose unit letter is not the expected one does not match. */
  lemma GroupOtherUnit(ds: string, other: char, tail: string, unit: char)
    requires IsUnitLetter(unit) && IsUnitLetter(other) && other != unit && AllDecimal(ds)
    ensures Group(ds + [other] + tail, unit).None?
  {
    var t := ds + [other] + tail;
    assert t == ds + ([other] + tail);
    RadixRunOfDigits(ds, [other] + tail, 10);
  }

  /** A group is absent when the text holds only fields of other units. */
  lemma GroupAbsent(unit: char, f1: Option<string>, u1: char, f2: Option<string>, u2: char)
    requires IsUnitLetter(unit) && IsUnitLetter(u1) && IsUnitLetter(u2) && u1 != unit && u2 != unit
    requires WellFormedField(f1) && WellFormedField(f2)
    ensures Group(Field(f1, u1) + Field(f2, u2), unit).None?
  {
    match f1
    case Some(ds) =>
      GroupOtherUnit(ds, u1, Field(f2, u2), unit);
    case None =>
      assert Field(f1, u1) + Field(f2, u2) == Field(f2, u2);
      if f2.Some? {
        assert Field(f2, u2) == f2.value + [u2] + [];
        GroupOtherUnit(f2.value, u2, [], unit);
      }
  }

  /** Reading one optional group off `Field(d, unit) + rest`. */
  lemma FieldStep(d: Option<string>, unit: char, rest: string)
    requires IsUnitLetter(unit) && WellFormedField(d)
    requires d.None? ==> Group(rest, unit).None?
    ensures ReadGroup(Field(d, unit) + rest, unit) == (FieldValue(d) as int, rest)
  {
    if d.Some? {
      assert Field(d, unit) + rest == d.value + [unit] + rest;
      GroupPresent(d.value, unit, rest);
      assert (d.value + [unit] + rest)[|d.value| + 1..] == rest;
    } else {
      assert Field(d, unit) + rest == rest;
    }
  }

  /** The groups after `PT`, when they are well-formed fields in the order `H`, `M`, `S`. */
  lemma GroupsOfFields(h: Option<string>, m: Option<string>, sec: Option<string>)
    requires WellFormedField(h) && WellFormedField(m) && WellFormedField(sec)
    ensures GroupsSeconds(Field(h, 'H') + Field(m, 'M') + Field(sec, 'S'))
            == 3600 * FieldValue(h) + 60 * FieldValue(m) + FieldValue(sec)
  {
    var a, b, c := Field(h, 'H'), Field(m, 'M'), Field(sec, 'S');
    assert a + b + c == a + (b + c);
    if h.None? { GroupAbsent('H', m, 'M', sec, 'S'); }
    FieldStep(h, 'H', b + c);
    if m.None? {
      assert c == Field(sec, 'S') + Field(None, 'H');
      GroupAbsent('M', sec, 'S', None, 'H');
    }
    FieldStep(m, 'M', c);
    assert c == c + [];
    FieldStep(sec, 'S', []);
  }

  lemma AppendFour(p: string, a: string, b: string, c: string)
    ensures p + a + b + c == p + (a + b + c)
  {
  }

  /** A text starting with `PT` is matched right there. */
  lemma DurationAfterPT(rest: string)
    ensures DurationSeconds("PT" + rest) == GroupsSeconds(rest)
  {
    var s := "PT" + rest;
    assert s[0] == 'P' && s[1] == 'T';
    assert IndexOfPT(s, 0) == Some(0);
    assert s[2..] == rest;
  }

  /** A duration written `PT`, then any of the `H`, `M` and `S` fields in that
      order, is `3600*H + 60*M + S`; a missing field counts as 0. */
  lemma DurationOfCanonical(h: Option<string>, m: Option<string>, sec: Option<string>)
    requires WellFormedField(h) && WellFormedField(m) && WellFormedField(sec)
    ensures DurationSeconds("PT" + Field(h, 'H') + Field(m, 'M') + Field(sec, 'S'))
            == 3600 * FieldValue(h) + 60 * FieldValue(m) + FieldValue(sec)
  {
    var a, b, c := Field(h, 'H'), Field(m, 'M'), Field(sec, 'S');
    AppendFour("PT", a, b, c);
    DurationAfterPT(a + b + c);
    GroupsOfFields(h, m, sec);
  }

  /** A string in which `PT` never occurs (the day form `P1DT2H`, say) has no match: 0 seconds. */
  lemma DurationWithoutPT(s: string)
    requires forall k :: 0 <= k < |s| - 1 ==> !(s[k] == 'P' && s[k + 1] == 'T')
    ensures DurationSeconds(s) == 0
  {
    assert IndexOfPT(s, 0).None?;
  }

  /** `PT5M` is five minutes: the absent hour and second fields count as 0. */
  lemma DurationMinutesOnly()
    ensures DurationSeconds("PT5M") == 300
  {
    SingleDigitField('5');
    assert Field(None, 'H') == "" && Field(Some("5"), 'M') == "5M" && Field(None, 'S') == "";
    assert "PT5M" == "PT" + "" + "5M" + "";
    DurationOfCanonical(None, Some("5"), None);
  }

  lemma DurationSecondsOnly()
    ensures DurationSeconds("PT45S") == 45
  {
    var ds := "45";
    assert ds[..|ds| - 1] == "4";
    SingleDigitField('4');
    assert Value(ds, 10) == Value("4", 10) * 10 + DigitValue('5');
    assert WellFormedField(Some(ds)) && FieldValue(Some(ds)) == 45;
    assert Field(None, 'H') == "" && Field(None, 'M') == "" && Field(Some(ds), 'S') == "45S";
    assert "PT45S" == "PT" + "" + "" + "45S";
    DurationOfCanonical(None, None, Some(ds));
  }

  lemma SingleDigitField(d: char)
    requires IsDecimalDigit(d)
    ensures WellFormedField(Some([d])) && FieldValue(Some([d])) == DigitValue(d)
  {
    var s := [d];
    assert s[..|s| - 1] == [];
    assert Value(s, 10) == Value([], 10) * 10 + DigitValue(d);
  }

  lemma DurationAllFields()
    ensures DurationSeconds("PT1H2M3S") == 3723
  {
    var h, m, sec := Some("1"), Some("2"), Some("3");
    SingleDigitField('1');
    SingleDigitField('2');
    SingleDigitField('3');
    assert Field(h, 'H') == "1H" && Field(m, 'M') == "2M" && Field(sec, 'S') == "3S";
    assert "PT1H2M3S" == "PT" + "1H" + "2M" + "3S";
    DurationOfCanonical(h, m, sec);
  }

  /** The day form is not matched at all, so a one-day-two-hour video gets 0. */
  lemma DurationDayForm()
    ensures DurationSeconds("P1DT2H") == 0
  {
    DurationWithoutPT("P1DT2H");
  }
}
