/** The "published ... ago" label of a video card: the time since publication in
    the largest whole unit, from minutes up to months of 30 days. */
module RelativeTime {
  import opened Wrappers
  import opened Digits

  /** `timestamp` and `now` are whole seconds since the epoch (`now` is the clock,
      `Math.floor(Date.now() / 1000)`). */
  function Ago(now: int, timestamp: int): string {
    var diff := now - timestamp;
    if diff < 60 then "just now"
    else if diff < 3600 then DecimalString(diff / 60) + "m ago"
    else if diff < 86400 then DecimalString(diff / 3600) + "h ago"
    else if diff < 604800 then DecimalString(diff / 86400) + "d ago"
    else if diff < 2592000 then DecimalString(diff / 604800) + "w ago"
    else DecimalString(diff / 2592000) + "mo ago"
  }

  datatype TimeUnit = TimeUnit(seconds: nat, suffix: string)

  /** The units of the label, shortest first. */
  const Units: seq<TimeUnit> := [
    TimeUnit(60, "m"), TimeUnit(3600, "h"), TimeUnit(86400, "d"),
    TimeUnit(604800, "w"), TimeUnit(2592000, "mo")]

  /** Reference choice of unit: the longest one of `units` that fits into `diff`. */
  function LongestFitting(units: seq<TimeUnit>, diff: int): (r: Option<TimeUnit>)
    ensures r.Some? ==> r.value in units && r.value.seconds <= diff
  {
    if units == [] then None
    else if units[|units| - 1].seconds <= diff then Some(units[|units| - 1])
    else LongestFitting(units[..|units| - 1], diff)
  }

  /** Under a minute, including a publication time in the future, the label is
      "just now", and only then. */
  lemma AgoJustNow(now: int, timestamp: int)
    ensures Ago(now, timestamp) == "just now" <==> now - timestamp < 60
  {
    var diff := now - timestamp;
    if diff >= 60 {
      var n: nat :=
        if diff < 3600 then diff / 60 else if diff < 86400 then diff / 3600
        else if diff < 604800 then diff / 86400 else if diff < 2592000 then diff / 604800
        else diff / 2592000;
      DecimalStringValue(n);
      assert Ago(now, timestamp)[0] == DecimalString(n)[0];
      assert "just now"[0] == 'j';
    }
  }

  /** From a minute on, the label is the count of the longest fitting unit,
      rounded down, followed by that unit and " ago". */
  lemma AgoLongestUnit(now: int, timestamp: int)
    requires now - timestamp >= 60
    ensures LongestFitting(Units, now - timestamp).Some?
    ensures var u := LongestFitting(Units, now - timestamp).value;
      LabelOfUnit(now - timestamp, u, Ago(now, timestamp))
  {
    var diff := now - timestamp;
    var u := BucketUnit(diff);
    LongestFittingOfUnits(diff);
    AgoText(now, timestamp);
    LabelFromUnit(now, timestamp, u);
  }

  /** The unit of each bucket of `Ago`, as the proofs below name it. */
  function BucketUnit(diff: int): TimeUnit {
    if diff >= 2592000 then TimeUnit(2592000, "mo")
    else if diff >= 604800 then TimeUnit(604800, "w")
    else if diff >= 86400 then TimeUnit(86400, "d")
    else if diff >= 3600 then TimeUnit(3600, "h")
    else TimeUnit(60, "m")
  }

  lemma LongestFittingOfUnits(diff: int)
    requires diff >= 60
    ensures LongestFitting(Units, diff) == Some(BucketUnit(diff))
  {
    var u4, u3, u2, u1 := Units[..4], Units[..3], Units[..2], Units[..1];
    assert u4[..3] == u3 && u3[..2] == u2 && u2[..1] == u1;
    if diff < 604800 {
      assert LongestFitting(Units, diff) == LongestFitting(u4, diff) == LongestFitting(u3, diff);
      if diff < 86400 {
        assert LongestFitting(u3, diff) == LongestFitting(u2, diff);
        if diff < 3600 {
          assert LongestFitting(u2, diff) == LongestFitting(u1, diff);
        }
      }
    }
  }

  lemma AgoText(now: int, timestamp: int)
    requires now - timestamp >= 60
    ensures var diff := now - timestamp;
      var u := BucketUnit(diff);
      Ago(now, timestamp) == DecimalString(diff / u.seconds) + (u.suffix + " ago")
  {
  }

  /** `text` counts whole units `u` in `diff`: at least one, rounded down. */
  ghost predicate LabelOfUnit(diff: int, u: TimeUnit, text: string) {
    && 0 < u.seconds
    && var n := diff / u.seconds;
    && 1 <= n && n * u.seconds <= diff < (n + 1) * u.seconds
    && text == DecimalString(n) + u.suffix + " ago"
  }

  lemma LabelFromUnit(now: int, timestamp: int, u: TimeUnit)
    requires 0 < u.seconds <= now - timestamp
    requires Ago(now, timestamp) == DecimalString((now - timestamp) / u.seconds) + (u.suffix + " ago")
    ensures LabelOfUnit(now - timestamp, u, Ago(now, timestamp))
  {
    FloorBounds(now - timestamp, u.seconds);
    var n := (now - timestamp) / u.seconds;
    assert DecimalString(n) + (u.suffix + " ago") == DecimalString(n) + u.suffix + " ago";
  }

  lemma FloorBounds(diff: int, d: nat)
    requires 0 < d <= diff
    ensures 1 <= diff / d && (diff / d) * d <= diff < (diff / d + 1) * d
  {
    assert diff == (diff / d) * d + diff % d;
  }

  /** The count shown in each bucket: 1 to 59 minutes, 1 to 23 hours, 1 to 6
      days, 1 to 4 weeks, and at least one month. */
  lemma AgoBuckets(now: int, timestamp: int)
    ensures var diff := now - timestamp;
      && (60 <= diff < 3600 ==> 1 <= diff / 60 <= 59 && Ago(now, timestamp) == DecimalString(diff / 60) + "m ago")
      && (3600 <= diff < 86400 ==> 1 <= diff / 3600 <= 23 && Ago(now, timestamp) == DecimalString(diff / 3600) + "h ago")
      && (86400 <= diff < 604800 ==> 1 <= diff / 86400 <= 6 && Ago(now, timestamp) == DecimalString(diff / 86400) + "d ago")
      && (604800 <= diff < 2592000 ==> 1 <= diff / 604800 <= 4 && Ago(now, timestamp) == DecimalString(diff / 604800) + "w ago")
      && (2592000 <= diff ==> 1 <= diff / 2592000 && Ago(now, timestamp) == DecimalString(diff / 2592000) + "mo ago")
  {
  }

  lemma AgoNeverEmpty(now: int, timestamp: int)
    ensures |Ago(now, timestamp)| > 0
  {
  }
}
