/**
 * `calcular_horas`: the length of a cleaning session from two "HH:MM" clock times,
 * in hours rounded to two decimals. Here the result is kept as a whole number of
 * hundredths of an hour, so 3.5 hours is 350.
 */
module Clock {
  import opened Wrappers
  import opened Decimal

  const MinutesPerDay: nat := 1440

  /** A `%H` or `%M` field of `strptime`: one or two ASCII digits whose value is at most `max`. */
  function ParseField(s: string, max: nat): (r: Option<nat>)
    ensures r.Some? ==> r.value <= max
  {
    if 1 <= |s| <= 2 && AllDigits(s) && DigitsValue(s) <= max then Some(DigitsValue(s)) else None
  }

  /**
   * `datetime.strptime(s, "%H:%M")` read as minutes after midnight; None where strptime
   * raises ValueError. The hour has one or two digits, so the colon is at index 1 or 2,
   * and the whole string must be consumed.
   */
  function ParseClock(s: string): (r: Option<nat>)
    ensures r.Some? ==> r.value < MinutesPerDay
  {
    if 2 <= |s| && s[1] == ':' then
      Combine(ParseField(s[..1], 23), ParseField(s[2..], 59))
    else if 3 <= |s| && s[2] == ':' then
      Combine(ParseField(s[..2], 23), ParseField(s[3..], 59))
    else
      None
  }

  function Combine(hour: Option<nat>, minute: Option<nat>): (r: Option<nat>)
    requires hour.Some? ==> hour.value <= 23
    requires minute.Some? ==> minute.value <= 59
    ensures r.Some? ==> r.value < MinutesPerDay
  {
    if hour.Some? && minute.Some? then Some(hour.value * 60 + minute.value) else None
  }

  /** The "HH:MM" text of a time of day. */
  function FormatClock(m: nat): string
    requires m < MinutesPerDay
  {
    Pad2(m / 60) + ":" + Pad2(m % 60)
  }

  /** Every time of day written as "HH:MM" is read back as itself. */
  lemma FormatThenParseClock(m: nat)
    requires m < MinutesPerDay
    ensures ParseClock(FormatClock(m)) == Some(m)
  {
    var s := FormatClock(m);
    assert s[..2] == Pad2(m / 60) && s[3..] == Pad2(m % 60);
  }

  /** strptime accepts two-digit fields exactly when the hour is at most 23 and the minute at most 59. */
  lemma TwoDigitClockAccepted(h: nat, m: nat)
    requires h < 100 && m < 100
    ensures ParseClock(Pad2(h) + ":" + Pad2(m)) == if h <= 23 && m <= 59 then Some(h * 60 + m) else None
  {
    var s := Pad2(h) + ":" + Pad2(m);
    assert s[..2] == Pad2(h) && s[3..] == Pad2(m);
  }

  /**
   * `s` is an hour of one or two digits ending just before index `colon`, then ':', then a
   * minute of one or two digits, with hour at most 23 and minute at most 59, and `m` is
   * hour * 60 + minute.
   */
  predicate ClockShape(s: string, colon: nat, m: nat) {
    1 <= colon <= 2 && colon < |s| && s[colon] == ':' &&
    AllDigits(s[..colon]) && 1 <= |s[colon + 1..]| <= 2 && AllDigits(s[colon + 1..]) &&
    DigitsValue(s[..colon]) <= 23 && DigitsValue(s[colon + 1..]) <= 59 &&
    m == DigitsValue(s[..colon]) * 60 + DigitsValue(s[colon + 1..])
  }

  /**
   * strptime's "%H:%M" accepts exactly the texts "H:M", "H:MM", "HH:M" and "HH:MM" with the
   * hour at most 23 and the minute at most 59, and reads hour * 60 + minute.
   */
  lemma ParseClockExactly(s: string, m: nat)
    ensures ParseClock(s) == Some(m) <==> ClockShape(s, 1, m) || ClockShape(s, 2, m)
  {
  }

  /** Single-digit fields are accepted too: "7:5" is 07:05. */
  lemma OneDigitFields()
    ensures ParseClock("7:5") == Some(425)
  {
    assert "7:5"[..1] == "7" && "7:5"[2..] == "5";
    assert DigitsValue("7") == 7 by { assert "7"[..0] == []; }
    assert DigitsValue("5") == 5 by { assert "5"[..0] == []; }
  }

  /** Text that is not of the shape "H:M" or "HH:MM" is refused. */
  lemma MalformedClockRefused()
    ensures ParseClock("") == None
    ensures ParseClock("12") == None
    ensures ParseClock("12h30") == None
  {
  }

  /**
   * Minutes from `start` forward to `end`, going past midnight when `end` is earlier:
   * Python's `timedelta.seconds` of `end - start` is this many minutes times 60.
   */
  function MinutesForward(start: nat, end: nat): (d: nat)
    requires start < MinutesPerDay && end < MinutesPerDay
    ensures d < MinutesPerDay
    ensures (start + d) % MinutesPerDay == end
  {
    (end - start) % MinutesPerDay
  }

  /** `round(d / 60, 2)` in hundredths. d/60 has fraction 0, 1/3 or 2/3 of a hundredth, so there is no tie. */
  function RoundedHundredths(d: nat): (h: nat)
    ensures 3 * h <= 5 * d + 1 && 5 * d <= 3 * h + 1
  {
    (5 * d + 1) / 3
  }

  /** The nearest hundredth is unique: any h within half a hundredth of d/60 hours is RoundedHundredths(d). */
  lemma NearestHundredthUnique(d: nat, h: nat)
    requires 3 * h <= 5 * d + 1 && 5 * d <= 3 * h + 1
    ensures h == RoundedHundredths(d)
  {
    var r := RoundedHundredths(d);
    assert 3 * h <= 3 * r + 2 && 3 * r <= 3 * h + 2;
  }

  /** `calcular_horas(start, end)` times 100; 0 when either text is not a valid time. */
  function HoursBetween(start: string, end: string): (h: nat)
    ensures h <= 2398
  {
    match (ParseClock(start), ParseClock(end))
    case (Some(a), Some(b)) => RoundedHundredths(MinutesForward(a, b))
    case _ => 0
  }

  /** For valid times the result is the forward gap, rounded to the nearest hundredth of an hour. */
  lemma HoursBetweenValid(start: string, end: string, a: nat, b: nat)
    requires ParseClock(start) == Some(a) && ParseClock(end) == Some(b)
    ensures 3 * HoursBetween(start, end) <= 5 * ((b - a) % MinutesPerDay) + 1
    ensures 5 * ((b - a) % MinutesPerDay) <= 3 * HoursBetween(start, end) + 1
  {
  }

  /** An end earlier than the start wraps past midnight instead of going negative. */
  lemma HoursWrapPastMidnight(start: string, end: string, a: nat, b: nat)
    requires ParseClock(start) == Some(a) && ParseClock(end) == Some(b)
    requires b < a
    ensures HoursBetween(start, end) == RoundedHundredths(b + MinutesPerDay - a)
  {
    ForwardWraps(a, b);
  }

  lemma ForwardWraps(a: nat, b: nat)
    requires b < a < MinutesPerDay
    ensures MinutesForward(a, b) == b + MinutesPerDay - a
  {
    var d := b + MinutesPerDay - a;
    assert b - a == d - MinutesPerDay;
  }

  /** Either text not a valid time gives 0, without an error. */
  lemma HoursOfInvalidTime(start: string, end: string)
    requires ParseClock(start).None? || ParseClock(end).None?
    ensures HoursBetween(start, end) == 0
  {
  }

  /** A forward gap rounds to 0 hundredths exactly when the two times of day are the same. */
  lemma ForwardZeroIff(a: nat, b: nat)
    requires a < MinutesPerDay && b < MinutesPerDay
    ensures RoundedHundredths(MinutesForward(a, b)) == 0 <==> a == b
  {
    var d := MinutesForward(a, b);
    if d == 0 {
      assert (a + d) % MinutesPerDay == a;
    }
  }

  /** The result is 0 exactly when a time is invalid or both times are the same time of day. */
  lemma HoursZeroIff(start: string, end: string)
    ensures HoursBetween(start, end) == 0 <==>
      ParseClock(start).None? || ParseClock(end).None? || ParseClock(start) == ParseClock(end)
  {
    var ps, pe := ParseClock(start), ParseClock(end);
    if ps.Some? && pe.Some? {
      ForwardZeroIff(ps.value, pe.value);
    }
  }

  /** The same text for start and end gives 0. */
  lemma HoursOfSameTime(s: string)
    ensures HoursBetween(s, s) == 0
  {
    HoursZeroIff(s, s);
  }

  /** The largest possible result, 23.98 hours, is reached from 00:01 to 00:00. */
  lemma LongestSession()
    ensures HoursBetween(FormatClock(1), FormatClock(0)) == 2398
  {
    FormatThenParseClock(1);
    FormatThenParseClock(0);
  }

  /** 09:00 to 12:30 is 3.5 hours. */
  lemma ThreeAndAHalfHours()
    ensures HoursBetween(FormatClock(540), FormatClock(750)) == 350
  {
    FormatThenParseClock(540);
    FormatThenParseClock(750);
  }
}
