/**
 * Delivery dates: the weekdays each schedule code allows, the window of
 * dates the picker offers (today to thirty days ahead), the check that
 * flags a date on a wrong weekday, and the dd/mm/yyyy text the sheet gets.
 */
module Delivery {
  import opened Wrappers

  /**
   * A calendar date: day, month and year, and its serial day number
   * (day 1 is 1 January of year 1, the numbering Python's date.toordinal
   * uses). Order, distance and weekday are taken from the serial number.
   */
  datatype Date = Date(day: int, month: int, year: int, serial: int)

  predicate WellFormed(d: Date)
  {
    1 <= d.day <= 31 && 1 <= d.month <= 12 && 1 <= d.year <= 9999 && 1 <= d.serial
  }

  /** The dates a date object can hold. */
  type ValidDate = d: Date | WellFormed(d) witness Date(1, 1, 1, 1)

  /** Weekday of a serial day number: 0 is Monday, 6 is Sunday (day 1 was a Monday). */
  function WeekdayOf(serial: int): (w: int)
    ensures 0 <= w < 7
    ensures serial % 7 == 1 ==> w == 0
  {
    (serial + 6) % 7
  }

  /** The date's weekday, as date.weekday() gives it. */
  function Weekday(d: Date): (w: int)
    ensures 0 <= w < 7
    ensures w == WeekdayOf(d.serial)
  {
    WeekdayOf(d.serial)
  }

  /** Moving k days forward moves the weekday k places round the week. */
  lemma ShiftWeekday(serial: int, k: nat)
    ensures WeekdayOf(serial + k) == (WeekdayOf(serial) + k) % 7
  {
  }

  /** The fixed table of schedule codes and the weekdays each allows. */
  const ValidDays: map<string, seq<int>> := map["MWF" := [0, 2, 4], "TTS" := [1, 3, 5]]

  /** The weekdays allowed by a schedule code; an unknown code allows none. */
  function ValidWeekdays(sched: string): (r: seq<int>)
    ensures forall w :: w in r ==> 0 <= w < 6
    ensures r == [] <==> sched != "MWF" && sched != "TTS"
    ensures sched == "MWF" ==> forall w :: w in r <==> w == 0 || w == 2 || w == 4
    ensures sched == "TTS" ==> forall w :: w in r <==> w == 1 || w == 3 || w == 5
  {
    if sched in ValidDays then ValidDays[sched] else []
  }

  /** The picker's check: a date is flagged when its weekday is not allowed. */
  predicate DisableInvalidDays(validWeekdays: seq<int>, d: Date): (flagged: bool)
    ensures flagged <==> forall i :: 0 <= i < |validWeekdays| ==> validWeekdays[i] != Weekday(d)
  {
    Weekday(d) !in validWeekdays
  }

  /** Under MWF a date is accepted exactly when it is a Monday, Wednesday or Friday. */
  lemma MwfAllows(d: Date)
    ensures !DisableInvalidDays(ValidWeekdays("MWF"), d) <==> Weekday(d) in {0, 2, 4}
  {
  }

  /** Under TTS a date is accepted exactly when it is a Tuesday, Thursday or Saturday. */
  lemma TtsAllows(d: Date)
    ensures !DisableInvalidDays(ValidWeekdays("TTS"), d) <==> Weekday(d) in {1, 3, 5}
  {
  }

  /** Monday-Wednesday-Friday and Tuesday-Thursday-Saturday share no weekday. */
  lemma SchedulesDisjoint(w: int)
    ensures !(w in ValidWeekdays("MWF") && w in ValidWeekdays("TTS"))
  {
  }

  /** Every weekday but Sunday is allowed by exactly one of the two schedules; Sunday by neither. */
  lemma SchedulesCoverWeek(d: Date)
    ensures Weekday(d) == 6 <==> DisableInvalidDays(ValidWeekdays("MWF"), d) && DisableInvalidDays(ValidWeekdays("TTS"), d)
    ensures Weekday(d) != 6 ==> DisableInvalidDays(ValidWeekdays("MWF"), d) != DisableInvalidDays(ValidWeekdays("TTS"), d)
  {
  }

  /** With an unknown schedule code every date is flagged. */
  lemma UnknownScheduleFlagsAll(sched: string, d: Date)
    requires sched != "MWF" && sched != "TTS"
    ensures DisableInvalidDays(ValidWeekdays(sched), d)
  {
  }

  /** The picker offers dates up to this many days after today. */
  const MaxDaysAhead := 30

  /** The dates the picker offers: today through thirty days later, inclusive. */
  predicate Selectable(today: Date, d: Date)
  {
    today.serial <= d.serial <= today.serial + MaxDaysAhead
  }

  /**
   * The date the picker returns: today until the user picks one of the
   * dates it offers (the picker offers no other).
   */
  function DateInput(today: ValidDate, picked: Option<ValidDate>): (d: ValidDate)
    requires picked.Some? ==> Selectable(today, picked.value)
    ensures Selectable(today, d)
    ensures picked.None? ==> d == today
    ensures picked.Some? ==> d == picked.value
  {
    if picked.Some? then picked.value else today
  }

  /** For a known schedule an allowed date lies within two days of today, well inside the window. */
  lemma AllowedDateSoon(sched: string, today: Date)
    requires sched == "MWF" || sched == "TTS"
    ensures exists n :: today.serial <= n <= today.serial + 2 && WeekdayOf(n) in ValidWeekdays(sched)
  {
    var w := WeekdayOf(today.serial);
    ShiftWeekday(today.serial, 0);
    ShiftWeekday(today.serial, 1);
    ShiftWeekday(today.serial, 2);
    var v := ValidWeekdays(sched);
    var n := if w in v then today.serial
             else if (w + 1) % 7 in v then today.serial + 1
             else today.serial + 2;
    assert WeekdayOf(n) in v;
  }

  // ---- dd/mm/yyyy ----

  function Pow10(n: nat): (p: nat)
    ensures p >= 1
  {
    if n == 0 then 1 else 10 * Pow10(n - 1)
  }

  predicate IsDigit(c: char) { '0' <= c <= '9' }

  predicate AllDigits(s: string) { forall i :: 0 <= i < |s| ==> IsDigit(s[i]) }

  function DigitChar(n: int): (c: char)
    requires 0 <= n <= 9
    ensures IsDigit(c)
    ensures c as int - '0' as int == n
  {
    ('0' as int + n) as char
  }

  /** `n` in decimal, zero-padded on the left to exactly `width` digits. */
  function Padded(n: nat, width: nat): (s: string)
    requires n < Pow10(width)
    ensures |s| == width
    ensures AllDigits(s)
  {
    if width == 0 then []
    else Padded(n / 10, width - 1) + [DigitChar(n % 10)]
  }

  /** The number a string of decimal digits denotes. */
  function DigitsValue(s: string): (n: nat)
    requires AllDigits(s)
  {
    if s == [] then 0
    else DigitsValue(s[..|s| - 1]) * 10 + (s[|s| - 1] as int - '0' as int)
  }

  /** Reading back a padded number gives the number. */
  lemma {:induction false} PaddedRoundTrip(n: nat, width: nat)
    requires n < Pow10(width)
    ensures DigitsValue(Padded(n, width)) == n
  {
    if width > 0 {
      var s := Padded(n, width);
      PaddedRoundTrip(n / 10, width - 1);
      assert s[..|s| - 1] == Padded(n / 10, width - 1);
    }
  }

  /** The date as strftime("%d/%m/%Y") writes it. */
  function FormatDate(d: ValidDate): (s: string)
    ensures |s| == 10 && s[2] == '/' && s[5] == '/'
    ensures AllDigits(s[..2]) && AllDigits(s[3..5]) && AllDigits(s[6..])
  {
    var s := Padded(d.day, 2) + "/" + Padded(d.month, 2) + "/" + Padded(d.year, 4);
    assert s[..2] == Padded(d.day, 2);
    assert s[3..5] == Padded(d.month, 2);
    assert s[6..] == Padded(d.year, 4);
    s
  }

  /** Read a dd/mm/yyyy text back into (day, month, year). */
  function ParseDate(s: string): Option<(int, int, int)>
  {
    if |s| == 10 && s[2] == '/' && s[5] == '/' &&
       AllDigits(s[..2]) && AllDigits(s[3..5]) && AllDigits(s[6..])
    then Some((DigitsValue(s[..2]), DigitsValue(s[3..5]), DigitsValue(s[6..])))
    else None
  }

  /** The written date reads back as the same day, month and year. */
  lemma FormatParseRoundTrip(d: ValidDate)
    ensures ParseDate(FormatDate(d)) == Some((d.day, d.month, d.year))
  {
    var s := FormatDate(d);
    assert s[..2] == Padded(d.day, 2);
    assert s[3..5] == Padded(d.month, 2);
    assert s[6..] == Padded(d.year, 4);
    PaddedRoundTrip(d.day, 2);
    PaddedRoundTrip(d.month, 2);
    PaddedRoundTrip(d.year, 4);
  }

  /** Two dates written alike have the same day, month and year. */
  lemma FormatInjective(a: ValidDate, b: ValidDate)
    requires FormatDate(a) == FormatDate(b)
    ensures a.day == b.day && a.month == b.month && a.year == b.year
  {
    FormatParseRoundTrip(a);
    FormatParseRoundTrip(b);
  }
}
