/** Dates, instants and the "HH:MM" time text the apps use.

    A calendar date is an integer day number, day 0 being 1970-01-01 of
    the proleptic Gregorian calendar in local time; an instant is an
    integer number of milliseconds since local midnight of day 0 (time
    zones and daylight-saving changes are not modelled, so every day is
    `DayMs` long). */
module Clock {
  import opened Basics

  const MinuteMs: int := 60 * 1000
  const HourMs: int := 60 * MinuteMs
  const DayMs: int := 24 * HourMs

  /** A minute of the day, 00:00 .. 23:59. */
  type MinuteOfDay = m: int | 0 <= m < 1440

  /** `Date.prototype.getDay`: 0 = Sunday .. 6 = Saturday; day 0 was a Thursday. */
  function Weekday(day: int): (w: int)
    ensures 0 <= w < 7
  {
    (day + 4) % 7
  }

  /** The local midnight that starts `day`. */
  function Midnight(day: int): int
  {
    day * DayMs
  }

  /** The date an instant falls on. */
  function DayOf(instant: int): int
  {
    instant / DayMs
  }

  /** Milliseconds since the local midnight of the instant's date. */
  function TimeOfDay(instant: int): int
  {
    instant % DayMs
  }

  lemma WeekdayAfterWeek(day: int)
    ensures Weekday(day + 7) == Weekday(day)
  {
  }

  // ---------------------------------------------------------------------
  // Decimal text

  predicate IsDigit(c: char)
  {
    '0' <= c <= '9'
  }

  function DigitChar(n: int): (c: char)
    requires 0 <= n < 10
    ensures IsDigit(c)
  {
    (('0' as int) + n) as char
  }

  function DigitValue(c: char): (n: int)
    requires IsDigit(c)
    ensures 0 <= n < 10
  {
    (c as int) - ('0' as int)
  }

  predicate AllDigits(s: string)
  {
    forall i :: 0 <= i < |s| ==> IsDigit(s[i])
  }

  /** The number a string of decimal digits denotes (`parseInt` on digits). */
  function DigitsValue(s: string): (n: nat)
    requires AllDigits(s)
  {
    if s == [] then 0 else DigitsValue(s[..|s| - 1]) * 10 + DigitValue(s[|s| - 1])
  }

  /** `${n}` for a natural number: decimal, no leading zeros. */
  function NatText(n: nat): (s: string)
    ensures AllDigits(s) && |s| >= 1
    ensures (|s| == 1) == (n < 10)
  {
    if n < 10 then [DigitChar(n)] else NatText(n / 10) + [DigitChar(n % 10)]
  }

  /** Reading back the decimal text gives the number. */
  lemma {:induction false} NatTextValue(n: nat)
    ensures DigitsValue(NatText(n)) == n
  {
    if n >= 10 {
      NatTextValue(n / 10);
      var s := NatText(n);
      assert s[..|s| - 1] == NatText(n / 10);
    }
  }

  /** Two decimal digits with a leading zero, as in "09". */
  function TwoDigits(n: int): (s: string)
    requires 0 <= n < 100
    ensures |s| == 2 && AllDigits(s) && DigitValue(s[0]) * 10 + DigitValue(s[1]) == n
  {
    [DigitChar(n / 10), DigitChar(n % 10)]
  }

  // ---------------------------------------------------------------------
  // "HH:MM" times (the value of an <input type="time">)

  function HourOf(s: string): int
    requires |s| == 5 && AllDigits(s[..2])
  {
    DigitValue(s[0]) * 10 + DigitValue(s[1])
  }

  function MinuteOf(s: string): int
    requires |s| == 5 && AllDigits(s[3..])
  {
    DigitValue(s[3]) * 10 + DigitValue(s[4])
  }

  /** A valid 24-hour "HH:MM" text. */
  predicate IsClockText(s: string)
  {
    && |s| == 5 && s[2] == ':' && AllDigits(s[..2]) && AllDigits(s[3..])
    && HourOf(s) < 24 && MinuteOf(s) < 60
  }

  /** The minute of the day a valid "HH:MM" text names. */
  function ClockMinutes(s: string): (m: MinuteOfDay)
    requires IsClockText(s)
  {
    HourOf(s) * 60 + MinuteOf(s)
  }

  /** `Date.prototype.toTimeString().substring(0, 5)`: the zero-padded
      "HH:MM" of a minute of the day. It is the inverse of `ClockMinutes`. */
  function ClockText(m: MinuteOfDay): (s: string)
    ensures IsClockText(s) && ClockMinutes(s) == m
  {
    var s := TwoDigits(m / 60) + ":" + TwoDigits(m % 60);
    assert s[..2] == TwoDigits(m / 60) && s[3..] == TwoDigits(m % 60);
    s
  }

  /** Every valid "HH:MM" text is the clock text of exactly one minute. */
  lemma ClockTextOfMinutes(s: string)
    requires IsClockText(s)
    ensures ClockText(ClockMinutes(s)) == s
  {
    var h, m := HourOf(s), MinuteOf(s);
    DivModSixty(h, m);
    assert ClockText(ClockMinutes(s)) == TwoDigits(h) + ":" + TwoDigits(m);
    TwoDigitsOfDigits(s[..2]);
    TwoDigitsOfDigits(s[3..]);
    assert s == s[..2] + ":" + s[3..];
  }

  lemma DivModSixty(h: int, m: int)
    requires 0 <= m < 60
    ensures (h * 60 + m) / 60 == h && (h * 60 + m) % 60 == m
  {
  }

  lemma ClockTextInjective(m: MinuteOfDay, n: MinuteOfDay)
    requires ClockText(m) == ClockText(n)
    ensures m == n
  {
  }

  // ---------------------------------------------------------------------
  // 12-hour display (script.js formatTime, identical in whatsapp.js)

  /** `formatTime`: "HH:MM" in 24-hour form to "h:MM AM" / "h:MM PM".
      The hour is `hour % 12 || 12`; the minutes text is copied as it is. */
  function FormatTime(time: string): string
    requires IsClockText(time)
  {
    var hour := HourOf(time);
    var ampm := if hour >= 12 then "PM" else "AM";
    var displayHour := if hour % 12 == 0 then 12 else hour % 12;
    NatText(displayHour) + ":" + time[3..] + " " + ampm
  }

  lemma NatTextTwelve()
    ensures NatText(12) == "12"
  {
    assert NatText(1) == "1";
  }

  /** Midnight and noon read 12, morning hours keep their number, afternoon
      hours lose twelve; AM before noon, PM from noon on. */
  lemma FormatTimeHours(time: string)
    requires IsClockText(time)
    ensures HourOf(time) == 0 ==> FormatTime(time) == "12:" + time[3..] + " AM"
    ensures HourOf(time) == 12 ==> FormatTime(time) == "12:" + time[3..] + " PM"
    ensures 1 <= HourOf(time) <= 11 ==> FormatTime(time) == NatText(HourOf(time)) + ":" + time[3..] + " AM"
    ensures 13 <= HourOf(time) <= 23 ==> FormatTime(time) == NatText(HourOf(time) - 12) + ":" + time[3..] + " PM"
  {
    var hour := HourOf(time);
    var minutes := time[3..];
    var x := NatText(if hour % 12 == 0 then 12 else hour % 12) + ":" + minutes;
    assert FormatTime(time) == x + " " + (if hour >= 12 then "PM" else "AM");
    Meridiem(x);
    if hour == 0 || hour == 12 {
      NatTextTwelve();
      assert "12" + ":" + minutes == "12:" + minutes;
    } else if hour < 12 {
      assert hour % 12 == hour;
    } else {
      assert hour % 12 == hour - 12;
    }
  }

  lemma Meridiem(x: string)
    ensures x + " " + "AM" == x + " AM" && x + " " + "PM" == x + " PM"
  {
  }

  /** Splits "h:MM AM" / "h:MM PM" into the hour number, the minutes text
      and whether it is PM. */
  function TwelveHourParts(s: string): (r: Option<(nat, string, bool)>)
    ensures r.Some? ==> |r.value.1| == 2 && AllDigits(r.value.1)
  {
    if |s| < 7 || |s| > 8 then None
    else
      var n := |s| - 6;
      var hourText, minuteText, meridiem := s[..n], s[n + 1..n + 3], s[n + 4..];
      if !AllDigits(hourText) || s[n] != ':' || !AllDigits(minuteText) || s[n + 3] != ' '
        || (meridiem != "AM" && meridiem != "PM")
      then None
      else Some((DigitsValue(hourText), minuteText, meridiem == "PM"))
  }

  /** The 24-hour "HH:MM" of a 12-hour reading (hour 1..12). */
  function TwentyFourHour(dh: nat, minuteText: string, pm: bool): (r: Option<string>)
    requires |minuteText| == 2 && AllDigits(minuteText)
    ensures r.Some? ==> IsClockText(r.value)
  {
    var minute := DigitValue(minuteText[0]) * 10 + DigitValue(minuteText[1]);
    if dh < 1 || dh > 12 || minute >= 60 then None
    else
      var hour := if !pm then (if dh == 12 then 0 else dh) else (if dh == 12 then 12 else dh + 12);
      var t := TwoDigits(hour) + ":" + minuteText;
      assert t[..2] == TwoDigits(hour) && t[3..] == minuteText;
      Some(t)
  }

  /** Reads "h:MM AM" / "h:MM PM" back into 24-hour "HH:MM". */
  function FromTwelveHour(s: string): (r: Option<string>)
    ensures r.Some? ==> IsClockText(r.value)
  {
    match TwelveHourParts(s)
    case None => None
    case Some((dh, minuteText, pm)) => TwentyFourHour(dh, minuteText, pm)
  }

  lemma FormatTimeParts(time: string)
    requires IsClockText(time)
    ensures TwelveHourParts(FormatTime(time))
         == Some((if HourOf(time) % 12 == 0 then 12 else HourOf(time) % 12, time[3..], HourOf(time) >= 12))
  {
    var hour := HourOf(time);
    var dh := if hour % 12 == 0 then 12 else hour % 12;
    var s := FormatTime(time);
    var n := |NatText(dh)|;
    NatTextValue(dh);
    assert n == 1 || n == 2 by {
      if dh >= 10 { assert NatText(dh) == NatText(dh / 10) + [DigitChar(dh % 10)]; }
    }
    assert s == NatText(dh) + ":" + time[3..] + " " + (if hour >= 12 then "PM" else "AM");
    TwelveHourLayout(NatText(dh), time[3..], if hour >= 12 then "PM" else "AM");
  }

  /** Where the pieces of "h:MM AM" sit, on abstract pieces. */
  lemma TwelveHourLayout(h: string, mm: string, ampm: string)
    requires |mm| == 2
    ensures var s, n := h + ":" + mm + " " + ampm, |h|;
      s[..n] == h && s[n] == ':' && s[n + 1..n + 3] == mm && s[n + 3] == ' ' && s[n + 4..] == ampm
  {
  }

  /** The 12-hour display hour and the AM/PM flag determine the 24-hour hour. */
  lemma TwelveHourBack(hour: int)
    requires 0 <= hour < 24
    ensures var dh := if hour % 12 == 0 then 12 else hour % 12;
      (if hour < 12 then (if dh == 12 then 0 else dh) else (if dh == 12 then 12 else dh + 12)) == hour
  {
  }

  /** Two digits of a two-digit number are the digits it was read from. */
  lemma TwoDigitsOfDigits(s: string)
    requires |s| == 2 && AllDigits(s)
    ensures TwoDigits(DigitValue(s[0]) * 10 + DigitValue(s[1])) == s
  {
    var t := TwoDigits(DigitValue(s[0]) * 10 + DigitValue(s[1]));
    assert DigitValue(t[0]) == DigitValue(s[0]) && DigitValue(t[1]) == DigitValue(s[1]);
  }

  lemma TwentyFourHourOfTime(time: string)
    requires IsClockText(time)
    ensures TwentyFourHour(if HourOf(time) % 12 == 0 then 12 else HourOf(time) % 12, time[3..], HourOf(time) >= 12)
         == Some(time)
  {
    var hour := HourOf(time);
    TwelveHourBack(hour);
    TwoDigitsOfDigits(time[..2]);
    assert TwoDigits(hour) == time[..2];
    assert time == time[..2] + ":" + time[3..];
  }

  /** `formatTime` loses nothing: its output reads back to its input. */
  lemma FormatTimeRoundTrip(time: string)
    requires IsClockText(time)
    ensures FromTwelveHour(FormatTime(time)) == Some(time)
  {
    FormatTimeParts(time);
    TwentyFourHourOfTime(time);
  }

  // ---------------------------------------------------------------------
  // Calendar months (`new Date(year, month, day)` with month 0 = January)

  predicate IsLeapYear(y: int)
  {
    y % 4 == 0 && (y % 100 != 0 || y % 400 == 0)
  }

  function DaysInMonth(y: int, m: int): (n: int)
    requires 0 <= m < 12
    ensures 28 <= n <= 31
  {
    if m == 1 then (if IsLeapYear(y) then 29 else 28)
    else if m == 3 || m == 5 || m == 8 || m == 10 then 30
    else 31
  }

  /** Days of year `y` before the first of month `m` (m = 12: the whole year). */
  function DaysBeforeMonth(y: int, m: int): int
    requires 0 <= m <= 12
  {
    [0, 31, 59, 90, 120, 151, 181, 212, 243, 273, 304, 334, 365][m]
      + (if m > 1 && IsLeapYear(y) then 1 else 0)
  }

  lemma DaysBeforeNextMonth(y: int, m: int)
    requires 0 <= m < 12
    ensures DaysBeforeMonth(y, m + 1) == DaysBeforeMonth(y, m) + DaysInMonth(y, m)
  {
  }

  /** Leap years in 1 .. x (for x >= 0; the same formula counts backwards below 0). */
  function LeapYearsThrough(x: int): int
  {
    x / 4 - x / 100 + x / 400
  }

  lemma StepBy4(y: int)
    ensures y / 4 - (y - 1) / 4 == if y % 4 == 0 then 1 else 0
  {
  }

  lemma StepBy100(y: int)
    ensures y / 100 - (y - 1) / 100 == if y % 100 == 0 then 1 else 0
  {
  }

  lemma StepBy400(y: int)
    ensures y / 400 - (y - 1) / 400 == if y % 400 == 0 then 1 else 0
  {
  }

  lemma LeapYearStep(y: int)
    ensures LeapYearsThrough(y) - LeapYearsThrough(y - 1) == if IsLeapYear(y) then 1 else 0
  {
    StepBy4(y);
    StepBy100(y);
    StepBy400(y);
    assert y % 100 == 0 ==> y % 4 == 0;
    assert y % 400 == 0 ==> y % 100 == 0;
  }

  function DaysBeforeYear(y: int): int
  {
    365 * (y - 1970) + LeapYearsThrough(y - 1) - LeapYearsThrough(1969)
  }

  /** The day number of `new Date(y, m, d)`; a day outside the month rolls over linearly. */
  function DayNumber(y: int, m: int, d: int): int
    requires 0 <= m < 12
  {
    DaysBeforeYear(y) + DaysBeforeMonth(y, m) + d - 1
  }

  /** `new Date(y, m + 1, 0)`, the last day of month m, is the day before the
      first of the next month, in the same year or (for December) the next. */
  lemma LastDayOfMonth(y: int, m: int)
    requires 0 <= m < 12
    ensures DayNumber(y, m, DaysInMonth(y, m)) + 1
         == if m < 11 then DayNumber(y, m + 1, 1) else DayNumber(y + 1, 0, 1)
  {
    DaysBeforeNextMonth(y, m);
    LeapYearStep(y);
  }

  /** Each year is 365 days long, or 366 in a leap year. */
  lemma YearLength(y: int)
    ensures DaysBeforeYear(y + 1) == DaysBeforeYear(y) + DaysBeforeMonth(y, 12)
    ensures DaysBeforeMonth(y, 12) == if IsLeapYear(y) then 366 else 365
  {
    LeapYearStep(y);
  }

  /** The year holding `day`, searched upwards from a year that starts on
      or before it. */
  function YearUpFrom(y: int, day: int): (r: int)
    requires DaysBeforeYear(y) <= day
    ensures DaysBeforeYear(r) <= day < DaysBeforeYear(r + 1)
    decreases day - DaysBeforeYear(y)
  {
    YearLength(y);
    if day < DaysBeforeYear(y + 1) then y else YearUpFrom(y + 1, day)
  }

  /** The year holding `day`, searched downwards from a year that ends
      after it. */
  function YearDownFrom(y: int, day: int): (r: int)
    requires day < DaysBeforeYear(y + 1)
    ensures DaysBeforeYear(r) <= day < DaysBeforeYear(r + 1)
    decreases DaysBeforeYear(y + 1) - day
  {
    YearLength(y);
    if DaysBeforeYear(y) <= day then y else YearDownFrom(y - 1, day)
  }

  /** The month of year `y` holding `day`, searched from month `m` on. */
  function MonthFrom(y: int, m: int, day: int): (r: int)
    requires 0 <= m < 12
    requires DayNumber(y, m, 1) <= day < DaysBeforeYear(y + 1)
    ensures m <= r < 12 && DayNumber(y, r, 1) <= day < DayNumber(y, r, 1) + DaysInMonth(y, r)
    decreases 12 - m
  {
    DaysBeforeNextMonth(y, m);
    YearLength(y);
    if day < DayNumber(y, m, 1) + DaysInMonth(y, m) then m else MonthFrom(y, m + 1, day)
  }

  /** `getFullYear()` and `getMonth()` of a date: the calendar month that
      contains it. */
  function YearMonthOf(day: int): (r: (int, int))
    ensures 0 <= r.1 < 12
    ensures DayNumber(r.0, r.1, 1) <= day < DayNumber(r.0, r.1, 1) + DaysInMonth(r.0, r.1)
  {
    var y := if day >= 0 then YearUpFrom(1970, day) else YearDownFrom(1969, day);
    (y, MonthFrom(y, 0, day))
  }

  /** Later years start later: by at least 365 days per year. */
  lemma {:induction false} YearsAscend(a: int, b: int)
    requires a <= b
    ensures DaysBeforeYear(a) + 365 * (b - a) <= DaysBeforeYear(b)
    decreases b - a
  {
    if a < b {
      YearsAscend(a, b - 1);
      YearLength(b - 1);
    }
  }

  /** Later months of a year start later. */
  lemma {:induction false} MonthsAscend(y: int, m: int, n: int)
    requires 0 <= m <= n <= 12
    ensures DaysBeforeMonth(y, m) <= DaysBeforeMonth(y, n)
    ensures m < n ==> DaysBeforeMonth(y, m) + DaysInMonth(y, m) <= DaysBeforeMonth(y, n)
    decreases n - m
  {
    if m < n {
      DaysBeforeNextMonth(y, m);
      MonthsAscend(y, m + 1, n);
    }
  }

  /** A month lies within its year. */
  lemma MonthInYear(y: int, m: int, day: int)
    requires 0 <= m < 12
    requires DayNumber(y, m, 1) <= day < DayNumber(y, m, 1) + DaysInMonth(y, m)
    ensures DaysBeforeYear(y) <= day < DaysBeforeYear(y + 1)
  {
    MonthsAscend(y, 0, m);
    MonthsAscend(y, m, 12);
    YearLength(y);
  }

  /** Years do not overlap. */
  lemma SameYear(y: int, y': int, day: int)
    requires DaysBeforeYear(y) <= day < DaysBeforeYear(y + 1)
    requires DaysBeforeYear(y') <= day < DaysBeforeYear(y' + 1)
    ensures y == y'
  {
    if y < y' {
      YearsAscend(y + 1, y');
    } else if y' < y {
      YearsAscend(y' + 1, y);
    }
  }

  /** Months of one year do not overlap. */
  lemma SameMonth(y: int, m: int, m': int, day: int)
    requires 0 <= m < 12 && 0 <= m' < 12
    requires DayNumber(y, m, 1) <= day < DayNumber(y, m, 1) + DaysInMonth(y, m)
    requires DayNumber(y, m', 1) <= day < DayNumber(y, m', 1) + DaysInMonth(y, m')
    ensures m == m'
  {
    if m < m' {
      MonthsAscend(y, m, m');
    } else if m' < m {
      MonthsAscend(y, m', m);
    }
  }

  /** The months of the calendar do not overlap, so the month that holds
      a date is unique: `YearMonthOf` is the only answer. */
  lemma YearMonthOfUnique(y: int, m: int, day: int)
    requires 0 <= m < 12
    requires DayNumber(y, m, 1) <= day < DayNumber(y, m, 1) + DaysInMonth(y, m)
    ensures YearMonthOf(day) == (y, m)
  {
    var r := YearMonthOf(day);
    MonthInYear(y, m, day);
    MonthInYear(r.0, r.1, day);
    SameYear(y, r.0, day);
    SameMonth(y, m, r.1, day);
  }

  lemma CalendarAnchors()
    ensures DayNumber(1970, 0, 1) == 0 && Weekday(0) == 4
    ensures DayNumber(2000, 0, 1) == 10957 && Weekday(10957) == 6
  {
  }
}
