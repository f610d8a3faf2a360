/** Seconds since the Epoch and broken-down UTC time. */
module UtcTime {
  import opened Calendar

  const DAY := 86400

  /** Julian day of 1 January 1970. */
  const EPOCH := JulianDay(Date(1970, 1, 1))

  /** The fields of struct tm that UTC conversion fills. */
  datatype Tm = Tm(sec: int, min: int, hour: int, mday: int, mon: int, year: int, wday: int, yday: int)

  function JulianDayOf(t: int): int { t / DAY + EPOCH }

  function DateOf(u: Tm): Date { Date(u.year + 1900, u.mon + 1, u.mday) }

  /** Date::weekDay. */
  function WeekDay(jdn: int): int { TMod(jdn + 1, 7) }

  /** tm_yday as toUtcTime computes it. */
  function YearDay(jdn: int): int { jdn - JulianDay(Date(YearMonthDay(jdn).year, 1, 1)) }

  /** The broken-down time of t, by floored division. */
  function Utc(t: int, yday: bool): Tm {
    var jdn, s := JulianDayOf(t), t % DAY;
    var d := YearMonthDay(jdn);
    Tm(s % 60, s / 60 % 60, s / 3600, d.day, d.month - 1, d.year - 1900, WeekDay(jdn), if yday then YearDay(jdn) else 0)
  }

  function FromFields(d: Date, hour: int, minute: int, seconds: int): int {
    (JulianDay(d) - EPOCH) * DAY + hour * 3600 + minute * 60 + seconds
  }

  function FromUtc(u: Tm): int { FromFields(DateOf(u), u.hour, u.min, u.sec) }

  predicate IsTimeOfDay(hour: int, minute: int, second: int) {
    0 <= hour < 24 && 0 <= minute < 60 && 0 <= second < 60
  }

  lemma TruncatedSplit(t: int)
    ensures var s, d := TMod(t, DAY), TDiv(t, DAY);
            t / DAY == (if s < 0 then d - 1 else d) && t % DAY == (if s < 0 then s + DAY else s)
  {
  }

  /** toUtcTime, where the day number does not overflow the calendar's machine integers. */
  method ToUtcTime(t: int, yday: bool) returns (u: Tm)
    requires FitsInt(4 * (JulianDayOf(t) + 32044) + 3)
    ensures u == Utc(t, yday)
  {
    TruncatedSplit(t);
    var seconds, days := TMod(t, DAY), TDiv(t, DAY);
    if seconds < 0 {
      seconds := seconds + DAY;
      days := days - 1;
    }
    var minutes := seconds / 60;
    var jdn := days + EPOCH;
    var d := YearMonthDay(jdn);
    u := Tm(seconds % 60, minutes % 60, minutes / 60, d.day, d.month - 1, d.year - 1900, WeekDay(jdn), 0);
    if yday {
      u := u.(yday := jdn - JulianDay(Date(d.year, 1, 1)));
    }
  }

  // ---------------------------------------------------------------- round trips

  lemma HmsParts(s: int)
    requires 0 <= s < DAY
    ensures IsTimeOfDay(s / 3600, s / 60 % 60, s % 60)
    ensures s / 3600 * 3600 + s / 60 % 60 * 60 + s % 60 == s
  {
  }

  /** For every t whose day the calendar covers, negative t included, conversion there and back is
      the identity; date, time of day and day of the year are in range, and the weekday is exactly
      for days from -1 on and every seventh day before. */
  lemma UtcRoundTrip(t: int, yday: bool)
    requires JulianDayOf(t) >= -32044
    ensures FromUtc(Utc(t, yday)) == t
    ensures IsDate(DateOf(Utc(t, yday))) && InDomain(DateOf(Utc(t, yday)))
    ensures IsTimeOfDay(Utc(t, yday).hour, Utc(t, yday).min, Utc(t, yday).sec)
    ensures 0 <= Utc(t, yday).yday < if Leap(Utc(t, yday).year + 1900) then 366 else 365
    ensures 0 <= Utc(t, yday).wday < 7 <==> JulianDayOf(t) >= -1 || (JulianDayOf(t) + 1) % 7 == 0
  {
    YearDayIff(JulianDayOf(t));
    WeekDayIff(JulianDayOf(t));
    DateOfDay(JulianDayOf(t));
    HmsParts(t % DAY);
    assert DateOf(Utc(t, yday)) == YearMonthDay(JulianDayOf(t));
  }

  lemma HmsUnique(days: int, h: int, m: int, s: int)
    requires IsTimeOfDay(h, m, s)
    ensures var t := days * DAY + h * 3600 + m * 60 + s;
            t / DAY == days && t % DAY / 3600 == h && t % DAY / 60 % 60 == m && t % DAY % 60 == s
  {
    var r := h * 3600 + m * 60 + s;
    assert 0 <= r < DAY;
    DayUnique(days, r);
    assert r / 60 == h * 60 + m;
  }

  lemma DayUnique(days: int, r: int)
    requires 0 <= r < DAY
    ensures (days * DAY + r) / DAY == days && (days * DAY + r) % DAY == r
  {
  }

  /** A Gregorian date and time of day comes back from its seconds exactly from 1 March -4800 on. */
  lemma FieldsRoundTrip(d: Date, h: int, m: int, s: int, yday: bool)
    requires IsDate(d) && IsTimeOfDay(h, m, s)
    ensures var u := Utc(FromFields(d, h, m, s), yday);
            && u.hour == h && u.min == m && u.sec == s
            && (DateOf(u) == d <==> InDomain(d))
  {
    HmsUnique(JulianDay(d) - EPOCH, h, m, s);
    DayOfDate(d);
    var t := FromFields(d, h, m, s);
    assert JulianDayOf(t) == JulianDay(d);
    assert DateOf(Utc(t, yday)) == YearMonthDay(JulianDay(d));
  }

  // ---------------------------------------------------------------- weekday

  /** The weekday by the seven-day cycle. */
  function CycleDay(jdn: int): int { (jdn + 1) % 7 }

  /** tm_wday is a day of the week, and the right one, exactly when the day number is at least -1
      or one of every seven before. */
  lemma WeekDayIff(jdn: int)
    ensures 0 <= WeekDay(jdn) < 7 <==> jdn >= -1 || (jdn + 1) % 7 == 0
    ensures 0 <= WeekDay(jdn) < 7 ==> WeekDay(jdn) == CycleDay(jdn)
    ensures !(0 <= WeekDay(jdn) < 7) ==> WeekDay(jdn) == CycleDay(jdn) - 7
  {
  }

  lemma WeekAnchors()
    ensures EPOCH == 2440588 && WeekDay(EPOCH) == 4
    ensures WeekDay(-32044) == -4
  {
  }

  // ---------------------------------------------------------------- day of the year

  function DaysBeforeMonth(y: int, m: int): int
    requires 1 <= m <= 12
  {
    if m == 1 then 0 else DaysBeforeMonth(y, m - 1) + DaysInMonth(y, m - 1)
  }

  /** Days since 1 January by the calendar. */
  function DayOfYear(d: Date): int
    requires IsDate(d)
  {
    DaysBeforeMonth(d.year, d.month) + d.day - 1
  }

  lemma {:induction false} MonthTable(y: int, m: int)
    requires 3 <= m <= 12
    ensures DaysBeforeMonth(y, m) == MonthStart(m - 3) + 59 + (if Leap(y) then 1 else 0)
  {
    if m > 3 {
      MonthTable(y, m - 1);
      MonthLength(y, m - 4);
    } else {
      assert DaysBeforeMonth(y, 2) == 31;
    }
  }

  lemma YearStart(y: int)
    ensures JulianDay(Date(y, 1, 1)) == 1 + 306 + TruncatedDays(y + 4799) - 32045
  {
  }

  lemma SinceNewYear(d: Date)
    requires IsDate(d) && InDomain(d)
    ensures JulianDay(d) - JulianDay(Date(d.year, 1, 1)) == DayOfYear(d) - (if d.year == -4800 then 1 else 0)
  {
    if d.month <= 2 {
      WithinMarchYear(Date(d.year, 1, 1), d);
      assert DaysBeforeMonth(d.year, 2) == 31;
    } else {
      AfterFebruary(d);
      MonthTable(d.year, d.month);
    }
  }

  lemma MarchOn(d: Date)
    requires 3 <= d.month <= 12
    ensures JulianDay(d) == d.day + MonthStart(d.month - 3) + TruncatedDays(d.year + 4800) - 32045
  {
    assert TDiv(14 - d.month, 12) == 0;
  }

  lemma AfterFebruary(d: Date)
    requires 3 <= d.month <= 12 && d.year >= -4800
    ensures JulianDay(d) - JulianDay(Date(d.year, 1, 1)) ==
            d.day - 1 + MonthStart(d.month - 3) + 59 + (if Leap(d.year) && d.year != -4800 then 1 else 0)
  {
    YearStart(d.year);
    MarchOn(d);
    MarchTurns(d.year + 4799);
    LeapShift(d.year);
  }

  /** tm_yday is the day of the year exactly outside the year -4800, where it is one short. */
  lemma YearDayIff(jdn: int)
    requires jdn >= -32044
    ensures IsDate(YearMonthDay(jdn))
    ensures YearDay(jdn) == DayOfYear(YearMonthDay(jdn)) <==> YearMonthDay(jdn).year != -4800
    ensures YearMonthDay(jdn).year == -4800 ==> YearDay(jdn) == DayOfYear(YearMonthDay(jdn)) - 1
    ensures 0 <= YearDay(jdn) < if Leap(YearMonthDay(jdn).year) then 366 else 365
  {
    DateOfDay(jdn);
    var d := YearMonthDay(jdn);
    SinceNewYear(d);
    DayOfYearRange(d);
    if d.year == -4800 { MonthTable(d.year, d.month); }
  }

  lemma DayOfYearRange(d: Date)
    requires IsDate(d)
    ensures 0 <= DayOfYear(d) < if Leap(d.year) then 366 else 365
  {
    if d.month >= 3 {
      MonthTable(d.year, d.month);
      MonthLength(d.year, d.month - 3);
    } else {
      assert DaysBeforeMonth(d.year, 2) == 31;
    }
  }

  // ---------------------------------------------------------------- POSIX

  /** Seconds since the Epoch, section 4.16 of POSIX.1-2017 Base Definitions; for the years before
      1970, where the standard leaves it undefined, with divisions rounded down. */
  function PosixSeconds(u: Tm): int {
    u.sec + u.min * 60 + u.hour * 3600 + u.yday * 86400 + (u.year - 70) * 31536000
    + (u.year - 69) / 4 * 86400 - (u.year - 1) / 100 * 86400 + (u.year + 299) / 400 * 86400
  }

  lemma NewYearDays(year: int)
    requires year > -4800
    ensures JulianDay(Date(year, 1, 1)) - EPOCH ==
            var y := year - 1900;
            (y - 70) * 365 + (y - 69) / 4 - (y - 1) / 100 + (y + 299) / 400
  {
    WeekAnchors();
    YearStart(year);
    var m := year + 4799;
    assert m / 4 == (year - 1900 - 69) / 4 + 1692;
    assert m / 100 == (year - 1900 - 1) / 100 + 67;
    assert m / 400 == (year - 1900 + 299) / 400 + 16;
  }

  /** In the year -4800 the first of January is numbered one too high. */
  lemma FirstYearDays()
    ensures JulianDay(Date(-4800, 1, 1)) == -32103
    ensures -32103 - EPOCH == (-6700 - 70) * 365 + (-6700 - 69) / 4 - (-6700 - 1) / 100 + (-6700 + 299) / 400 + 1
  {
    WeekAnchors();
    YearStart(-4800);
    assert (-6700 - 69) / 4 == -1693 && (-6700 - 1) / 100 == -68 && (-6700 + 299) / 400 == -17;
  }

  /** The broken-down time satisfies the POSIX expression, its divisions rounded down, exactly
      outside the year -4800, where the expression is one day short. */
  lemma MeetsPosixIff(t: int)
    requires JulianDayOf(t) >= -32044
    ensures PosixSeconds(Utc(t, true)) == t <==> YearMonthDay(JulianDayOf(t)).year != -4800
    ensures YearMonthDay(JulianDayOf(t)).year == -4800 ==> PosixSeconds(Utc(t, true)) == t - DAY
  {
    var u := Utc(t, true);
    HmsParts(t % DAY);
    DateOfDay(JulianDayOf(t));
    if u.year + 1900 == -4800 {
      FirstYearDays();
    } else {
      NewYearDays(u.year + 1900);
    }
  }
}
