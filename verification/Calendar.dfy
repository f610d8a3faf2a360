/** Julian day numbers and Gregorian dates. */
module Calendar {

  datatype Date = Date(year: int, month: int, day: int)

  /** Integer division of the source language: toward zero. */
  function TDiv(a: int, b: int): int
    requires b > 0
  {
    if a >= 0 then a / b else -((-a) / b)
  }

  function TMod(a: int, b: int): int
    requires b > 0
  {
    a - b * TDiv(a, b)
  }

  /** Years counted from 1 March -4800 and months counted from March. */
  function MarchYear(d: Date): int { d.year + 4800 - TDiv(14 - d.month, 12) }

  function MarchMonth(d: Date): int { d.month + 12 * TDiv(14 - d.month, 12) - 3 }

  function JulianDay(d: Date): int {
    var y, m := MarchYear(d), MarchMonth(d);
    d.day + TDiv(153 * m + 2, 5) + y * 365 + TDiv(y, 4) - TDiv(y, 100) + TDiv(y, 400) - 32045
  }

  /** The intermediate values of getYearMonthDay. */
  datatype Split = Split(a: int, b: int, c: int, d: int, e: int, m: int)

  function SplitDay(jdn: int): Split {
    var a := jdn + 32044;
    var b := TDiv(4 * a + 3, 146097);
    var c := a - TDiv(b * 146097, 4);
    var d := TDiv(4 * c + 3, 1461);
    var e := c - TDiv(1461 * d, 4);
    var m := TDiv(5 * e + 2, 153);
    Split(a, b, c, d, e, m)
  }

  function YearMonthDay(jdn: int): Date {
    var p := SplitDay(jdn);
    Date(p.b * 100 + p.d - 4800 + TDiv(p.m, 10),
         p.m + 3 - 12 * TDiv(p.m, 10),
         p.e - TDiv(153 * p.m + 2, 5) + 1)
  }

  // ---------------------------------------------------------------- the Gregorian calendar

  predicate Leap(y: int) { y % 4 == 0 && (y % 100 != 0 || y % 400 == 0) }

  function DaysInMonth(y: int, m: int): int
    requires 1 <= m <= 12
  {
    if m == 2 then (if Leap(y) then 29 else 28)
    else if m == 4 || m == 6 || m == 9 || m == 11 then 30 else 31
  }

  predicate IsDate(d: Date) {
    1 <= d.month <= 12 && 1 <= d.day <= DaysInMonth(d.year, d.month)
  }

  function NextDay(d: Date): (n: Date)
    requires IsDate(d)
    ensures IsDate(n)
  {
    if d.day < DaysInMonth(d.year, d.month) then d.(day := d.day + 1)
    else if d.month < 12 then Date(d.year, d.month + 1, 1)
    else Date(d.year + 1, 1, 1)
  }

  /** Leap years recur every 400 years, so the year offset 4800 keeps them. */
  lemma LeapShift(y: int)
    ensures Leap(y + 4800) <==> Leap(y)
  {
  }

  /** On or after 1 March -4800. */
  predicate InDomain(d: Date) {
    d.year > -4800 || (d.year == -4800 && d.month >= 3)
  }

  // ---------------------------------------------------------------- mixed-radix floors

  lemma QuotientIff(x: nat, p: nat, k: nat)
    requires p > 0
    ensures x / p == k <==> k * p <= x < (k + 1) * p
  {
    var q, r := x / p, x % p;
    assert x == q * p + r;
    if k < q {
      Times(k + 1, q, p);
    } else if k > q {
      Times(q + 1, k, p);
    }
  }

  lemma Times(a: nat, b: nat, p: nat)
    requires a <= b
    ensures a * p <= b * p
  {
  }

  lemma QuarterIff(x: nat, n: nat)
    ensures x <= 4 * n + 3 <==> x / 4 <= n
  {
  }

  /** Floor arithmetic behind both splits: n lies in the k-th block of length p/4. */
  lemma BlockOf(n: nat, p: nat, k: nat)
    requires p >= 4
    ensures (4 * n + 3) / p == k <==> (k * p) / 4 <= n < ((k + 1) * p) / 4
  {
    QuotientIff(4 * n + 3, p, k);
    QuarterIff(k * p, n);
    QuarterIff((k + 1) * p, n);
  }

  /** Days before the March year y, on the non-negative side. */
  function DaysBefore(y: nat): nat { 365 * y + y / 4 - y / 100 + y / 400 }

  lemma CenturySplit(b: nat, d: nat)
    requires d < 100
    ensures DaysBefore(100 * b + d) == (b * 146097) / 4 + (1461 * d) / 4
  {
    Quarters(b, d);
    Centuries(b, d);
    FourCenturies(b, d);
    assert (b * 146097) / 4 == 36524 * b + b / 4;
    assert (1461 * d) / 4 == 365 * d + d / 4;
  }

  lemma Quarters(b: nat, d: nat)
    ensures (100 * b + d) / 4 == 25 * b + d / 4
  {
  }

  lemma Centuries(b: nat, d: nat)
    requires d < 100
    ensures (100 * b + d) / 100 == b
  {
  }

  lemma FourCenturies(b: nat, d: nat)
    requires d < 100
    ensures (100 * b + d) / 400 == b / 4
  {
  }

  lemma DivStep(y: int)
    ensures (y + 1) / 4 == y / 4 + if (y + 1) % 4 == 0 then 1 else 0
    ensures (y + 1) / 100 == y / 100 + if (y + 1) % 100 == 0 then 1 else 0
    ensures (y + 1) / 400 == y / 400 + if (y + 1) % 400 == 0 then 1 else 0
  {
  }

  /** The days of a March year: the last month has 29 days exactly before a leap year's March. */
  function YearLength(y: nat): nat { DaysBefore(y + 1) - DaysBefore(y) }

  lemma YearLengthIs(y: nat)
    ensures YearLength(y) == if Leap(y + 1) then 366 else 365
  {
    DivStep(y);
  }

  function MonthStart(m: int): int { TDiv(153 * m + 2, 5) }

  lemma MonthOf(e: nat, m: nat)
    requires m <= 11
    ensures (5 * e + 2) / 153 == m <==> MonthStart(m) <= e < MonthStart(m + 1)
  {
  }

  /** The month table of the March year. */
  lemma MonthLength(y: int, m: nat)
    requires m <= 11
    ensures var month := m + 3 - 12 * (m / 10);
            && 1 <= month <= 12
            && (m < 11 ==> MonthStart(m + 1) - MonthStart(m) == DaysInMonth(y, month))
            && (m == 11 ==> month == 2 && MonthStart(m) == 337)
  {
    match m
    case 0 => case 1 => case 2 => case 3 => case 4 => case 5 =>
    case 6 => case 7 => case 8 => case 9 => case 10 => case 11 =>
  }

  // ---------------------------------------------------------------- day number to date and back

  /** March-based reading of a day number on or after -32044. */
  lemma SplitIs(jdn: int)
    requires jdn >= -32044
    ensures
      var p := SplitDay(jdn);
      && p.b >= 0 && 0 <= p.d < 100 && 0 <= p.m <= 11
      && DaysBefore(100 * p.b + p.d) + p.e == jdn + 32044
      && 0 <= p.e < YearLength(100 * p.b + p.d)
      && MonthStart(p.m) <= p.e < MonthStart(p.m + 1)
  {
    var p := SplitDay(jdn);
    BlockOf(p.a, 146097, p.b);
    assert 0 <= p.c <= 36524;
    BlockOf(p.c, 1461, p.d);
    assert 0 <= p.d < 100;
    CenturySplit(p.b, p.d);
    SplitYear(p.b, p.c, p.d);
    MonthOf(p.e, p.m);
  }

  /** A day of a century lies in the year its split names. */
  lemma SplitYear(b: nat, c: nat, d: nat)
    requires d < 100 && c < ((b + 1) * 146097) / 4 - (b * 146097) / 4
    requires (1461 * d) / 4 <= c < (1461 * (d + 1)) / 4
    ensures c - (1461 * d) / 4 < YearLength(100 * b + d)
  {
    CenturySplit(b, d);
    if d == 99 {
      CenturySplit(b + 1, 0);
    } else {
      CenturySplit(b, d + 1);
    }
  }

  /** In the domain a date is its March year and its day of that year. */
  lemma JulianDayIs(d: Date)
    requires IsDate(d) && InDomain(d)
    ensures
      var y, m := MarchYear(d), MarchMonth(d);
      && y >= 0 && 0 <= m <= 11
      && d.month == m + 3 - 12 * (m / 10) && d.year == y - 4800 + m / 10
      && JulianDay(d) + 32044 == DaysBefore(y) + MonthStart(m) + d.day - 1
      && MonthStart(m) <= MonthStart(m) + d.day - 1 < MonthStart(m + 1)
      && MonthStart(m) + d.day - 1 < YearLength(y)
  {
    var y, m := MarchYear(d), MarchMonth(d);
    MonthLength(d.year, m);
    YearLengthIs(y);
    LeapShift(y + 1 - 4800);
  }

  /** From -32044 on, the date of a day number is a Gregorian date whose day number is the given one. */
  lemma DateOfDay(jdn: int)
    requires jdn >= -32044
    ensures IsDate(YearMonthDay(jdn)) && InDomain(YearMonthDay(jdn))
    ensures JulianDay(YearMonthDay(jdn)) == jdn
  {
    SplitIs(jdn);
    var p, d := SplitDay(jdn), YearMonthDay(jdn);
    var y := 100 * p.b + p.d;
    MonthLength(d.year, p.m);
    YearLengthIs(y);
    LeapShift(y + 1 - 4800);
    assert MarchYear(d) == y && MarchMonth(d) == p.m;
  }

  lemma {:induction false} DaysBeforeGrow(y: nat, z: nat)
    requires y < z
    ensures DaysBefore(y) + YearLength(y) <= DaysBefore(z)
    decreases z
  {
    if y < z - 1 {
      DaysBeforeGrow(y, z - 1);
      YearLengthIs(z - 1);
    }
  }

  lemma SameYear(y: nat, e: nat, z: nat, f: nat)
    requires DaysBefore(y) + e == DaysBefore(z) + f && e < YearLength(y) && f < YearLength(z)
    ensures y == z && e == f
  {
    if y < z { DaysBeforeGrow(y, z); }
    if z < y { DaysBeforeGrow(z, y); }
  }

  /** Before -32044 the day of the month comes out zero or negative. */
  lemma NoDateBefore(jdn: int)
    requires jdn < -32044
    ensures YearMonthDay(jdn).day <= 0
  {
  }

  /** A day number has a Gregorian date exactly from -32044 on. */
  lemma DateIffDomain(jdn: int)
    ensures IsDate(YearMonthDay(jdn)) <==> jdn >= -32044
  {
    if jdn >= -32044 { DateOfDay(jdn); } else { NoDateBefore(jdn); }
  }

  lemma DayOfDateInDomain(d: Date)
    requires IsDate(d) && InDomain(d)
    ensures JulianDay(d) >= -32044 && YearMonthDay(JulianDay(d)) == d
  {
    JulianDayIs(d);
    var jdn := JulianDay(d);
    SplitIs(jdn);
    var p := SplitDay(jdn);
    var y, m := MarchYear(d), MarchMonth(d);
    SameYear(y, MonthStart(m) + d.day - 1, 100 * p.b + p.d, p.e);
    MonthOf(p.e, m);
    assert p.m == m;
  }

  /** A Gregorian date survives the way through its day number exactly from 1 March -4800 on. */
  lemma DayOfDate(d: Date)
    requires IsDate(d)
    ensures YearMonthDay(JulianDay(d)) == d <==> InDomain(d)
  {
    if InDomain(d) {
      DayOfDateInDomain(d);
    } else if JulianDay(d) >= -32044 {
      DateOfDay(JulianDay(d));
    } else {
      NoDateBefore(JulianDay(d));
    }
  }

  /** The last dates before the domain collide with its first. */
  lemma DomainEdge()
    ensures IsDate(Date(-4800, 2, 29)) && JulianDay(Date(-4800, 2, 29)) == JulianDay(Date(-4800, 3, 1)) == -32044
    ensures YearMonthDay(-32044) == Date(-4800, 3, 1) && YearMonthDay(-32045).day == 0
  {
    assert SplitDay(-32044) == Split(0, 0, 0, 0, 0, 0);
    assert SplitDay(-32045) == Split(-1, 0, -1, 0, -1, 0);
    assert MarchYear(Date(-4800, 2, 29)) == -1 && MarchMonth(Date(-4800, 2, 29)) == 11;
  }

  /** Days of the March year y as the truncating divisions count them. */
  function TruncatedDays(y: int): int { y * 365 + TDiv(y, 4) - TDiv(y, 100) + TDiv(y, 400) }

  predicate LastOfFebruary(d: Date) { d.month == 2 && d.day == DaysInMonth(d.year, 2) }

  /** Consecutive dates get consecutive numbers, leap and century years included; the exceptions
      are ends of February up to the year -4800 beside a leap year. */
  lemma NextDayIsNext(d: Date)
    requires IsDate(d)
    ensures JulianDay(NextDay(d)) == JulianDay(d) + 1 <==>
            (LastOfFebruary(d) && d.year <= -4800 ==> !Leap(d.year) && !Leap(d.year - 1))
  {
    if d.day < DaysInMonth(d.year, d.month) {
      assert MarchYear(NextDay(d)) == MarchYear(d);
    } else if d.month != 2 {
      MonthTurns(d);
    } else {
      FebruaryTurns(d);
    }
  }

  lemma WithinMarchYear(d: Date, n: Date)
    requires MarchYear(d) == MarchYear(n)
    ensures JulianDay(n) - JulianDay(d) == n.day - d.day + MonthStart(MarchMonth(n)) - MonthStart(MarchMonth(d))
  {
  }

  lemma MarchNext(y: int, month: int, day: int, z: int, next: int)
    requires 1 <= month <= 12 && month != 2
    requires if month == 12 then z == y + 1 && next == 1 else z == y && next == month + 1
    ensures MarchYear(Date(z, next, 1)) == MarchYear(Date(y, month, day))
    ensures MarchMonth(Date(z, next, 1)) == MarchMonth(Date(y, month, day)) + 1
    ensures 0 <= MarchMonth(Date(y, month, day)) < 11
    ensures MarchMonth(Date(y, month, day)) + 3 - 12 * (MarchMonth(Date(y, month, day)) / 10) == month
  {
  }

  lemma MonthTurns(d: Date)
    requires IsDate(d) && d.day == DaysInMonth(d.year, d.month) && d.month != 2
    ensures JulianDay(NextDay(d)) == JulianDay(d) + 1
  {
    var n := NextDay(d);
    MarchNext(d.year, d.month, d.day, n.year, n.month);
    WithinMarchYear(d, n);
    MonthLength(d.year, MarchMonth(d));
  }

  lemma FebruaryTurns(d: Date)
    requires IsDate(d) && LastOfFebruary(d)
    ensures JulianDay(NextDay(d)) == JulianDay(d) + 1 <==> d.year > -4800 || (!Leap(d.year) && !Leap(d.year - 1))
  {
    var y := MarchYear(d);
    assert NextDay(d) == Date(d.year, 3, 1) && y == d.year - 1 + 4800;
    assert JulianDay(d) == d.day + 337 + TruncatedDays(y) - 32045;
    assert JulianDay(NextDay(d)) == 1 + TruncatedDays(y + 1) - 32045;
    MarchTurns(y);
    LeapShift(d.year);
    LeapShift(d.year - 1);
    LeapsApart(d.year);
  }

  lemma LeapsApart(y: int)
    ensures !(Leap(y) && Leap(y - 1))
  {
  }

  lemma MarchTurns(y: int)
    ensures TruncatedDays(y + 1) - TruncatedDays(y) == if Leap(if y >= 0 then y + 1 else y) then 366 else 365
  {
    if y >= 0 {
      YearLengthIs(y);
    } else {
      YearLengthIs(-y - 1);
      LeapMirror(y);
    }
  }

  lemma LeapMirror(y: int)
    ensures Leap(-y) <==> Leap(y)
  {
  }

  lemma NextStep(d: Date)
    requires IsDate(d) && InDomain(d)
    ensures InDomain(NextDay(d)) && JulianDay(NextDay(d)) == JulianDay(d) + 1
  {
    NextDayIsNext(d);
    NextInDomain(d);
  }

  lemma NextInDomain(d: Date)
    requires IsDate(d) && InDomain(d)
    ensures InDomain(NextDay(d)) && !(LastOfFebruary(d) && d.year <= -4800)
  {
  }

  /** The n-th day after a date, by the calendar alone. */
  function AddDays(d: Date, n: nat): (r: Date)
    requires IsDate(d)
    ensures IsDate(r)
  {
    if n == 0 then d else NextDay(AddDays(d, n - 1))
  }

  lemma {:induction false} AddDaysAdds(d: Date, n: nat)
    requires IsDate(d) && InDomain(d)
    ensures InDomain(AddDays(d, n)) && JulianDay(AddDays(d, n)) == JulianDay(d) + n
  {
    if n > 0 {
      AddDaysAdds(d, n - 1);
      NextStep(AddDays(d, n - 1));
    }
  }

  /** Adding n to a date's day number is n steps of the calendar. */
  lemma CountedDays(d: Date, n: nat)
    requires IsDate(d) && InDomain(d)
    ensures YearMonthDay(JulianDay(d) + n) == AddDays(d, n)
  {
    AddDaysAdds(d, n);
    CameFrom(AddDays(d, n), JulianDay(d) + n);
  }

  lemma CameFrom(d: Date, jdn: int)
    requires IsDate(d) && InDomain(d) && JulianDay(d) == jdn
    ensures YearMonthDay(jdn) == d
  {
    DayOfDateInDomain(d);
  }

  // ---------------------------------------------------------------- machine integers

  predicate FitsInt(x: int) { -0x8000_0000 <= x < 0x8000_0000 }

  const LAST_DAY := 536838867

  /** Every intermediate value of getYearMonthDay is a 32-bit integer exactly up to LAST_DAY. */
  lemma SplitFits(jdn: int)
    requires -32044 <= jdn
    ensures
      var p := SplitDay(jdn);
      (&& FitsInt(p.a) && FitsInt(4 * p.a + 3) && FitsInt(p.b * 146097) && FitsInt(4 * p.c + 3) && FitsInt(1461 * p.d)
       && FitsInt(5 * p.e + 2) && FitsInt(153 * p.m + 2) && FitsInt(p.b * 100 + p.d - 4800 + TDiv(p.m, 10)))
      <==> jdn <= LAST_DAY
  {
    SplitIs(jdn);
    var p := SplitDay(jdn);
    YearLengthIs(100 * p.b + p.d);
    assert p.b * 146097 <= 4 * p.a + 3;
    assert p.c <= 36524 by { BlockOf(p.a, 146097, p.b); }
  }
}
