// Proleptic Gregorian calendar over minute timestamps, as Python's datetime
// counts them, and the "%Y%m%d_%H%M" rendering used in per-window file names.
// A timestamp is the number of minutes since 0001-01-01 00:00.
module Calendar {
  import opened Text

  const MinutesPerDay: nat := 1440

  predicate IsLeap(y: int) {
    y % 4 == 0 && (y % 100 != 0 || y % 400 == 0)
  }

  function YearLength(y: int): nat {
    if IsLeap(y) then 366 else 365
  }

  /** Days of year y that precede the first day of month m (m = 13 gives the whole year). */
  function MonthStart(y: int, m: int): nat
    requires 1 <= m <= 13
  {
    [0, 31, 59, 90, 120, 151, 181, 212, 243, 273, 304, 334, 365][m - 1]
      + (if IsLeap(y) && m > 2 then 1 else 0)
  }

  /** The number of days of month m of year y. */
  function DaysInMonth(y: int, m: int): (n: int)
    requires 1 <= m <= 12
    ensures 28 <= n <= 31
  {
    MonthStart(y, m + 1) - MonthStart(y, m)
  }

  /** Later months start later, and the months fill the year. */
  lemma {:induction false} MonthStartMono(y: int, m: int, k: int)
    requires 1 <= m <= k <= 13
    ensures MonthStart(y, m) <= MonthStart(y, k)
    ensures MonthStart(y, 13) == YearLength(y)
  {
  }

  /** Days from 0001-01-01 to the first of January of year y. */
  function YearStart(y: nat): nat
    requires y >= 1
  {
    if y == 1 then 0 else YearStart(y - 1) + YearLength(y - 1)
  }

  datatype DateTime = DateTime(year: nat, month: nat, day: nat, hour: nat, minute: nat)

  predicate ValidDateTime(d: DateTime) {
    && d.year >= 1 && 1 <= d.month <= 12
    && 1 <= d.day <= DaysInMonth(d.year, d.month)
    && d.hour < 24 && d.minute < 60
  }

  /** The minute timestamp a calendar date and time of day denote. */
  function ToMinutes(d: DateTime): int
    requires ValidDateTime(d)
  {
    (YearStart(d.year) + MonthStart(d.year, d.month) + d.day - 1) * MinutesPerDay
      + d.hour * 60 + d.minute
  }

  /** The year holding day z of the count that starts on the first of January of y,
      with the day's index inside that year. */
  function YearOf(z: nat, y: nat): (r: (nat, nat))
    requires y >= 1
    ensures r.0 >= y && r.1 < YearLength(r.0)
    ensures YearStart(r.0) + r.1 == YearStart(y) + z
    decreases z
  {
    if z < YearLength(y) then (y, z) else YearOf(z - YearLength(y), y + 1)
  }

  /** The month and day of month of day index doy of year y, searching from month m. */
  function MonthOf(y: int, doy: nat, m: nat): (r: (nat, nat))
    requires 1 <= m <= 12 && MonthStart(y, m) <= doy < YearLength(y)
    ensures m <= r.0 <= 12 && 1 <= r.1 <= DaysInMonth(y, r.0)
    ensures MonthStart(y, r.0) + r.1 - 1 == doy
    decreases 12 - m
  {
    if m == 12 || doy < MonthStart(y, m + 1) then (m, doy - MonthStart(y, m) + 1)
    else MonthOf(y, doy, m + 1)
  }

  /** The calendar date and time of day of a timestamp; it denotes the timestamp back. */
  function FromMinutes(t: nat): (d: DateTime)
    ensures ValidDateTime(d) && ToMinutes(d) == t
  {
    var yd := YearOf(t / MinutesPerDay, 1);
    var md := MonthOf(yd.0, yd.1, 1);
    var m := t % MinutesPerDay;
    DateTime(yd.0, md.0, md.1, m / 60, m % 60)
  }

  /** Later years start later. */
  lemma {:induction false} YearStartMono(y0: nat, y: nat)
    requires 1 <= y0 <= y
    ensures YearStart(y0) <= YearStart(y)
    decreases y - y0
  {
    if y0 < y {
      YearStartMono(y0, y - 1);
    }
  }

  /** Day doy of year y, counted from the first of January of y0, is found in year y. */
  lemma {:induction false} YearOfStart(y0: nat, y: nat, doy: nat, z: nat)
    requires 1 <= y0 <= y && doy < YearLength(y)
    requires z == YearStart(y) - YearStart(y0) + doy
    ensures YearOf(z, y0) == (y, doy)
    decreases y - y0
  {
    if y0 < y {
      YearStartMono(y0 + 1, y);
      YearOfStart(y0 + 1, y, doy, z - YearLength(y0));
    }
  }

  /** Day `day` of month m, searched for from month m0, is found in month m. */
  lemma {:induction false} MonthOfStart(y: int, m0: nat, m: nat, day: nat)
    requires 1 <= m0 <= m <= 12 && 1 <= day <= DaysInMonth(y, m)
    ensures && MonthStart(y, m0) <= MonthStart(y, m) && MonthStart(y, m + 1) <= YearLength(y)
            && MonthOf(y, MonthStart(y, m) + day - 1, m0) == (m, day)
    decreases m - m0
  {
    MonthStartMono(y, m0, m);
    MonthStartMono(y, m + 1, 13);
    if m0 < m {
      MonthStartMono(y, m0 + 1, m);
      MonthOfStart(y, m0 + 1, m, day);
    }
  }

  /** Whole days and the minute of the day split back out of a timestamp. */
  lemma {:induction false} DayDivMod(q: nat, r: nat)
    requires r < MinutesPerDay
    ensures (q * MinutesPerDay + r) / MinutesPerDay == q && (q * MinutesPerDay + r) % MinutesPerDay == r
  {
  }

  /** Hours and minutes split back out of a minute of the day. */
  lemma {:induction false} HourDivMod(q: nat, r: nat)
    requires r < 60
    ensures (q * 60 + r) / 60 == q && (q * 60 + r) % 60 == r
  {
  }

  /** The day count of a valid date, whose day of the year is doy, is found back in
      its year, month and day. */
  lemma {:induction false} DateOfDays(d: DateTime, doy: nat)
    requires ValidDateTime(d) && doy == MonthStart(d.year, d.month) + d.day - 1
    ensures doy < YearLength(d.year)
    ensures YearOf(YearStart(d.year) + doy, 1) == (d.year, doy)
    ensures MonthOf(d.year, doy, 1) == (d.month, d.day)
  {
    MonthStartMono(d.year, d.month + 1, 13);
    assert YearStart(1) == 0;
    YearOfStart(1, d.year, doy, YearStart(d.year) + doy);
    MonthOfStart(d.year, 1, d.month, d.day);
  }

  /** FromMinutes of a timestamp whose day count, minute of the day, hour and minute
      are given. */
  lemma {:induction false} FromMinutesAt(t: nat, days: nat, rest: nat, h: nat, n: nat,
                                         y: nat, doy: nat, m: nat, day: nat)
    requires t / MinutesPerDay == days && t % MinutesPerDay == rest && rest / 60 == h && rest % 60 == n
    requires y >= 1 && YearOf(days, 1) == (y, doy)
    requires 1 <= m && MonthStart(y, 1) <= doy < YearLength(y) && MonthOf(y, doy, 1) == (m, day)
    ensures FromMinutes(t) == DateTime(y, m, day, h, n)
  {
  }

  /** A valid date and time of day is recovered from the timestamp it denotes, so
      FromMinutes and ToMinutes are inverse bijections. */
  lemma {:induction false} FromToMinutes(d: DateTime)
    requires ValidDateTime(d)
    ensures ToMinutes(d) >= 0 && FromMinutes(ToMinutes(d)) == d
  {
    var doy := MonthStart(d.year, d.month) + d.day - 1;
    var days := YearStart(d.year) + doy;
    var rest := d.hour * 60 + d.minute;
    DateOfDays(d, doy);
    var t := ToMinutes(d);
    assert t == days * MinutesPerDay + rest;
    DayDivMod(days, rest);
    HourDivMod(d.hour, d.minute);
    FromMinutesAt(t, days, rest, d.hour, d.minute, d.year, doy, d.month, d.day);
  }

  /** The last minute Python's datetime can hold: 9999-12-31 23:59. */
  const LastMinute: int := 5258964959

  /** Days before the first of January of year y, by the Gregorian leap rule. */
  lemma {:induction false} YearStartClosed(y: nat)
    requires y >= 1
    ensures YearStart(y) == 365 * (y - 1) + (y - 1) / 4 - (y - 1) / 100 + (y - 1) / 400
  {
    if y > 1 {
      YearStartClosed(y - 1);
      LeapCountStep(y - 1);
    }
  }

  /** Going from year k - 1 to year k adds one multiple of 4, 100 or 400 exactly
      when k is one, and the leap brings the year's extra day. */
  lemma {:induction false} LeapCountStep(k: nat)
    requires k >= 1
    ensures k / 4 == (k - 1) / 4 + (if k % 4 == 0 then 1 else 0)
    ensures k / 100 == (k - 1) / 100 + (if k % 100 == 0 then 1 else 0)
    ensures k / 400 == (k - 1) / 400 + (if k % 400 == 0 then 1 else 0)
    ensures YearLength(k) == 365 + (if k % 4 == 0 then 1 else 0)
      - (if k % 100 == 0 then 1 else 0) + (if k % 400 == 0 then 1 else 0)
  {
    var q4, r4 := (k - 1) / 4, (k - 1) % 4;
    if r4 == 3 { Div4(q4 + 1, 0); } else { Div4(q4, r4 + 1); }
    var q100, r100 := (k - 1) / 100, (k - 1) % 100;
    if r100 == 99 { Div100(q100 + 1, 0); } else { Div100(q100, r100 + 1); }
    var q400, r400 := (k - 1) / 400, (k - 1) % 400;
    if r400 == 399 { Div400(q400 + 1, 0); } else { Div400(q400, r400 + 1); }
    if k % 100 == 0 { Div4(25 * (k / 100), 0); }
    if k % 400 == 0 { Div100(4 * (k / 400), 0); }
  }

  lemma {:induction false} Div4(q: nat, r: nat)
    requires r < 4
    ensures (q * 4 + r) / 4 == q && (q * 4 + r) % 4 == r
  {
  }

  lemma {:induction false} Div100(q: nat, r: nat)
    requires r < 100
    ensures (q * 100 + r) / 100 == q && (q * 100 + r) % 100 == r
  {
  }

  lemma {:induction false} Div400(q: nat, r: nat)
    requires r < 400
    ensures (q * 400 + r) / 400 == q && (q * 400 + r) % 400 == r
  {
  }

  /** LastMinute is the timestamp of 9999-12-31 23:59, and the year after 9999
      starts on the minute after it. */
  lemma {:induction false} LastMinuteDenotes()
    ensures ValidDateTime(DateTime(9999, 12, 31, 23, 59))
    ensures ToMinutes(DateTime(9999, 12, 31, 23, 59)) == LastMinute
    ensures YearStart(10000) * MinutesPerDay == LastMinute + 1
  {
    YearStartClosed(9999);
    YearStartClosed(10000);
  }

  /** A valid date and time lies before the first minute of the following year. */
  lemma {:induction false} ToMinutesBelowNextYear(d: DateTime)
    requires ValidDateTime(d)
    ensures YearStart(d.year) * MinutesPerDay <= ToMinutes(d) < YearStart(d.year + 1) * MinutesPerDay
  {
    MonthStartMono(d.year, d.month + 1, 13);
  }

  /** A timestamp decodes to a year of at most four digits exactly when it is not
      after LastMinute. */
  lemma {:induction false} FourDigitYears(t: nat)
    ensures FromMinutes(t).year <= 9999 <==> t <= LastMinute
  {
    var d := FromMinutes(t);
    LastMinuteDenotes();
    ToMinutesBelowNextYear(d);
    if d.year <= 9999 {
      YearStartMono(d.year + 1, 10000);
    } else {
      YearStartMono(10000, d.year);
    }
  }

  /** strftime("%Y%m%d_%H%M") of a calendar date and time of day. */
  function Render(d: DateTime): string {
    ZeroPad(d.year, 4) + ZeroPad(d.month, 2) + ZeroPad(d.day, 2) + "_"
      + ZeroPad(d.hour, 2) + ZeroPad(d.minute, 2)
  }

  /** strftime("%Y%m%d_%H%M") of a timestamp. */
  function Stamp(t: nat): string {
    Render(FromMinutes(t))
  }

  /** s ends in the fixed-width month, day, "_", hour and minute fields of d, and what
      comes before them is the year. */
  predicate ReadsBack(s: string, d: DateTime) {
    && |s| >= 13
    && IsDigits(s[..|s| - 9]) && DigitsValue(s[..|s| - 9]) == d.year
    && IsDigits(s[|s| - 9..|s| - 7]) && DigitsValue(s[|s| - 9..|s| - 7]) == d.month
    && IsDigits(s[|s| - 7..|s| - 5]) && DigitsValue(s[|s| - 7..|s| - 5]) == d.day
    && IsDigits(s[|s| - 4..|s| - 2]) && DigitsValue(s[|s| - 4..|s| - 2]) == d.hour
    && IsDigits(s[|s| - 2..]) && DigitsValue(s[|s| - 2..]) == d.minute
  }

  /** The rendering can be read back field by field, from its fixed-width tail. */
  lemma {:induction false} RenderFields(d: DateTime)
    requires d.month < 100 && d.day < 100 && d.hour < 100 && d.minute < 100
    ensures ReadsBack(Render(d), d)
  {
    var yp, mp, dp := ZeroPad(d.year, 4), ZeroPad(d.month, 2), ZeroPad(d.day, 2);
    var hp, np := ZeroPad(d.hour, 2), ZeroPad(d.minute, 2);
    ZeroPadTwo(d.month); ZeroPadTwo(d.day); ZeroPadTwo(d.hour); ZeroPadTwo(d.minute);
    ZeroPadValue(d.year, 4); ZeroPadValue(d.month, 2); ZeroPadValue(d.day, 2);
    ZeroPadValue(d.hour, 2); ZeroPadValue(d.minute, 2);
    Fields(yp, mp, dp, hp, np, d);
  }

  /** y + m + d + "_" + h + n reads back as dt when the pieces are dt's fields, the last
      four in two digits each. */
  lemma {:induction false} Fields(y: string, m: string, d: string, h: string, n: string, dt: DateTime)
    requires |y| >= 4 && |m| == 2 && |d| == 2 && |h| == 2 && |n| == 2
    requires IsDigits(y) && IsDigits(m) && IsDigits(d) && IsDigits(h) && IsDigits(n)
    requires DigitsValue(y) == dt.year && DigitsValue(m) == dt.month && DigitsValue(d) == dt.day
    requires DigitsValue(h) == dt.hour && DigitsValue(n) == dt.minute
    ensures ReadsBack(y + m + d + "_" + h + n, dt)
  {
    var s := y + m + d + "_" + h + n;
    var k := |s|;
    assert s[..k - 9] == y;
    assert s[k - 9..k - 7] == m;
    assert s[k - 7..k - 5] == d;
    assert s[k - 4..k - 2] == h;
    assert s[k - 2..] == n;
  }

  /** Distinct timestamps have distinct renderings. */
  lemma {:induction false} StampInjective(t1: nat, t2: nat)
    requires Stamp(t1) == Stamp(t2)
    ensures t1 == t2
  {
    var d1, d2 := FromMinutes(t1), FromMinutes(t2);
    RenderFields(d1);
    RenderFields(d2);
    assert d1 == d2;
  }
}
