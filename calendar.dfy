/**
 * The UTC calendar behind `datetime.datetime.utcfromtimestamp(t).strftime(
 * '%Y-%m-%d %H:%M:%S')`: proleptic Gregorian dates counted in days from the
 * Unix epoch, seconds within the day, and the fixed-width rendering.
 */
module Calendar {
  import opened Wrappers
  import opened Decimal

  predicate IsLeap(y: int) {
    y % 4 == 0 && (y % 100 != 0 || y % 400 == 0)
  }

  function DaysInYear(y: int): int {
    if IsLeap(y) then 366 else 365
  }

  function DaysInMonth(y: int, m: int): int
    requires 1 <= m <= 12
  {
    if m == 2 then (if IsLeap(y) then 29 else 28)
    else if m == 4 || m == 6 || m == 9 || m == 11 then 30
    else 31
  }

  /** Days of year `y` that come before the first of month `m`. */
  function DaysBeforeMonth(y: int, m: int): int
    requires 1 <= m <= 12
  {
    var common :=
      if m == 1 then 0 else if m == 2 then 31 else if m == 3 then 59
      else if m == 4 then 90 else if m == 5 then 120 else if m == 6 then 151
      else if m == 7 then 181 else if m == 8 then 212 else if m == 9 then 243
      else if m == 10 then 273 else if m == 11 then 304 else 334;
    common + (if m > 2 && IsLeap(y) then 1 else 0)
  }

  /** Days from 0001-01-01 to the first of January of year `y`. */
  function DaysBeforeYear(y: int): int {
    var p := y - 1;
    365 * p + p / 4 - p / 100 + p / 400
  }

  /** `DaysBeforeYear(1970)`: the Unix epoch as a day count from 0001-01-01. */
  const UnixEpochDay: int := 719162

  datatype Date = Date(year: int, month: int, day: int)

  predicate ValidDate(d: Date) {
    1 <= d.month <= 12 && 1 <= d.day <= DaysInMonth(d.year, d.month)
  }

  /** Days from 1970-01-01 to the given date (negative before it). */
  function DaysFromCivil(d: Date): int
    requires 1 <= d.month <= 12
  {
    DaysBeforeYear(d.year) + DaysBeforeMonth(d.year, d.month) + d.day - 1 - UnixEpochDay
  }

  /** The month in which the `doy`-th day (from 0) of year `y` falls. */
  function MonthOfDay(y: int, doy: int): (m: int)
    requires 0 <= doy < DaysInYear(y)
    ensures 1 <= m <= 12
    ensures DaysBeforeMonth(y, m) <= doy < DaysBeforeMonth(y, m) + DaysInMonth(y, m)
  {
    if doy < DaysBeforeMonth(y, 2) then 1
    else if doy < DaysBeforeMonth(y, 3) then 2
    else if doy < DaysBeforeMonth(y, 4) then 3
    else if doy < DaysBeforeMonth(y, 5) then 4
    else if doy < DaysBeforeMonth(y, 6) then 5
    else if doy < DaysBeforeMonth(y, 7) then 6
    else if doy < DaysBeforeMonth(y, 8) then 7
    else if doy < DaysBeforeMonth(y, 9) then 8
    else if doy < DaysBeforeMonth(y, 10) then 9
    else if doy < DaysBeforeMonth(y, 11) then 10
    else if doy < DaysBeforeMonth(y, 12) then 11
    else 12
  }

  /** Euclidean division is unique: a quotient and remainder in range are the ones `/` and `%` give. */
  lemma DivModUnique(x: int, m: int, q: int, r: int)
    requires 0 < m && 0 <= r < m && x == m * q + r
    ensures x / m == q && x % m == r
  {
    var q0, r0 := x / m, x % m;
    assert m * (q - q0) == r0 - r;
    if q > q0 {
      MulAtLeast(m, q - q0);
    } else if q < q0 {
      MulAtLeast(m, q0 - q);
    }
  }

  lemma MulAtLeast(m: int, k: int)
    requires 0 < m && 1 <= k
    ensures m * k >= m
  {
  }

  /**
   * The day count of a year written as 400-, 100-, 4- and 1-year blocks after
   * year 1, within one block of each size.
   */
  lemma DaysBeforeYearBlocks(a: int, b: int, c: int, e: int)
    requires 0 <= b <= 3 && 0 <= c <= 24 && 0 <= e <= 3
    ensures DaysBeforeYear(400 * a + 100 * b + 4 * c + e + 1) == 146097 * a + 36524 * b + 1461 * c + 365 * e
  {
    var p := 400 * a + 100 * b + 4 * c + e;
    DivModUnique(p, 4, 100 * a + 25 * b + c, e);
    DivModUnique(p, 100, 4 * a + b, 4 * c + e);
    DivModUnique(p, 400, a, 100 * b + 4 * c + e);
  }

  /** Day `doy` (from 0) of year `y`, for a day that is not the 366th. */
  function FromYearDay(y: int, doy: int): (d: Date)
    requires 0 <= doy < 365
    ensures ValidDate(d) && d.year == y
    ensures DaysBeforeMonth(d.year, d.month) + d.day - 1 == doy
  {
    var m := MonthOfDay(y, doy);
    Date(y, m, doy - DaysBeforeMonth(y, m) + 1)
  }

  /** 31 December of year `400 * a + 400`, the leap day that closes era `a`. */
  lemma EraLastDay(a: int)
    ensures IsLeap(400 * a + 400)
    ensures DaysBeforeYear(400 * a + 400) + DaysBeforeMonth(400 * a + 400, 12) + 30 == 146097 * a + 146096
  {
    var y := 400 * a + 400;
    DivModUnique(y, 4, 100 * a + 100, 0);
    DivModUnique(y, 400, a + 1, 0);
    assert IsLeap(y);
    assert DaysBeforeMonth(y, 12) == 335;
    DaysBeforeYearBlocks(a, 3, 24, 3);
  }

  /** 31 December of the leap year that closes a 4-year block inside a century. */
  lemma BlockLastDay(a: int, b: int, c: int)
    requires 0 <= b <= 3 && 0 <= c < 24
    ensures IsLeap(400 * a + 100 * b + 4 * c + 4)
    ensures DaysBeforeYear(400 * a + 100 * b + 4 * c + 4) + DaysBeforeMonth(400 * a + 100 * b + 4 * c + 4, 12) + 30
            == 146097 * a + 36524 * b + 1461 * c + 1460
  {
    var y := 400 * a + 100 * b + 4 * c + 4;
    DivModUnique(y, 4, 100 * a + 25 * b + c + 1, 0);
    DivModUnique(y, 100, 4 * a + b, 4 * c + 4);
    DaysBeforeYearBlocks(a, b, c, 3);
  }

  /**
   * Day `r` (from 0) of the 400-year era `a`, the era that starts on the first
   * of January of year `400 * a + 1`.
   */
  function FromEraDay(a: int, r: int): (d: Date)
    requires 0 <= r < 146097
    ensures ValidDate(d)
    ensures DaysBeforeYear(d.year) + DaysBeforeMonth(d.year, d.month) + d.day - 1 == 146097 * a + r
  {
    var b, r100 := r / 36524, r % 36524;
    var c, r4 := r100 / 1461, r100 % 1461;
    var e, doy := r4 / 365, r4 % 365;
    assert 0 <= b <= 4 && 0 <= c <= 24 && 0 <= e <= 4;
    assert r == 36524 * b + 1461 * c + 365 * e + doy;
    if b == 4 then
      EraLastDay(a);
      Date(400 * a + 400, 12, 31)
    else if e == 4 then
      assert c < 24 && doy == 0;
      BlockLastDay(a, b, c);
      Date(400 * a + 100 * b + 4 * c + 4, 12, 31)
    else
      DaysBeforeYearBlocks(a, b, c, e);
      FromYearDay(400 * a + 100 * b + 4 * c + e + 1, doy)
  }

  /**
   * The calendar date `z` days after 1970-01-01: a valid date from which
   * `DaysFromCivil` gives `z` back.
   */
  function CivilFromDays(z: int): (d: Date)
    ensures ValidDate(d)
    ensures DaysFromCivil(d) == z
  {
    var n := z + UnixEpochDay;
    FromEraDay(n / 146097, n % 146097)
  }

  datatype DateTime = DateTime(year: int, month: int, day: int, hour: int, minute: int, second: int)

  predicate ValidDateTime(c: DateTime) {
    && ValidDate(Date(c.year, c.month, c.day))
    && 0 <= c.hour < 24 && 0 <= c.minute < 60 && 0 <= c.second < 60
  }

  /** Seconds from 1970-01-01 00:00:00 UTC to the given moment. */
  function ToEpoch(c: DateTime): int
    requires 1 <= c.month <= 12
  {
    DaysFromCivil(Date(c.year, c.month, c.day)) * 86400 + c.hour * 3600 + c.minute * 60 + c.second
  }

  /**
   * The UTC moment `t` seconds after the epoch (floor division, so negative
   * `t` falls on the day before): valid fields that convert back to `t`.
   */
  function FromEpoch(t: int): (c: DateTime)
    ensures ValidDateTime(c)
    ensures ToEpoch(c) == t
  {
    var d := CivilFromDays(t / 86400);
    var s := t % 86400;
    DateTime(d.year, d.month, d.day, s / 3600, s % 3600 / 60, s % 60)
  }

  const MinYear: int := 1
  const MaxYear: int := 9999

  /**
   * `datetime.datetime.utcfromtimestamp(t)` for an integer `t`: the moment,
   * unless its year leaves the range 1..9999, where Python raises.
   */
  function UtcFromTimestamp(t: int): Option<DateTime> {
    var c := FromEpoch(t);
    if MinYear <= c.year <= MaxYear then Some(c) else None
  }

  /**
   * The conversion succeeds exactly for the moments in years 1..9999, and then
   * gives valid fields that lie `t` seconds after the epoch.
   */
  lemma UtcFromTimestampSpec(t: int)
    ensures UtcFromTimestamp(t).Some? <==> MinYear <= FromEpoch(t).year <= MaxYear
    ensures UtcFromTimestamp(t).Some? ==>
              ValidDateTime(UtcFromTimestamp(t).value) && ToEpoch(UtcFromTimestamp(t).value) == t
  {
  }

  /** `strftime('%Y-%m-%d %H:%M:%S')` */
  function FormatDateTime(c: DateTime): (s: string)
    requires ValidDateTime(c) && 0 <= c.year <= 9999
    ensures |s| == 19
  {
    Padded(c.year, 4) + "-" + Padded(c.month, 2) + "-" + Padded(c.day, 2) + " " +
    Padded(c.hour, 2) + ":" + Padded(c.minute, 2) + ":" + Padded(c.second, 2)
  }

  /** Reads a `YYYY-MM-DD HH:MM:SS` string back into its six fields. */
  function ParseDateTime(s: string): Option<DateTime> {
    if |s| == 19 && s[4] == '-' && s[7] == '-' && s[10] == ' ' && s[13] == ':' && s[16] == ':'
       && AllDigits(s[0..4]) && AllDigits(s[5..7]) && AllDigits(s[8..10])
       && AllDigits(s[11..13]) && AllDigits(s[14..16]) && AllDigits(s[17..19])
    then Some(DateTime(ValueOf(s[0..4]), ValueOf(s[5..7]), ValueOf(s[8..10]),
                       ValueOf(s[11..13]), ValueOf(s[14..16]), ValueOf(s[17..19])))
    else None
  }

  /** The rendering is exact: every field can be read back from it. */
  lemma ParseFormat(c: DateTime)
    requires ValidDateTime(c) && 0 <= c.year <= 9999
    ensures ParseDateTime(FormatDateTime(c)) == Some(c)
  {
    var s := FormatDateTime(c);
    assert s[0..4] == Padded(c.year, 4);
    assert s[5..7] == Padded(c.month, 2);
    assert s[8..10] == Padded(c.day, 2);
    assert s[11..13] == Padded(c.hour, 2);
    assert s[14..16] == Padded(c.minute, 2);
    assert s[17..19] == Padded(c.second, 2);
    assert Pow10(2) == 100 && Pow10(4) == 10000;
    PaddedValue(c.year, 4);
    PaddedValue(c.month, 2);
    PaddedValue(c.day, 2);
    PaddedValue(c.hour, 2);
    PaddedValue(c.minute, 2);
    PaddedValue(c.second, 2);
  }
}
