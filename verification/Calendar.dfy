/**
 The MySQL sink's day-number and epoch-second formatting, on the proleptic
 Gregorian calendar. The source's unsigned steps stay in range, so they are
 written on integers; `/` and `%` on `i64` truncate and are written out.
 */
module Calendar {
  import opened Integers

  datatype Date = Date(year: int, month: int, day: int)

  // ---------------------------------------------------------------- the calendar

  predicate Leap(y: int) {
    y % 4 == 0 && (y % 100 != 0 || y % 400 == 0)
  }

  function DaysInMonth(y: int, m: int): int {
    if m == 2 then (if Leap(y) then 29 else 28)
    else if m == 4 || m == 6 || m == 9 || m == 11 then 30
    else 31
  }

  predicate ValidDate(x: Date) {
    1 <= x.month <= 12 && 1 <= x.day <= DaysInMonth(x.year, x.month)
  }

  function NextDate(x: Date): Date {
    if x.day < DaysInMonth(x.year, x.month) then x.(day := x.day + 1)
    else if x.month < 12 then Date(x.year, x.month + 1, 1)
    else Date(x.year + 1, 1, 1)
  }

  /** Days from 0000-01-01 to January 1 of year `y`. */
  function DaysBeforeYear(y: int): int {
    365 * y + (y + 3) / 4 - (y + 99) / 100 + (y + 399) / 400
  }

  function DaysBeforeMonth(y: int, m: int): int
    requires 1 <= m <= 12
    decreases m
  {
    if m == 1 then 0 else DaysBeforeMonth(y, m - 1) + DaysInMonth(y, m - 1)
  }

  /** Days from 1970-01-01. */
  function DayNumber(x: Date): int
    requires ValidDate(x)
  {
    DaysBeforeYear(x.year) + DaysBeforeMonth(x.year, x.month) + x.day - 1 - 719_528
  }

  // ---------------------------------------------------------------- the source's arithmetic

  function TruncMod(a: int, b: int): int
    requires b > 0
  {
    a - TruncDiv(a, b) * b
  }

  function Era(total: int): int {
    if total >= 0 then TruncDiv(total, 146_097) else TruncDiv(total - 146_096, 146_097)
  }

  function YearOfEra(doe: int): int {
    (doe - doe / 1460 + doe / 36_524 - doe / 146_096) / 365
  }

  /** Days of the era before its year `yoe`, years starting in March. */
  function YearStart(yoe: int): int {
    365 * yoe + yoe / 4 - yoe / 100
  }

  /** Days of the year before its month `mp`, months counted from March. */
  function MonthStart(mp: int): int {
    (153 * mp + 2) / 5
  }

  function FromYearAndDay(y: int, doy: int): Date {
    var mp := (5 * doy + 2) / 153;
    var d := doy - MonthStart(mp) + 1;
    var m := if mp < 10 then mp + 3 else mp - 9;
    Date(if m <= 2 then y + 1 else y, m, d)
  }

  /** `format_date_from_days`, before the digits are printed. */
  function DateFromDays(days: int): Date {
    var total := days + 719_468;
    var era := Era(total);
    var doe := total - era * 146_097;
    var yoe := YearOfEra(doe);
    FromYearAndDay(yoe + era * 400, doe - YearStart(yoe))
  }

  // ---------------------------------------------------------------- the era and the year

  lemma EraFloors(total: int)
    ensures 0 <= total - Era(total) * 146_097 < 146_097
  {
  }

  /** Length of the year that starts in March of year `yoe` of the era. */
  function YearLength(yoe: int): int {
    if Leap(yoe + 1) then 366 else 365
  }

  /**
   A year of the era as century `q`, leap cycle `k` and year `j` of the cycle,
   with day `r` of the year: the division by 365 finds it again.
   */
  lemma YearOfEraByCycle(q: int, k: int, j: int, r: int)
    requires 0 <= q < 4 && 0 <= k < 25 && 0 <= j < 4 && 0 <= r <= 365
    requires r == 365 ==> j == 3 && (k < 24 || q == 3)
    ensures YearOfEra(36_524 * q + 1461 * k + 365 * j + r) == 100 * q + 4 * k + j
  {
    var doe := 36_524 * q + 1461 * k + 365 * j + r;
    var last := if q == 3 && k == 24 && j == 3 && r == 365 then 1 else 0;
    assert doe / 146_096 == last;
    assert doe / 36_524 == q + last by {
      assert 36_524 * (q + last) <= doe < 36_524 * (q + last + 1);
    }
    var w := 24 * q + k + 365 * j + r;
    var e := if w >= 1460 then 1 else 0;
    assert doe / 1460 == 25 * q + k + e by {
      assert doe == 1460 * (25 * q + k) + w;
    }
    assert doe - doe / 1460 + doe / 36_524 - doe / 146_096 == 365 * (100 * q + 4 * k + j) + r - e;
    assert 0 <= r - e <= 364;
  }

  lemma YearOfEraFound(y: int, r: int)
    requires 0 <= y < 400 && 0 <= r < YearLength(y)
    ensures YearOfEra(YearStart(y) + r) == y
  {
    var q, k, j := y / 100, (y % 100) / 4, y % 4;
    assert y == 100 * q + 4 * k + j;
    assert y / 4 == 25 * q + k;
    assert YearStart(y) == 36_524 * q + 1461 * k + 365 * j;
    YearOfEraByCycle(q, k, j, r);
  }

  lemma YearFollows(y: int)
    requires 0 <= y < 400
    ensures YearStart(y) + YearLength(y) == if y == 399 then 146_097 else YearStart(y + 1)
  {
    NextQuotient(y, 4);
    NextQuotient(y, 100);
    if (y + 1) % 100 == 0 {
      ModIs(y + 1, 4, 25 * ((y + 1) / 100), 0);
    }
  }

  lemma NextQuotient(y: int, n: int)
    requires n > 1
    ensures (y + 1) / n == y / n + if (y + 1) % n == 0 then 1 else 0
  {
    var q, r := y / n, y % n;
    if r == n - 1 {
      assert y + 1 == (q + 1) * n;
      DivIs(y + 1, n, q + 1, 0);
      ModIs(y + 1, n, q + 1, 0);
    } else {
      DivIs(y + 1, n, q, r + 1);
      ModIs(y + 1, n, q, r + 1);
    }
  }

  /** Every day of an era lies in one of its years. */
  lemma {:induction false} FindYear(doe: int, from: int) returns (y: int)
    requires 0 <= from < 400 && YearStart(from) <= doe < 146_097
    ensures 0 <= y < 400 && 0 <= doe - YearStart(y) < YearLength(y)
    decreases 400 - from
  {
    YearFollows(from);
    if doe < YearStart(from) + YearLength(from) {
      y := from;
    } else {
      y := FindYear(doe, from + 1);
    }
  }

  lemma YearOfEraIsRight(doe: int)
    requires 0 <= doe < 146_097
    ensures var yoe := YearOfEra(doe); 0 <= yoe < 400 && 0 <= doe - YearStart(yoe) < YearLength(yoe)
  {
    var y := FindYear(doe, 0);
    YearOfEraFound(y, doe - YearStart(y));
  }

  // ---------------------------------------------------------------- the month

  lemma EraKeepsLeap(yoe: int, era: int)
    ensures Leap(yoe + 400 * era) <==> Leap(yoe)
  {
    var y := yoe + 400 * era;
    ModIs(y, 400, yoe / 400 + era, yoe % 400);
    ModIs(y, 100, yoe / 100 + 4 * era, yoe % 100);
    ModIs(y, 4, yoe / 4 + 100 * era, yoe % 4);
  }

  /** The March-based year and day behind a date. */
  function MarchYear(x: Date): int {
    if x.month >= 3 then x.year else x.year - 1
  }

  function MarchDay(x: Date): int {
    MonthStart(if x.month >= 3 then x.month - 3 else x.month + 9) + x.day - 1
  }

  function MarchLength(y: int): int {
    if Leap(y + 1) then 366 else 365
  }

  lemma FromYearAndDayIsValid(y: int, doy: int)
    requires 0 <= doy < MarchLength(y)
    ensures var x := FromYearAndDay(y, doy); ValidDate(x) && MarchYear(x) == y && MarchDay(x) == doy
  {
    var mp := (5 * doy + 2) / 153;
    assert 0 <= mp <= 11;
  }

  lemma FromMarch(x: Date)
    requires ValidDate(x)
    ensures 0 <= MarchDay(x) < MarchLength(MarchYear(x)) && FromYearAndDay(MarchYear(x), MarchDay(x)) == x
  {
  }

  // ---------------------------------------------------------------- day numbers

  lemma MonthSums(y: int)
    ensures forall m | 3 <= m <= 12 :: DaysBeforeMonth(y, m) == 59 + (if Leap(y) then 1 else 0) + MonthStart(m - 3)
    ensures DaysBeforeMonth(y, 1) == 0 && DaysBeforeMonth(y, 2) == 31
  {
    var f := if Leap(y) then 29 else 28;
    assert DaysBeforeMonth(y, 2) == 31;
    assert DaysBeforeMonth(y, 3) == 31 + f;
    assert DaysBeforeMonth(y, 4) == 62 + f;
    assert DaysBeforeMonth(y, 5) == 92 + f;
    assert DaysBeforeMonth(y, 6) == 123 + f;
    assert DaysBeforeMonth(y, 7) == 153 + f;
    assert DaysBeforeMonth(y, 8) == 184 + f;
    assert DaysBeforeMonth(y, 9) == 215 + f;
    assert DaysBeforeMonth(y, 10) == 245 + f;
    assert DaysBeforeMonth(y, 11) == 276 + f;
    assert DaysBeforeMonth(y, 12) == 306 + f;
  }

  lemma CeilFloor(y: int, n: int)
    requires n > 0
    ensures (y + n - 1) / n == y / n + (if y % n == 0 then 0 else 1)
  {
    var q, r := y / n, y % n;
    if r == 0 {
      assert y + n - 1 == q * n + (n - 1);
      DivIs(y + n - 1, n, q, n - 1);
    } else {
      assert y + n - 1 == (q + 1) * n + (r - 1);
      DivIs(y + n - 1, n, q + 1, r - 1);
    }
  }

  lemma DivIs(a: int, n: int, q: int, r: int)
    requires n > 0 && a == q * n + r && 0 <= r < n
    ensures a / n == q
  {
    var d := a / n - q;
    assert d * n == r - a % n;
    MultipleGrows(d, n);
  }

  lemma MultipleGrows(d: int, n: int)
    requires n > 0
    ensures d >= 1 ==> d * n >= n
    ensures d <= -1 ==> d * n <= -n
  {
  }

  lemma ModIs(a: int, n: int, q: int, r: int)
    requires n > 0 && a == q * n + r && 0 <= r < n
    ensures a % n == r
  {
    DivIs(a, n, q, r);
  }

  lemma NextYear(y: int)
    ensures DaysBeforeYear(y + 1) == DaysBeforeYear(y) + 365 + if Leap(y) then 1 else 0
  {
    CeilFloor(y, 4);
    CeilFloor(y, 100);
    CeilFloor(y, 400);
    LeapDivides(y);
  }

  lemma LeapDivides(y: int)
    ensures y % 400 == 0 ==> y % 100 == 0
    ensures y % 100 == 0 ==> y % 4 == 0
  {
    if y % 400 == 0 {
      ModIs(y, 100, 4 * (y / 400), 0);
    }
    if y % 100 == 0 {
      ModIs(y, 4, 25 * (y / 100), 0);
    }
  }

  /** March 1 of year `yoe` of the era. */
  lemma MarchBase(yoe: int, era: int)
    requires 0 <= yoe < 400
    ensures DaysBeforeYear(yoe + 400 * era) + (if Leap(yoe + 400 * era) then 1 else 0) == era * 146_097 + YearStart(yoe) + 1
  {
    var y := yoe + 400 * era;
    CeilFloor(y, 4);
    CeilFloor(y, 100);
    CeilFloor(y, 400);
    LeapDivides(y);
    DivIs(y, 400, era, yoe);
    DivIs(y, 100, 4 * era + yoe / 100, yoe % 100);
    DivIs(y, 4, 100 * era + yoe / 4, yoe % 4);
  }

  /** The day number from the March-based year and day. */
  lemma DayNumberByMarch(x: Date, yoe: int, era: int)
    requires ValidDate(x) && 0 <= yoe < 400 && MarchYear(x) == yoe + 400 * era
    ensures DayNumber(x) == era * 146_097 + YearStart(yoe) + MarchDay(x) - 719_468
  {
    hide DaysBeforeYear, DaysBeforeMonth, Leap;
    MarchBase(yoe, era);
    MonthSums(x.year);
    if x.month <= 2 {
      NextYear(x.year - 1);
    }
  }

  // ---------------------------------------------------------------- theorems

  /** Every day number, positive or negative, becomes a valid date whose day number it is. */
  lemma DateFromDaysIsRight(days: int)
    ensures ValidDate(DateFromDays(days)) && DayNumber(DateFromDays(days)) == days
  {
    hide Leap, YearOfEra, FromYearAndDay, DayNumber;
    var total := days + 719_468;
    EraFloors(total);
    var era := Era(total);
    var doe := total - era * 146_097;
    YearOfEraIsRight(doe);
    var yoe := YearOfEra(doe);
    EraKeepsLeap(yoe + 1, era);
    var doy := doe - YearStart(yoe);
    FromYearAndDayIsValid(yoe + era * 400, doy);
    DayNumberByMarch(DateFromDays(days), yoe, era);
  }

  /** And every date is the date of its day number. */
  lemma DateOfDayNumber(x: Date)
    requires ValidDate(x)
    ensures DateFromDays(DayNumber(x)) == x
  {
    hide Leap, YearOfEra, FromYearAndDay, DayNumber, MarchDay, MarchYear;
    var y, doy := MarchYear(x), MarchDay(x);
    var era, yoe := y / 400, y % 400;
    assert y == yoe + 400 * era;
    FromMarch(x);
    EraKeepsLeap(yoe + 1, era);
    DayNumberByMarch(x, yoe, era);
    YearFollows(yoe);
    YearStartGrows(yoe);
    var doe := YearStart(yoe) + doy;
    var total := DayNumber(x) + 719_468;
    assert total == era * 146_097 + doe && 0 <= doe < 146_097;
    EraFloors(total);
    assert Era(total) == era;
    YearOfEraFound(yoe, doy);
  }

  lemma YearStartGrows(yoe: int)
    requires 0 <= yoe < 400
    ensures 0 <= YearStart(yoe) && YearStart(yoe) + YearLength(yoe) <= 146_097
  {
  }

  lemma NextHasNextNumber(x: Date)
    requires ValidDate(x)
    ensures ValidDate(NextDate(x)) && DayNumber(NextDate(x)) == DayNumber(x) + 1
  {
    hide Leap, DaysBeforeYear;
    NextYear(x.year);
    if x.month == 12 {
      MonthSums(x.year);
    }
  }

  /** The day after a day number is the day after its date, from 1970-01-01 on and back. */
  lemma DaysFollow(days: int)
    ensures DateFromDays(days + 1) == NextDate(DateFromDays(days))
    ensures DateFromDays(0) == Date(1970, 1, 1)
  {
    hide DateFromDays, DayNumber, NextDate, ValidDate;
    DateFromDaysIsRight(days);
    var x := DateFromDays(days);
    NextHasNextNumber(x);
    DateOfDayNumber(NextDate(x));
    EpochIsZero();
    DateOfDayNumber(Date(1970, 1, 1));
  }

  lemma EpochIsZero()
    ensures ValidDate(Date(1970, 1, 1)) && DayNumber(Date(1970, 1, 1)) == 0
  {
  }

  // ---------------------------------------------------------------- timestamps

  const SECS_PER_DAY := 86_400

  datatype Time = Time(date: Date, hour: int, minute: int, second: int)

  /** The second a date and time of day stand for. */
  function EpochSecond(t: Time): int
    requires ValidDate(t.date)
  {
    DayNumber(t.date) * SECS_PER_DAY + t.hour * 3600 + t.minute * 60 + t.second
  }

  predicate InDay(t: Time) {
    0 <= t.hour < 24 && 0 <= t.minute < 60 && 0 <= t.second < 60
  }

  /**
   `format_timestamp` on whole seconds: the time of day is always right, and
   the date exactly when the day number is one of 32 bits. The shift around
   the cast wraps, as arithmetic does in release builds.
   */
  method FormatTimestamp(secs: int) returns (t: Time)
    ensures ValidDate(t.date) && InDay(t)
    ensures (EpochSecond(t) - secs) % SECS_PER_DAY == 0
    ensures EpochSecond(t) == secs <==> -0x8000_0000 <= secs / SECS_PER_DAY < 0x8000_0000
  {
    hide DateFromDays, DayNumber, ValidDate, WrapI32, TruncDiv;
    var days, daySecs := TruncDiv(secs, SECS_PER_DAY), TruncMod(secs, SECS_PER_DAY);
    if daySecs < 0 {
      days := days - 1;
      daySecs := daySecs + SECS_PER_DAY;
    }
    assert days == secs / SECS_PER_DAY && daySecs == secs % SECS_PER_DAY by { FloorByTruncation(secs); }
    var day := WrapI32(WrapI32(days + 719_163) - 719_163);
    t := Time(DateFromDays(day), daySecs / 3600, (daySecs % 3600) / 60, daySecs % 60);
    DateFromDaysIsRight(day);
    HoursMinutesSeconds(daySecs);
    ShiftedCast(days);
    SameDay(day, days, daySecs, EpochSecond(t), secs);
  }

  /** Truncation, corrected when the remainder is negative, is floor division. */
  lemma FloorByTruncation(secs: int)
    ensures var r := TruncMod(secs, SECS_PER_DAY);
      && secs / SECS_PER_DAY == TruncDiv(secs, SECS_PER_DAY) - (if r < 0 then 1 else 0)
      && secs % SECS_PER_DAY == r + (if r < 0 then SECS_PER_DAY else 0)
  {
  }

  lemma HoursMinutesSeconds(n: int)
    requires 0 <= n < SECS_PER_DAY
    ensures 0 <= n / 3600 < 24 && 0 <= (n % 3600) / 60 < 60 && 0 <= n % 60 < 60
    ensures n / 3600 * 3600 + (n % 3600) / 60 * 60 + n % 60 == n
  {
    var m := n % 3600;
    assert n == n / 3600 * 3600 + m;
    ModIs(n, 60, 60 * (n / 3600) + m / 60, m % 60);
  }

  lemma ShiftedCast(days: int)
    ensures WrapI32(WrapI32(days + 719_163) - 719_163) == days <==> -0x8000_0000 <= days < 0x8000_0000
  {
  }

  lemma SameDay(day: int, days: int, daySecs: int, shown: int, secs: int)
    requires shown == day * SECS_PER_DAY + daySecs && secs == days * SECS_PER_DAY + daySecs
    ensures (shown - secs) % SECS_PER_DAY == 0
    ensures shown == secs <==> day == days
  {
    ModIs(shown - secs, SECS_PER_DAY, day - days, 0);
  }
}
