/** Wall-clock values and the proleptic Gregorian calendar.

  A `Civil` has no zone. Seconds are counted from 0001-01-01 00:00:00, which was a Monday. */
module Calendar {

  const DAY: int := 86400

  datatype Civil = Civil(year: int, month: int, day: int, hour: int, min: int, sec: int)

  predicate Leap(year: int) {
    year % 4 == 0 && (year % 100 != 0 || year % 400 == 0)
  }

  function DaysIn(month: int, year: int): (n: int)
    ensures 28 <= n <= 31
  {
    if month == 2 then (if Leap(year) then 29 else 28)
    else if month == 4 || month == 6 || month == 9 || month == 11 then 30
    else 31
  }

  predicate Valid(c: Civil) {
    && 1 <= c.month <= 12 && 1 <= c.day <= DaysIn(c.month, c.year)
    && 0 <= c.hour <= 23 && 0 <= c.min <= 59 && 0 <= c.sec <= 59
  }

  // ----- counting days -------------------------------------------------------------------

  function DaysBeforeYear(year: int): int {
    var y := year - 1;
    365 * y + y / 4 - y / 100 + y / 400
  }

  function YearLength(year: int): (n: int)
    ensures n == DaysBeforeYear(year + 1) - DaysBeforeYear(year)
  {
    LeapDays(year);
    if Leap(year) then 366 else 365
  }

  lemma LeapDays(year: int)
    ensures DaysBeforeYear(year + 1) - DaysBeforeYear(year) == if Leap(year) then 366 else 365
  {
    assert year / 4 - (year - 1) / 4 == if year % 4 == 0 then 1 else 0;
    assert year / 100 - (year - 1) / 100 == if year % 100 == 0 then 1 else 0;
    assert year / 400 - (year - 1) / 400 == if year % 400 == 0 then 1 else 0;
    assert year % 400 == 0 ==> year % 100 == 0;
    assert year % 100 == 0 ==> year % 4 == 0;
  }

  const COMMON_YEAR := [0, 31, 59, 90, 120, 151, 181, 212, 243, 273, 304, 334, 365]

  function DaysBeforeMonth(month: int, year: int): (n: int)
    requires 1 <= month <= 13
    ensures 0 <= n <= 366
  {
    COMMON_YEAR[month - 1] + if 2 < month && Leap(year) then 1 else 0
  }

  lemma MonthStep(month: int, year: int)
    requires 1 <= month <= 12
    ensures DaysBeforeMonth(month + 1, year) == DaysBeforeMonth(month, year) + DaysIn(month, year)
    ensures DaysBeforeMonth(1, year) == 0 && DaysBeforeMonth(13, year) == YearLength(year)
  {
  }

  function DayNumber(year: int, month: int, day: int): int
    requires 1 <= month <= 12
  {
    DaysBeforeYear(year) + DaysBeforeMonth(month, year) + day - 1
  }

  function Weekday(year: int, month: int, day: int): (wd: int)
    requires 1 <= month <= 12
    ensures 0 <= wd <= 6
  {
    (DayNumber(year, month, day) + 1) % 7
  }

  function Seconds(c: Civil): int
    requires 1 <= c.month <= 12
  {
    DAY * DayNumber(c.year, c.month, c.day) + 3600 * c.hour + 60 * c.min + c.sec
  }

  // ----- the inverse ---------------------------------------------------------------------

  function YearFrom(n: int, year: int): (y: int)
    requires DaysBeforeYear(year) <= n
    ensures DaysBeforeYear(y) <= n < DaysBeforeYear(y + 1)
    decreases n - DaysBeforeYear(year)
  {
    if n < DaysBeforeYear(year) + YearLength(year) then year else YearFrom(n, year + 1)
  }

  function YearOf(n: int): (y: int)
    ensures DaysBeforeYear(y) <= n < DaysBeforeYear(y + 1)
  {
    YearFrom(n, (if 0 <= n then n / 366 else n / 365) + 1)
  }

  function MonthFrom(n: int, month: int, year: int): (m: int)
    requires 1 <= month <= 12 && DaysBeforeMonth(month, year) <= n < YearLength(year)
    ensures month <= m <= 12 && DaysBeforeMonth(m, year) <= n < DaysBeforeMonth(m + 1, year)
    decreases 12 - month
  {
    MonthStep(month, year);
    if n < DaysBeforeMonth(month + 1, year) then month else MonthFrom(n, month + 1, year)
  }

  lemma Clock(s: int)
    requires 0 <= s < DAY
    ensures 0 <= s / 3600 <= 23 && 0 <= s % 3600 / 60 <= 59 && 0 <= s % 3600 % 60 <= 59
    ensures 3600 * (s / 3600) + 60 * (s % 3600 / 60) + s % 3600 % 60 == s
  {
  }

  /** Computes the wall-clock value that lies `n` seconds after 0001-01-01 00:00:00. */
  function ToCivil(n: int): (c: Civil)
    ensures Valid(c) && Seconds(c) == n
  {
    var days, s := n / DAY, n % DAY;
    var year := YearOf(days);
    var rest := days - DaysBeforeYear(year);
    var month := MonthFrom(rest, 1, year);
    Clock(s);
    MonthStep(month, year);
    Civil(year, month, rest - DaysBeforeMonth(month, year) + 1, s / 3600, s % 3600 / 60, s % 3600 % 60)
  }

  /** That value, for reasoning: there is one, and `OrderAgrees` says there is only one. */
  ghost function CivilOf(n: int): (c: Civil)
    ensures Valid(c) && Seconds(c) == n
  {
    assert Valid(ToCivil(n)) && Seconds(ToCivil(n)) == n;
    var c :| Valid(c) && Seconds(c) == n;
    c
  }

  // ----- order ---------------------------------------------------------------------------

  /** Strictly earlier, field by field. */
  predicate Before(c: Civil, d: Civil) {
    if c.year != d.year then c.year < d.year
    else if c.month != d.month then c.month < d.month
    else if c.day != d.day then c.day < d.day
    else if c.hour != d.hour then c.hour < d.hour
    else if c.min != d.min then c.min < d.min
    else c.sec < d.sec
  }

  lemma {:induction false} YearsGrow(a: int, b: int)
    requires a <= b
    ensures DaysBeforeYear(a) + 365 * (b - a) <= DaysBeforeYear(b) <= DaysBeforeYear(a) + 366 * (b - a)
    decreases b - a
  {
    if a < b {
      YearsGrow(a, b - 1);
      LeapDays(b - 1);
    }
  }

  lemma MonthsGrow(a: int, b: int, year: int)
    requires 1 <= a <= b <= 13
    ensures DaysBeforeMonth(a, year) <= DaysBeforeMonth(b, year)
  {
  }

  lemma DaysOrdered(c: Civil, d: Civil)
    requires Valid(c) && Valid(d)
    requires c.year < d.year || (c.year == d.year && c.month < d.month)
    ensures DayNumber(c.year, c.month, c.day) < DayNumber(d.year, d.month, d.day)
  {
    MonthStep(c.month, c.year);
    if c.year < d.year {
      YearsGrow(c.year + 1, d.year);
      MonthsGrow(c.month + 1, 13, c.year);
    } else {
      MonthsGrow(c.month + 1, d.month, c.year);
    }
  }

  lemma SecondsOrdered(c: Civil, d: Civil)
    requires Valid(c) && Valid(d) && Before(c, d)
    ensures Seconds(c) < Seconds(d)
  {
    if c.year != d.year || c.month != d.month { DaysOrdered(c, d); }
  }

  /** Comparing fields and comparing seconds are the same thing, so wall-clock values and their seconds
      are the same thing. */
  lemma OrderAgrees(c: Civil, d: Civil)
    requires Valid(c) && Valid(d)
    ensures Before(c, d) <==> Seconds(c) < Seconds(d)
    ensures c == d <==> Seconds(c) == Seconds(d)
  {
    if Before(c, d) {
      SecondsOrdered(c, d);
    } else if c != d {
      SecondsOrdered(d, c);
    }
  }

  lemma RoundTrip(c: Civil)
    requires Valid(c)
    ensures CivilOf(Seconds(c)) == c
  {
    OrderAgrees(CivilOf(Seconds(c)), c);
  }

  // ----- the cursor ----------------------------------------------------------------------

  function NextMonth(c: Civil): Civil {
    if c.month + 1 > 12 then Civil(c.year + 1, 1, 1, 0, 0, 0) else Civil(c.year, c.month + 1, 1, 0, 0, 0)
  }

  function RollDay(c: Civil): Civil {
    if c.day + 1 > DaysIn(c.month, c.year) then
      if c.month + 1 > 12 then c.(day := 1, month := 1, year := c.year + 1) else c.(day := 1, month := c.month + 1)
    else c.(day := c.day + 1)
  }

  function NextDay(c: Civil): Civil {
    RollDay(c.(sec := 0, min := 0, hour := 0))
  }

  function RollHour(c: Civil): Civil {
    if c.hour + 1 > 23 then RollDay(c.(hour := 0)) else c.(hour := c.hour + 1)
  }

  function NextHour(c: Civil): Civil {
    RollHour(c.(sec := 0, min := 0))
  }

  function RollMinute(c: Civil): Civil {
    if c.min + 1 > 59 then RollHour(c.(min := 0)) else c.(min := c.min + 1)
  }

  function NextMinute(c: Civil): Civil {
    RollMinute(c.(sec := 0))
  }

  function NextSecond(c: Civil): Civil {
    if c.sec + 1 > 59 then RollMinute(c.(sec := 0)) else c.(sec := c.sec + 1)
  }

  predicate SameMonth(c: Civil, d: Civil) {
    c.year == d.year && c.month == d.month
  }

  predicate SameDay(c: Civil, d: Civil) {
    SameMonth(c, d) && c.day == d.day
  }

  predicate SameHour(c: Civil, d: Civil) {
    SameDay(c, d) && c.hour == d.hour
  }

  predicate SameMinute(c: Civil, d: Civil) {
    SameHour(c, d) && c.min == d.min
  }

  /** Each jump lands on the first value after the stretch it leaves: whatever lies between shares the
      month, day, hour or minute being skipped. */
  lemma JumpsSkipOnlyTheirStretch(c: Civil, d: Civil)
    requires Valid(c) && Valid(d) && !Before(d, c)
    ensures Valid(NextMonth(c)) && Before(c, NextMonth(c)) && (Before(d, NextMonth(c)) ==> SameMonth(c, d))
    ensures Valid(NextDay(c)) && Before(c, NextDay(c)) && (Before(d, NextDay(c)) ==> SameDay(c, d))
    ensures Valid(NextHour(c)) && Before(c, NextHour(c)) && (Before(d, NextHour(c)) ==> SameHour(c, d))
    ensures Valid(NextMinute(c)) && Before(c, NextMinute(c)) && (Before(d, NextMinute(c)) ==> SameMinute(c, d))
    ensures Valid(NextSecond(c)) && Before(c, NextSecond(c)) && (Before(d, NextSecond(c)) ==> c == d)
  {
  }

  lemma NextSecondIsOneLater(c: Civil)
    requires Valid(c)
    ensures Valid(NextSecond(c)) && Seconds(NextSecond(c)) == Seconds(c) + 1
  {
    var d := CivilOf(Seconds(c) + 1);
    OrderAgrees(c, d);
    JumpsSkipOnlyTheirStretch(c, d);
    OrderAgrees(d, NextSecond(c));
    OrderAgrees(c, NextSecond(c));
  }

  // ----- leap years and weekdays come round ----------------------------------------------

  lemma FourYears(year: int)
    ensures var y := year + (4 - year % 4) % 4; y % 4 == 0 && year <= y < year + 4
  {
  }

  /** A multiple of four that is no leap year is a century, and the next multiple of four is not. */
  lemma AfterCentury(y: int)
    requires y % 4 == 0
    ensures Leap(y) || Leap(y + 4)
  {
  }

  /** The next leap year is never more than eight years away. */
  function NextLeap(year: int): (y: int)
    ensures year <= y < year + 8 && Leap(y)
  {
    FourYears(year);
    var y := year + (4 - year % 4) % 4;
    AfterCentury(y);
    if Leap(y) then y else y + 4
  }

  lemma WeekComesRound(a: int, wd: int)
    requires 0 <= wd <= 6
    ensures (a + (wd - a % 7) % 7) % 7 == wd
  {
  }

  /** Every weekday falls within the first seven days of every month. */
  function FirstDay(year: int, month: int, wd: int): (day: int)
    requires 1 <= month <= 12 && 0 <= wd <= 6
    ensures 1 <= day <= 7 && Weekday(year, month, day) == wd
  {
    WeekComesRound(DayNumber(year, month, 1) + 1, wd);
    1 + (wd - Weekday(year, month, 1)) % 7
  }
}
