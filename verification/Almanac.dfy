/** The calendar held against what everybody knows of it: the lengths of the months, the leap years, one date whose
  weekday is known, and that the day after is the next day of the week. */
module Almanac {
  import opened Calendar

  /** Thirty days hath September. */
  lemma MonthLengths(year: int)
    ensures DaysIn(1, year) == 31 && DaysIn(3, year) == 31 && DaysIn(4, year) == 30 && DaysIn(5, year) == 31
    ensures DaysIn(6, year) == 30 && DaysIn(7, year) == 31 && DaysIn(8, year) == 31 && DaysIn(9, year) == 30
    ensures DaysIn(10, year) == 31 && DaysIn(11, year) == 30 && DaysIn(12, year) == 31
    ensures DaysIn(2, year) == 29 || DaysIn(2, year) == 28
  {
  }

  /** February has its leap day every four years, but for centuries that four hundred does not divide. */
  lemma LeapDayIff(year: int)
    ensures year % 4 != 0 ==> DaysIn(2, year) == 28
    ensures year % 4 == 0 && year % 100 != 0 ==> DaysIn(2, year) == 29
    ensures year % 100 == 0 && year % 400 != 0 ==> DaysIn(2, year) == 28
    ensures year % 400 == 0 ==> DaysIn(2, year) == 29
  {
  }

  lemma KnownYears()
    ensures DaysIn(2, 2000) == 29 && DaysIn(2, 2100) == 28 && DaysIn(2, 2024) == 29 && DaysIn(2, 2023) == 28
  {
  }

  /** The day after a valid date is valid, and one day later. */
  lemma DayAfter(c: Civil)
    requires Valid(c)
    ensures Valid(RollDay(c))
    ensures DayNumber(RollDay(c).year, RollDay(c).month, RollDay(c).day) == DayNumber(c.year, c.month, c.day) + 1
  {
    MonthStep(c.month, c.year);
    LeapDays(c.year);
    if c.day + 1 > DaysIn(c.month, c.year) && c.month == 12 {
      MonthStep(1, c.year + 1);
    }
  }

  lemma KnownNumbers(y: int)
    ensures y == 2024 ==> DaysBeforeYear(y) == 738_885
    ensures y == 1970 ==> DaysBeforeYear(y) == 719_162
    ensures y == 2000 ==> DaysBeforeYear(y) == 730_119
  {
  }

  lemma WeekdayOf(year: int, month: int, day: int, n: int)
    requires 1 <= month <= 12 && DayNumber(year, month, day) == n
    ensures Weekday(year, month, day) == (n + 1) % 7
  {
  }

  lemma NumberOf(year: int, month: int, day: int, before: int)
    requires 1 <= month <= 2 && DaysBeforeYear(year) == before
    ensures DayNumber(year, month, day) == before + 31 * (month - 1) + day - 1
  {
  }

  /** The first of January 2024 was a Monday. */
  lemma KnownMonday(y: int)
    requires y == 2024
    ensures Weekday(y, 1, 1) == 1
  {
    KnownNumbers(y);
    NumberOf(y, 1, 1, 738_885);
    WeekdayOf(y, 1, 1, 738_885);
  }

  /** The epoch was a Thursday, and lies so many seconds after the calendar began. */
  lemma KnownThursday(y: int)
    requires y == 1970
    ensures Weekday(y, 1, 1) == 4 && Seconds(Civil(y, 1, 1, 0, 0, 0)) == 62_135_596_800
  {
    KnownNumbers(y);
    NumberOf(y, 1, 1, 719_162);
    WeekdayOf(y, 1, 1, 719_162);
  }

  /** The leap day of the year 2000 was a Tuesday. */
  lemma KnownTuesday(y: int)
    requires y == 2000
    ensures Weekday(y, 2, 29) == 2
  {
    KnownNumbers(y);
    NumberOf(y, 2, 29, 730_119);
    WeekdayOf(y, 2, 29, 730_178);
  }

  /** The day after is the next day of the week. */
  lemma WeekdayAfter(c: Civil)
    requires Valid(c)
    ensures Valid(RollDay(c))
    ensures Weekday(RollDay(c).year, RollDay(c).month, RollDay(c).day) == (Weekday(c.year, c.month, c.day) + 1) % 7
  {
    var d, n := RollDay(c), DayNumber(c.year, c.month, c.day);
    DayAfter(c);
    WeekdayOf(c.year, c.month, c.day, n);
    WeekdayOf(d.year, d.month, d.day, n + 1);
    NextOfSeven(n + 1);
  }

  lemma NextOfSeven(n: int)
    ensures (n + 1) % 7 == (n % 7 + 1) % 7
  {
  }

  lemma SameOfSeven(a: int, b: int)
    requires 0 <= a <= 6 && 0 <= b <= 6
    ensures a == b <==> (a + 1) % 7 == (b + 1) % 7
  {
  }

  /** What these two facts say of a count of weekdays; `y` is 2024. */
  ghost predicate CountsWeekdays(wd: (int, int, int) -> int, y: int) {
    && y == 2024 && wd(y, 1, 1) == 1
    && (forall c :: Valid(c) ==>
          wd(RollDay(c).year, RollDay(c).month, RollDay(c).day) == (wd(c.year, c.month, c.day) + 1) % 7)
    && (forall c :: Valid(c) ==> 0 <= wd(c.year, c.month, c.day) <= 6)
  }

  /** The day of a number. */
  ghost predicate IsDay(c: Civil, day: int) {
    Valid(c) && c.hour == 0 && c.min == 0 && c.sec == 0 && DayNumber(c.year, c.month, c.day) == day
  }

  lemma WholeDays(a: int, b: int, rest: int)
    requires DAY * a + rest == DAY * b && 0 <= rest < DAY
    ensures a == b && rest == 0
  {
  }

  lemma SomeDay(day: int) returns (c: Civil)
    ensures IsDay(c, day)
  {
    c := CivilOf(DAY * day);
    WholeDays(DayNumber(c.year, c.month, c.day), day, 3600 * c.hour + 60 * c.min + c.sec);
  }

  lemma OneDay(c: Civil, d: Civil, day: int)
    requires IsDay(c, day) && IsDay(d, day)
    ensures c == d
  {
    OrderAgrees(c, d);
  }

  ghost predicate AgreesOn(wd: (int, int, int) -> int, c: Civil)
    requires Valid(c)
  {
    wd(c.year, c.month, c.day) == Weekday(c.year, c.month, c.day)
  }

  /** Agreeing on one day is agreeing on the next. */
  lemma AgreesAcross(wd: (int, int, int) -> int, y: int, c: Civil)
    requires CountsWeekdays(wd, y) && Valid(c)
    ensures Valid(RollDay(c)) && (AgreesOn(wd, c) <==> AgreesOn(wd, RollDay(c)))
  {
    CountsOn(wd, y, c);
    WeekdayAfter(c);
    SameOfSeven(wd(c.year, c.month, c.day), Weekday(c.year, c.month, c.day));
  }

  lemma CountsOn(wd: (int, int, int) -> int, y: int, c: Civil)
    requires CountsWeekdays(wd, y) && Valid(c)
    ensures 0 <= wd(c.year, c.month, c.day) <= 6
    ensures wd(RollDay(c).year, RollDay(c).month, RollDay(c).day) == (wd(c.year, c.month, c.day) + 1) % 7
  {
  }

  lemma DayBefore(c: Civil, day: int) returns (b: Civil)
    requires IsDay(c, day)
    ensures IsDay(b, day - 1) && RollDay(b) == c
  {
    b := SomeDay(day - 1);
    DayAfter(b);
    OneDay(RollDay(b), c, day);
  }

  lemma FirstDayIs(y: int, c: Civil, first: int)
    requires first == DayNumber(y, 1, 1) && IsDay(c, first)
    ensures c.year == y && c.month == 1 && c.day == 1
  {
    OneDay(c, Civil(y, 1, 1, 0, 0, 0), first);
  }

  lemma StartsOnMonday(wd: (int, int, int) -> int, y: int)
    requires CountsWeekdays(wd, y)
    ensures y == 2024 && wd(y, 1, 1) == 1
  {
  }

  lemma AgreesFirst(wd: (int, int, int) -> int, y: int, c: Civil, first: int)
    requires CountsWeekdays(wd, y) && first == DayNumber(y, 1, 1) && IsDay(c, first)
    ensures AgreesOn(wd, c)
  {
    StartsOnMonday(wd, y);
    FirstDayIs(y, c, first);
    KnownMonday(y);
  }

  lemma {:induction false} AgreesFrom(wd: (int, int, int) -> int, y: int, c: Civil, first: int, day: int)
    requires CountsWeekdays(wd, y) && first == DayNumber(y, 1, 1) && IsDay(c, day) && first <= day
    ensures AgreesOn(wd, c)
    decreases day - first
  {
    if first == day {
      AgreesFirst(wd, y, c, first);
    } else {
      var b := DayBefore(c, day);
      AgreesFrom(wd, y, b, first, day - 1);
      AgreesAcross(wd, y, b);
    }
  }

  lemma {:induction false} AgreesBack(wd: (int, int, int) -> int, y: int, c: Civil, first: int, day: int)
    requires CountsWeekdays(wd, y) && first == DayNumber(y, 1, 1) && IsDay(c, day) && day <= first
    ensures AgreesOn(wd, c)
    decreases first - day
  {
    if first == day {
      AgreesFirst(wd, y, c, first);
    } else {
      DayAfter(c);
      AgreesBack(wd, y, RollDay(c), first, day + 1);
      AgreesAcross(wd, y, c);
    }
  }

  /** They leave no choice: whatever counts weekdays from a known Monday, one a day, counts as the calendar does. */
  lemma WeekdayIsTheOnlyOne(wd: (int, int, int) -> int, y: int, c: Civil)
    requires CountsWeekdays(wd, y) && Valid(c)
    ensures wd(c.year, c.month, c.day) == Weekday(c.year, c.month, c.day)
  {
    var midnight := c.(hour := 0, min := 0, sec := 0);
    var day, first := DayNumber(c.year, c.month, c.day), DayNumber(y, 1, 1);
    if first <= day { AgreesFrom(wd, y, midnight, first, day); } else { AgreesBack(wd, y, midnight, first, day); }
  }
}
