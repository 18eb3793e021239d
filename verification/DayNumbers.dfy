/** Counting days by summing year and month lengths: the inverse of the naive walk,
    and the order of dates. */
module DayNumbers {
  import opened Calendar

  /** Days from 1970-01-01 to January 1 of `year`, summing whole years. */
  function JanFirst(year: int): (n: int)
    decreases if year >= 1970 then year - 1970 else 1970 - year
  {
    if year == 1970 then 0
    else if year > 1970 then JanFirst(year - 1) + YearDays(year - 1)
    else JanFirst(year + 1) - YearDays(year)
  }

  function YearDays(year: int): int { if Leap(year) then 366 else 365 }

  /** Days from January 1 to the first of `month`. */
  function MonthOffset(year: int, month: nat): (n: int) {
    if month <= 1 then 0 else MonthOffset(year, month - 1) + DaysIn(year, month - 1)
  }

  function DayNumber(d: Date): (n: int)
    requires d.month >= 1
  {
    JanFirst(d.year) + MonthOffset(d.year, d.month) + d.day - 1
  }

  lemma JanFirstNext(year: int)
    ensures JanFirst(year + 1) == JanFirst(year) + YearDays(year)
  {
  }

  lemma WholeYear(year: int)
    ensures MonthOffset(year, 12) + 31 == YearDays(year)
  {
    assert MonthOffset(year, 2) == 31;
    assert MonthOffset(year, 4) == 62 + DaysIn(year, 2);
    assert MonthOffset(year, 6) == 123 + DaysIn(year, 2);
    assert MonthOffset(year, 8) == 184 + DaysIn(year, 2);
    assert MonthOffset(year, 10) == 245 + DaysIn(year, 2);
  }

  lemma DayNumberStep(d: Date)
    requires ValidDate(d)
    ensures DayNumber(NextDay(d)) == DayNumber(d) + 1
  {
    if d.day == DaysIn(d.year, d.month) && d.month == 12 {
      WholeYear(d.year);
      JanFirstNext(d.year);
    }
  }

  /** Counting the days to the n-th date of the walk gives n back. */
  lemma {:induction false} DayNumberOfNaive(n: int)
    ensures DayNumber(Naive(n)) == n
    decreases if n >= 0 then n else -n
  {
    if n > 0 {
      DayNumberOfNaive(n - 1);
      DayNumberStep(Naive(n - 1));
    } else if n < 0 {
      DayNumberOfNaive(n + 1);
      var d := PrevDay(Naive(n + 1));
      assert NextDay(d) == Naive(n + 1);
      DayNumberStep(d);
    }
  }

  predicate DateLess(d: Date, e: Date) {
    d.year < e.year
    || (d.year == e.year && (d.month < e.month || (d.month == e.month && d.day < e.day)))
  }

  lemma {:induction false} MonthOffsetGrows(year: int, m: nat, n: nat)
    requires 1 <= m < n <= 13
    ensures MonthOffset(year, m) + DaysIn(year, m) <= MonthOffset(year, n)
    decreases n
  {
    if m < n - 1 {
      MonthOffsetGrows(year, m, n - 1);
    }
  }

  lemma {:induction false} JanFirstGrows(y: int, z: int)
    requires y <= z
    ensures JanFirst(y) + 365 * (z - y) <= JanFirst(z)
    decreases z - y
  {
    if y < z {
      JanFirstGrows(y, z - 1);
      JanFirstNext(z - 1);
    }
  }

  lemma YearSpan(d: Date)
    requires ValidDate(d)
    ensures JanFirst(d.year) <= DayNumber(d) < JanFirst(d.year + 1)
  {
    WholeYear(d.year);
    JanFirstNext(d.year);
    if d.month < 12 {
      MonthOffsetGrows(d.year, d.month, 12);
    }
    if d.month > 1 {
      MonthOffsetGrows(d.year, 1, d.month);
    }
  }

  /** Calendar order is day-count order. */
  lemma DateOrder(d: Date, e: Date)
    requires ValidDate(d) && ValidDate(e)
    ensures DateLess(d, e) <==> DayNumber(d) < DayNumber(e)
    ensures d == e <==> DayNumber(d) == DayNumber(e)
  {
    DateOrderOneWay(d, e);
    DateOrderOneWay(e, d);
  }

  lemma DateOrderOneWay(d: Date, e: Date)
    requires ValidDate(d) && ValidDate(e)
    ensures DateLess(d, e) ==> DayNumber(d) < DayNumber(e)
  {
    if d.year < e.year {
      YearSpan(d);
      YearSpan(e);
      JanFirstGrows(d.year + 1, e.year);
    } else if d.year == e.year && d.month < e.month {
      MonthOffsetGrows(d.year, d.month, e.month);
    }
  }

  function LeapsBefore(year: int): int {
    (year - 1) / 4 - (year - 1) / 100 + (year - 1) / 400
  }

  lemma LeapsBeforeStep(year: int)
    ensures LeapsBefore(year + 1) == LeapsBefore(year) + (if Leap(year) then 1 else 0)
  {
    QuotientStep4(year);
    QuotientStep100(year);
    QuotientStep400(year);
    Divisors(year);
  }

  lemma Divisors(year: int)
    ensures year % 400 == 0 ==> year % 100 == 0
    ensures year % 100 == 0 ==> year % 4 == 0
  {
    DividesCentury(year);
    DividesFour(year);
  }

  lemma DividesCentury(year: int)
    ensures year % 400 == 0 ==> year % 100 == 0
  {
    assert year == 100 * (4 * (year / 400)) + year % 400;
  }

  lemma DividesFour(year: int)
    ensures year % 100 == 0 ==> year % 4 == 0
  {
    assert year == 4 * (25 * (year / 100)) + year % 100;
  }

  lemma QuotientStep4(y: int)
    ensures y / 4 == (y - 1) / 4 + (if y % 4 == 0 then 1 else 0)
  {
  }

  lemma QuotientStep100(y: int)
    ensures y / 100 == (y - 1) / 100 + (if y % 100 == 0 then 1 else 0)
  {
  }

  lemma QuotientStep400(y: int)
    ensures y / 400 == (y - 1) / 400 + (if y % 400 == 0 then 1 else 0)
  {
  }

  lemma {:induction false} JanFirstClosed(year: int)
    ensures JanFirst(year) == 365 * (year - 1970) + LeapsBefore(year) - LeapsBefore(1970)
    decreases if year >= 1970 then year - 1970 else 1970 - year
  {
    hide LeapsBefore, Leap;
    if year > 1970 {
      JanFirstClosed(year - 1);
      LeapsBeforeStep(year - 1);
      assert JanFirst(year) == JanFirst(year - 1) + YearDays(year - 1);
    } else if year < 1970 {
      JanFirstClosed(year + 1);
      LeapsBeforeStep(year);
    }
  }

  lemma LeapsBefore0()
    ensures LeapsBefore(0) == -1
  {
  }

  lemma LeapsBefore1970()
    ensures LeapsBefore(1970) == 477
  {
  }

  lemma LeapsBefore10000()
    ensures LeapsBefore(10_000) == 2424
  {
  }

  /** The first day of year 0 and of year 10000. */
  lemma FourDigitBounds()
    ensures JanFirst(0) == -719_528 && JanFirst(10_000) == 2_932_897
  {
    hide JanFirst, LeapsBefore;
    JanFirstClosed(0);
    JanFirstClosed(10_000);
    LeapsBefore0();
    LeapsBefore1970();
    LeapsBefore10000();
  }

  lemma FourDigitYears(d: Date)
    requires ValidDate(d)
    ensures 0 <= d.year <= 9999 <==> -719_528 <= DayNumber(d) < 2_932_897
  {
    hide JanFirst, MonthOffset;
    YearSpan(d);
    FourDigitBounds();
    if d.year < 0 {
      JanFirstGrows(d.year + 1, 0);
    } else if d.year > 9999 {
      JanFirstGrows(10_000, d.year);
    } else {
      JanFirstGrows(0, d.year);
      JanFirstGrows(d.year + 1, 10_000);
    }
  }
}
