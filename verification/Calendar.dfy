/** The proleptic Gregorian calendar twice: a naive one that walks day by day
    (month lengths of section 5.7 and leap rule of Appendix C of RFC 3339), and
    the closed civil-from-days form the relay computes in `i64`. */
module Calendar {
  newtype i64 = x: int | -0x8000_0000_0000_0000 <= x < 0x8000_0000_0000_0000

  datatype Date = Date(year: int, month: int, day: int)

  predicate Leap(year: int) {
    year % 4 == 0 && (year % 100 != 0 || year % 400 == 0)
  }

  function DaysIn(year: int, month: int): (n: int) {
    if month == 2 then (if Leap(year) then 29 else 28)
    else if month == 4 || month == 6 || month == 9 || month == 11 then 30
    else 31
  }

  predicate ValidDate(d: Date) {
    1 <= d.month <= 12 && 1 <= d.day <= DaysIn(d.year, d.month)
  }

  function NextDay(d: Date): (r: Date) {
    if d.day < DaysIn(d.year, d.month) then d.(day := d.day + 1)
    else if d.month < 12 then Date(d.year, d.month + 1, 1)
    else Date(d.year + 1, 1, 1)
  }

  function PrevDay(d: Date): (r: Date) {
    if d.day > 1 then d.(day := d.day - 1)
    else if d.month > 1 then Date(d.year, d.month - 1, DaysIn(d.year, d.month - 1))
    else Date(d.year - 1, 12, 31)
  }

  const EPOCH: Date := Date(1970, 1, 1)

  /** The date `n` days after (before, when negative) 1970-01-01, one day at a time. */
  function Naive(n: int): (d: Date)
    ensures ValidDate(d)
    decreases if n >= 0 then n else -n
  {
    if n == 0 then EPOCH
    else if n > 0 then NextDay(Naive(n - 1))
    else PrevDay(Naive(n + 1))
  }

  // --- the closed form, over unbounded integers ---------------------------

  /** First day of March-based year `y` within a 400-year era. */
  function YearStart(y: int): int { 365 * y + y / 4 - y / 100 }

  /** First day of March-based month `m` within its year. */
  function MonthStart(m: int): int { (153 * m + 2) / 5 }

  function YearOfEra(doe: int): int {
    (doe - doe / 1460 + doe / 36_524 - doe / 146_096) / 365
  }

  function MonthPrime(doy: int): int { (5 * doy + 2) / 153 }

  function Assemble(era: int, yoe: int, doy: int): Date {
    var mp := MonthPrime(doy);
    var day := doy - MonthStart(mp) + 1;
    var month := if mp < 10 then mp + 3 else mp - 9;
    Date(yoe + era * 400 + (if month <= 2 then 1 else 0), month, day)
  }

  function CivilInEra(era: int, doe: int): Date {
    Assemble(era, YearOfEra(doe), doe - YearStart(YearOfEra(doe)))
  }

  function Civil(days: int): Date {
    var z := days + 719_468;
    var era, doe := z / 146_097, z % 146_097;
    CivilInEra(era, doe)
  }

  /** Length of March-based year `yoe`: it ends with the February of the next year. */
  function YearLength(yoe: int): int { if Leap(yoe + 1) then 366 else 365 }

  /** A day of an era as centuries, four-year cycles and days of the cycle. */
  lemma SplitDayOfEra(doe: int) returns (c: int, q: int, d: int)
    requires 0 <= doe < 146_097
    ensures doe == 36_524 * c + 1461 * q + d
    ensures 0 <= c < 4 && 0 <= q < 25 && 0 <= d <= 1460
    ensures d == 1460 && q == 24 ==> c == 3
  {
    c := if doe == 146_096 then 3 else doe / 36_524;
    var r := doe - 36_524 * c;
    q, d := r / 1461, r % 1461;
  }

  lemma YearOfEraSplit(doe: int, c: int, q: int, d: int)
    requires doe == 36_524 * c + 1461 * q + d
    requires 0 <= c < 4 && 0 <= q < 25 && 0 <= d <= 1460
    requires d == 1460 && q == 24 ==> c == 3
    ensures YearOfEra(doe) == 100 * c + 4 * q + (if d == 1460 then 3 else d / 365)
  {
    var w := 24 * c + q + d;
    assert doe == 1460 * (25 * c + q) + w;
    var delta := if w >= 1460 then 1 else 0;
    assert doe / 1460 == 25 * c + q + delta;
    var e := if doe == 146_096 then 1 else 0;
    assert doe / 146_096 == e;
    assert doe / 36_524 == c + e;
    assert doe - doe / 1460 + doe / 36_524 - doe / 146_096 == 365 * (100 * c + 4 * q) + (d - delta);
  }

  lemma YearStartSplit(c: int, q: int, t: int)
    requires 0 <= c < 4 && 0 <= q < 25 && 0 <= t < 4
    ensures YearStart(100 * c + 4 * q + t) == 36_524 * c + 1461 * q + 365 * t
    ensures YearLength(100 * c + 4 * q + t) == if t == 3 && (q < 24 || c == 3) then 366 else 365
  {
    var y := 100 * c + 4 * q + t;
    assert y / 4 == 25 * c + q;
    assert y / 100 == c;
    if t == 3 {
      assert y + 1 == 4 * (25 * c + q + 1);
      if q == 24 {
        assert y + 1 == 100 * (c + 1);
      } else {
        assert (y + 1) % 100 == 4 * q + 4;
      }
    } else {
      assert (y + 1) % 4 == t + 1;
    }
  }

  lemma YearOfEraBounds(doe: int)
    requires 0 <= doe < 146_097
    ensures var y := YearOfEra(doe);
            0 <= y < 400 && YearStart(y) <= doe < YearStart(y) + YearLength(y)
  {
    var c, q, d := SplitDayOfEra(doe);
    YearOfEraSplit(doe, c, q, d);
    YearStartSplit(c, q, if d == 1460 then 3 else d / 365);
  }

  lemma YearStartStep(y: int)
    requires 0 <= y < 399
    ensures YearStart(y + 1) == YearStart(y) + YearLength(y)
  {
    assert Leap(y + 1) <==> (y + 1) % 4 == 0 && (y + 1) % 100 != 0;
  }

  /** The year found is the only one whose span holds the day. */
  lemma YearOfEraUnique(doe: int, y: int)
    requires 0 <= y < 400 && YearStart(y) <= doe < YearStart(y) + YearLength(y)
    requires 0 <= doe < 146_097
    ensures YearOfEra(doe) == y
  {
    YearOfEraBounds(doe);
    var z := YearOfEra(doe);
    if y < z {
      YearStartMonotone(y + 1, z);
      YearStartStep(y);
    } else if z < y {
      YearStartMonotone(z + 1, y);
      YearStartStep(z);
    }
  }

  lemma YearStartMonotone(y: int, z: int)
    requires 0 <= y <= z
    ensures YearStart(y) <= YearStart(z)
  {
    assert z / 100 - y / 100 <= z - y;
  }

  lemma LeapPeriod(y: int, era: int)
    ensures Leap(y + 400 * era) == Leap(y)
  {
    var q, r := y / 400, y % 400;
    assert y + 400 * era == 400 * (q + era) + r;
    LeapInEra(q, r);
    LeapInEra(q + era, r);
  }

  lemma LeapInEra(q: int, r: int)
    requires 0 <= r < 400
    ensures Leap(400 * q + r) == Leap(r)
  {
    assert (400 * q + r) / 4 == 100 * q + r / 4;
    assert (400 * q + r) / 100 == 4 * q + r / 100;
    assert (400 * q + r) / 400 == q;
  }

  /** The month formula inverts the month starts. */
  lemma MonthPrimeSpan(doy: int)
    requires 0 <= doy < 366
    ensures var mp := MonthPrime(doy); 0 <= mp < 12 && MonthStart(mp) <= doy < MonthStart(mp + 1)
  {
  }

  lemma MonthPrimeUnique(doy: int, mp: int)
    requires 0 <= doy && MonthStart(mp) <= doy < MonthStart(mp + 1)
    ensures MonthPrime(doy) == mp
  {
  }

  /** The calendar date of day `doy` of a March-based year, its month being known. */
  function InMonth(year: int, mp: int, doy: int): Date {
    Date(if mp < 10 then year else year + 1, if mp < 10 then mp + 3 else mp - 9, doy - MonthStart(mp) + 1)
  }

  lemma MonthLength(year: int, mp: int)
    requires 0 <= mp < 12
    ensures var d := InMonth(year, mp, MonthStart(mp));
            DaysIn(d.year, d.month) ==
              (if mp == 11 then YearLength(year) else MonthStart(mp + 1)) - MonthStart(mp)
  {
  }

  /** One day further within a March-based year is one naive day further. */
  lemma AssembleStep(era: int, yoe: int, doy: int)
    requires 0 <= yoe < 400 && 0 <= doy < YearLength(yoe)
    ensures ValidDate(Assemble(era, yoe, doy))
    ensures doy + 1 < YearLength(yoe) ==>
              NextDay(Assemble(era, yoe, doy)) == Assemble(era, yoe, doy + 1)
    ensures doy + 1 == YearLength(yoe) ==>
              NextDay(Assemble(era, yoe, doy)) == Assemble(era, yoe + 1, 0)
  {
    hide Leap, MonthPrime, MonthStart;
    var year, mp := yoe + era * 400, MonthPrime(doy);
    MonthPrimeSpan(doy);
    assert YearLength(year) == YearLength(yoe) by {
      LeapPeriod(yoe + 1, era);
      assert year + 1 == yoe + 1 + 400 * era;
    }
    MonthLength(year, mp);
    FirstMonthStart();
    FirstMonthPrime();
    LastMonthEnd();
    if doy + 1 < YearLength(yoe) {
      if doy + 1 < MonthStart(mp + 1) {
        MonthPrimeUnique(doy + 1, mp);
      } else {
        MonthPrimeSpan(doy + 1);
        MonthStartOrdered(mp + 1);
        MonthPrimeUnique(doy + 1, mp + 1);
      }
    } else if mp < 11 {
      MonthStartOrdered(mp + 1);
      MonthStartOrdered(11);
      MonthPrimeBeforeLast(doy, mp);
    }
  }

  lemma FirstMonthStart()
    ensures MonthStart(0) == 0
  {
  }

  lemma FirstMonthPrime()
    ensures MonthPrime(0) == 0
  {
  }

  lemma LastMonthEnd()
    ensures MonthStart(12) == 367
  {
  }

  lemma MonthStartOrdered(mp: int)
    ensures MonthStart(mp) + 28 <= MonthStart(mp + 1)
  {
  }

  lemma MonthPrimeBeforeLast(doy: int, mp: int)
    requires 0 <= mp < 11 && doy < MonthStart(mp + 1)
    ensures doy < 337
  {
  }

  lemma EraStep(era: int, doe: int)
    requires 0 <= doe < 146_097
    ensures ValidDate(CivilInEra(era, doe))
    ensures NextDay(CivilInEra(era, doe)) ==
              if doe + 1 < 146_097 then CivilInEra(era, doe + 1) else CivilInEra(era + 1, 0)
  {
    hide Assemble, YearStart, YearLength;
    var yoe := YearOfEra(doe);
    YearOfEraBounds(doe);
    AssembleStep(era, yoe, doe - YearStart(yoe));
    if doe + 1 < 146_097 {
      DayWithinEra(doe, yoe);
    } else {
      LastDayOfEra(era);
    }
  }

  lemma DayWithinEra(doe: int, yoe: int)
    requires 0 <= yoe < 400 && YearStart(yoe) <= doe < YearStart(yoe) + YearLength(yoe)
    requires 0 <= doe < 146_096
    ensures var doy := doe - YearStart(yoe);
            if doy + 1 < YearLength(yoe) then YearOfEra(doe + 1) == yoe
            else YearOfEra(doe + 1) == yoe + 1 && YearStart(yoe + 1) == doe + 1
  {
    if doe + 1 < YearStart(yoe) + YearLength(yoe) {
      YearOfEraUnique(doe + 1, yoe);
    } else {
      assert yoe < 399 by {
        assert YearStart(399) + YearLength(399) == 146_097;
      }
      YearStartStep(yoe);
      YearOfEraUnique(doe + 1, yoe + 1);
    }
  }

  lemma CivilStep(days: int)
    ensures ValidDate(Civil(days))
    ensures Civil(days + 1) == NextDay(Civil(days))
  {
    hide CivilInEra;
    var z := days + 719_468;
    var era, doe := z / 146_097, z % 146_097;
    assert z + 1 == 146_097 * era + doe + 1;
    EraStep(era, doe);
    if doe + 1 < 146_097 {
      assert (z + 1) / 146_097 == era && (z + 1) % 146_097 == doe + 1;
    } else {
      assert (z + 1) / 146_097 == era + 1 && (z + 1) % 146_097 == 0;
    }
  }

  lemma LastDayOfEra(era: int)
    ensures YearOfEra(146_096) == 399 && YearOfEra(0) == 0 && YearStart(0) == 0
    ensures 146_096 - YearStart(399) + 1 == YearLength(399)
    ensures Assemble(era, 400, 0) == Assemble(era + 1, 0, 0)
  {
    hide YearOfEra, YearStart, YearLength;
    LastYearStart();
    FirstYearStart();
    YearOfEraUnique(146_096, 399);
    YearOfEraUnique(0, 0);
    NewEra(era);
  }

  lemma NewEra(era: int)
    ensures Assemble(era, 400, 0) == Assemble(era + 1, 0, 0)
  {
    hide MonthPrime, MonthStart;
    FirstMonthPrime();
    FirstMonthStart();
  }

  lemma LastYearStart()
    ensures YearStart(399) == 145_731 && YearLength(399) == 366
  {
  }

  lemma FirstYearStart()
    ensures YearStart(0) == 0 && YearLength(0) == 365
  {
    assert 0 / 4 == 0 && 0 / 100 == 0;
    assert 1 % 4 == 1;
    assert !Leap(0 + 1);
  }

  lemma PrevOfNext(d: Date)
    requires ValidDate(d)
    ensures PrevDay(NextDay(d)) == d
  {
  }

  lemma CivilAtEpoch()
    ensures Civil(0) == EPOCH
  {
    assert 719_468 / 146_097 == 4 && 719_468 % 146_097 == 135_080;
    assert YearOfEra(135_080) == 369;
    assert YearStart(369) == 134_774;
    assert MonthPrime(306) == 10 && MonthStart(10) == 306;
  }

  /** The closed form is the naive calendar, on every day before and after 1970. */
  lemma {:induction false} CivilIsNaive(days: int)
    ensures Civil(days) == Naive(days)
    decreases if days >= 0 then days else -days
  {
    hide Civil, NextDay, PrevDay, ValidDate;
    if days == 0 {
      CivilAtEpoch();
    } else if days > 0 {
      CivilIsNaive(days - 1);
      CivilStep(days - 1);
    } else {
      CivilIsNaive(days + 1);
      CivilStep(days);
      PrevOfNext(Civil(days));
    }
  }
}
