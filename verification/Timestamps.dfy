/** What section 5.1 of RFC 3339 promises for timestamps with a four-digit year:
    they read back to the same instant and sort as strings in time order. */
module Timestamps {
  import opened Wrappers
  import opened Text
  import opened Calendar
  import opened DayNumbers
  import opened Rfc3339

  const MIN_UNIX: int := -62_167_219_200
  const MAX_UNIX: int := 253_402_300_799

  predicate FourDigitYear(unix: i64) { MIN_UNIX <= unix as int <= MAX_UNIX }

  predicate ValidStamp(s: Stamp) {
    ValidDate(s.date) && 0 <= s.hour < 24 && 0 <= s.minute < 60 && 0 <= s.second < 60
  }

  function Seconds(s: Stamp): int
    requires ValidStamp(s)
  {
    86_400 * DayNumber(s.date) + 3600 * s.hour + 60 * s.minute + s.second
  }

  predicate AllDigits(s: string) { forall i :: 0 <= i < |s| ==> IsDigit(s[i]) }

  /** A reader for `YYYY-MM-DDThh:mm:ssZ` that checks the whole format and counts
      days by summing year and month lengths. */
  function Parse(s: string): (r: Option<int>) {
    if |s| != 20 || s[4] != '-' || s[7] != '-' || s[10] != 'T' || s[13] != ':' || s[16] != ':' || s[19] != 'Z'
    then None
    else if !AllDigits(s[0..4]) || !AllDigits(s[5..7]) || !AllDigits(s[8..10])
            || !AllDigits(s[11..13]) || !AllDigits(s[14..16]) || !AllDigits(s[17..19])
    then None
    else
      var t := Stamp(Date(Value(s[0..4]), Value(s[5..7]), Value(s[8..10])),
                     Value(s[11..13]), Value(s[14..16]), Value(s[17..19]));
      if ValidStamp(t) then Some(Seconds(t)) else None
  }

  lemma SecondsOfFields(unix: i64)
    ensures ValidStamp(Fields(unix)) && Seconds(Fields(unix)) == unix as int
  {
    hide Fields, ValidDate, DayNumber, Naive;
    FieldsAreNaive(unix);
    DayNumberOfNaive(unix as int / 86_400);
  }

  lemma YearRange(unix: i64)
    ensures FourDigitYear(unix) <==> 0 <= Fields(unix).date.year <= 9999
  {
    hide Fields, ValidDate, DayNumber, Naive;
    FieldsAreNaive(unix);
    DayNumberOfNaive(unix as int / 86_400);
    FourDigitYears(Fields(unix).date);
  }

  function FixedPrint(s: Stamp): string
    requires ValidStamp(s) && 0 <= s.date.year <= 9999
  {
    Fixed(s.date.year, 4) + ("-" + (Fixed(s.date.month, 2) + ("-" + (Fixed(s.date.day, 2)
    + ("T" + (Fixed(s.hour, 2) + (":" + (Fixed(s.minute, 2) + (":" + (Fixed(s.second, 2) + "Z"))))))))))
  }

  lemma Powers()
    ensures Pow10(2) == 100 && Pow10(4) == 10_000
  {
    assert Pow10(3) == 10 * Pow10(2);
  }

  lemma PrintIsFixed(s: Stamp)
    requires ValidStamp(s) && 0 <= s.date.year <= 9999
    ensures Print(s) == FixedPrint(s)
  {
    hide Padded, Fixed, Pow10;
    Powers();
    PaddedIsFixed(s.date.year, 4);
    PaddedIsFixed(s.date.month, 2);
    PaddedIsFixed(s.date.day, 2);
    PaddedIsFixed(s.hour, 2);
    PaddedIsFixed(s.minute, 2);
    PaddedIsFixed(s.second, 2);
  }

  lemma ParseFixedPrint(s: Stamp)
    requires ValidStamp(s) && 0 <= s.date.year <= 9999
    ensures Parse(FixedPrint(s)) == Some(Seconds(s))
  {
    hide Fixed, Value, Seconds, Pow10;
    Powers();
    var t := FixedPrint(s);
    assert t[0..4] == Fixed(s.date.year, 4);
    assert t[5..7] == Fixed(s.date.month, 2);
    assert t[8..10] == Fixed(s.date.day, 2);
    assert t[11..13] == Fixed(s.hour, 2);
    assert t[14..16] == Fixed(s.minute, 2);
    assert t[17..19] == Fixed(s.second, 2);
    ValueOfFixed(s.date.year, 4);
    ValueOfFixed(s.date.month, 2);
    ValueOfFixed(s.date.day, 2);
    ValueOfFixed(s.hour, 2);
    ValueOfFixed(s.minute, 2);
    ValueOfFixed(s.second, 2);
  }

  /** A year of five digits makes the text too long; a negative one starts with a sign. */
  lemma ParseRejectsOtherYears(s: Stamp)
    requires s.date.year < 0 || s.date.year > 9999
    ensures Parse(Print(s)).None?
  {
    hide Decimal, Pow10;
    var y := Padded(s.date.year, 4);
    var rest := Print(s)[|y|..];
    assert Print(s) == y + rest;
    if s.date.year < 0 {
      assert y[0] == '-' && Print(s)[0] == '-';
      assert |Print(s)| >= 4 ==> Print(s)[0..4][0] == '-';
    } else {
      Powers();
      DecimalLength(s.date.year, 4);
      assert |y| >= 5;
      PaddedLength(s.date.month);
      PaddedLength(s.date.day);
      PaddedLength(s.hour);
      PaddedLength(s.minute);
      PaddedLength(s.second);
    }
  }

  lemma PaddedLength(n: int)
    ensures |Padded(n, 2)| >= 2
  {
    hide Decimal;
  }

  /** A printed timestamp reads back to the same second exactly when its year has
      four digits. */
  lemma RoundTrip(unix: i64)
    ensures Parse(Format(unix)) == Some(unix as int) <==> FourDigitYear(unix)
  {
    hide Parse, Print, Seconds, Fields;
    SecondsOfFields(unix);
    YearRange(unix);
    var s := Fields(unix);
    if FourDigitYear(unix) {
      PrintIsFixed(s);
      ParseFixedPrint(s);
    } else {
      ParseRejectsOtherYears(s);
    }
  }

  predicate StampLess(s: Stamp, t: Stamp) {
    DateLess(s.date, t.date)
    || (s.date == t.date
        && (s.hour < t.hour
            || (s.hour == t.hour && (s.minute < t.minute || (s.minute == t.minute && s.second < t.second)))))
  }

  lemma StampOrder(s: Stamp, t: Stamp)
    requires ValidStamp(s) && ValidStamp(t)
    ensures StampLess(s, t) <==> Seconds(s) < Seconds(t)
  {
    hide DateLess, DayNumber, ValidDate;
    DateOrder(s.date, t.date);
  }

  /** A fixed-width field followed by a separator sorts numerically. */
  lemma FieldOrder(m: nat, n: nat, w: nat, sep: string, x: string, y: string)
    requires m < Pow10(w) && n < Pow10(w) && |sep| == 1
    ensures Less(Fixed(m, w) + (sep + x), Fixed(n, w) + (sep + y)) <==> m < n || (m == n && Less(x, y))
  {
    hide Fixed, Pow10;
    FixedOrder(m, n, w);
    LessConcat(Fixed(m, w), sep + x, Fixed(n, w), sep + y);
    LessConcat(sep, x, sep, y);
    LessTotal(sep, sep);
  }

  lemma FixedPrintOrder(s: Stamp, t: Stamp)
    requires ValidStamp(s) && 0 <= s.date.year <= 9999
    requires ValidStamp(t) && 0 <= t.date.year <= 9999
    ensures Less(FixedPrint(s), FixedPrint(t)) <==> StampLess(s, t)
  {
    hide Less, Fixed, Pow10;
    Powers();
    var (s1, t1) := (Fixed(s.second, 2) + "Z", Fixed(t.second, 2) + "Z");
    assert s1 == Fixed(s.second, 2) + ("Z" + "") && t1 == Fixed(t.second, 2) + ("Z" + "");
    FieldOrder(s.second, t.second, 2, "Z", "", "");
    LessTotal("", "");
    var (s2, t2) := (Fixed(s.minute, 2) + (":" + s1), Fixed(t.minute, 2) + (":" + t1));
    FieldOrder(s.minute, t.minute, 2, ":", s1, t1);
    var (s3, t3) := (Fixed(s.hour, 2) + (":" + s2), Fixed(t.hour, 2) + (":" + t2));
    FieldOrder(s.hour, t.hour, 2, ":", s2, t2);
    var (s4, t4) := (Fixed(s.date.day, 2) + ("T" + s3), Fixed(t.date.day, 2) + ("T" + t3));
    FieldOrder(s.date.day, t.date.day, 2, "T", s3, t3);
    var (s5, t5) := (Fixed(s.date.month, 2) + ("-" + s4), Fixed(t.date.month, 2) + ("-" + t4));
    FieldOrder(s.date.month, t.date.month, 2, "-", s4, t4);
    FieldOrder(s.date.year, t.date.year, 4, "-", s5, t5);
  }

  /** Timestamps with four-digit years sort as strings exactly as the times do. */
  lemma StringOrderIsTimeOrder(u: i64, v: i64)
    requires FourDigitYear(u) && FourDigitYear(v)
    ensures Less(Format(u), Format(v)) <==> u < v
  {
    hide Less, Print, FixedPrint, Seconds, StampLess, Fields;
    SecondsOfFields(u);
    SecondsOfFields(v);
    YearRange(u);
    YearRange(v);
    PrintIsFixed(Fields(u));
    PrintIsFixed(Fields(v));
    FixedPrintOrder(Fields(u), Fields(v));
    StampOrder(Fields(u), Fields(v));
  }
}
