/** `rfc3339` of `auth/routes.rs`: Unix seconds as an RFC 3339 UTC timestamp. */
module Rfc3339 {
  import opened Text
  import opened Calendar

  datatype Stamp = Stamp(date: Date, hour: int, minute: int, second: int)

  /** Rust's `/` on `i64`: truncation towards zero. */
  function Quot(a: i64, b: i64): (q: i64)
    requires b > 0
    ensures a >= 0 ==> q as int == a as int / b as int
  {
    if a >= 0 then a / b else -((-(a as int)) / b as int) as i64
  }

  const MAX_DAYS: int := 106_751_991_167_301

  /** The civil-from-days steps in machine arithmetic. That this function is
      well-formed says that no intermediate value leaves `i64`. */
  function CivilFromDays(days: i64): (r: (i64, i64, i64))
    requires -MAX_DAYS <= days as int <= MAX_DAYS
    ensures Date(r.0 as int, r.1 as int, r.2 as int) == Civil(days as int)
  {
    var z := days + 719_468;
    var era := z / 146_097;
    var doe := z % 146_097;
    var yoe := YearInEra(doe);
    var doy := doe - (365 * yoe + Quot(yoe, 4) - Quot(yoe, 100));
    YearOfEraBounds(doe as int);
    assert 0 <= doy < 366;
    var mp := Quot(5 * doy + 2, 153);
    assert 0 <= mp < 12;
    var day := doy - Quot(153 * mp + 2, 5) + 1;
    var month := if mp < 10 then mp + 3 else mp - 9;
    var year := yoe + era * 400 + (if month <= 2 then 1 else 0);
    (year, month, day)
  }

  function YearInEra(doe: i64): (yoe: i64)
    requires 0 <= doe < 146_097
    ensures yoe as int == YearOfEra(doe as int)
    ensures 0 <= yoe < 400
  {
    YearOfEraBounds(doe as int);
    Quot(doe - Quot(doe, 1460) + Quot(doe, 36_524) - Quot(doe, 146_096), 365)
  }

  /** The fields `rfc3339` prints. */
  function Fields(unix: i64): (s: Stamp) {
    var days, secs := unix / 86_400, unix % 86_400;
    var (year, month, day) := CivilFromDays(days);
    Stamp(Date(year as int, month as int, day as int),
          Quot(secs, 3600) as int, Quot(secs % 3600, 60) as int, (secs % 60) as int)
  }

  function Print(s: Stamp): string {
    Padded(s.date.year, 4) + ("-" + (Padded(s.date.month, 2) + ("-" + (Padded(s.date.day, 2)
    + ("T" + (Padded(s.hour, 2) + (":" + (Padded(s.minute, 2) + (":" + (Padded(s.second, 2) + "Z"))))))))))
  }

  function Format(unix: i64): (s: string) {
    Print(Fields(unix))
  }

  lemma ClockFields(secs: i64)
    requires 0 <= secs < 86_400
    ensures var (h, m, s) := (Quot(secs, 3600) as int, Quot(secs % 3600, 60) as int, (secs % 60) as int);
            && 0 <= h < 24 && 0 <= m < 60 && 0 <= s < 60
            && secs as int == 3600 * h + 60 * m + s
  {
    var r := secs as int % 3600;
    assert (secs as int) % 60 == r % 60 by {
      assert secs as int == 60 * (60 * (secs as int / 3600) + r / 60) + r % 60;
    }
  }

  /** For every `i64`, the printed date is the one reached by walking whole days from
      1970-01-01, and the printed time is the number of seconds left over. */
  lemma FieldsAreNaive(unix: i64)
    ensures var s := Fields(unix);
            && s.date == Naive(unix as int / 86_400) && ValidDate(s.date)
            && 0 <= s.hour < 24 && 0 <= s.minute < 60 && 0 <= s.second < 60
            && 86_400 * (unix as int / 86_400) + 3600 * s.hour + 60 * s.minute + s.second == unix as int
  {
    hide Civil, ValidDate, Naive, Quot;
    CivilIsNaive(unix as int / 86_400);
    ClockFields(unix % 86_400);
  }
}
