/** `java.time.LocalDate` reduced to what the core uses. A date is its epoch
    day (days since 1970-01-01, `LocalDate.toEpochDay`); the current date is
    never read from a clock but passed in as `today`. */
module Dates {
  import opened Text

  type Date = int

  function PlusWeeks(d: Date, weeks: int): Date
  {
    d + 7 * weeks
  }

  function MinusDays(d: Date, days: int): Date
  {
    d - days
  }

  predicate IsAfter(d: Date, other: Date)
  {
    d > other
  }

  predicate IsBefore(d: Date, other: Date)
  {
    d < other
  }

  /** `ChronoUnit.DAYS.between(from, to)`. */
  function DaysBetween(from: Date, to: Date): int
  {
    to - from
  }

  datatype Civil = Civil(year: int, month: int, day: int)

  /** Proleptic Gregorian year, month and day of an epoch day
      (the days-from-civil inverse used by `LocalDate.ofEpochDay`). */
  function CivilFromEpochDay(d: Date): Civil
  {
    var z := d + 719468;              // days since 0000-03-01
    var era := z / 146097;            // floor division: 400-year cycles
    var doe := z - era * 146097;      // day of the cycle, 0..146096
    var yoe := (doe - doe / 1460 + doe / 36524 - doe / 146096) / 365;
    var doy := doe - (365 * yoe + yoe / 4 - yoe / 100);
    var mp := (5 * doy + 2) / 153;    // month counted from March
    var day := doy - (153 * mp + 2) / 5 + 1;
    var month := if mp < 10 then mp + 3 else mp - 9;
    var year := yoe + era * 400 + (if month <= 2 then 1 else 0);
    Civil(year, month, day)
  }

  /** Four digits, zero padded, for `0 <= n < 1000`. */
  function Pad4(n: nat): string
    requires n < 1000
  {
    var s := NatToString(n + 10000);
    if |s| > 1 then s[1..] else s
  }

  /** `LocalDate.toString`: ISO-8601 `uuuu-MM-dd`; years below 1000 in
      magnitude are zero padded to four digits, years above 9999 get a '+'. */
  function IsoDate(d: Date): (s: string)
    ensures |s| > 0 && IsDigit(s[|s| - 1])
  {
    var c := CivilFromEpochDay(d);
    var year :=
      if -1000 < c.year < 1000 then
        (if c.year < 0 then "-" + Pad4(-c.year) else Pad4(c.year))
      else
        (if c.year > 9999 then "+" else "") + IntToString(c.year);
    year + (if c.month < 10 then "-0" else "-") + IntToString(c.month)
         + (if c.day < 10 then "-0" else "-") + IntToString(c.day)
  }
}
