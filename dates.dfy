/** Calendar dates as day numbers: day 0 is 1970-01-01 and consecutive days differ
    by one, so `date + timedelta(days=k)` is `d + k`. Conversions to and from the
    proleptic Gregorian calendar (Python's `datetime.date`) follow the usual
    era-of-400-years construction. */
module Dates {
  import opened Text

  type Day = int

  datatype Civil = Civil(year: int, month: int, day: int)

  /** Days from 0000-03-01 to 1970-01-01. */
  const EpochShift: int := 719468

  /** The calendar date of day number z. */
  function CivilFromDays(z: Day): (c: Civil)
    ensures 1 <= c.month <= 12 && 1 <= c.day <= 31
  {
    var zz := z + EpochShift;
    var era := zz / 146097;
    var doe := zz - era * 146097;
    var yoe := (doe - doe / 1460 + doe / 36524 - doe / 146096) / 365;
    var doy := doe - (365 * yoe + yoe / 4 - yoe / 100);
    var mp := (5 * doy + 2) / 153;
    var d := doy - (153 * mp + 2) / 5 + 1;
    var m := if mp < 10 then mp + 3 else mp - 9;
    var y := yoe + era * 400;
    Civil(if m <= 2 then y + 1 else y, m, d)
  }

  /** The day number of a calendar date. */
  function DaysFromCivil(c: Civil): Day
  {
    var y := if c.month <= 2 then c.year - 1 else c.year;
    var era := y / 400;
    var yoe := y - era * 400;
    var mp := if c.month > 2 then c.month - 3 else c.month + 9;
    var doy := (153 * mp + 2) / 5 + c.day - 1;
    var doe := yoe * 365 + yoe / 4 - yoe / 100 + doy;
    era * 146097 + doe - EpochShift
  }

  function Year(z: Day): int { CivilFromDays(z).year }

  function Month(z: Day): (m: int)
    ensures 1 <= m <= 12
  {
    CivilFromDays(z).month
  }

  /** `date.weekday()`: Monday is 0 and Sunday is 6; 1970-01-01 was a Thursday. */
  function Weekday(z: Day): (w: int)
    ensures 0 <= w < 7
  {
    (z + 3) % 7
  }

  /** The last day of its month (pandas' month-end frequency "M"). */
  predicate IsMonthEnd(z: Day)
  {
    CivilFromDays(z + 1).day == 1
  }

  /** A Sunday (pandas' weekly frequency "W" anchors on Sundays). */
  predicate IsSunday(z: Day)
  {
    Weekday(z) == 6
  }

  /** The last `width` decimal digits of n, zero-padded. */
  function FixedDigits(n: nat, width: nat): (s: string)
    ensures |s| == width
  {
    if width == 0 then "" else FixedDigits(n / 10, width - 1) + [DigitChar(n % 10)]
  }

  /** `date.isoformat()` / `strftime("%Y-%m-%d")`: "YYYY-MM-DD" (the four-digit year
      covers every date a pandas timestamp can hold). */
  function IsoDate(z: Day): (s: string)
    ensures |s| == 10
  {
    var c := CivilFromDays(z);
    var year: nat := if c.year < 0 then 0 else c.year;
    FixedDigits(year, 4) + "-" + FixedDigits(c.month, 2) + "-" + FixedDigits(c.day, 2)
  }

  /** The English month names of `calendar.month_name`. */
  const MonthNames: seq<string> :=
    ["January", "February", "March", "April", "May", "June", "July", "August",
     "September", "October", "November", "December"]

  function MonthName(m: int): string
    requires 1 <= m <= 12
  {
    MonthNames[m - 1]
  }
}
