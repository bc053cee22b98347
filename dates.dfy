/** Gregorian calendar arithmetic as the calendar screens use JavaScript's
    `Date`: month indexes 0..11 (`getMonth`), weekdays 0 = Sunday .. 6 =
    Saturday (`getDay`), month overflow in `new Date(year, month)` and day 0 of
    a month in `new Date(year, month, 0)`. Dates are local calendar values;
    time zones are not part of this model. */
module Dates {

  /** A month as `getMonth` numbers it: 0 is January, 11 is December. */
  type MonthIndex = m: int | 0 <= m < 12

  datatype CivilDate = CivilDate(year: int, month: MonthIndex, day: int)

  /** A local date and time of day, as parsed from `"2025-01-27T10:00:00"`. */
  datatype DateTime = DateTime(date: CivilDate, hour: int, minute: int, second: int)

  datatype YearMonth = YearMonth(year: int, month: MonthIndex)

  /** The proleptic Gregorian rule that `Date` follows. */
  predicate IsLeapYear(y: int)
  {
    y % 4 == 0 && (y % 100 != 0 || y % 400 == 0)
  }

  /** The length of a month by the Gregorian table. */
  function DaysInMonth(y: int, m: MonthIndex): (n: int)
    ensures 28 <= n <= 31
  {
    if m == 1 then (if IsLeapYear(y) then 29 else 28)
    else if m == 3 || m == 5 || m == 8 || m == 10 then 30
    else 31
  }

  predicate IsValidDate(d: CivilDate)
  {
    1 <= d.day <= DaysInMonth(d.year, d.month)
  }

  /** Days from the start of the 400-year era holding March 1 of year `yy`,
      to that day, offset so that eras line up (146097 days each). */
  function MarchBase(yy: int): int
  {
    var era := yy / 400;
    var yoe := yy % 400;
    era * 146097 + yoe * 365 + yoe / 4 - yoe / 100
  }

  /** The day number of a date, counted from 1970-01-01 = 0, for any `day`
      (day 0 is the last day of the month before, as `Date` normalises it).
      Years are counted from March so that February's length only matters at
      the end of a counting year. */
  function DaysFromCivil(y: int, m: MonthIndex, d: int): int
  {
    var yy := if m <= 1 then y - 1 else y;
    var mp := if m >= 2 then m - 2 else m + 10;
    MarchBase(yy) + (153 * mp + 2) / 5 + d - 1 - 719468
  }

  /** `getDay`: 0 is Sunday; 1970-01-01 was a Thursday. */
  function Weekday(d: CivilDate): (w: int)
    ensures 0 <= w < 7
  {
    (DaysFromCivil(d.year, d.month, d.day) + 4) % 7
  }

  /** Day numbers start at 1970-01-01, a Thursday, as `Date` counts them. */
  lemma EpochIsThursday()
    ensures DaysFromCivil(1970, 0, 1) == 0
    ensures Weekday(CivilDate(1970, 0, 1)) == 4
  {
  }

  /** 2000-01-01, a leap century's first day, was a Saturday, and
      2025-01-27 was a Monday. */
  lemma KnownWeekdays()
    ensures Weekday(CivilDate(2000, 0, 1)) == 6
    ensures Weekday(CivilDate(2025, 0, 27)) == 1
  {
  }

  /** Seven days on, the weekday is the same; one day on, it is the next. */
  lemma WeekdayAdvances(y: int, m: MonthIndex, d: int)
    ensures Weekday(CivilDate(y, m, d + 7)) == Weekday(CivilDate(y, m, d))
    ensures Weekday(CivilDate(y, m, d + 1)) == (Weekday(CivilDate(y, m, d)) + 1) % 7
  {
  }

  /** `new Date(year, month)` with a month index out of 0..11: the surplus
      months carry into the year, in either direction. */
  function NormalizeMonth(year: int, month: int): (r: YearMonth)
    ensures r.year * 12 + r.month == year * 12 + month
  {
    YearMonth(year + month / 12, month % 12)
  }

  /** The calendar's "Previous" button. */
  function PreviousMonth(ym: YearMonth): (r: YearMonth)
    ensures ym.month > 0 ==> r == YearMonth(ym.year, ym.month - 1)
    ensures ym.month == 0 ==> r == YearMonth(ym.year - 1, 11)
  {
    NormalizeMonth(ym.year, ym.month - 1)
  }

  /** The calendar's "Next" button. */
  function NextMonth(ym: YearMonth): (r: YearMonth)
    ensures ym.month < 11 ==> r == YearMonth(ym.year, ym.month + 1)
    ensures ym.month == 11 ==> r == YearMonth(ym.year + 1, 0)
  {
    NormalizeMonth(ym.year, ym.month + 1)
  }

  /** "Previous" and "Next" undo each other. */
  lemma PreviousNextInverse(ym: YearMonth)
    ensures NextMonth(PreviousMonth(ym)) == ym
    ensures PreviousMonth(NextMonth(ym)) == ym
  {
  }

  /** Euclidean division by 400 is determined by quotient and remainder. */
  lemma DivMod400(a: int, q: int, r: int)
    requires a == 400 * q + r && 0 <= r < 400
    ensures a / 400 == q && a % 400 == r
  {
  }

  /** Within an era, stepping the year of the era by one adds a leap day
      exactly when the new year of the era is divisible by 4 but not by 100. */
  lemma EraYearStep(r: int)
    requires 1 <= r < 400
    ensures r / 4 - (r - 1) / 4 == (if r % 4 == 0 then 1 else 0)
    ensures r / 100 - (r - 1) / 100 == (if r % 100 == 0 then 1 else 0)
  {
  }

  /** The leap-year rule only depends on the year within its era. */
  lemma LeapYearOfEra(y: int, q: int, r: int)
    requires y == 400 * q + r && 0 <= r < 400
    ensures IsLeapYear(y) <==> r % 4 == 0 && (r % 100 != 0 || r == 0)
  {
    assert y % 4 == r % 4 by {
      assert y == 4 * (100 * q) + r;
    }
    assert y % 100 == r % 100 by {
      assert y == 100 * (4 * q) + r;
    }
    DivMod400(y, q, r);
  }

  /** A counting year that ends in February of year `y` has 366 days exactly
      when `y` is a leap year. */
  lemma {:induction false} CountingYearLength(y: int)
    ensures MarchBase(y) - MarchBase(y - 1) == if IsLeapYear(y) then 366 else 365
  {
    var q := y / 400;
    var r := y % 400;
    DivMod400(y, q, r);
    LeapYearOfEra(y, q, r);
    if r == 0 {
      DivMod400(y - 1, q - 1, 399);
    } else {
      DivMod400(y - 1, q, r - 1);
      EraYearStep(r);
    }
  }

  /** `new Date(year, month + 1, 0)` is the last day of `month`: day 0 of the
      following month is the day numbered `DaysInMonth(year, month)`, so
      `getDate()` of it is the length of the month. */
  lemma {:induction false} DayZeroIsLastDay(y: int, m: MonthIndex)
    ensures var next := NormalizeMonth(y, m + 1);
            DaysFromCivil(next.year, next.month, 0) == DaysFromCivil(y, m, DaysInMonth(y, m))
  {
    if m == 1 {
      CountingYearLength(y);
    }
  }

  /** The days of a month are numbered consecutively. */
  lemma DaysAreConsecutive(y: int, m: MonthIndex, d: int)
    ensures DaysFromCivil(y, m, d + 1) == DaysFromCivil(y, m, d) + 1
  {
  }

  /** Seconds from 1970-01-01 00:00:00 to `t`. */
  function Instant(t: DateTime): int
  {
    DaysFromCivil(t.date.year, t.date.month, t.date.day) * 86400 + t.hour * 3600 + t.minute * 60 + t.second
  }

  /** `a < b` on date-times: `a` is the earlier instant. */
  predicate Before(a: DateTime, b: DateTime)
  {
    Instant(a) < Instant(b)
  }

  /** The same calendar day, whatever the time (`toDateString` equality). */
  predicate SameDay(t: DateTime, d: CivilDate)
  {
    t.date == d
  }
}
