/** The calendar part of get_tomorrow_xam_unix_time: the local date one
    calendar day after today, and the local date-time (that date, hour
    `xam`, minute 0, second 0) whose Unix timestamp is sent to the weather
    provider. Dates follow the proleptic Gregorian calendar of Python's
    datetime module, years 1 to 9999. */
module CivilDate {
  import opened PyValue

  const MinYear := 1
  const MaxYear := 9999

  datatype Date = Date(year: int, month: int, day: int)

  /** A naive local date-time, as `datetime(y, m, d, h, mi, s)` builds it. */
  datatype DateTime = DateTime(date: Date, hour: int, minute: int, second: int)

  predicate IsLeapYear(y: int)
  {
    y % 4 == 0 && (y % 100 != 0 || y % 400 == 0)
  }

  function DaysInMonth(y: int, m: int): int
    requires 1 <= m <= 12
  {
    if m == 2 then (if IsLeapYear(y) then 29 else 28)
    else if m == 4 || m == 6 || m == 9 || m == 11 then 30
    else 31
  }

  predicate ValidDate(d: Date)
  {
    MinYear <= d.year <= MaxYear &&
    1 <= d.month <= 12 &&
    1 <= d.day <= DaysInMonth(d.year, d.month)
  }

  /** Strict calendar order of dates. */
  predicate Before(d: Date, e: Date)
  {
    d.year < e.year ||
    (d.year == e.year && d.month < e.month) ||
    (d.year == e.year && d.month == e.month && d.day < e.day)
  }

  /** The date after `today`, or None when that is past year 9999 (where
      Python's `now + timedelta(days=1)` raises OverflowError). */
  function Tomorrow(today: Date): (r: Option<Date>)
    requires ValidDate(today)
    ensures r.None? <==> today == Date(MaxYear, 12, 31)
    ensures r.Some? ==> ValidDate(r.value) && Before(today, r.value)
  {
    if today.day < DaysInMonth(today.year, today.month) then
      Some(Date(today.year, today.month, today.day + 1))
    else if today.month < 12 then
      Some(Date(today.year, today.month + 1, 1))
    else if today.year < MaxYear then
      Some(Date(today.year + 1, 1, 1))
    else
      None
  }

  /** `datetime(tomorrow.year, tomorrow.month, tomorrow.day, xam, 0, 0)`:
      OverflowError when there is no tomorrow, ValueError when `xam` is not
      an hour of the day. */
  function TomorrowAt(today: Date, xam: int): (r: Result<DateTime, PyException>)
    requires ValidDate(today)
    ensures r.Ok? <==> today != Date(MaxYear, 12, 31) && 0 <= xam <= 23
    ensures r.Err? ==> r.error == (if today == Date(MaxYear, 12, 31) then OverflowError else ValueError)
    ensures r.Ok? ==> ValidDate(r.value.date) && Before(today, r.value.date)
    ensures r.Ok? ==> r.value.date == Tomorrow(today).value
    ensures r.Ok? ==> r.value.hour == xam && r.value.minute == 0 && r.value.second == 0
  {
    match Tomorrow(today)
    case None => Err(OverflowError)
    case Some(t) => if 0 <= xam <= 23 then Ok(DateTime(t, xam, 0, 0)) else Err(ValueError)
  }

  // ---------------------------------------------------------------------
  // Reference definition: day numbers counted from 0001-01-01 (day 1),
  // the numbering of Python's date.toordinal

  function YearLength(y: int): int
  {
    if IsLeapYear(y) then 366 else 365
  }

  function DaysBeforeYear(y: int): nat
    requires y >= MinYear
    decreases y
  {
    if y == MinYear then 0 else DaysBeforeYear(y - 1) + YearLength(y - 1)
  }

  function DaysBeforeMonth(y: int, m: int): nat
    requires 1 <= m <= 13
    decreases m
  {
    if m == 1 then 0 else DaysBeforeMonth(y, m - 1) + DaysInMonth(y, m - 1)
  }

  function Ordinal(d: Date): int
    requires ValidDate(d)
  {
    DaysBeforeYear(d.year) + DaysBeforeMonth(d.year, d.month) + d.day
  }

  /** The twelve months make up the year. */
  lemma MonthsFillYear(y: int)
    ensures DaysBeforeMonth(y, 13) == YearLength(y)
  {
    assert DaysBeforeMonth(y, 3) == 31 + DaysInMonth(y, 2);
    assert DaysBeforeMonth(y, 7) == DaysBeforeMonth(y, 3) + 122;
    assert DaysBeforeMonth(y, 11) == DaysBeforeMonth(y, 7) + 123;
  }

  lemma {:induction false} DaysBeforeMonthMonotone(y: int, a: int, b: int)
    requires 1 <= a <= b <= 13
    ensures DaysBeforeMonth(y, a) <= DaysBeforeMonth(y, b)
    decreases b - a
  {
    if a < b {
      DaysBeforeMonthMonotone(y, a, b - 1);
    }
  }

  lemma {:induction false} DaysBeforeYearMonotone(a: int, b: int)
    requires MinYear <= a <= b
    ensures DaysBeforeYear(a) <= DaysBeforeYear(b)
    decreases b - a
  {
    if a < b {
      DaysBeforeYearMonotone(a, b - 1);
    }
  }

  /** A date's day number lies within its year's block of day numbers. */
  lemma OrdinalWithinYear(d: Date)
    requires ValidDate(d)
    ensures DaysBeforeYear(d.year) < Ordinal(d) <= DaysBeforeYear(d.year) + YearLength(d.year)
  {
    DaysBeforeMonthMonotone(d.year, d.month + 1, 13);
    MonthsFillYear(d.year);
  }

  /** Day numbers follow calendar order, so each valid date has its own. */
  lemma OrdinalIncreasing(d: Date, e: Date)
    requires ValidDate(d) && ValidDate(e) && Before(d, e)
    ensures Ordinal(d) < Ordinal(e)
  {
    if d.year < e.year {
      OrdinalWithinYear(d);
      OrdinalWithinYear(e);
      DaysBeforeYearMonotone(d.year + 1, e.year);
    } else if d.month < e.month {
      DaysBeforeMonthMonotone(d.year, d.month + 1, e.month);
    }
  }

  lemma OrdinalInjective(d: Date, e: Date)
    requires ValidDate(d) && ValidDate(e) && Ordinal(d) == Ordinal(e)
    ensures d == e
  {
    if Before(d, e) {
      OrdinalIncreasing(d, e);
    } else if Before(e, d) {
      OrdinalIncreasing(e, d);
    }
  }

  /** Tomorrow is exactly one day number after today, month and year
      boundaries and leap days included. */
  lemma TomorrowIsNextOrdinal(today: Date)
    requires ValidDate(today) && Tomorrow(today).Some?
    ensures Ordinal(Tomorrow(today).value) == Ordinal(today) + 1
  {
    var t := Tomorrow(today).value;
    if today.day == DaysInMonth(today.year, today.month) && today.month == 12 {
      MonthsFillYear(today.year);
      assert DaysBeforeYear(t.year) == DaysBeforeYear(today.year) + YearLength(today.year);
    }
  }

  /** Tomorrow is the calendar day immediately after today: no valid date
      lies strictly between them. */
  lemma TomorrowIsNextDay(today: Date, e: Date)
    requires ValidDate(today) && Tomorrow(today).Some?
    requires ValidDate(e) && Before(today, e)
    ensures e == Tomorrow(today).value || Before(Tomorrow(today).value, e)
  {
    var t := Tomorrow(today).value;
    TomorrowIsNextOrdinal(today);
    OrdinalIncreasing(today, e);
    if e != t && !Before(t, e) {
      assert Before(e, t);
      OrdinalIncreasing(e, t);
      assert false;
    }
  }

  /** The last day of a year rolls over to January 1 of the next year. */
  lemma YearRollover(y: int)
    requires MinYear <= y < MaxYear
    ensures Tomorrow(Date(y, 12, 31)) == Some(Date(y + 1, 1, 1))
  {
  }

  /** February 28 is followed by February 29 exactly in leap years. */
  lemma LeapDay(y: int)
    requires MinYear <= y <= MaxYear
    ensures Tomorrow(Date(y, 2, 28)) == (if IsLeapYear(y) then Some(Date(y, 2, 29)) else Some(Date(y, 3, 1)))
  {
  }
}
