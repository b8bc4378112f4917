/**
 * Proleptic Gregorian calendar dates as the dashboard uses them: day numbers
 * counted like Python's date.toordinal (1 January of year 1 is day 1, a Monday),
 * the weekday, stepping back by whole days, and the reporting windows of
 * get_date_range.
 */
module Calendar {

  datatype Date = Date(year: int, month: int, day: int)

  const MinYear := 1
  const MaxYear := 9999

  predicate IsLeapYear(y: int) {
    y % 4 == 0 && (y % 100 != 0 || y % 400 == 0)
  }

  function DaysInYear(y: int): int {
    if IsLeapYear(y) then 366 else 365
  }

  function DaysInMonth(y: int, m: int): int
    requires 1 <= m <= 12
  {
    if m == 2 then (if IsLeapYear(y) then 29 else 28)
    else if m == 4 || m == 6 || m == 9 || m == 11 then 30
    else 31
  }

  /** A date Python's datetime.date accepts. */
  predicate Valid(d: Date) {
    MinYear <= d.year <= MaxYear && 1 <= d.month <= 12 && 1 <= d.day <= DaysInMonth(d.year, d.month)
  }

  /** Number of days in the years before year y. */
  function DaysBeforeYear(y: int): (n: int)
    requires y >= 1
    ensures n >= 365 * (y - 1)
  {
    if y == 1 then 0 else DaysBeforeYear(y - 1) + DaysInYear(y - 1)
  }

  /** Number of days in year y before the first day of month m. */
  function DaysBeforeMonth(y: int, m: int): int
    requires 1 <= m <= 12
  {
    [0, 31, 59, 90, 120, 151, 181, 212, 243, 273, 304, 334][m - 1]
      + (if m > 2 && IsLeapYear(y) then 1 else 0)
  }

  /** The day number of a date; 1 January of year 1 is day 1. */
  function Ordinal(d: Date): (n: int)
    requires Valid(d)
    ensures n >= 1
  {
    DaysBeforeYear(d.year) + DaysBeforeMonth(d.year, d.month) + d.day
  }

  /** Day of the week, Monday = 0 through Sunday = 6 (Python's date.weekday). */
  function Weekday(d: Date): (w: int)
    requires Valid(d)
    ensures 0 <= w <= 6
    ensures w < Ordinal(d)
  {
    var n := Ordinal(d);
    WeekdayBelowOrdinal(n);
    (n + 6) % 7
  }

  /** The day before d; 1 January of year 1 has none. */
  function PrevDay(d: Date): (p: Date)
    requires Valid(d) && Ordinal(d) > 1
    ensures Valid(p) && Ordinal(p) == Ordinal(d) - 1
  {
    if d.day > 1 then Date(d.year, d.month, d.day - 1)
    else if d.month > 1 then Date(d.year, d.month - 1, DaysInMonth(d.year, d.month - 1))
    else
      assert d.year > 1;
      Date(d.year - 1, 12, 31)
  }

  /** The date k days before d (Python's d - timedelta(days=k)). */
  function MinusDays(d: Date, k: nat): (r: Date)
    requires Valid(d) && k < Ordinal(d)
    ensures Valid(r) && Ordinal(r) == Ordinal(d) - k
    decreases k
  {
    if k == 0 then d else MinusDays(PrevDay(d), k - 1)
  }

  /** The Monday of d's week (d - timedelta(days=d.weekday())). */
  function WeekStart(d: Date): (m: Date)
    requires Valid(d)
    ensures Valid(m) && Weekday(m) == 0
    ensures Ordinal(d) - Ordinal(m) == Weekday(d)
  {
    var m := MinusDays(d, Weekday(d));
    MondayOfWeek(d, m);
    m
  }

  /** The first day of d's month (d.replace(day=1)). */
  function MonthStart(d: Date): (m: Date)
    requires Valid(d)
    ensures Valid(m) && m.year == d.year && m.month == d.month && m.day == 1
    ensures Ordinal(d) - Ordinal(m) == d.day - 1
  {
    Date(d.year, d.month, 1)
  }

  /** Chronological order of dates. */
  predicate Before(a: Date, b: Date) {
    a.year < b.year
    || (a.year == b.year && a.month < b.month)
    || (a.year == b.year && a.month == b.month && a.day < b.day)
  }

  /**
   * The reporting window of a period name: it always ends today; "daily"
   * starts today, "weekly" on the Monday of the current week, "monthly" and
   * every other name on the first of the current month.
   */
  function DateRange(period: string, today: Date): (r: (Date, Date))
    requires Valid(today)
    ensures Valid(r.0) && r.1 == today
    ensures Ordinal(r.0) <= Ordinal(r.1)
    ensures period == "daily" ==> r.0 == today
    ensures period == "weekly" ==>
      Weekday(r.0) == 0 && Ordinal(today) - Ordinal(r.0) == Weekday(today) <= 6
    ensures period != "daily" && period != "weekly" ==>
      r.0.year == today.year && r.0.month == today.month && r.0.day == 1
      && Ordinal(today) - Ordinal(r.0) == today.day - 1
  {
    if period == "daily" then (today, today)
    else if period == "weekly" then (WeekStart(today), today)
    else if period == "monthly" then (MonthStart(today), today)
    else (MonthStart(today), today)
  }

  // ---------------------------------------------------------------------
  // Lemmas about day numbers

  lemma DivStep4(x: int)
    requires x >= 1
    ensures x / 4 == (x - 1) / 4 + (if x % 4 == 0 then 1 else 0)
  {
  }

  lemma DivStep100(x: int)
    requires x >= 1
    ensures x / 100 == (x - 1) / 100 + (if x % 100 == 0 then 1 else 0)
    ensures x % 100 == 0 ==> x % 4 == 0
  {
  }

  lemma DivStep400(x: int)
    requires x >= 1
    ensures x / 400 == (x - 1) / 400 + (if x % 400 == 0 then 1 else 0)
    ensures x % 400 == 0 ==> x % 100 == 0
  {
  }

  /** A day number's weekday is smaller than the day number. */
  lemma WeekdayBelowOrdinal(n: int)
    requires n >= 1
    ensures (n + 6) % 7 < n
  {
    if n <= 7 {
      assert (n + 6) % 7 == n - 1;
    }
  }

  /** Stepping back from a date by its own weekday lands on a Monday. */
  lemma MondayOfWeek(d: Date, m: Date)
    requires Valid(d) && Valid(m)
    requires Ordinal(m) == Ordinal(d) - Weekday(d)
    ensures Weekday(m) == 0
  {
  }

  /**
   * The days before a year, counted year by year, agree with the closed form
   * Python's date arithmetic uses: 365 days a year plus one per leap year.
   */
  lemma {:induction false} DaysBeforeYearClosedForm(y: int)
    requires y >= 1
    ensures var p := y - 1; DaysBeforeYear(y) == p * 365 + p / 4 - p / 100 + p / 400
  {
    if y > 1 {
      DaysBeforeYearClosedForm(y - 1);
      DivStep4(y - 1);
      DivStep100(y - 1);
      DivStep400(y - 1);
    }
  }

  lemma {:induction false} DaysBeforeLaterYear(y1: int, y2: int)
    requires 1 <= y1 < y2
    ensures DaysBeforeYear(y1) + DaysInYear(y1) <= DaysBeforeYear(y2)
    decreases y2 - y1
  {
    if y1 + 1 < y2 {
      DaysBeforeLaterYear(y1 + 1, y2);
    }
  }

  /** A valid date's day within its year never exceeds the length of the year. */
  lemma DayOfYearBound(d: Date)
    requires Valid(d)
    ensures DaysBeforeMonth(d.year, d.month) + d.day <= DaysInYear(d.year)
  {
  }

  lemma DaysBeforeLaterMonth(y: int, m1: int, d1: int, m2: int)
    requires 1 <= m1 < m2 <= 12 && 1 <= d1 <= DaysInMonth(y, m1)
    ensures DaysBeforeMonth(y, m1) + d1 <= DaysBeforeMonth(y, m2)
  {
  }

  /** Day numbers follow the calendar order of dates. */
  lemma OrdinalIncreasing(a: Date, b: Date)
    requires Valid(a) && Valid(b) && Before(a, b)
    ensures Ordinal(a) < Ordinal(b)
  {
    if a.year < b.year {
      DayOfYearBound(a);
      DaysBeforeLaterYear(a.year, b.year);
    } else if a.month < b.month {
      DaysBeforeLaterMonth(a.year, a.month, a.day, b.month);
    }
  }

  /**
   * Comparing day numbers is comparing dates: the order agrees and a day
   * number determines its date, so a date filter may compare day numbers.
   */
  lemma OrdinalOrder(a: Date, b: Date)
    requires Valid(a) && Valid(b)
    ensures Ordinal(a) < Ordinal(b) <==> Before(a, b)
    ensures Ordinal(a) == Ordinal(b) <==> a == b
  {
    if Before(a, b) {
      OrdinalIncreasing(a, b);
    } else if Before(b, a) {
      OrdinalIncreasing(b, a);
    } else {
      assert a == b;
    }
  }
}
