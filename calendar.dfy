/** The proleptic Gregorian calendar of ECMAScript `Date`, counted from
    0000-01-01 in whole days and milliseconds. The host time zone is taken to be UTC,
    so local and ISO dates coincide. */
module Calendar {

  const MsPerDay: int := 86_400_000

  /** A calendar date with a time of day in milliseconds. */
  datatype DateTime = DateTime(year: nat, month: int, day: int, msOfDay: int)

  predicate IsLeapYear(y: int) {
    y % 4 == 0 && (y % 100 != 0 || y % 400 == 0)
  }

  function DaysInYear(y: int): (r: int)
    ensures r == 365 || r == 366
    ensures r == 366 <==> IsLeapYear(y)
  {
    if IsLeapYear(y) then 366 else 365
  }

  function DaysInMonth(y: int, m: int): (r: int)
    requires 1 <= m <= 12
    ensures 28 <= r <= 31
    ensures r == 29 <==> m == 2 && IsLeapYear(y)
  {
    if m == 2 then (if IsLeapYear(y) then 29 else 28)
    else if m == 4 || m == 6 || m == 9 || m == 11 then 30
    else 31
  }

  predicate Valid(dt: DateTime) {
    1 <= dt.month <= 12 && 1 <= dt.day <= DaysInMonth(dt.year, dt.month) && 0 <= dt.msOfDay < MsPerDay
  }

  /** Days from 0000-01-01 to the first of January of year y. */
  function DaysBeforeYear(y: nat): (r: nat)
    ensures y >= 1 ==> r >= 365 * y
  {
    if y == 0 then 0 else DaysBeforeYear(y - 1) + DaysInYear(y - 1)
  }

  /** Days from the first of January of year y to the first of month m. */
  function DaysBeforeMonth(y: int, m: int): (r: nat)
    requires 1 <= m <= 12
  {
    [0, 31, 59, 90, 120, 151, 181, 212, 243, 273, 304, 334][m - 1] + (if m > 2 && IsLeapYear(y) then 1 else 0)
  }

  /** Each month starts where the previous one ends, and December ends the year. */
  lemma MonthsTile(y: int, m: int)
    requires 1 <= m <= 12
    ensures m < 12 ==> DaysBeforeMonth(y, m) + DaysInMonth(y, m) == DaysBeforeMonth(y, m + 1)
    ensures m == 12 ==> DaysBeforeMonth(y, m) + DaysInMonth(y, m) == DaysInYear(y)
  {
  }

  /** Days from 0000-01-01 to the date. */
  function DayNumber(dt: DateTime): int
    requires 1 <= dt.month <= 12
  {
    DaysBeforeYear(dt.year) + DaysBeforeMonth(dt.year, dt.month) + dt.day - 1
  }

  /** Milliseconds from 0000-01-01T00:00:00Z, what `getTime()` counts up to a fixed offset. */
  function Instant(dt: DateTime): int
    requires 1 <= dt.month <= 12
  {
    DayNumber(dt) * MsPerDay + dt.msOfDay
  }

  /** The date whose day number within year y is dayOfYear, searching from month m. */
  function DateInYear(y: nat, m: int, dayOfYear: int, ms: int): (r: DateTime)
    requires 1 <= m <= 12 && 0 <= ms < MsPerDay
    requires DaysBeforeMonth(y, m) <= dayOfYear < DaysInYear(y)
    ensures Valid(r) && r.year == y && r.msOfDay == ms
    ensures DaysBeforeMonth(y, r.month) + r.day - 1 == dayOfYear
    decreases 12 - m
  {
    MonthsTile(y, m);
    if dayOfYear < DaysBeforeMonth(y, m) + DaysInMonth(y, m) then
      DateTime(y, m, dayOfYear - DaysBeforeMonth(y, m) + 1, ms)
    else
      DateInYear(y, m + 1, dayOfYear, ms)
  }

  /** The date n days after the first of January of year y. */
  function DateFrom(y: nat, n: nat, ms: int): (r: DateTime)
    requires 0 <= ms < MsPerDay
    ensures Valid(r) && r.msOfDay == ms
    ensures DayNumber(r) == DaysBeforeYear(y) + n
    decreases n
  {
    if n < DaysInYear(y) then DateInYear(y, 1, n, ms)
    else DateFrom(y + 1, n - DaysInYear(y), ms)
  }

  /** The date with day number n and time of day ms (the inverse of DayNumber). */
  function FromDayNumber(n: nat, ms: int): (r: DateTime)
    requires 0 <= ms < MsPerDay
    ensures Valid(r) && r.msOfDay == ms && DayNumber(r) == n
  {
    DateFrom(0, n, ms)
  }

  /** `d.setDate(date)`: the day `date` of the month of d, keeping the time of day; a
      date outside the month rolls into the neighbouring months (ECMAScript MakeDay). */
  function SetDate(dt: DateTime, date: int): (r: DateTime)
    requires Valid(dt) && DayNumber(dt) + (date - dt.day) >= 0
    ensures Valid(r) && r.msOfDay == dt.msOfDay
    ensures DayNumber(r) == DayNumber(dt) + (date - dt.day)
  {
    FromDayNumber(DaysBeforeYear(dt.year) + DaysBeforeMonth(dt.year, dt.month) + date - 1, dt.msOfDay)
  }

  /** A date inside the month just replaces the day. */
  lemma SetDateInMonth(dt: DateTime, date: int)
    requires Valid(dt) && 1 <= date <= DaysInMonth(dt.year, dt.month)
    ensures SetDate(dt, date) == DateTime(dt.year, dt.month, date, dt.msOfDay)
  {
    DayNumberInjective(SetDate(dt, date), DateTime(dt.year, dt.month, date, dt.msOfDay));
  }

  /** `d.setDate(d.getDate() + k)`: k days later (earlier for negative k), same time of day. */
  function ShiftDays(dt: DateTime, k: int): (r: DateTime)
    requires Valid(dt) && DayNumber(dt) + k >= 0
    ensures Valid(r) && r.msOfDay == dt.msOfDay
    ensures DayNumber(r) == DayNumber(dt) + k
    ensures Instant(r) == Instant(dt) + k * MsPerDay
  {
    SetDate(dt, dt.day + k)
  }

  /** Lexicographic order of (year, month, day). */
  predicate DateBefore(a: DateTime, b: DateTime) {
    a.year < b.year || (a.year == b.year && (a.month < b.month || (a.month == b.month && a.day < b.day)))
  }

  lemma {:induction false} DaysBeforeYearGrows(a: nat, b: nat)
    requires a < b
    ensures DaysBeforeYear(a) + DaysInYear(a) <= DaysBeforeYear(b)
    decreases b - a
  {
    if a + 1 < b {
      DaysBeforeYearGrows(a + 1, b);
    }
  }

  lemma {:induction false} DaysBeforeMonthGrows(y: int, a: int, b: int)
    requires 1 <= a < b <= 12
    ensures DaysBeforeMonth(y, a) + DaysInMonth(y, a) <= DaysBeforeMonth(y, b)
    decreases b - a
  {
    MonthsTile(y, a);
    if a + 1 < b {
      DaysBeforeMonthGrows(y, a + 1, b);
      MonthsTile(y, a + 1);
    }
  }

  /** Day numbers follow calendar order, so two valid dates with one day number are one date. */
  lemma DayNumberMonotonic(a: DateTime, b: DateTime)
    requires Valid(a) && Valid(b) && DateBefore(a, b)
    ensures DayNumber(a) < DayNumber(b)
  {
    if a.year < b.year {
      DaysBeforeYearGrows(a.year, b.year);
      MonthsTile(a.year, a.month);
      if a.month < 12 {
        DaysBeforeMonthGrows(a.year, a.month, 12);
        MonthsTile(a.year, 12);
      }
    } else if a.month < b.month {
      DaysBeforeMonthGrows(a.year, a.month, b.month);
    }
  }

  lemma DayNumberInjective(a: DateTime, b: DateTime)
    requires Valid(a) && Valid(b) && DayNumber(a) == DayNumber(b)
    ensures a.year == b.year && a.month == b.month && a.day == b.day
  {
    if DateBefore(a, b) {
      DayNumberMonotonic(a, b);
    } else if DateBefore(b, a) {
      DayNumberMonotonic(b, a);
    }
  }

  /** `d.setFullYear(y)`: same month, day and time in year y; the 29th of February
      becomes the 1st of March when y is not a leap year, as MakeDay rolls it over. */
  function SetFullYear(dt: DateTime, y: nat): (r: DateTime)
    requires Valid(dt)
    ensures Valid(r) && r.year == y && r.msOfDay == dt.msOfDay
    ensures dt.day <= DaysInMonth(y, dt.month) ==> r.month == dt.month && r.day == dt.day
    ensures dt.day > DaysInMonth(y, dt.month) <==> dt.month == 2 && dt.day == 29 && !IsLeapYear(y)
    ensures dt.day > DaysInMonth(y, dt.month) ==> r.month == 3 && r.day == 1
  {
    if dt.day <= DaysInMonth(y, dt.month) then DateTime(y, dt.month, dt.day, dt.msOfDay)
    else DateTime(y, 3, 1, dt.msOfDay)
  }

  /** Going back a year spans 365 or 366 days: 366 when the span covers a 29th of February. */
  lemma YearBackSpan(dt: DateTime)
    requires Valid(dt) && dt.year >= 1
    ensures var span := DayNumber(dt) - DayNumber(SetFullYear(dt, dt.year - 1)); span == 365 || span == 366
    ensures DayNumber(dt) - DayNumber(SetFullYear(dt, dt.year - 1)) == 366 <==>
      (IsLeapYear(dt.year - 1) && dt.month <= 2) || (IsLeapYear(dt.year) && dt.month > 2)
  {
    assert DaysBeforeYear(dt.year) == DaysBeforeYear(dt.year - 1) + DaysInYear(dt.year - 1);
  }

  /** `Math.ceil(ms / 86400000)`: the number of days, rounded up, in a span of ms milliseconds. */
  function CeilDays(ms: int): (d: int)
    ensures (d - 1) * MsPerDay < ms <= d * MsPerDay
  {
    -((-ms) / MsPerDay)
  }

  /** CeilDays is at most n exactly when the span is at most n days. */
  lemma CeilDaysAtMost(ms: int, n: int)
    ensures CeilDays(ms) <= n <==> ms <= n * MsPerDay
  {
    var d := CeilDays(ms);
    if d <= n {
      assert d * MsPerDay <= n * MsPerDay;
    } else {
      assert (d - 1) * MsPerDay >= n * MsPerDay;
    }
  }

  /** CeilDays is positive exactly when the span is. */
  lemma CeilDaysPositive(ms: int)
    ensures CeilDays(ms) > 0 <==> ms > 0
  {
    var d := CeilDays(ms);
    if d <= 0 {
      assert d * MsPerDay <= 0;
    }
  }
}
