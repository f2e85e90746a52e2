/** Proleptic Gregorian dates with the year range of Python's datetime.date. */
module Calendar {
  import opened Prelude

  datatype Date = Date(year: int, month: int, day: int)

  const MIN_YEAR := 1
  const MAX_YEAR := 9999

  predicate IsLeap(year: int) {
    year % 4 == 0 && (year % 100 != 0 || year % 400 == 0)
  }

  function DaysInMonth(year: int, month: int): int {
    if month == 2 then (if IsLeap(year) then 29 else 28)
    else if month == 4 || month == 6 || month == 9 || month == 11 then 30
    else 31
  }

  predicate IsMonth(year: int, month: int) {
    MIN_YEAR <= year <= MAX_YEAR && 1 <= month <= 12
  }

  predicate IsDate(d: Date) {
    IsMonth(d.year, d.month) && 1 <= d.day <= DaysInMonth(d.year, d.month)
  }

  /** The comparison operator of dates. */
  predicate Before(a: Date, b: Date) {
    || a.year < b.year
    || (a.year == b.year && (a.month < b.month || (a.month == b.month && a.day < b.day)))
  }

  // ---------- Counting days ----------

  const FIRST_DAY := Date(MIN_YEAR, 1, 1)

  function PreviousDay(d: Date): (p: Date)
    requires IsDate(d) && d != FIRST_DAY
    ensures IsDate(p)
  {
    if d.day > 1 then d.(day := d.day - 1)
    else if d.month > 1 then Date(d.year, d.month - 1, DaysInMonth(d.year, d.month - 1))
    else Date(d.year - 1, 12, 31)
  }

  /** Day number, 1 for the first of January of year 1. */
  function Ordinal(d: Date): (n: int)
    requires IsDate(d)
    ensures n >= 1
    decreases d.year, d.month, d.day
  {
    if d == FIRST_DAY then 1 else Ordinal(PreviousDay(d)) + 1
  }

  /** date - timedelta(days=n); None where Python raises OverflowError. */
  function MinusDays(d: Date, n: nat): Option<Date>
    requires IsDate(d)
    decreases n
  {
    if n == 0 then Some(d)
    else if d == FIRST_DAY then None
    else MinusDays(PreviousDay(d), n - 1)
  }

  /** Subtracting days is subtraction of day numbers, and fails exactly when that leaves the calendar. */
  lemma {:induction false} MinusDaysOrdinal(d: Date, n: nat)
    requires IsDate(d)
    ensures MinusDays(d, n).Some? <==> Ordinal(d) - n >= 1
    ensures MinusDays(d, n).Some? ==> IsDate(MinusDays(d, n).value) && Ordinal(MinusDays(d, n).value) == Ordinal(d) - n
    decreases n
  {
    if n > 0 && d != FIRST_DAY {
      MinusDaysOrdinal(PreviousDay(d), n - 1);
    }
  }

  /** No date lies between a day and the one before it. */
  lemma PreviousIsAdjacent(a: Date, b: Date)
    requires IsDate(a) && IsDate(b) && Before(a, b)
    ensures b != FIRST_DAY && (a == PreviousDay(b) || Before(a, PreviousDay(b)))
  {
  }

  lemma {:induction false} BeforeImpliesSmaller(a: Date, b: Date)
    requires IsDate(a) && IsDate(b) && Before(a, b)
    ensures Ordinal(a) < Ordinal(b)
    decreases b.year, b.month, b.day
  {
    PreviousIsAdjacent(a, b);
    if a != PreviousDay(b) {
      BeforeImpliesSmaller(a, PreviousDay(b));
    }
  }

  /** The comparison of dates is the order of their day numbers. */
  lemma BeforeIsOrdinalOrder(a: Date, b: Date)
    requires IsDate(a) && IsDate(b)
    ensures Before(a, b) <==> Ordinal(a) < Ordinal(b)
  {
    if Before(a, b) {
      BeforeImpliesSmaller(a, b);
    } else if a != b {
      BeforeImpliesSmaller(b, a);
    }
  }

  // ---------- The Gregorian calendar ----------

  /** Days before the first of January. */
  function DaysBeforeYear(year: int): int {
    365 * (year - 1) + (year - 1) / 4 - (year - 1) / 100 + (year - 1) / 400
  }

  /** Days before the first of the month within its year; a year of 366 days has one more from March on. */
  function DaysBeforeMonth(year: int, month: int): int
    requires 1 <= month <= 12
  {
    [0, 31, 59, 90, 120, 151, 181, 212, 243, 273, 304, 334][month - 1] +
    (if month > 2 && DaysBeforeYear(year + 1) - DaysBeforeYear(year) == 366 then 1 else 0)
  }

  lemma LeapYearIsLonger(year: int)
    ensures DaysBeforeYear(year + 1) - DaysBeforeYear(year) == if IsLeap(year) then 366 else 365
  {
    DivisionStep(year - 1, 4);
    DivisionStep(year - 1, 100);
    DivisionStep(year - 1, 400);
    Centuries(year);
  }

  lemma Centuries(year: int)
    ensures year % 400 == 0 ==> year % 100 == 0
    ensures year % 100 == 0 ==> year % 4 == 0
  {
  }

  lemma DivisionStep(n: int, k: int)
    requires k == 4 || k == 100 || k == 400
    ensures (n + 1) / k == n / k + (if (n + 1) % k == 0 then 1 else 0)
  {
  }

  lemma MonthsAddUp(year: int, month: int)
    requires 1 <= month <= 12
    ensures DaysBeforeMonth(year, month) + DaysInMonth(year, month) ==
            if month < 12 then DaysBeforeMonth(year, month + 1) else DaysBeforeYear(year + 1) - DaysBeforeYear(year)
  {
    LeapYearIsLonger(year);
  }

  /** The day number in closed form: the rules of leap years and month lengths are those of the Gregorian calendar. */
  lemma {:induction false} OrdinalClosedForm(d: Date)
    requires IsDate(d)
    ensures Ordinal(d) == DaysBeforeYear(d.year) + DaysBeforeMonth(d.year, d.month) + d.day
    decreases d.year, d.month, d.day
  {
    if d != FIRST_DAY {
      var p := PreviousDay(d);
      OrdinalClosedForm(p);
      MonthsAddUp(p.year, p.month);
    }
  }

  // ---------- Months ----------

  function FirstOfMonth(d: Date): Date {
    d.(day := 1)
  }

  function MonthIndex(d: Date): int {
    12 * d.year + d.month - 1
  }

  /** _add_months; None where date() raises ValueError. The divisor is positive, so / and % floor as Python's do. */
  function AddMonths(d: Date, months: int): Option<Date> {
    var year := d.year + (d.month - 1 + months) / 12;
    var month := (d.month - 1 + months) % 12 + 1;
    if IsMonth(year, month) then Some(Date(year, month, 1)) else None
  }

  /** Adding months is addition on the month index, and fails exactly outside the calendar. */
  lemma AddMonthsIndex(d: Date, months: int)
    ensures AddMonths(d, months).Some? <==> 12 * MIN_YEAR <= MonthIndex(d) + months < 12 * (MAX_YEAR + 1)
    ensures AddMonths(d, months).Some? ==>
              && MonthIndex(AddMonths(d, months).value) == MonthIndex(d) + months
              && IsDate(AddMonths(d, months).value)
              && AddMonths(d, months).value.day == 1
  {
  }

  /** A first of the month is determined by its index. */
  lemma IndexDeterminesMonth(a: Date, b: Date)
    requires 1 <= a.month <= 12 && 1 <= b.month <= 12 && a.day == b.day == 1
    requires MonthIndex(a) == MonthIndex(b)
    ensures a == b
  {
  }

  /** Any month of the calendar is reached by adding the difference of the indices. */
  lemma AddMonthsReaches(d: Date, year: int, month: int)
    requires IsMonth(year, month)
    ensures AddMonths(d, 12 * year + month - 1 - MonthIndex(d)) == Some(Date(year, month, 1))
  {
    AddMonthsIndex(d, 12 * year + month - 1 - MonthIndex(d));
  }

  /** Months add up. */
  lemma AddMonthsComposes(d: Date, m: int, n: int)
    requires AddMonths(d, m).Some?
    ensures AddMonths(AddMonths(d, m).value, n) == AddMonths(d, m + n)
  {
    AddMonthsIndex(d, m);
    AddMonthsIndex(d, m + n);
    AddMonthsIndex(AddMonths(d, m).value, n);
    if AddMonths(d, m + n).Some? {
      IndexDeterminesMonth(AddMonths(AddMonths(d, m).value, n).value, AddMonths(d, m + n).value);
    }
  }

  /** A day lies in exactly one half-open range from a first of month to the next. */
  lemma DayInItsMonthOnly(d: Date, first: Date)
    requires IsDate(d) && IsDate(first) && first.day == 1
    requires AddMonths(first, 1).Some?
    ensures (!Before(d, first) && Before(d, AddMonths(first, 1).value)) <==> FirstOfMonth(d) == first
  {
    AddMonthsIndex(first, 1);
  }
}
