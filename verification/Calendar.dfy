/** Dates as Python's datetime.date keeps them, and the month arithmetic built on them. */
module Calendar {
  import opened Wrappers

  datatype Date = Date(year: int, month: int, day: int)

  predicate Leap(y: int) { y % 4 == 0 && (y % 100 != 0 || y % 400 == 0) }

  function DaysIn(y: int, m: int): (n: int)
    ensures 28 <= n <= 31
  {
    if m == 2 then (if Leap(y) then 29 else 28)
    else if m == 4 || m == 6 || m == 9 || m == 11 then 30
    else 31
  }

  predicate Valid(d: Date) {
    1 <= d.year <= 9999 && 1 <= d.month <= 12 && 1 <= d.day <= DaysIn(d.year, d.month)
  }

  predicate Before(a: Date, b: Date) {
    a.year < b.year
    || (a.year == b.year && (a.month < b.month || (a.month == b.month && a.day < b.day)))
  }

  predicate AtMost(a: Date, b: Date) { a == b || Before(a, b) }

  /** Months since year 0, the number both add_months and _shift_month work on. */
  function MonthIndex(d: Date): int { d.year * 12 + d.month - 1 }

  /** The first of the month with this index; None is Python's ValueError outside years 1..9999. */
  function FirstOf(index: int): (r: Option<Date>)
    ensures r.Some? <==> 12 <= index < 120000
    ensures r.Some? ==> Valid(r.value) && r.value.day == 1 && MonthIndex(r.value) == index
  {
    if 12 <= index < 120000 then Some(Date(index / 12, index % 12 + 1, 1)) else None
  }

  function MonthFloor(d: Date): Date { d.(day := 1) }

  /** add_months and _shift_month: one formula, written twice in the source. */
  function AddMonths(d: Date, months: int): Option<Date> {
    FirstOf(MonthIndex(d) + months)
  }

  lemma MonthIndexInjective(a: Date, b: Date)
    requires Valid(a) && Valid(b)
    ensures MonthIndex(a) == MonthIndex(b) <==> a.year == b.year && a.month == b.month
    ensures MonthIndex(a) < MonthIndex(b) ==> Before(a, b)
  {
  }

  /** Month shifts compose additively, across any year boundary and in both directions. */
  lemma AddMonthsComposes(d: Date, a: int, b: int)
    requires AddMonths(d, a).Some?
    ensures AddMonths(AddMonths(d, a).value, b) == AddMonths(d, a + b)
    ensures Valid(d) ==> AddMonths(AddMonths(d, a).value, -a) == Some(MonthFloor(d))
  {
    if Valid(d) {
      MonthIndexInjective(AddMonths(AddMonths(d, a).value, -a).value, MonthFloor(d));
    }
  }

  /** The half-open range [m, add_months(m, 1)) holds exactly the dates of m's month. */
  lemma MonthRangeIsMonth(m: Date, d: Date)
    requires Valid(m) && m.day == 1 && Valid(d) && AddMonths(m, 1).Some?
    ensures AtMost(m, d) && Before(d, AddMonths(m, 1).value) <==> MonthIndex(d) == MonthIndex(m)
  {
    var next := AddMonths(m, 1).value;
    assert MonthIndex(next) == MonthIndex(m) + 1;
  }

  // ------------------------------------------------------------------
  // Day steps, for the timedelta arithmetic
  // ------------------------------------------------------------------

  function NextDay(d: Date): Date {
    if d.day < DaysIn(d.year, d.month) then d.(day := d.day + 1)
    else if d.month < 12 then Date(d.year, d.month + 1, 1)
    else Date(d.year + 1, 1, 1)
  }

  function PrevDay(d: Date): Date {
    if d.day > 1 then d.(day := d.day - 1)
    else if d.month > 1 then Date(d.year, d.month - 1, DaysIn(d.year, d.month - 1))
    else Date(d.year - 1, 12, 31)
  }

  /** value + timedelta(days=n) for n >= 0. */
  function AddDays(d: Date, n: nat): Date {
    if n == 0 then d else NextDay(AddDays(d, n - 1))
  }

  lemma {:induction false} AddDaysWithinMonth(d: Date, n: nat)
    requires d.day + n <= DaysIn(d.year, d.month)
    ensures AddDays(d, n) == d.(day := d.day + n)
  {
    if n > 0 { AddDaysWithinMonth(d, n - 1); }
  }

  lemma {:induction false} AddDaysSplit(d: Date, a: nat, b: nat)
    ensures AddDays(d, a + b) == AddDays(AddDays(d, a), b)
  {
    if b > 0 { AddDaysSplit(d, a, b - 1); }
  }

  /** _month_end: the day before the first of the next month. */
  function MonthEnd(d: Date): Option<Date> {
    var next := AddMonths(d, 1);
    if next.None? then None else Some(PrevDay(next.value))
  }

  lemma MonthEndIsLastDay(d: Date)
    requires Valid(d) && AddMonths(d, 1).Some?
    ensures MonthEnd(d) == Some(Date(d.year, d.month, DaysIn(d.year, d.month)))
    ensures NextDay(MonthEnd(d).value) == AddMonths(d, 1).value
  {
    var next := AddMonths(d, 1).value;
    assert MonthIndex(next) == MonthIndex(d) + 1;
    if d.month == 12 {
      assert next.year == d.year + 1 && next.month == 1;
    } else {
      assert next.year == d.year && next.month == d.month + 1;
    }
  }

  // ------------------------------------------------------------------
  // Days counted through
  // ------------------------------------------------------------------

  /** Days from the first of March to the first of the month, by the usual arithmetic. */
  function SinceMarch(month: int): int { (153 * ((month + 9) % 12) + 2) / 5 }

  /** Days before the year that starts in March. */
  function BeforeYear(y: int): int { 365 * y + y / 4 - y / 100 + y / 400 }

  /** The number of a day, counted from the first of March of year 0: no table of months, no leap year rule. */
  function DayNumber(d: Date): int {
    BeforeYear(if d.month <= 2 then d.year - 1 else d.year) + SinceMarch(d.month) + d.day - 1
  }

  lemma LeapIsDivisible(y: int)
    ensures y / 4 - (y - 1) / 4 == if y % 4 == 0 then 1 else 0
    ensures y / 100 - (y - 1) / 100 == if y % 100 == 0 then 1 else 0
    ensures y / 400 - (y - 1) / 400 == if y % 400 == 0 then 1 else 0
    ensures y % 400 == 0 ==> y % 100 == 0
    ensures y % 100 == 0 ==> y % 4 == 0
  {
  }

  lemma YearLength(y: int)
    ensures BeforeYear(y) - BeforeYear(y - 1) == if Leap(y) then 366 else 365
  {
    LeapIsDivisible(y);
  }

  lemma MonthLength(y: int, m: int)
    requires 1 <= m <= 12
    ensures m != 2 ==> SinceMarch(if m == 12 then 1 else m + 1) - SinceMarch(m) == DaysIn(y, m)
    ensures m == 2 ==> SinceMarch(3) + (if Leap(y) then 366 else 365) - SinceMarch(m) == DaysIn(y, m)
  {
    assert SinceMarch(1) == 306 && SinceMarch(2) == 337 && SinceMarch(3) == 0 && SinceMarch(4) == 31;
    assert SinceMarch(5) == 61 && SinceMarch(6) == 92 && SinceMarch(7) == 122 && SinceMarch(8) == 153;
    assert SinceMarch(9) == 184 && SinceMarch(10) == 214 && SinceMarch(11) == 245 && SinceMarch(12) == 275;
  }

  /** The next day is a real date, and the very next one. */
  lemma NextDayCounts(d: Date)
    requires Valid(d) && d != Date(9999, 12, 31)
    ensures Valid(NextDay(d)) && DayNumber(NextDay(d)) == DayNumber(d) + 1
  {
    YearLength(d.year);
    MonthLength(d.year, d.month);
  }

  /** The day before is a real date too, and leads back. */
  lemma PrevDayCounts(d: Date)
    requires Valid(d) && d != Date(1, 1, 1)
    ensures Valid(PrevDay(d)) && NextDay(PrevDay(d)) == d && DayNumber(PrevDay(d)) == DayNumber(d) - 1
  {
    NextDayCounts(PrevDay(d));
  }

  /** Adding n days is n days later, as long as the calendar lasts. */
  lemma {:induction false} AddDaysCounts(d: Date, n: nat)
    requires Valid(d) && DayNumber(d) + n <= DayNumber(Date(9999, 12, 31))
    ensures Valid(AddDays(d, n)) && DayNumber(AddDays(d, n)) == DayNumber(d) + n
  {
    if n > 0 {
      AddDaysCounts(d, n - 1);
      NextDayCounts(AddDays(d, n - 1));
    }
  }
}
