/** The relative date ranges put into the planner prompt. */
module RelativePeriods {
  import opened Wrappers
  import opened Calendar

  /** The first date of "last N months" on a daily table. */
  function RollingStart(today: Date, months: nat): Option<Date>
    requires Valid(today)
  {
    var first := AddMonths(MonthFloor(today), 0 - months);
    if first.None? then None else Some(AddDays(first.value, today.day - 1))
  }

  /**
   * The rolling window starts on today's day of the month, N months back, exactly when that
   * month is long enough; otherwise the day count spills into the month after it.
   */
  lemma RollingStartSpills(today: Date, months: nat)
    requires Valid(today) && months > 0 && AddMonths(MonthFloor(today), 0 - months).Some?
    ensures var first := AddMonths(MonthFloor(today), 0 - months).value;
            var len := DaysIn(first.year, first.month);
            var start := RollingStart(today, months).value;
            && (MonthIndex(start) == MonthIndex(today) - months <==> today.day <= len)
            && (today.day <= len ==> start == first.(day := today.day))
            && (today.day > len ==>
                  MonthIndex(start) == MonthIndex(today) - months + 1 && start.day == today.day - len)
  {
    var first := AddMonths(MonthFloor(today), 0 - months).value;
    var len := DaysIn(first.year, first.month);
    var n: nat := today.day - 1;
    if n < len {
      AddDaysWithinMonth(first, n);
    } else {
      AddDaysWithinMonth(first, len - 1);
      AddDaysSplit(first, len - 1, 1);
      var second := AddDays(first, len);
      assert second == NextDay(first.(day := len)) by {
        assert AddDays(AddDays(first, len - 1), 1) == NextDay(AddDays(AddDays(first, len - 1), 0));
      }
      assert second.day == 1 && MonthIndex(second) == MonthIndex(first) + 1;
      AddDaysSplit(first, len, n - len);
      AddDaysWithinMonth(second, n - len);
    }
  }

  /** "Last N months" on a monthly table, as (first, last) month starts. */
  function MonthlyRange(today: Date, months: nat): Option<(Date, Date)> {
    var first := AddMonths(MonthFloor(today), -(months - 1));
    if first.None? then None else Some((first.value, MonthFloor(today)))
  }

  /** It names exactly the N months that end with the current one. */
  lemma MonthlyRangeIsNMonths(today: Date, months: nat, m: Date)
    requires Valid(today) && Valid(m) && m.day == 1 && MonthlyRange(today, months).Some?
    ensures var (first, last) := MonthlyRange(today, months).value;
            AtMost(first, m) && AtMost(m, last)
            <==> MonthIndex(today) - months < MonthIndex(m) <= MonthIndex(today)
  {
    var (first, last) := MonthlyRange(today, months).value;
    MonthIndexInjective(first, m);
    MonthIndexInjective(m, first);
    MonthIndexInjective(m, last);
    MonthIndexInjective(last, m);
  }

  function QuarterIndex(d: Date): int { d.year * 4 + (d.month - 1) / 3 }

  /** "Last quarter", as (first, last) dates. */
  function LastQuarter(today: Date): Option<(Date, Date)>
    requires Valid(today)
  {
    var thisQuarter := Date(today.year, (today.month - 1) / 3 * 3 + 1, 1);
    var first := AddMonths(thisQuarter, -3);
    var endMonth := AddMonths(thisQuarter, -1);
    if first.None? || endMonth.None? then None
    else
      var end := MonthEnd(endMonth.value);
      if end.None? then None else Some((first.value, end.value))
  }

  /** The range starts on the first day and ends on the last day of the quarter's months. */
  lemma LastQuarterBounds(today: Date) returns (first: Date, endMonth: Date)
    requires Valid(today) && LastQuarter(today).Some?
    ensures Valid(first) && Valid(endMonth) && first.day == 1
    ensures MonthIndex(first) == 3 * QuarterIndex(today) - 3 && MonthIndex(endMonth) == 3 * QuarterIndex(today) - 1
    ensures LastQuarter(today).value.0 == first
    ensures LastQuarter(today).value.1 == Date(endMonth.year, endMonth.month, DaysIn(endMonth.year, endMonth.month))
  {
    var q := QuarterStart(today);
    first, endMonth := AddMonths(q, -3).value, AddMonths(q, -1).value;
    assert MonthIndex(first) == MonthIndex(q) - 3 && MonthIndex(endMonth) == MonthIndex(q) - 1;
    MonthEndIsLastDay(endMonth);
  }

  lemma QuarterStart(today: Date) returns (q: Date)
    requires Valid(today)
    ensures q == Date(today.year, (today.month - 1) / 3 * 3 + 1, 1) && Valid(q)
    ensures MonthIndex(q) == 3 * QuarterIndex(today)
  {
    q := Date(today.year, (today.month - 1) / 3 * 3 + 1, 1);
  }

  /** A date falls in it exactly when it belongs to the calendar quarter before today's. */
  lemma LastQuarterIsPreviousQuarter(today: Date, d: Date)
    requires Valid(today) && Valid(d) && LastQuarter(today).Some?
    ensures AtMost(LastQuarter(today).value.0, d) && AtMost(d, LastQuarter(today).value.1)
            <==> QuarterIndex(d) == QuarterIndex(today) - 1
  {
    var first, endMonth := LastQuarterBounds(today);
    FromFirst(first, d);
    ToLast(endMonth, d);
    QuarterOfMonth(d);
  }

  lemma FromFirst(first: Date, d: Date)
    requires Valid(first) && first.day == 1 && Valid(d)
    ensures AtMost(first, d) <==> MonthIndex(first) <= MonthIndex(d)
  {
    MonthIndexInjective(first, d);
    MonthIndexInjective(d, first);
  }

  lemma ToLast(m: Date, d: Date)
    requires Valid(m) && Valid(d)
    ensures AtMost(d, Date(m.year, m.month, DaysIn(m.year, m.month))) <==> MonthIndex(d) <= MonthIndex(m)
  {
  }

  lemma QuarterOfMonth(d: Date)
    requires Valid(d)
    ensures QuarterIndex(d) == MonthIndex(d) / 3
  {
  }

  /** The last date of "same period last year"; None when date() raises for year 0. */
  function SameDayLastYear(today: Date): Option<Date> {
    if today.year == 1 then None
    else if today.month == 2 && today.day == 29 then Some(Date(today.year - 1, 2, 28))
    else Some(Date(today.year - 1, today.month, today.day))
  }

  /** It is always a real date, in the same month, and never later than one year back. */
  lemma SameDayLastYearIsReal(today: Date)
    requires Valid(today) && today.year > 1
    ensures var d := SameDayLastYear(today).value;
            && Valid(d) && MonthIndex(d) == MonthIndex(today) - 12
            && d.day == if today.day <= DaysIn(d.year, d.month) then today.day
                        else DaysIn(d.year, d.month)
  {
    assert Leap(today.year) ==> !Leap(today.year - 1);
  }

  /** Which of the ranges exist: those that do not reach back before the year 1. */
  lemma RangesExistIff(today: Date, months: nat)
    requires Valid(today)
    ensures RollingStart(today, months).Some? <==> today.year * 12 + today.month - months > 12
    ensures months > 0 ==> (MonthlyRange(today, months).Some? <==> today.year * 12 + today.month - months > 11)
    ensures LastQuarter(today).Some? <==> today.year > 1 || today.month > 3
    ensures SameDayLastYear(today).Some? <==> today.year > 1
  {
    var q := QuarterStart(today);
  }
}
