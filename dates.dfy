/**
 * Gregorian calendar dates as Python's `datetime` sees them, and the two
 * next-bill-date computations of the card store (src/database.py:239-246 and
 * 286-290). `datetime.replace` raises `ValueError` when the day it asks for
 * does not exist in the target month or the year passes `MAXYEAR`; that
 * outcome is `None` here.
 */
module Dates {
  import opened Wrappers

  /** A calendar date; stored in the table as the ISO 8601 text `YYYY-MM-DD`. */
  datatype Date = Date(year: int, month: int, day: int)

  /** Python's `datetime.MAXYEAR`. */
  const MaxYear := 9999

  predicate IsLeapYear(y: int) {
    y % 4 == 0 && (y % 100 != 0 || y % 400 == 0)
  }

  function DaysInMonth(y: int, m: int): (n: int)
    requires 1 <= m <= 12
    ensures 28 <= n <= 31
  {
    if m == 2 then (if IsLeapYear(y) then 29 else 28)
    else if m == 4 || m == 6 || m == 9 || m == 11 then 30
    else 31
  }

  predicate ValidDate(d: Date) {
    1 <= d.year <= MaxYear && 1 <= d.month <= 12 && 1 <= d.day <= DaysInMonth(d.year, d.month)
  }

  /**
   * Strictly earlier in the calendar. On valid dates this is the order of
   * their ISO texts, which is what SQLite compares.
   */
  predicate Before(a: Date, b: Date) {
    a.year < b.year || (a.year == b.year && (a.month < b.month || (a.month == b.month && a.day < b.day)))
  }

  predicate OnOrBefore(a: Date, b: Date) {
    !Before(b, a)
  }

  /** Months since January of year 0: consecutive months differ by one. */
  function MonthIndex(d: Date): int {
    d.year * 12 + d.month - 1
  }

  /** `datetime(y, m, day)`, or `None` where Python raises `ValueError`. */
  function MakeDate(y: int, m: int, day: int): Option<Date> {
    if 1 <= y <= MaxYear && 1 <= m <= 12 && 1 <= day <= DaysInMonth(y, m) then Some(Date(y, m, day))
    else None
  }

  /**
   * The same day of the following month: the month is incremented, December
   * rolls over to January of the next year, and the day is kept. There is no
   * clamping: when the day does not exist in the following month the result
   * is `None`.
   */
  function AddOneMonth(d: Date): (r: Option<Date>)
    requires ValidDate(d)
    ensures r.Some? ==> ValidDate(r.value) && r.value.day == d.day
    ensures r.Some? ==> MonthIndex(r.value) == MonthIndex(d) + 1 && Before(d, r.value)
    ensures r.None? <==> forall e :: ValidDate(e) && MonthIndex(e) == MonthIndex(d) + 1 ==> e.day != d.day
  {
    var r := if d.month == 12 then MakeDate(d.year + 1, 1, d.day) else MakeDate(d.year, d.month + 1, d.day);
    if r.Some? then
      r
    else
      assert forall e :: ValidDate(e) && MonthIndex(e) == MonthIndex(d) + 1 ==>
        e.year == (if d.month == 12 then d.year + 1 else d.year) && e.month == (if d.month == 12 then 1 else d.month + 1);
      r
  }

  /**
   * The next bill date of update_billing_info: day `billingDay` of the
   * current month if that is later than today, otherwise the same day of the
   * following month. `None` when the day does not exist in the current month
   * (checked first, even if the date would fall next month) or in the
   * following month when that is where it lands.
   */
  function NextBillDate(today: Date, billingDay: int): (r: Option<Date>)
    requires ValidDate(today)
    ensures r.Some? ==> ValidDate(r.value) && r.value.day == billingDay && Before(today, r.value)
    ensures r.Some? ==> MonthIndex(r.value) == MonthIndex(today) + (if billingDay > today.day then 0 else 1)
    ensures r.None? <==>
      !(1 <= billingDay <= DaysInMonth(today.year, today.month)) ||
      (billingDay <= today.day && AddOneMonth(Date(today.year, today.month, billingDay)).None?)
  {
    match MakeDate(today.year, today.month, billingDay)
    case None => None
    case Some(thisMonth) =>
      if OnOrBefore(thisMonth, today) then AddOneMonth(thisMonth) else Some(thisMonth)
  }

  /**
   * When it exists, the next bill date is the earliest date strictly after
   * today that falls on the billing day.
   */
  lemma NextBillDateIsEarliest(today: Date, billingDay: int, e: Date)
    requires ValidDate(today) && NextBillDate(today, billingDay).Some?
    requires ValidDate(e) && e.day == billingDay && Before(today, e)
    ensures OnOrBefore(NextBillDate(today, billingDay).value, e)
  {
    var d := NextBillDate(today, billingDay).value;
    assert MonthIndex(today) <= MonthIndex(e);
    if billingDay <= today.day {
      assert MonthIndex(today) < MonthIndex(e);
    }
  }

  /** Paying a bill due 2025-01-15 moves the due date to 2025-02-15. */
  lemma AddOneMonthExamples()
    ensures AddOneMonth(Date(2025, 1, 15)) == Some(Date(2025, 2, 15))
    ensures AddOneMonth(Date(2025, 12, 10)) == Some(Date(2026, 1, 10))
    ensures AddOneMonth(Date(2025, 1, 31)).None?
    ensures AddOneMonth(Date(2024, 1, 29)) == Some(Date(2024, 2, 29))
    ensures AddOneMonth(Date(2025, 1, 29)).None?
  {
  }
}
