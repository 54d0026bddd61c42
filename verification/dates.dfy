/** Axis dates, view modes and the date helpers the calendar header calls.

    A date is taken as already split into the calendar fields the header
    reads (getFullYear, getMonth, getDate, getHours); the locale-aware
    helpers are not interpreted: they are functions supplied by the caller. */
module Dates {

  /** One tick of the chart's time axis: full year, month 0..11, day of the
      month and hour, as a JavaScript Date reports them in local time. */
  datatype AxisDate = AxisDate(year: int, month: int, day: int, hour: int)

  /** The calendar field a boundary rule compares between neighbouring dates. */
  datatype Field = FullYear | MonthOfYear | DayOfMonth

  function FieldOf(f: Field, d: AxisDate): int
  {
    match f
    case FullYear => d.year
    case MonthOfYear => d.month
    case DayOfMonth => d.day
  }

  /** `a` is not later than `b` (the order of the calendar fields). */
  predicate NotAfter(a: AxisDate, b: AxisDate)
  {
    a.year < b.year ||
    (a.year == b.year &&
      (a.month < b.month ||
        (a.month == b.month && (a.day < b.day || (a.day == b.day && a.hour <= b.hour)))))
  }

  /** The axis dates are in chronological order, as the chart's date setup produces them. */
  predicate Chronological(dates: seq<AxisDate>)
  {
    forall i, j :: 0 <= i < j < |dates| ==> NotAfter(dates[i], dates[j])
  }

  /** The dates from the last one back to the first. */
  function Reversed(dates: seq<AxisDate>): (r: seq<AxisDate>)
    ensures |r| == |dates|
    ensures forall k :: 0 <= k < |r| ==> r[k] == dates[|dates| - 1 - k]
  {
    if |dates| == 0 then [] else [dates[|dates| - 1]] + Reversed(dates[..|dates| - 1])
  }

  /** The chart's zoom levels. */
  datatype ViewMode = Hour | QuarterDay | HalfDay | Day | Week | Month | Year

  /** The two widths getLocalDayOfWeek is asked for. */
  datatype WeekdayWidth = Short | Long

  /** The date helpers of the chart, already bound to the chart's locale:
      getLocaleMonth(date, locale), getLocalDayOfWeek(date, locale, width),
      getCachedDateTimeFormat(locale, {hour: 'numeric'}).format(date),
      getWeekNumberISO8601(date) (the week number as text) and
      getDaysInMonth(month, year); and
      `numberText`, the decimal text JavaScript gives a whole number in a
      template literal. */
  datatype DateHelpers = DateHelpers(
    localeMonth: AxisDate -> string,
    localDayOfWeek: (AxisDate, WeekdayWidth) -> string,
    hourNumeric: AxisDate -> string,
    weekNumberISO8601: AxisDate -> string,
    daysInMonth: (int, int) -> int,
    numberText: int -> string)
}
