/** The date header of the Gantt chart: for each zoom level, the labels of the
    bottom band (one per axis date) and the captions with their vertical
    dividers in the top band (one per boundary between runs of dates). */
module Calendar {
  import opened Dates
  import opened Boundaries

  /** The axis dates and the zoom level the chart computed them for. */
  datatype DateSetup = DateSetup(dates: seq<AxisDate>, viewMode: ViewMode)

  /** The inputs of the header; `helpers` are the date helpers bound to the
      chart's locale. Font family and size only style the output. */
  datatype CalendarProps = CalendarProps(
    dateSetup: DateSetup,
    helpers: DateHelpers,
    viewMode: ViewMode,
    rtl: bool,
    headerHeight: real,
    columnWidth: real)

  /** A text of the bottom band, anchored at (x, y). Like every horizontal
      position here, x is measured in columns (see Pixels); y is in pixels. */
  datatype Label = Label(text: string, x: real, y: real)

  /** A caption of the top band together with its vertical divider, the
      line from (x1Line, y1Line) to (x1Line, y2Line); x1Line and xText are
      measured in columns. */
  datatype TopEntry = TopEntry(value: string, x1Line: real, y1Line: real, y2Line: real, xText: real, yText: real)

  /** The six header algorithms the view-mode switch chooses between. */
  datatype Algorithm = YearValues | MonthValues | WeekValues | DayValues | PartOfDayValues | HourValues

  /** The switch on the date setup's view mode: every mode without a case of
      its own falls back to the day algorithm. */
  function AlgorithmFor(mode: ViewMode): (alg: Algorithm)
    ensures alg == YearValues <==> mode == Year
    ensures alg == MonthValues <==> mode == Month
    ensures alg == WeekValues <==> mode == Week
    ensures alg == DayValues <==> mode == Day || mode == QuarterDay
    ensures alg == PartOfDayValues <==> mode == HalfDay
    ensures alg == HourValues <==> mode == Hour
  {
    match mode
    case Year => YearValues
    case Month => MonthValues
    case Week => WeekValues
    case HalfDay => PartOfDayValues
    case Hour => HourValues
    case _ => DayValues
  }

  /** Columns a part-of-day caption spans; read from the `viewMode` prop, not
      from the date setup's mode that the switch reads. */
  function Ticks(mode: ViewMode): (t: int)
    ensures t == 2 || t == 4
    ensures t == 2 <==> mode == HalfDay
  {
    if mode == HalfDay then 2 else 4
  }

  /** `+rtl`: one column to the right in right-to-left charts. */
  function RtlShift(rtl: bool): int
  {
    if rtl then 1 else 0
  }

  // ---------------------------------------------------------------------
  // Horizontal positions

  /** Every horizontal position the header computes is the column width times
      a quantity that depends only on the dates; the model keeps that quantity,
      and this is the pixel coordinate it stands for. */
  function Pixels(p: CalendarProps, columns: real): real
  {
    p.columnWidth * columns
  }

  /** The width of the header rectangle: one column per axis date. */
  function HeaderWidth(p: CalendarProps): (w: real)
    ensures w == Pixels(p, |p.dateSetup.dates| as real)
    ensures p.columnWidth >= 0.0 ==> w >= 0.0
    ensures |p.dateSetup.dates| == 0 ==> w == 0.0
  {
    p.columnWidth * (|p.dateSetup.dates| as real)
  }

  // ---------------------------------------------------------------------
  // Where each algorithm puts its entries

  /** The rule that decides where an algorithm puts a top entry. */
  function TopRule(alg: Algorithm): Rule
  {
    match alg
    case YearValues => Start(FullYear)
    case MonthValues => Start(FullYear)
    case WeekValues => StartBeforeLast(MonthOfYear)
    case DayValues => EndOfRun(MonthOfYear)
    case PartOfDayValues => Start(DayOfMonth)
    case HourValues => Change(DayOfMonth)
  }

  /** The rule of each algorithm, spelled out as the test its loop makes on
      date `i` of `n`. */
  lemma TopRuleTests(alg: Algorithm, dates: seq<AxisDate>, i: int)
    requires 0 <= i < |dates|
    ensures alg == YearValues || alg == MonthValues ==>
              (IsBoundary(TopRule(alg), dates, i) <==> i == 0 || dates[i].year != dates[i - 1].year)
    ensures alg == WeekValues ==>
              (IsBoundary(TopRule(alg), dates, i) <==>
                 (i == 0 || dates[i].month != dates[i - 1].month) && i != |dates| - 1)
    ensures alg == DayValues ==>
              (IsBoundary(TopRule(alg), dates, i) <==> i + 1 != |dates| && dates[i].month != dates[i + 1].month)
    ensures alg == PartOfDayValues ==>
              (IsBoundary(TopRule(alg), dates, i) <==> i == 0 || dates[i].day != dates[i - 1].day)
    ensures alg == HourValues ==>
              (IsBoundary(TopRule(alg), dates, i) <==> i != 0 && dates[i].day != dates[i - 1].day)
  {
  }

  /** The date indices that receive a top entry, in the order the entries are
      emitted: downwards for the week algorithm, upwards for all others. */
  function TopIndices(alg: Algorithm, dates: seq<AxisDate>): (r: seq<nat>)
    ensures forall i :: i in r <==> IsBoundary(TopRule(alg), dates, i)
    ensures forall k :: 0 <= k < |r| ==> IsBoundary(TopRule(alg), dates, r[k])
    ensures forall a, b :: 0 <= a < b < |r| ==> if alg == WeekValues then r[a] > r[b] else r[a] < r[b]
  {
    if alg == WeekValues then Descending(TopRule(alg), dates, 0)
    else Ascending(TopRule(alg), dates, |dates|)
  }

  /** The date index the k-th bottom label belongs to: the week algorithm
      walks the dates from the last one down. */
  function BottomDate(alg: Algorithm, n: nat, k: nat): nat
    requires k < n
  {
    if alg == WeekValues then n - 1 - k else k
  }

  // ---------------------------------------------------------------------
  // The entry each algorithm draws for date i

  /** The bottom label of date `i`. */
  function Bottom(alg: Algorithm, p: CalendarProps, i: nat): Label
    requires i < |p.dateSetup.dates|
  {
    match alg
    case YearValues => YearLabel(p, i)
    case MonthValues => MonthLabel(p, i)
    case WeekValues => WeekLabel(p, i)
    case DayValues => DayLabel(p, i)
    case PartOfDayValues => HourOfDayLabel(p, i)
    case HourValues => HourOfDayLabel(p, i)
  }

  /** The top entry drawn at date `i`, which satisfies the algorithm's rule. */
  function Top(alg: Algorithm, p: CalendarProps, i: nat): TopEntry
    requires IsBoundary(TopRule(alg), p.dateSetup.dates, i)
  {
    match alg
    case YearValues => YearTop(p, i)
    case MonthValues => MonthTop(p, i)
    case WeekValues => WeekTop(p, i)
    case DayValues => DayTop(p, i)
    case PartOfDayValues => PartOfDayTop(p, i)
    case HourValues => HourTop(p, i)
  }

  /** A bottom label centred in its column (year, month and day views). */
  function CentredX(i: nat): real
  {
    (i as real) + 0.5
  }

  /** A bottom label at the column's left edge, its right edge in right-to-left charts. */
  function EdgeX(p: CalendarProps, i: nat): real
  {
    (i + RtlShift(p.rtl)) as real
  }

  function YearLabel(p: CalendarProps, i: nat): Label
    requires i < |p.dateSetup.dates|
  {
    Label(p.helpers.numberText(p.dateSetup.dates[i].year), CentredX(i), p.headerHeight * 0.8)
  }

  /** The year caption: its x depends on the year itself, shifted the other
      way in right-to-left charts. */
  function YearTop(p: CalendarProps, i: nat): TopEntry
    requires i < |p.dateSetup.dates|
  {
    var year := p.dateSetup.dates[i].year;
    var xText := if p.rtl then (6 + i + year + 1) as real else (6 + i - year) as real;
    TopEntry(p.helpers.numberText(year), i as real, 0.0, p.headerHeight, xText, p.headerHeight * 0.9)
  }

  function MonthLabel(p: CalendarProps, i: nat): Label
    requires i < |p.dateSetup.dates|
  {
    Label(p.helpers.localeMonth(p.dateSetup.dates[i]), CentredX(i), p.headerHeight * 0.8)
  }

  /** The year caption of the month view: its x depends on the month index. */
  function MonthTop(p: CalendarProps, i: nat): TopEntry
    requires i < |p.dateSetup.dates|
  {
    var date := p.dateSetup.dates[i];
    var topDefaultHeight := p.headerHeight * 0.5;
    var xText := if p.rtl then (6 + i + date.month + 1) as real else (6 + i - date.month) as real;
    TopEntry(p.helpers.numberText(date.year), i as real, 0.0, topDefaultHeight, xText, topDefaultHeight * 0.9)
  }

  function WeekLabel(p: CalendarProps, i: nat): Label
    requires i < |p.dateSetup.dates|
  {
    Label("W" + p.helpers.weekNumberISO8601(p.dateSetup.dates[i]), EdgeX(p, i), p.headerHeight * 0.8)
  }

  /** The "month, year" caption of the month starting at `i`, whose divider
      closes the month after `weeksCount` columns. */
  function WeekCaption(p: CalendarProps, i: nat, weeksCount: int): TopEntry
    requires i < |p.dateSetup.dates|
  {
    var date := p.dateSetup.dates[i];
    var topDefaultHeight := p.headerHeight * 0.5;
    TopEntry(p.helpers.localeMonth(date) + ", " + p.helpers.numberText(date.year),
             (i + weeksCount) as real, 0.0, topDefaultHeight,
             (i as real) + (weeksCount as real) * 0.5, topDefaultHeight * 0.9)
  }

  /** The week view's caption at `i`: the month spans the columns up to the
      next month start. */
  function WeekTop(p: CalendarProps, i: nat): TopEntry
    requires i < |p.dateSetup.dates|
  {
    WeekCaption(p, i, NextStart(MonthOfYear, p.dateSetup.dates, i) - i)
  }

  function DayLabel(p: CalendarProps, i: nat): Label
    requires i < |p.dateSetup.dates|
  {
    var date := p.dateSetup.dates[i];
    Label(p.helpers.localDayOfWeek(date, Short) + ", " + p.helpers.numberText(date.day), CentredX(i), p.headerHeight * 0.8)
  }

  /** The month caption at the last date of a month, centred over the whole
      month by the number of days it has. */
  function DayTop(p: CalendarProps, i: nat): TopEntry
    requires i < |p.dateSetup.dates|
  {
    var date := p.dateSetup.dates[i];
    var topDefaultHeight := p.headerHeight * 0.5;
    TopEntry(p.helpers.localeMonth(date), (i + 1) as real, 0.0, topDefaultHeight,
             ((i + 1) as real) - (p.helpers.daysInMonth(date.month, date.year) as real) * 0.5,
             topDefaultHeight * 0.9)
  }

  /** The hour label of the half-day and hour views. */
  function HourOfDayLabel(p: CalendarProps, i: nat): Label
    requires i < |p.dateSetup.dates|
  {
    Label(p.helpers.hourNumeric(p.dateSetup.dates[i]), EdgeX(p, i), p.headerHeight * 0.8)
  }

  /** The day caption of the half-day view, spanning `ticks` columns. */
  function PartOfDayTop(p: CalendarProps, i: nat): TopEntry
    requires i < |p.dateSetup.dates|
  {
    var date := p.dateSetup.dates[i];
    var h := p.helpers;
    var topDefaultHeight := p.headerHeight * 0.5;
    var ticks := Ticks(p.viewMode);
    TopEntry(h.localDayOfWeek(date, Short) + ", " + h.numberText(date.day) + " " + h.localeMonth(date),
             (i + ticks) as real, 0.0, topDefaultHeight,
             (i as real) + (ticks as real) * 0.5, topDefaultHeight * 0.9)
  }

  /** The hour view's caption of the day that ends just before date `i`,
      moved left by half of the hours from date i's hour back to 24. */
  function HourTop(p: CalendarProps, i: nat): TopEntry
    requires 0 < i < |p.dateSetup.dates|
  {
    var dates := p.dateSetup.dates;
    var displayDate := dates[i - 1];
    var h := p.helpers;
    var topDefaultHeight := p.headerHeight * 0.5;
    var topPosition := ((dates[i].hour - 24) as real) / 2.0;
    TopEntry(h.localDayOfWeek(displayDate, Long) + ", " + h.numberText(displayDate.day) + " " + h.localeMonth(displayDate),
             i as real, 0.0, topDefaultHeight,
             (i as real) + topPosition, topDefaultHeight * 0.9)
  }

  // ---------------------------------------------------------------------
  // What an algorithm returns

  /** `top` holds, in order, the top entries of the dates listed in `idx`. */
  predicate TopsAt(alg: Algorithm, p: CalendarProps, top: seq<TopEntry>, idx: seq<nat>)
    requires forall k :: 0 <= k < |idx| ==> IsBoundary(TopRule(alg), p.dateSetup.dates, idx[k])
  {
    |top| == |idx| && forall k :: 0 <= k < |top| ==> top[k] == Top(alg, p, idx[k])
  }

  /** `bottom` holds, in order, the first |bottom| labels the algorithm draws. */
  predicate BottomsAt(alg: Algorithm, p: CalendarProps, bottom: seq<Label>)
  {
    var n := |p.dateSetup.dates|;
    |bottom| <= n && forall k :: 0 <= k < |bottom| ==> bottom[k] == Bottom(alg, p, BottomDate(alg, n, k))
  }

  /** One bottom label per date, in the order the algorithm visits the dates,
      and a top entry at each date its rule selects, in the same order. */
  predicate Output(alg: Algorithm, p: CalendarProps, top: seq<TopEntry>, bottom: seq<Label>)
  {
    && |bottom| == |p.dateSetup.dates|
    && BottomsAt(alg, p, bottom)
    && TopsAt(alg, p, top, TopIndices(alg, p.dateSetup.dates))
  }

  // ---------------------------------------------------------------------
  // What a loop has emitted after visiting part of the dates

  /** The labels of dates 0 .. hi - 1, as an upward loop emits them. */
  function LabelsUpTo(alg: Algorithm, p: CalendarProps, hi: nat): (r: seq<Label>)
    requires hi <= |p.dateSetup.dates|
    ensures |r| == hi
  {
    if hi == 0 then [] else LabelsUpTo(alg, p, hi - 1) + [Bottom(alg, p, hi - 1)]
  }

  /** The labels of the last date down to date lo, as a downward loop emits them. */
  function LabelsDownTo(alg: Algorithm, p: CalendarProps, lo: nat): (r: seq<Label>)
    requires lo <= |p.dateSetup.dates|
    ensures |r| == |p.dateSetup.dates| - lo
    decreases |p.dateSetup.dates| - lo
  {
    if lo == |p.dateSetup.dates| then [] else LabelsDownTo(alg, p, lo + 1) + [Bottom(alg, p, lo)]
  }

  /** The top entries of the boundaries among dates 0 .. hi - 1, upwards. */
  function TopsUpTo(alg: Algorithm, p: CalendarProps, hi: nat): seq<TopEntry>
    requires hi <= |p.dateSetup.dates|
  {
    if hi == 0 then []
    else TopsUpTo(alg, p, hi - 1)
         + (if IsBoundary(TopRule(alg), p.dateSetup.dates, hi - 1) then [Top(alg, p, hi - 1)] else [])
  }

  /** The top entries of the boundaries from the last date down to date lo. */
  function TopsDownTo(alg: Algorithm, p: CalendarProps, lo: nat): seq<TopEntry>
    requires lo <= |p.dateSetup.dates|
    decreases |p.dateSetup.dates| - lo
  {
    if lo == |p.dateSetup.dates| then []
    else TopsDownTo(alg, p, lo + 1)
         + (if IsBoundary(TopRule(alg), p.dateSetup.dates, lo) then [Top(alg, p, lo)] else [])
  }

  lemma {:induction false} LabelsUpToAt(alg: Algorithm, p: CalendarProps, hi: nat)
    requires alg != WeekValues && hi <= |p.dateSetup.dates|
    ensures BottomsAt(alg, p, LabelsUpTo(alg, p, hi))
  {
    if hi > 0 {
      LabelsUpToAt(alg, p, hi - 1);
      var front := LabelsUpTo(alg, p, hi - 1);
      var r := LabelsUpTo(alg, p, hi);
      assert r == front + [Bottom(alg, p, hi - 1)];
      forall k | 0 <= k < hi
        ensures r[k] == Bottom(alg, p, k)
      {
        if k < hi - 1 {
          assert r[k] == front[k];
        }
      }
    }
  }

  lemma {:induction false} LabelsDownToAt(p: CalendarProps, lo: nat)
    requires lo <= |p.dateSetup.dates|
    ensures BottomsAt(WeekValues, p, LabelsDownTo(WeekValues, p, lo))
    decreases |p.dateSetup.dates| - lo
  {
    var n := |p.dateSetup.dates|;
    if lo < n {
      LabelsDownToAt(p, lo + 1);
      var front := LabelsDownTo(WeekValues, p, lo + 1);
      var r := LabelsDownTo(WeekValues, p, lo);
      assert r == front + [Bottom(WeekValues, p, lo)];
      forall k | 0 <= k < n - lo
        ensures r[k] == Bottom(WeekValues, p, n - 1 - k)
      {
        if k < n - lo - 1 {
          assert r[k] == front[k];
        }
      }
    }
  }

  lemma {:induction false} TopsUpToAt(alg: Algorithm, p: CalendarProps, hi: nat)
    requires hi <= |p.dateSetup.dates|
    ensures TopsAt(alg, p, TopsUpTo(alg, p, hi), Ascending(TopRule(alg), p.dateSetup.dates, hi))
  {
    if hi > 0 {
      TopsUpToAt(alg, p, hi - 1);
    }
  }

  lemma {:induction false} TopsDownToAt(alg: Algorithm, p: CalendarProps, lo: nat)
    requires lo <= |p.dateSetup.dates|
    ensures TopsAt(alg, p, TopsDownTo(alg, p, lo), Descending(TopRule(alg), p.dateSetup.dates, lo))
    decreases |p.dateSetup.dates| - lo
  {
    if lo < |p.dateSetup.dates| {
      TopsDownToAt(alg, p, lo + 1);
    }
  }

  // ---------------------------------------------------------------------
  // The six algorithms

  method CalendarValuesForYear(p: CalendarProps) returns (top: seq<TopEntry>, bottom: seq<Label>)
    ensures Output(YearValues, p, top, bottom)
  {
    var dates := p.dateSetup.dates;
    top, bottom := [], [];
    var topDefaultHeight := p.headerHeight;
    for i := 0 to |dates|
      invariant bottom == LabelsUpTo(YearValues, p, i)
      invariant top == TopsUpTo(YearValues, p, i)
    {
      var date := dates[i];
      var bottomValue := p.helpers.numberText(date.year);
      var bottomLabel := Label(bottomValue, (i as real) + 0.5, p.headerHeight * 0.8);
      bottom := bottom + [bottomLabel];
      if i == 0 || date.year != dates[i - 1].year {
        var topValue := p.helpers.numberText(date.year);
        var xText := if p.rtl then (6 + i + date.year + 1) as real else (6 + i - date.year) as real;
        var entry := TopEntry(topValue, i as real, 0.0, p.headerHeight, xText, topDefaultHeight * 0.9);
        top := top + [entry];
      }
    }
    LabelsUpToAt(YearValues, p, |dates|);
    TopsUpToAt(YearValues, p, |dates|);
  }

  method CalendarValuesForMonth(p: CalendarProps) returns (top: seq<TopEntry>, bottom: seq<Label>)
    ensures Output(MonthValues, p, top, bottom)
  {
    var dates := p.dateSetup.dates;
    top, bottom := [], [];
    var topDefaultHeight := p.headerHeight * 0.5;
    for i := 0 to |dates|
      invariant bottom == LabelsUpTo(MonthValues, p, i)
      invariant top == TopsUpTo(MonthValues, p, i)
    {
      var date := dates[i];
      var bottomValue := p.helpers.localeMonth(date);
      var bottomLabel := Label(bottomValue, (i as real) + 0.5, p.headerHeight * 0.8);
      bottom := bottom + [bottomLabel];
      if i == 0 || date.year != dates[i - 1].year {
        var topValue := p.helpers.numberText(date.year);
        var xText := if p.rtl then (6 + i + date.month + 1) as real else (6 + i - date.month) as real;
        var entry := TopEntry(topValue, i as real, 0.0, topDefaultHeight, xText, topDefaultHeight * 0.9);
        top := top + [entry];
      }
    }
    LabelsUpToAt(MonthValues, p, |dates|);
    TopsUpToAt(MonthValues, p, |dates|);
  }

  method CalendarValuesForWeek(p: CalendarProps) returns (top: seq<TopEntry>, bottom: seq<Label>)
    ensures Output(WeekValues, p, top, bottom)
  {
    var dates := p.dateSetup.dates;
    top, bottom := [], [];
    var weeksCount := 1;
    var topDefaultHeight := p.headerHeight * 0.5;
    var i := |dates| - 1;
    while i >= 0
      invariant -1 <= i < |dates|
      invariant bottom == LabelsDownTo(WeekValues, p, i + 1)
      invariant top == TopsDownTo(WeekValues, p, i + 1)
      invariant 0 <= i ==> weeksCount == NextStart(MonthOfYear, dates, i) - i
    {
      var date := dates[i];
      var topValue := "";
      if i == 0 || date.month != dates[i - 1].month {
        topValue := p.helpers.localeMonth(date) + ", " + p.helpers.numberText(date.year);
      }
      var bottomValue := "W" + p.helpers.weekNumberISO8601(date);
      var bottomLabel := Label(bottomValue, (i + RtlShift(p.rtl)) as real, p.headerHeight * 0.8);
      bottom := bottom + [bottomLabel];
      if topValue != "" {
        if i != |dates| - 1 {
          var entry := TopEntry(topValue, (i + weeksCount) as real, 0.0, topDefaultHeight,
                                 (i as real) + (weeksCount as real) * 0.5, topDefaultHeight * 0.9);
          top := top + [entry];
        }
        weeksCount := 0;
      }
      weeksCount := weeksCount + 1;
      i := i - 1;
    }
    LabelsDownToAt(p, 0);
    TopsDownToAt(WeekValues, p, 0);
  }

  method CalendarValuesForDay(p: CalendarProps) returns (top: seq<TopEntry>, bottom: seq<Label>)
    ensures Output(DayValues, p, top, bottom)
  {
    var dates := p.dateSetup.dates;
    top, bottom := [], [];
    var topDefaultHeight := p.headerHeight * 0.5;
    for i := 0 to |dates|
      invariant bottom == LabelsUpTo(DayValues, p, i)
      invariant top == TopsUpTo(DayValues, p, i)
    {
      var date := dates[i];
      var bottomValue := p.helpers.localDayOfWeek(date, Short) + ", " + p.helpers.numberText(date.day);
      var bottomLabel := Label(bottomValue, (i as real) + 0.5, p.headerHeight * 0.8);
      bottom := bottom + [bottomLabel];
      if i + 1 != |dates| && date.month != dates[i + 1].month {
        var topValue := p.helpers.localeMonth(date);
        var entry := TopEntry(topValue, (i + 1) as real, 0.0, topDefaultHeight,
                               ((i + 1) as real) - (p.helpers.daysInMonth(date.month, date.year) as real) * 0.5,
                               topDefaultHeight * 0.9);
        top := top + [entry];
      }
    }
    LabelsUpToAt(DayValues, p, |dates|);
    TopsUpToAt(DayValues, p, |dates|);
  }

  method CalendarValuesForPartOfDay(p: CalendarProps) returns (top: seq<TopEntry>, bottom: seq<Label>)
    ensures Output(PartOfDayValues, p, top, bottom)
  {
    var dates := p.dateSetup.dates;
    top, bottom := [], [];
    var ticks := if p.viewMode == HalfDay then 2 else 4;
    var topDefaultHeight := p.headerHeight * 0.5;
    for i := 0 to |dates|
      invariant bottom == LabelsUpTo(PartOfDayValues, p, i)
      invariant top == TopsUpTo(PartOfDayValues, p, i)
    {
      var date := dates[i];
      var bottomValue := p.helpers.hourNumeric(date);
      var bottomLabel := Label(bottomValue, (i + RtlShift(p.rtl)) as real, p.headerHeight * 0.8);
      bottom := bottom + [bottomLabel];
      if i == 0 || date.day != dates[i - 1].day {
        var topValue := p.helpers.localDayOfWeek(date, Short) + ", " + p.helpers.numberText(date.day) + " " + p.helpers.localeMonth(date);
        var entry := TopEntry(topValue, (i + ticks) as real, 0.0, topDefaultHeight,
                               (i as real) + (ticks as real) * 0.5, topDefaultHeight * 0.9);
        top := top + [entry];
      }
    }
    LabelsUpToAt(PartOfDayValues, p, |dates|);
    TopsUpToAt(PartOfDayValues, p, |dates|);
  }

  method CalendarValuesForHour(p: CalendarProps) returns (top: seq<TopEntry>, bottom: seq<Label>)
    ensures Output(HourValues, p, top, bottom)
  {
    var dates := p.dateSetup.dates;
    top, bottom := [], [];
    var topDefaultHeight := p.headerHeight * 0.5;
    for i := 0 to |dates|
      invariant bottom == LabelsUpTo(HourValues, p, i)
      invariant top == TopsUpTo(HourValues, p, i)
    {
      var date := dates[i];
      var bottomValue := p.helpers.hourNumeric(date);
      var bottomLabel := Label(bottomValue, (i + RtlShift(p.rtl)) as real, p.headerHeight * 0.8);
      bottom := bottom + [bottomLabel];
      if i != 0 && date.day != dates[i - 1].day {
        var displayDate := dates[i - 1];
        var topValue := p.helpers.localDayOfWeek(displayDate, Long) + ", " + p.helpers.numberText(displayDate.day)
                        + " " + p.helpers.localeMonth(displayDate);
        var topPosition := ((date.hour - 24) as real) / 2.0;
        var entry := TopEntry(topValue, i as real, 0.0, topDefaultHeight,
                               (i as real) + topPosition, topDefaultHeight * 0.9);
        top := top + [entry];
      }
    }
    LabelsUpToAt(HourValues, p, |dates|);
    TopsUpToAt(HourValues, p, |dates|);
  }

  /** The header: the algorithm the date setup's view mode selects, which
      draws exactly one bottom label per axis date. */
  method CalendarValues(p: CalendarProps) returns (top: seq<TopEntry>, bottom: seq<Label>)
    ensures Output(AlgorithmFor(p.dateSetup.viewMode), p, top, bottom)
    ensures |bottom| == |p.dateSetup.dates|
  {
    match p.dateSetup.viewMode
    case Year =>
      top, bottom := CalendarValuesForYear(p);
    case Month =>
      top, bottom := CalendarValuesForMonth(p);
    case Week =>
      top, bottom := CalendarValuesForWeek(p);
    case HalfDay =>
      top, bottom := CalendarValuesForPartOfDay(p);
    case Hour =>
      top, bottom := CalendarValuesForHour(p);
    case _ =>
      top, bottom := CalendarValuesForDay(p);
  }
}
