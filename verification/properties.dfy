/** What the header algorithms promise about the entries they draw: how many
    captions each view shows, where dividers and captions land, and that the
    bottom labels stay inside the header rectangle. */
module CalendarProperties {
  import opened Dates
  import opened Boundaries
  import opened Calendar

  // ---------------------------------------------------------------------
  // How many captions each view draws

  /** Year and month views: a year caption at the first date and at every
      change of year. */
  lemma YearCaptionCount(alg: Algorithm, p: CalendarProps, top: seq<TopEntry>, bottom: seq<Label>)
    requires alg == YearValues || alg == MonthValues
    requires Output(alg, p, top, bottom) && |p.dateSetup.dates| >= 1
    ensures |top| == 1 + AdjacentChanges(FullYear, p.dateSetup.dates)
  {
    StartCount(FullYear, p.dateSetup.dates);
  }

  /** When the years run one way (oldest first, or latest first as a
      right-to-left chart lays them out), the year and month views caption
      each year exactly once. */
  lemma OneCaptionPerYear(alg: Algorithm, p: CalendarProps, top: seq<TopEntry>, bottom: seq<Label>)
    requires alg == YearValues || alg == MonthValues
    requires Output(alg, p, top, bottom) && Monotone(FullYear, p.dateSetup.dates)
    ensures |top| == |Values(FullYear, p.dateSetup.dates)|
  {
    var dates := p.dateSetup.dates;
    if |dates| == 0 {
      assert Values(FullYear, dates) == {};
    } else {
      YearCaptionCount(alg, p, top, bottom);
      DistinctValuesCount(FullYear, dates);
    }
  }

  /** The axis dates in chronological order, or in reverse, are captioned
      once per year. */
  lemma OneCaptionPerYearInOrder(alg: Algorithm, p: CalendarProps, top: seq<TopEntry>, bottom: seq<Label>)
    requires alg == YearValues || alg == MonthValues
    requires Output(alg, p, top, bottom)
    requires Chronological(p.dateSetup.dates) || Chronological(Reversed(p.dateSetup.dates))
    ensures |top| == |Values(FullYear, p.dateSetup.dates)|
  {
    var dates := p.dateSetup.dates;
    if Chronological(dates) {
      ChronologicalYears(dates);
    } else {
      ReversedChronologicalYears(dates);
    }
    OneCaptionPerYear(alg, p, top, bottom);
  }

  /** Week view: a month caption at every month start except one at the last
      date, whose month has no room to the right. */
  lemma WeekCaptionCount(p: CalendarProps, top: seq<TopEntry>, bottom: seq<Label>)
    requires Output(WeekValues, p, top, bottom) && |p.dateSetup.dates| >= 1
    ensures |top| + (if IsBoundary(Start(MonthOfYear), p.dateSetup.dates, |p.dateSetup.dates| - 1) then 1 else 0)
            == 1 + AdjacentChanges(MonthOfYear, p.dateSetup.dates)
  {
    StartBeforeLastCount(MonthOfYear, p.dateSetup.dates);
  }

  /** Day view: a month caption at every month end that is followed by
      another date, so none for the month that runs to the last date. */
  lemma DayCaptionCount(p: CalendarProps, top: seq<TopEntry>, bottom: seq<Label>)
    requires Output(DayValues, p, top, bottom)
    ensures |top| == AdjacentChanges(MonthOfYear, p.dateSetup.dates)
  {
    EndCount(MonthOfYear, p.dateSetup.dates);
  }

  /** Half-day view: a day caption at the first date and at every change of day. */
  lemma PartOfDayCaptionCount(p: CalendarProps, top: seq<TopEntry>, bottom: seq<Label>)
    requires Output(PartOfDayValues, p, top, bottom) && |p.dateSetup.dates| >= 1
    ensures |top| == 1 + AdjacentChanges(DayOfMonth, p.dateSetup.dates)
  {
    StartCount(DayOfMonth, p.dateSetup.dates);
  }

  /** Hour view: a caption of the day just ended at every change of day. */
  lemma HourCaptionCount(p: CalendarProps, top: seq<TopEntry>, bottom: seq<Label>)
    requires Output(HourValues, p, top, bottom)
    ensures |top| == AdjacentChanges(DayOfMonth, p.dateSetup.dates)
  {
    ChangeCount(DayOfMonth, p.dateSetup.dates);
  }

  /** The header is a function of its inputs: two outputs of the same
      algorithm on the same props are the same. */
  lemma OutputIsDetermined(alg: Algorithm, p: CalendarProps, top1: seq<TopEntry>, bottom1: seq<Label>,
                           top2: seq<TopEntry>, bottom2: seq<Label>)
    requires Output(alg, p, top1, bottom1) && Output(alg, p, top2, bottom2)
    ensures top1 == top2 && bottom1 == bottom2
  {
  }

  // ---------------------------------------------------------------------
  // Where dividers and captions land

  /** Week view: the divider of the month starting at `i` stands where the
      next month starts (the right edge when the month runs to the end), every
      column before it belongs to the same month, and the caption is centred
      between the month's start and its divider. */
  lemma WeekCaptionSpansMonth(p: CalendarProps, i: nat)
    requires IsBoundary(StartBeforeLast(MonthOfYear), p.dateSetup.dates, i)
    ensures var dates := p.dateSetup.dates;
            var next := NextStart(MonthOfYear, dates, i);
            && WeekTop(p, i).x1Line == next as real
            && WeekTop(p, i).xText == ((i as real) + (next as real)) / 2.0
            && (forall j :: i <= j < next ==> dates[j].month == dates[i].month)
            && (next < |dates| ==> dates[next].month != dates[next - 1].month)
  {
    NextStartRun(MonthOfYear, p.dateSetup.dates, i);
  }

  /** Day view: the divider stands at the right edge of the month's last
      date, and the caption is centred over as many columns to its left as
      the month has days. */
  lemma DayCaptionCentredOnMonth(p: CalendarProps, i: nat)
    requires IsBoundary(EndOfRun(MonthOfYear), p.dateSetup.dates, i)
    ensures var date := p.dateSetup.dates[i];
            var monthStart := (i + 1 - p.helpers.daysInMonth(date.month, date.year)) as real;
            && DayTop(p, i).x1Line == (i + 1) as real
            && DayTop(p, i).xText == (monthStart + DayTop(p, i).x1Line) / 2.0
            && p.dateSetup.dates[i + 1].month != date.month
  {
  }

  /** Half-day view: the caption of the day starting at `i` spans `ticks`
      columns, two when the view-mode prop agrees with the date setup. */
  lemma PartOfDayCaptionSpan(p: CalendarProps, i: nat)
    requires IsBoundary(Start(DayOfMonth), p.dateSetup.dates, i)
    requires AlgorithmFor(p.dateSetup.viewMode) == PartOfDayValues
    ensures PartOfDayTop(p, i).x1Line == (i + Ticks(p.viewMode)) as real
    ensures PartOfDayTop(p, i).xText == ((i as real) + PartOfDayTop(p, i).x1Line) / 2.0
    ensures p.viewMode == p.dateSetup.viewMode ==> PartOfDayTop(p, i).x1Line == (i + 2) as real
  {
  }

  /** Hour view: the divider stands at the first hour of the new day, and when
      that hour is midnight the caption of the day that ended is centred over
      the 24 columns before the divider. */
  lemma HourCaptionForEndedDay(p: CalendarProps, i: nat)
    requires IsBoundary(Change(DayOfMonth), p.dateSetup.dates, i)
    ensures HourTop(p, i).x1Line == i as real
    ensures p.dateSetup.dates[i - 1].day != p.dateSetup.dates[i].day
    ensures p.dateSetup.dates[i].hour == 0 ==>
              HourTop(p, i).xText == (((i - 24) as real) + HourTop(p, i).x1Line) / 2.0
  {
  }

  /** Month view: a year caption sits six columns right of the column where
      January of that year is, or would be, drawn: the middle of those twelve
      months. */
  lemma MonthCaptionCentredOnYear(p: CalendarProps, i: nat)
    requires IsBoundary(Start(FullYear), p.dateSetup.dates, i) && !p.rtl
    ensures var january := (i - p.dateSetup.dates[i].month) as real;
            MonthTop(p, i).xText == (january + (january + 12.0)) / 2.0
  {
  }

  /** Year view: the caption's position counts the year itself as columns, so
      in a left-to-right chart every year after 6 + i puts it left of the
      header, and in a right-to-left chart every year above |dates| - 7 - i
      puts it beyond the header's right edge. */
  lemma YearCaptionOutsideHeader(p: CalendarProps, i: nat)
    requires IsBoundary(Start(FullYear), p.dateSetup.dates, i)
    ensures var year := p.dateSetup.dates[i].year;
            && (!p.rtl && year > 6 + i ==> YearTop(p, i).xText < 0.0)
            && (p.rtl && year > |p.dateSetup.dates| - 7 - i ==> YearTop(p, i).xText > |p.dateSetup.dates| as real)
  {
  }

  /** Every bottom label lies within the columns of the header, and so, for a
      non-negative column width, within its rectangle; it stands at 0.8 of
      the header height. */
  lemma BottomLabelInsideHeader(alg: Algorithm, p: CalendarProps, i: nat)
    requires i < |p.dateSetup.dates|
    ensures 0.0 <= Bottom(alg, p, i).x <= |p.dateSetup.dates| as real
    ensures p.columnWidth >= 0.0 ==> 0.0 <= Pixels(p, Bottom(alg, p, i).x) <= HeaderWidth(p)
    ensures Bottom(alg, p, i).y == p.headerHeight * 0.8
  {
    var x := Bottom(alg, p, i).x;
    var n := |p.dateSetup.dates| as real;
    assert 0.0 <= x <= n;
    if p.columnWidth >= 0.0 {
      assert p.columnWidth * x <= p.columnWidth * n;
    }
  }

  /** All labels an algorithm draws lie within the header's columns. */
  lemma LabelsInsideHeader(alg: Algorithm, p: CalendarProps, top: seq<TopEntry>, bottom: seq<Label>)
    requires Output(alg, p, top, bottom)
    ensures forall k :: 0 <= k < |bottom| ==> 0.0 <= bottom[k].x <= |p.dateSetup.dates| as real
  {
    var n := |p.dateSetup.dates|;
    forall k | 0 <= k < |bottom|
      ensures 0.0 <= bottom[k].x <= n as real
    {
      BottomLabelInsideHeader(alg, p, BottomDate(alg, n, k));
    }
  }

  /** Every divider except the half-day view's stands within the header's
      columns; a half-day caption that starts near the end reaches past it. */
  lemma DividerInsideHeader(alg: Algorithm, p: CalendarProps, i: nat)
    requires IsBoundary(TopRule(alg), p.dateSetup.dates, i) && alg != PartOfDayValues
    ensures 0.0 <= Top(alg, p, i).x1Line <= |p.dateSetup.dates| as real
  {
  }

  /** The pixel coordinates the header draws, written as the source writes
      them: every horizontal position of every algorithm, scaled from columns
      by the column width. */
  lemma PixelFormulas(p: CalendarProps, i: nat, weeksCount: int)
    requires i < |p.dateSetup.dates|
    ensures var cw := p.columnWidth;
            var date := p.dateSetup.dates[i];
            var rtl := RtlShift(p.rtl);
            var ticks := Ticks(p.viewMode) as real;
            // bottom labels: year, month and day views, then week, half-day and hour views
            && Pixels(p, CentredX(i)) == cw * (i as real) + cw * 0.5
            && Pixels(p, EdgeX(p, i)) == cw * ((i + rtl) as real)
            // year view
            && Pixels(p, YearTop(p, i).x1Line) == cw * (i as real)
            && Pixels(p, YearTop(p, i).xText)
               == (if p.rtl then ((6 + i + date.year + 1) as real) * cw else ((6 + i - date.year) as real) * cw)
            // month view
            && Pixels(p, MonthTop(p, i).x1Line) == cw * (i as real)
            && Pixels(p, MonthTop(p, i).xText)
               == (if p.rtl then ((6 + i + date.month + 1) as real) * cw else ((6 + i - date.month) as real) * cw)
            // week view, for the run length weeksCount the loop holds
            && Pixels(p, WeekCaption(p, i, weeksCount).x1Line) == cw * (i as real) + (weeksCount as real) * cw
            && Pixels(p, WeekCaption(p, i, weeksCount).xText) == cw * (i as real) + cw * (weeksCount as real) * 0.5
            // day view
            && Pixels(p, DayTop(p, i).x1Line) == cw * ((i + 1) as real)
            && Pixels(p, DayTop(p, i).xText)
               == cw * ((i + 1) as real) - (p.helpers.daysInMonth(date.month, date.year) as real) * cw * 0.5
            // half-day view
            && Pixels(p, PartOfDayTop(p, i).x1Line) == cw * (i as real) + ticks * cw
            && Pixels(p, PartOfDayTop(p, i).xText) == cw * (i as real) + ticks * cw * 0.5
            // hour view
            && (0 < i ==> Pixels(p, HourTop(p, i).x1Line) == cw * (i as real))
            && (0 < i ==> Pixels(p, HourTop(p, i).xText) == cw * ((i as real) + ((date.hour - 24) as real) / 2.0))
  {
    var cw := p.columnWidth;
    var date := p.dateSetup.dates[i];
    var ticks := Ticks(p.viewMode) as real;
    var days := p.helpers.daysInMonth(date.month, date.year) as real;
    assert cw * ((i as real) + 0.5) == cw * (i as real) + cw * 0.5;
    assert cw * ((i as real) + (weeksCount as real) * 0.5) == cw * (i as real) + cw * (weeksCount as real) * 0.5;
    assert cw * ((i as real) + ticks) == cw * (i as real) + ticks * cw;
    assert cw * ((i as real) + ticks * 0.5) == cw * (i as real) + ticks * cw * 0.5;
    assert cw * (((i + 1) as real) - days * 0.5) == cw * ((i + 1) as real) - days * cw * 0.5;
  }

  /** Vertical layout of a top entry: every divider starts at the top edge
      and reaches the full height in the year view and half of it elsewhere,
      and its caption sits at 0.9 of the divider's length. */
  lemma VerticalLayout(alg: Algorithm, p: CalendarProps, i: nat)
    requires IsBoundary(TopRule(alg), p.dateSetup.dates, i)
    ensures Top(alg, p, i).y1Line == 0.0
    ensures Top(alg, p, i).y2Line == if alg == YearValues then p.headerHeight else p.headerHeight * 0.5
    ensures Top(alg, p, i).yText == Top(alg, p, i).y2Line * 0.9
  {
  }
}
