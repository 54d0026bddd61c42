# Gantt chart date header

This is a model of the date header that `gantt-task-react` draws above its Gantt chart. The component is `src/components/calendar/calendar.tsx`. It takes these inputs:

- the chart's axis dates (one column per date);
- a zoom level (view mode);
- the column width, the header height and a right-to-left flag.

From them it computes two sequences:

- **bottom labels**: one text per axis date;
- **top entries**: a caption, plus the vertical divider line drawn beside it. These appear only where the dates cross a boundary: a new year, a new month or a new day, depending on the zoom level.

There are six algorithms, one per zoom level: year, month, week, day, part-of-day and hour. A switch on the date setup's view mode picks one. Each algorithm is a single loop that pushes entries onto two arrays. The week algorithm walks the dates from the last one down and keeps a run-length counter, `weeksCount`.

The model keeps that imperative form. Each algorithm is a Dafny method whose loop appends to two sequences, and each method is proved against the predicate `Calendar.Output`, which states:

- the k-th bottom label is the label of the k-th date the loop visits (`Bottom`);
- the top entries are, in the order the loop visits them, the entries (`Top`) of exactly the dates that satisfy the algorithm's boundary rule (`TopRule`, `TopIndices`).

The lemmas in `CalendarProperties` are stated about `Output`. They cover how many captions each view draws, where dividers and captions land, and that labels stay inside the header.

Modules:

- `Dates` (`dates.dfy`): axis dates, view modes and the date helpers.
- `Boundaries` (`boundaries.dfy`): the four boundary rules; the boundary indices in ascending and descending order; the next month start; and the counting lemmas.
- `Calendar` (`calendar.dfy`): the props, the label and top-entry values, the per-date entry functions, the six algorithms and the switch.
- `CalendarProperties` (`properties.dfy`): the properties of the header.

Conventions of the model:

- **Dates.** An axis date is the tuple of fields the header reads: `getFullYear`, `getMonth` (0 to 11), `getDate` and `getHours`.
- **Helpers.** The locale-dependent helpers are arrow-typed fields of `Dates.DateHelpers`, already bound to the chart's locale. They are `getLocaleMonth`, `getLocalDayOfWeek`, `getCachedDateTimeFormat(locale, {hour: 'numeric'}).format`, `getWeekNumberISO8601` (whose text the week label appends to "W" as it is) and `getDaysInMonth`. One more field, `numberText`, is the decimal text JavaScript gives a whole number in a template literal, in `toString` or as a JSX child. All of these are taken as given functions.
- **Horizontal positions are measured in columns.** Every x the component computes is `columnWidth` times a quantity that depends only on the dates, the right-to-left flag, the `viewMode` prop (through `ticks`, calendar.tsx:212) and `getDaysInMonth` (the day caption, calendar.tsx:199). The model stores that quantity: a label at `columnWidth * i + columnWidth * 0.5` is stored as `i + 0.5`. `Calendar.Pixels` multiplies it back by the column width. `CalendarProperties.PixelFormulas` shows that this gives all fourteen horizontal expressions as the source writes them.
- **Numbers.** Vertical positions and column counts are exact `real`s.

Behaviour of the code worth knowing:

- **`ticks` reads a different view mode from the switch.** The switch (calendar.tsx:304) reads `dateSetup.viewMode`; the part-of-day caption width `ticks` (calendar.tsx:212) reads the separate `viewMode` prop. The 4-column branch is taken whenever the two disagree. `Ticks` models it, and `CalendarProperties.PartOfDayCaptionSpan` shows that the span is 2 columns whenever they agree.
- **The hour view has its own algorithm.** `ViewMode.Hour` selects `getCalendarValuesForHour` (calendar.tsx:317-318), which captions the day that just ended.
- **Every mode without a case falls back to the day algorithm** (calendar.tsx:320-321). This includes `QuarterDay`.
- **The year view's caption position counts the year itself as columns** (calendar.tsx:55-59). In a left-to-right chart the caption at column `i` lands left of the header once the year exceeds 6 + i, and in a right-to-left chart beyond its right edge once the year exceeds the column count minus 7 minus i; with present-day years both hold unless the chart has thousands of columns. `CalendarProperties.YearCaptionOutsideHeader` states where it lands. The model keeps the formula as written.
- **Year captions count runs of equal years** (calendar.tsx:52, 93). On any input the year and month views draw one caption per run (`YearCaptionCount`). That is one caption per distinct year whenever the years run one way, oldest first or latest first (`OneCaptionPerYear`), in particular for dates in chronological order or its reverse (`OneCaptionPerYearInOrder`). A year whose dates are split into separate runs gets one caption per run.

## Model

| member | source | states |
|---|---|---|
| Calendar.AlgorithmFor | src/components/calendar/calendar.tsx:304-322 | each of Year, Month, Week, HalfDay and Hour selects its own algorithm, and a mode selects the day algorithm exactly when it is Day or a mode with no case of its own (QuarterDay) |
| Calendar.Ticks | src/components/calendar/calendar.tsx:212 | a part-of-day caption spans 2 or 4 columns, and 2 exactly when the view-mode prop is HalfDay |
| Calendar.HeaderWidth | src/components/calendar/calendar.tsx:328 | the header rectangle is one column wide per axis date: zero wide with no dates, never negative for a non-negative column width |
| Calendar.TopRuleTests | src/components/calendar/calendar.tsx:52-277 | each algorithm's boundary rule is exactly the test its loop makes: a change of year from the previous date or the first date (year, month), a change of month from the previous date or the first date but not the last date (week), a change of month to the next date (day), a change of day from the previous date or the first date (part of day), a change of day from the previous date after the first (hour) |
| Calendar.TopIndices | src/components/calendar/calendar.tsx:52-296 | a date gets a top entry exactly when it satisfies the algorithm's boundary rule; entries come in decreasing date order for the week algorithm and increasing order for all others |
| Calendar.LabelsUpTo | src/components/calendar/calendar.tsx:39-51 | after an upward loop has visited `hi` dates it has pushed `hi` bottom labels |
| Calendar.LabelsDownTo | src/components/calendar/calendar.tsx:123-142 | after the downward week loop has visited the dates from the last one down to `lo`, it has pushed one label per visited date |
| Calendar.LabelsUpToAt | src/components/calendar/calendar.tsx:80-92 | the labels an upward loop pushes are, in order, the labels of dates 0, 1, 2, … |
| Calendar.LabelsDownToAt | src/components/calendar/calendar.tsx:123-142 | the week loop's k-th label belongs to date n - 1 - k |
| Calendar.TopsUpToAt | src/components/calendar/calendar.tsx:171-204 | the entries an upward loop pushes are those of the boundaries it has passed, in increasing date order |
| Calendar.TopsDownToAt | src/components/calendar/calendar.tsx:123-162 | the entries the week loop pushes are those of the boundaries it has passed, in decreasing date order |
| Calendar.CalendarValuesForYear | src/components/calendar/calendar.tsx:35-74 | one year label per date in date order, and a year caption with its full-height divider at the first date and at every change of year |
| Calendar.CalendarValuesForMonth | src/components/calendar/calendar.tsx:76-115 | one month label per date in date order, and a year caption with its half-height divider at the first date and at every change of year |
| Calendar.CalendarValuesForWeek | src/components/calendar/calendar.tsx:117-164 | one ISO-week label per date from the last date down; a month caption at every month start other than the last date, from the last start down; `weeksCount` stays the distance to the next month start (loop invariant), so the divider stands where the next month begins |
| Calendar.CalendarValuesForDay | src/components/calendar/calendar.tsx:166-207 | one weekday-and-day label per date in date order, and a month caption at every date whose successor is in another month |
| Calendar.CalendarValuesForPartOfDay | src/components/calendar/calendar.tsx:209-253 | one hour label per date in date order, and a day caption spanning `ticks` columns at the first date and at every change of day |
| Calendar.CalendarValuesForHour | src/components/calendar/calendar.tsx:255-300 | one hour label per date in date order, and at every change of day after the first date a caption of the previous date's day |
| Calendar.CalendarValues | src/components/calendar/calendar.tsx:302-322 | the header is the output of the algorithm the date setup's view mode selects, with exactly one bottom label per axis date |
| Boundaries.Ascending | src/components/calendar/calendar.tsx:39-71 | the boundaries below `hi`, each once, strictly increasing |
| Boundaries.Descending | src/components/calendar/calendar.tsx:123-158 | the boundaries at `lo` or above, each once, strictly decreasing |
| Boundaries.NextStart | src/components/calendar/calendar.tsx:120-161 | the first month start after `i`, or the number of dates when there is none; always greater than `i`, with no start in between |
| Boundaries.NextStartRun | src/components/calendar/calendar.tsx:144-161 | every date from `i` up to the next start has the field value of date `i` |
| Boundaries.ChangeCount | src/components/calendar/calendar.tsx:277-296 | a change rule selects exactly as many dates as there are neighbouring pairs that differ |
| Boundaries.StartCount | src/components/calendar/calendar.tsx:52-71 | on non-empty dates, a start rule selects one date more than there are neighbouring pairs that differ |
| Boundaries.EndCount | src/components/calendar/calendar.tsx:187-204 | the look-ahead rule selects as many dates as there are neighbouring pairs that differ |
| Boundaries.StartBeforeLastCount | src/components/calendar/calendar.tsx:126-158 | the starts other than the last date, plus one when the last date is a start, are one more than the changes |
| Boundaries.SplitCount | src/components/calendar/calendar.tsx:123-162 | the boundaries at or above `lo` and those below it together are all the boundaries |
| Boundaries.DistinctValuesCount | src/components/calendar/calendar.tsx:52-71 | when the field runs one way (never decreases, or never increases), the number of distinct values is one more than the number of changes |
| Boundaries.LastValueNew | src/components/calendar/calendar.tsx:52-71 | on values that run one way, a date that differs from its predecessor has a value no earlier date has |
| Boundaries.ValuesGrow | src/components/calendar/calendar.tsx:52-71 | on values that run one way, a date that differs from its predecessor adds exactly one distinct value |
| Boundaries.ValuesKeep | src/components/calendar/calendar.tsx:52-71 | a date equal in the field to its predecessor brings no new value |
| Boundaries.ChronologicalYears | src/components/calendar/calendar.tsx:93-112 | chronological dates never go back a year |
| Boundaries.ReversedChronologicalYears | src/components/calendar/calendar.tsx:93-112 | dates laid out latest first never go forward a year |
| CalendarProperties.YearCaptionCount | src/components/calendar/calendar.tsx:52-70 | the year and month views draw one caption more than there are changes of year between neighbouring dates |
| CalendarProperties.OneCaptionPerYear | src/components/calendar/calendar.tsx:93-111 | when the years run one way (oldest first or latest first) the year and month views caption each distinct year exactly once |
| CalendarProperties.OneCaptionPerYearInOrder | src/components/calendar/calendar.tsx:52-70 | on dates in chronological order or its reverse the year and month views caption each distinct year exactly once |
| CalendarProperties.WeekCaptionCount | src/components/calendar/calendar.tsx:126-158 | the week view captions every month start except one at the last date |
| CalendarProperties.DayCaptionCount | src/components/calendar/calendar.tsx:187-203 | the day view draws one caption per change of month between neighbouring dates, never one at the last date |
| CalendarProperties.PartOfDayCaptionCount | src/components/calendar/calendar.tsx:232-248 | the part-of-day view draws one caption more than there are changes of day |
| CalendarProperties.HourCaptionCount | src/components/calendar/calendar.tsx:277-294 | the hour view draws one caption per change of day, none at the first date |
| CalendarProperties.OutputIsDetermined | src/components/calendar/calendar.tsx:35-300 | two outputs of the same algorithm on the same props are equal |
| CalendarProperties.WeekCaptionSpansMonth | src/components/calendar/calendar.tsx:144-161 | the week view's divider stands where the next month starts (or at the right edge), the caption is centred between month start and divider, and every column in between belongs to the same month |
| CalendarProperties.DayCaptionCentredOnMonth | src/components/calendar/calendar.tsx:187-203 | the day view's divider is at the right edge of the month's last date, and the caption is centred over as many columns to its left as the month has days |
| CalendarProperties.PartOfDayCaptionSpan | src/components/calendar/calendar.tsx:212-245 | the part-of-day caption is centred over a span of `ticks` columns from its date, 2 columns when the view-mode prop agrees with the date setup |
| CalendarProperties.HourCaptionForEndedDay | src/components/calendar/calendar.tsx:277-294 | the hour view's divider stands at the first hour of the new day; at midnight the caption is centred over the 24 columns before it |
| CalendarProperties.MonthCaptionCentredOnYear | src/components/calendar/calendar.tsx:96-100 | in a left-to-right month view the year caption is centred on the twelve columns starting where January of that year is (or would be) |
| CalendarProperties.YearCaptionOutsideHeader | src/components/calendar/calendar.tsx:55-59 | the year view's caption at column `i` lies left of the header once the year exceeds 6 + i (left to right), and beyond the header's right edge once the year exceeds the column count minus 7 minus i (right to left) |
| CalendarProperties.BottomLabelInsideHeader | src/components/calendar/calendar.tsx:42-331 | every bottom label of every algorithm lies within the header's columns, and within the header rectangle for a non-negative column width, and stands at 0.8 of the header height |
| CalendarProperties.LabelsInsideHeader | src/components/calendar/calendar.tsx:325-332 | every bottom label an algorithm pushes lies within the header's columns |
| CalendarProperties.DividerInsideHeader | src/components/calendar/calendar.tsx:64-289 | every divider other than the part-of-day view's lies within the header's columns |
| CalendarProperties.PixelFormulas | src/components/calendar/calendar.tsx:46-292 | every horizontal position of the six algorithms (bottom-label x, divider x1Line and caption xText), held in columns and scaled by the column width, equals the pixel expression of the source, including the right-to-left variants |
| CalendarProperties.VerticalLayout | src/components/calendar/calendar.tsx:60-293 | every divider starts at the top edge and reaches the full header height in the year view and half of it in the others; every caption sits at 0.9 of its divider's length |

## Left out

- JSX element construction, React `key` values, CSS class names and the `fontFamily`/`fontSize` attributes are not modelled; they only style what is drawn.
- `TopPartOfCalendar`, which draws a top entry, is not part of this model; a top entry is the tuple of values passed to it.
- The bodies of the date helpers are not modelled: `getLocaleMonth`, `getLocalDayOfWeek`, `getCachedDateTimeFormat`, `getWeekNumberISO8601` and `getDaysInMonth`, plus JavaScript's number-to-text conversion. They depend on locale data and `Intl`, and are parameters of the model.
- JavaScript `Date` semantics are not modelled: time zones, `getTime` and deriving fields from an epoch. A date is its already-split fields.
- The `ViewMode` enumeration is not part of this model. The model takes its members to be Hour, QuarterDay, HalfDay, Day, Week, Month and Year.
- Floating-point rounding is not modelled. Positions are exact reals, because the code only multiplies and halves.
- Calendar.CalendarValues: horizontal positions are stated in columns, not pixels; `Pixels` and `PixelFormulas` relate the two.
- CalendarProperties.OneCaptionPerYear: requires the years to run one way; when a year's dates form separate runs, each run is captioned, and YearCaptionCount gives the count for any input.
