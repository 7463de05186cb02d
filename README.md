# Fantasy football season dashboard — verified model of the chart computations

This Dafny project models the computational core of a Dash/Plotly dashboard.
The dashboard compares three lineup records of one fantasy football team:

- the best lineup of the **drafted** roster;
- the best lineup of the **actual** roster;
- the lineup actually **started**.

A lineup record maps a week key (text) to that week's entry. An entry may
hold `starters`: a position name mapped to the list of players started
there, each with a name and points. Python dicts keep insertion order, so
every dict is modelled as an association list in that order. The backend's
JSON never repeats a key.

Modules, one per source file or shared concern:

- `Wrappers`, `Numbers`, `Sorting`, `Text`, `Records`: the values and helpers
  shared by every chart. These are `Option`/`Result`, sums and means, Python's
  `sorted` on distinct elements, `str(n)`/`int(s)`, string order, and the
  lineup record itself.
- `DataProcessor` (`app/utils/data_processor.py`): `process_weekly_data`
  re-keys a record by week number, sorts the weeks and totals each week's
  starters in a loop.
- `ChartMetrics`, `FillAreas`, `AnnotationPlacer`, `SeasonOverview`
  (`app/components/season_line_charts.py`):
  - the metrics of `fetch_chart_data`;
  - the roster fill areas, where a loop splits every week interval at the
    crossing of the two lines;
  - the lineup fill paths;
  - `position_annotations`, which works in place on the sorted values and
    is modelled on an `array`;
  - the `create_season_overview` dispatch on the view mode.
- `SeasonWaterfall` (`app/components/season_waterfall.py`): the season
  waterfall's averages, bars and reference lines. The transaction bar is
  drawn as the chart intends, from the draft average to the best average,
  which differs from the source's bar when the impact is negative (see
  "## Findings").
- `SummaryCards` (`app/components/summary_cards.py`): the season totals,
  weekly averages, impacts, efficiency, badge and icons.
- `WeeklyAnalysis` (`app/components/weekly_analysis_charts.py`): the loops
  that flatten and group one week's starters by position, the loops that fill
  the six parallel lists of the lineup decisions table, and the weekly
  waterfall.

Where the source raises, the model returns an error value:

- `int(key)` on a key that is not a number (ValueError);
- `data["starters"]` on an entry without starters (KeyError);
- division by zero weeks (ZeroDivisionError).

## Model

| member | source | states |
|---|---|---|
| Text.DecimalStringRoundTrip | app/components/weekly_analysis_charts.py:31 | `int(str(n)) == n`: the week key built from a week number parses back to it |
| Text.DecimalStringInjective | app/components/weekly_analysis_charts.py:137 | different numbers give different decimal strings |
| Text.LexIsStrictTotalOrder | app/components/weekly_analysis_charts.py:105-107 | Python's string `<` is a strict total order, so `sorted` on distinct strings is well defined |
| Sorting.SortCorrect | app/utils/data_processor.py:4 | sorting distinct elements gives a strictly ascending permutation of them |
| Records.StartersTotalByPosition | app/utils/data_processor.py:14-16 | the week total is the first position's subtotal plus the rest; an empty lineup totals 0 |
| Records.Find | app/components/weekly_analysis_charts.py:34-38 | `key in record` holds exactly when some entry has that key, and `record[key]` is that entry's value |
| DataProcessor.RekeyFailure | app/utils/data_processor.py:3 | the dict comprehension fails exactly when some key is not a number, and names the first such key |
| DataProcessor.RekeyTable | app/utils/data_processor.py:3 | when every key is a number, the re-keyed table holds each week once, with the entry of the last key denoting it |
| DataProcessor.ExtractsSomeWeek | app/utils/data_processor.py:3-8 | a non-empty record with numeric keys yields at least one week and one total |
| DataProcessor.ProcessWeeklyData | app/utils/data_processor.py:1-34 | fails iff a key is not a number (naming the first); otherwise weeks are the denoted numbers, strictly ascending, each with the total of its kept entry (0 without starters); no hover texts; an empty record gives empty lists |
| DataProcessor.PointsByWeek | app/utils/data_processor.py:8-17 | the loop over the sorted weeks yields one total per week, each the total of that week's entry |
| ChartMetrics.Efficiencies | app/components/season_line_charts.py:77-80 | zip-truncated; each efficiency is actual/best·100 when best > 0, else 0 |
| ChartMetrics.FetchChartData | app/components/season_line_charts.py:49-113 | weeks and points copied from the three extractions; weekly diffs are best − draft and efficiencies are lineup/best percentages, pointwise over the shorter list; the averages are the series' means and the efficiencies' mean; y_min and y_max are the axis bounds of all points, whose meaning AxisBounds states |
| ChartMetrics.AxisBounds | app/components/season_line_charts.py:89-92 | y_min is at most 80 and below 80% of every point, equal to 80 or to 80% of some point; y_max is 110% of the largest point |
| ChartMetrics.AxisShowsEveryPoint | app/components/season_line_charts.py:89-92 | with non-negative points, every point lies within [y_min, y_max] |
| ChartMetrics.EfficiencyIsPercentage | app/components/season_line_charts.py:77-80 | an efficiency whose actual points do not exceed the best lies in [0, 100] |
| ChartMetrics.WeeklyDiffsAverageToImpact | app/components/season_line_charts.py:72-87 | the mean weekly difference equals avg_actual_best − avg_draft |
| FillAreas.Reverse | app/components/season_line_charts.py:329-330 | `s[::-1]`: same length, element k is element n−1−k |
| FillAreas.CrossIffSignChange | app/components/season_line_charts.py:273-275 | the crossing test holds iff draft − actual changes strict sign over the interval |
| FillAreas.CrossingPoint | app/components/season_line_charts.py:277-289 | when the lines cross, `m1 != m2`, the intersection lies strictly inside (x1, x2) and on both lines |
| FillAreas.NoUnexpectedConfiguration | app/components/season_line_charts.py:312-324 | without a crossing the segment is positive or negative throughout, so the warning branch is unreachable |
| FillAreas.SegmentPiecesShape | app/components/season_line_charts.py:266-324 | each interval adds pieces whose lower edge stays below the upper edge and which stay inside the interval; two pieces of two points at a crossing, one otherwise; the piece ends take the right line values |
| FillAreas.BuffersWellFormed | app/components/season_line_charts.py:257-324 | the six buffers stay in lockstep, lower ≤ upper, inside the weeks spanned, with at least two points per interval |
| FillAreas.ClosedPathShape | app/components/season_line_charts.py:327-350 | the fill path goes forward along the upper edge and back along the lower edge, so it is closed and encloses the band |
| FillAreas.SplitSegment | app/components/season_line_charts.py:268-324 | one loop iteration's extends are exactly the pieces of the interval |
| FillAreas.AddFillAreasRoster | app/components/season_line_charts.py:254-364 | the loop builds the buffers of all intervals; each fill is present iff its buffer is non-empty and is a closed path; two or more weeks give at least one fill |
| FillAreas.FillBuffers | app/components/season_line_charts.py:257-324 | the loop over consecutive week pairs leaves exactly the positive and negative buffers of all the intervals |
| FillAreas.LineupFills | app/components/season_line_charts.py:522-559 | both fill paths have twice as many x values as weeks, with y values to match |
| FillAreas.LineupFillsSpan | app/components/season_line_charts.py:531-558 | over aligned weeks, the bench fill runs along best points out and lineup points back; the achieved fill runs along lineup points out and 0 back |
| AnnotationPlacer.BeforeIsStrictTotalOrder | app/components/season_line_charts.py:810 | ordering by (value, index) is a strict total order, which is what the stable sort by value produces |
| AnnotationPlacer.SortedOrder | app/components/season_line_charts.py:810 | `sorted_indices` is a permutation of the indices, ascending by value, ties by index |
| AnnotationPlacer.SortedValues | app/components/season_line_charts.py:811 | `sorted_positions` is non-decreasing |
| AnnotationPlacer.RelaxAt | app/components/season_line_charts.py:814-816 | the relaxation keeps the first value and raises each later one to its predecessor + gap exactly when closer than the gap |
| AnnotationPlacer.EnforceGap | app/components/season_line_charts.py:814-816 | the in-place loop over `sorted_positions` leaves exactly the relaxed sequence |
| AnnotationPlacer.PositionAnnotations | app/components/season_line_charts.py:795-823 | the result puts each relaxed sorted value back at its original index |
| AnnotationPlacer.ScatterBack | app/components/season_line_charts.py:819-823 | the position at sorted rank k is written back at index `sorted_indices[k]`, for every k |
| AnnotationPlacer.PlacementNeverLowers | app/components/season_line_charts.py:814-816 | no annotation moves down |
| AnnotationPlacer.PlacementKeepsMinimum | app/components/season_line_charts.py:810-816 | the lowest value (first among ties) stays where it was |
| AnnotationPlacer.PlacementKeepsGap | app/components/season_line_charts.py:814-821 | neighbours in sorted order end up at least min_gap apart |
| AnnotationPlacer.PlacementKeepsRank | app/components/season_line_charts.py:810-821 | a lower value (or an earlier tie, for a positive gap) stays strictly lower |
| AnnotationPlacer.PlacementSeparates | app/components/season_line_charts.py:795-823 | for a positive gap, any two annotations end up at least the gap apart |
| AnnotationPlacer.PlacementOfSeparated | app/components/season_line_charts.py:795-823 | values already pairwise gap apart are returned unchanged |
| AnnotationPlacer.PlacementExample | app/components/season_line_charts.py:795-823 | [100, 101, 102] with gap 7 becomes [100, 107, 114] |
| SeasonOverview.AddRosterComparisonElements | app/components/season_line_charts.py:116-156 | the roster view's traces: both lines, both fills, both averages, hover |
| SeasonOverview.BuildFigure | app/components/season_line_charts.py:16-46 | misaligned series fail; otherwise the figure shows the view's traces (none for an unknown mode), its labels, the lineup title for any mode but roster, and the ranges |
| SeasonOverview.Overview | app/components/season_line_charts.py:37-46 | on aligned data the figure shows the view: its title, traces, labels and axis ranges |
| SeasonOverview.XRange | app/components/season_line_charts.py:748 | the x axis runs from half a week before the first week to a week and a half after the last, so it is never empty |
| SeasonOverview.CreateSeasonOverview | app/components/season_line_charts.py:16-46 | a record with a non-numeric key fails; otherwise the figure is built from the fetched data and shows it |
| SeasonOverview.LabelsDoNotOverlap | app/components/season_line_charts.py:431-480 | the average labels of a shown figure are pairwise at least 7 points apart and never below the value they report |
| SeasonOverview.RangeShowsEverySeries | app/components/season_line_charts.py:704-762 | the y range contains every point of the three series when points are non-negative |
| SeasonWaterfall.TransactionBar | app/components/season_waterfall.py:82-96 | the transaction bar is |impact| high, green iff impact > 0 |
| SeasonWaterfall.CreateSeasonWaterfall | app/components/season_waterfall.py:15-159 | the three averages are the means; impact is best − draft; efficiency is lineup/best·100 when best > 0, else 0; the draft bar rises from 0 to the draft average; the transaction bar spans the draft and best averages (the corrected bar, equal to the source's exactly when the impact is not negative); the actual bar rises from 0 to the lineup average and the unrealized bar from there to the best average; the reference lines sit at the draft average over x ∈ [−0.5, 2.5] and at the best average over [1.5, 2.5] |
| SeasonWaterfall.ViewModeIgnored | app/components/season_waterfall.py:15 | the view mode does not change the chart |
| SeasonWaterfall.BarsChain | app/components/season_waterfall.py:67-159 | the bars chain draft → best → actual + unrealized = best, and the reference lines sit at the draft and best averages |
| SeasonWaterfall.NegativeImpactBarRises | app/components/season_waterfall.py:82-96 | as written, draft 100 and best 90 give a bar from 100 up to 110; the corrected bar spans 90 to 100 |
| SeasonWaterfall.TransactionBarAgreesUnlessNegative | app/components/season_waterfall.py:82-96 | the as-written and corrected bars agree exactly when the impact is not negative |
| SeasonWaterfall.ImpactIsMeanWeeklyDifference | app/components/season_waterfall.py:38-41 | with equally many weeks, the impact is the mean weekly difference |
| SeasonWaterfall.EfficiencyIsPercentage | app/components/season_waterfall.py:53-57 | the efficiency lies in [0, 100] when actual does not exceed best |
| SummaryCards.WeekTotals | app/components/summary_cards.py:18-31 | one total per week, each the sum of that week's starters |
| SummaryCards.SeasonTotal | app/components/summary_cards.py:18-31 | the sum succeeds iff every week has starters, and is the sum of week totals; otherwise it names the first week without starters |
| SummaryCards.Summarize | app/components/summary_cards.py:33-56 | each figure is its season total over the number of weeks; draft + transaction impact + lineup impact = actual; transaction impact = best − draft; efficiency is actual/best·100 when best > 0, else 0 |
| SummaryCards.CreateSeasonSummaryCards | app/components/summary_cards.py:18-56 | fails with ZeroDivisionError iff all totals exist and there are no draft weeks; succeeds iff every week of the three records has starters and the draft record has a week, and then gives the cards of the three season sums over the number of draft weeks |
| SummaryCards.ErrorOrder | app/components/summary_cards.py:18-37 | a missing starters entry fails in draft, best, actual order, before the division |
| SummaryCards.BadgeAgreesWithImpact | app/components/summary_cards.py:50-56 | sign "+", POSITIVE badge and plus icon each hold iff impact > 0; the efficiency icon follows the impact; the badge shows |impact| |
| SummaryCards.EfficiencyIsPercentage | app/components/summary_cards.py:46-48 | the efficiency lies in [0, 100] when 0 ≤ actual ≤ best (its formula, with the zero branch, is Summarize's ensures) |
| SummaryCards.SeasonTotalIgnoresOrder | app/components/summary_cards.py:18-31 | reordering the weeks changes neither success nor the total |
| WeeklyAnalysis.FlattenTotal | app/components/weekly_analysis_charts.py:45-84 | the flattened starters carry exactly the points of the week total |
| WeeklyAnalysis.FlattenStarters | app/components/weekly_analysis_charts.py:64-84 | the nested loops list every starter, position by position, tagged with its position |
| WeeklyAnalysis.GroupSpec | app/components/weekly_analysis_charts.py:86-99 | grouping keeps each position once, exactly the positions present, and gives each the order-preserving filter of its starters |
| WeeklyAnalysis.GroupByPosition | app/components/weekly_analysis_charts.py:86-99 | the grouping loop builds that dict |
| WeeklyAnalysis.AllPositionsSpec | app/components/weekly_analysis_charts.py:105-107 | the table's positions are the union of both groupings' keys, each once, in string order |
| WeeklyAnalysis.RowColourMeaning | app/components/weekly_analysis_charts.py:155-162 | red iff both sides are present with different names, green iff present with the same name, gray iff a side is missing |
| WeeklyAnalysis.RowPadding | app/components/weekly_analysis_charts.py:139-153 | a missing side shows "" and 0; a present side shows its player's name and points |
| WeeklyAnalysis.RowLabelsDistinct | app/components/weekly_analysis_charts.py:137 | within a position with several rows, the `pos-k` labels differ |
| WeeklyAnalysis.CompileRows | app/components/weekly_analysis_charts.py:120-162 | the loops fill six lists of equal length holding the rows column by column |
| WeeklyAnalysis.GroupedTotalAll | app/components/weekly_analysis_charts.py:86-99 | over distinct positions covering all starters, the groups' points add up to all points, each starter once |
| WeeklyAnalysis.ColumnSums | app/components/weekly_analysis_charts.py:128-153 | each points column sums to the points of its side's groups |
| WeeklyAnalysis.Shades | app/components/weekly_analysis_charts.py:201-204 | a difference cell is shaded as a loss iff negative, as a gain iff positive, plain iff zero |
| WeeklyAnalysis.LineupDecisions | app/components/weekly_analysis_charts.py:63-216 | the flatten, group, match and difference steps build exactly the week table of the two lineups, whose column sums `TableSums` relates to the totals |
| WeeklyAnalysis.WeekFigures | app/components/weekly_analysis_charts.py:44-220 | with the three entries' starters, the analysis is the lineup table and the waterfall of the three week totals and their differences |
| WeeklyAnalysis.CreateWeekAnalysis | app/components/weekly_analysis_charts.py:17-246 | "not available" when the week's key is missing from a record, the KeyError when a present entry has no starters, otherwise the week's table and waterfall (the lemmas below state each case) |
| WeeklyAnalysis.WeekAvailability | app/components/weekly_analysis_charts.py:31-42 | "not available" iff the week's key is missing from one of the three records |
| WeeklyAnalysis.MissingStartersFailure | app/components/weekly_analysis_charts.py:44-61 | with the key in all three records, the analysis fails iff an entry lacks starters, naming the key |
| WeeklyAnalysis.WaterfallAddsUp | app/components/weekly_analysis_charts.py:44-240 | draft + transactions + lineup decisions = actual, each total being every starter's points |
| WeeklyAnalysis.TableSums | app/components/weekly_analysis_charts.py:128-165 | the actual and optimal points columns sum to the two week totals, and the differences to best − actual |
| WeeklyAnalysis.TableMatchesWaterfall | app/components/weekly_analysis_charts.py:165-240 | the table's difference column sums to minus the lineup decision impact |
| WeeklyAnalysis.TableShape | app/components/weekly_analysis_charts.py:105-214 | rows follow the ascending union of positions; columns have one entry per row; difference = optimal − actual; height = rows·35 + 100 |

## Left out

- Fetching the records over HTTP and the module-level cache: each chart takes the three records as inputs.
- Plotly figures and Dash components: styling, hover text, legends, number formatting (`.1f`, `+.1f`, `.0f`). Only the numbers and the decisions that feed them are modelled.
- Floating point: points are mathematical reals. `np.mean` is sum over length.
- `np.mean([])` returning NaN is not modelled.
- ChartMetrics.FetchChartData: requires all three series non-empty, because NaN averages are not modelled. The source fails at `min` only when all three are empty.
- SeasonOverview.CreateSeasonOverview: requires non-empty records, because NaN averages are not modelled. The source fails on `min([])`/`max([])` of the week lists in most of these cases, but in the roster view an empty started-lineup record with non-empty draft and best records still gives a figure; the model does not cover that input.
- SeasonWaterfall.CreateSeasonWaterfall: requires non-empty series (NaN averages otherwise). It takes the extracted points rather than the records; `process_weekly_data` is modelled on its own.
- SeasonWaterfall.CreateSeasonWaterfall: draws the corrected transaction bar (base at the lower of the draft and best averages), not the source's bar based at the draft average; the two agree exactly when the impact is not negative, and the source's bar is TransactionBarAsWritten.
- Every player entry is assumed to hold `name` and `points`: the source raises KeyError on a player without them (`app/utils/data_processor.py:15`, `app/components/summary_cards.py:19`, `app/components/weekly_analysis_charts.py:70-81`), which the `Player` datatype cannot express.
- Python's `int()` also accepts surrounding whitespace, underscores and non-ASCII digits. `Text.ParseInt` accepts only an optional sign and ASCII digits.
- Logging calls, commented-out code and the unused `position_colors` dict.
- Records are assumed to have unique keys, as JSON objects from the backend do.
- Hover texts: `process_weekly_data` returns an empty list, since the code that would fill it is commented out.
- Layout, callbacks, app start-up and configuration are not part of this model.

## Findings

| source | as written | input that shows it | evidently intended | confidence | as-written member | corrected member |
|---|---|---|---|---|---|---|
| app/components/season_waterfall.py:82-96 | the transaction bar always starts at the draft average and rises by abs(impact) | draft average 100, best average 90: a red bar from 100 up to 110 | a negative impact is drawn downward, from 100 to 90, so the bars chain to the best average | not executed | SeasonWaterfall.NegativeImpactBarRises | SeasonWaterfall.BarsChain |
