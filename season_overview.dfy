/**
 * `create_season_overview`: the line chart of weekly points, in one of two
 * views. "roster_comparison" sets the drafted roster's best lineups against the
 * actual roster's best lineups and shades the gap by sign; "lineup_comparison"
 * sets the actual roster's best lineups against the lineups actually started.
 * Plotly's figure is reduced to the data it is given: traces, average labels,
 * title and axis ranges.
 */
module SeasonOverview {
  import opened Wrappers
  import opened Numbers
  import opened Records
  import opened DataProcessor
  import ChartMetrics
  import FillAreas
  import AnnotationPlacer

  const RosterComparison := "roster_comparison"
  const LineupComparison := "lineup_comparison"

  /** The `min_gap` the chart passes to `position_annotations`. */
  const LabelGap := 7.0

  const RosterTitle := "Season Performance: Drafted vs. Actual Roster Comparison"
  const RosterSubtitle := "Green areas show weeks with positive transaction impact, red areas show negative impact"
  const LineupTitle := "Season Performance: Lineup Decision Comparison"
  const LineupSubtitle := "Red areas show potential points left on the bench, green areas show points achieved"

  /** Which of the three lineups a line stands for. */
  datatype SeriesKind = DraftedBest | ActualBest | ActualLineup

  /** Which region a shaded polygon stands for. */
  datatype FillKind = PositiveImpact | NegativeImpact | LeftOnBench | Achieved

  datatype Trace =
    | Line(series: SeriesKind, x: seq<real>, y: seq<real>)
    | Fill(region: FillKind, path: FillAreas.Path)
    | Average(series: SeriesKind, x0: real, x1: real, level: real)
    | Hover(x: seq<real>)

  /** An "Avg" label: where it is drawn and the value it reports. */
  datatype Label = Label(x: real, y: real, reports: real)

  datatype Figure = Figure(
    data: ChartMetrics.ChartData,
    title: string, subtitle: string,
    traces: seq<Trace>, labels: seq<Label>,
    xRange: (real, real), yRange: (real, real))

  datatype OverviewError =
    | BadRecord(cause: DataError)   // a week key that `int()` rejects
    | MisalignedSeries              // an index past the end of a shorter series

  function Reals(weeks: seq<int>): (r: seq<real>)
    ensures |r| == |weeks|
    ensures forall k :: 0 <= k < |weeks| ==> r[k] == weeks[k] as real
  {
    seq(|weeks|, k requires 0 <= k < |weeks| => weeks[k] as real)
  }

  /** The x axis: half a week before the first week to a week and a half after the last. */
  function XRange(weeks: seq<int>): (r: (real, real))
    requires |weeks| > 0
    ensures r.0 < r.1
  {
    (Min(Reals(weeks)) - 0.5, Max(Reals(weeks)) + 1.5)
  }

  /** The optional trace of a shaded region: nothing when its buffer stayed empty. */
  function FillTraces(region: FillKind, path: Option<FillAreas.Path>): seq<Trace>
  {
    match path
    case None => []
    case Some(p) => [Fill(region, p)]
  }

  /** The averages the labels report, in label order. */
  function LabelValues(d: ChartMetrics.ChartData, viewMode: string): seq<real>
  {
    if viewMode == RosterComparison then [d.avgDraft, d.avgBest]
    else [d.avgBest, d.avgLineup, d.avgEfficiency]
  }

  /** Where the labels sit horizontally: half a week right of the last week of their series. */
  function LabelColumns(d: ChartMetrics.ChartData, viewMode: string): seq<real>
    requires |d.draftWeeks| > 0 && |d.bestWeeks| > 0 && |d.lineupWeeks| > 0
  {
    if viewMode == RosterComparison then
      [Max(Reals(d.draftWeeks)) + 0.5, Max(Reals(d.bestWeeks)) + 0.5]
    else
      var right := Max(Reals(d.lineupWeeks)) + 0.5;
      [Max(Reals(d.bestWeeks)) + 0.5, right, right]
  }

  /** The hover loop of the view indexes a series no longer than the one it walks. */
  predicate Misaligned(d: ChartMetrics.ChartData, viewMode: string)
  {
    (viewMode == RosterComparison && |d.bestPoints| < |d.draftWeeks|)
    || (viewMode == LineupComparison && |d.bestPoints| < |d.lineupWeeks|)
  }

  /** The traces `add_roster_comparison_elements` adds, in order. */
  function RosterTraces(d: ChartMetrics.ChartData): seq<Trace>
    requires FillAreas.Aligned(d.draftWeeks, d.draftPoints, d.bestPoints)
    requires |d.draftWeeks| > 0 && |d.bestWeeks| > 0
  {
    var p := FillAreas.Buffers(d.draftWeeks, d.draftPoints, d.bestPoints, FillAreas.Segments(d.draftWeeks));
    [Line(DraftedBest, Reals(d.draftWeeks), d.draftPoints), Line(ActualBest, Reals(d.bestWeeks), d.bestPoints)]
    + FillTraces(PositiveImpact, FillAreas.FillTrace(p.positive))
    + FillTraces(NegativeImpact, FillAreas.FillTrace(p.negative))
    + [Average(DraftedBest, Min(Reals(d.draftWeeks)), Max(Reals(d.draftWeeks)), d.avgDraft),
       Average(ActualBest, Min(Reals(d.bestWeeks)), Max(Reals(d.bestWeeks)), d.avgBest),
       Hover(Reals(d.draftWeeks))]
  }

  /** The traces `add_lineup_comparison_elements` adds, in order. */
  function LineupTraces(d: ChartMetrics.ChartData): seq<Trace>
    requires |d.bestWeeks| > 0 && |d.lineupWeeks| > 0
  {
    var (bench, achieved) := FillAreas.LineupFills(d.bestWeeks, d.bestPoints, d.lineupWeeks, d.lineupPoints);
    [Line(ActualBest, Reals(d.bestWeeks), d.bestPoints), Line(ActualLineup, Reals(d.lineupWeeks), d.lineupPoints),
     Fill(LeftOnBench, bench), Fill(Achieved, achieved),
     Average(ActualBest, Min(Reals(d.bestWeeks)), Max(Reals(d.bestWeeks)), d.avgBest),
     Average(ActualLineup, Min(Reals(d.lineupWeeks)), Max(Reals(d.lineupWeeks)), d.avgLineup),
     Hover(Reals(d.lineupWeeks))]
  }

  /** Chart data whose weeks come from `process_weekly_data`: strictly ascending, one point each. */
  predicate WellFormedData(d: ChartMetrics.ChartData)
  {
    |d.draftWeeks| > 0 && |d.bestWeeks| > 0 && |d.lineupWeeks| > 0
    && |d.draftPoints| == |d.draftWeeks|
    && forall i, j :: 0 <= i < j < |d.draftWeeks| ==> d.draftWeeks[i] < d.draftWeeks[j]
  }

  /** The traces of the view: the roster or lineup elements, and none for an unknown mode. */
  predicate TracesFor(d: ChartMetrics.ChartData, viewMode: string, traces: seq<Trace>)
    requires WellFormedData(d) && !Misaligned(d, viewMode)
  {
    (viewMode == RosterComparison ==> traces == RosterTraces(d))
    && (viewMode == LineupComparison ==> traces == LineupTraces(d))
    && (viewMode != RosterComparison && viewMode != LineupComparison ==> traces == [])
  }

  /** One label per average of the view, at its column, at the height `position_annotations` gives it. */
  predicate LabelsFor(d: ChartMetrics.ChartData, viewMode: string, labels: seq<Label>)
    requires WellFormedData(d)
  {
    |labels| == |LabelValues(d, viewMode)|
    && (forall k :: 0 <= k < |labels| ==>
          labels[k].reports == LabelValues(d, viewMode)[k] && labels[k].x == LabelColumns(d, viewMode)[k])
    && AnnotationPlacer.IsPlacement(LabelValues(d, viewMode), LabelGap,
                                    seq(|labels|, k requires 0 <= k < |labels| => labels[k].y))
  }

  /**
   * What the overview of the data shows in the view: the title of the view
   * (the lineup one for any mode but "roster_comparison"), its traces, its
   * labels, and the axis ranges.
   */
  predicate Shows(f: Figure, viewMode: string)
  {
    var d := f.data;
    WellFormedData(d) && !Misaligned(d, viewMode)
    && (f.title, f.subtitle) == (if viewMode == RosterComparison then (RosterTitle, RosterSubtitle) else (LineupTitle, LineupSubtitle))
    && TracesFor(d, viewMode, f.traces)
    && LabelsFor(d, viewMode, f.labels)
    && f.xRange == XRange(d.draftWeeks)
    && f.yRange == (d.yMin, d.yMax)
  }

  /** The traces of the view: `add_roster_comparison_elements`, `add_lineup_comparison_elements`, or none. */
  method ViewTraces(d: ChartMetrics.ChartData, viewMode: string) returns (traces: seq<Trace>)
    requires WellFormedData(d) && !Misaligned(d, viewMode)
    ensures TracesFor(d, viewMode, traces)
  {
    traces := [];
    if viewMode == RosterComparison {
      traces := AddRosterComparisonElements(d);
    } else if viewMode == LineupComparison {
      traces := LineupTraces(d);
    }
  }

  /** `add_roster_comparison_elements`: the two lines, the shaded regions, the averages and the hover points. */
  method AddRosterComparisonElements(d: ChartMetrics.ChartData) returns (traces: seq<Trace>)
    requires FillAreas.Aligned(d.draftWeeks, d.draftPoints, d.bestPoints)
    requires |d.draftWeeks| > 0 && |d.bestWeeks| > 0
    ensures traces == RosterTraces(d)
  {
    traces := [Line(DraftedBest, Reals(d.draftWeeks), d.draftPoints), Line(ActualBest, Reals(d.bestWeeks), d.bestPoints)];
    var positiveFill, negativeFill := FillAreas.AddFillAreasRoster(d.draftWeeks, d.draftPoints, d.bestPoints);
    traces := traces + FillTraces(PositiveImpact, positiveFill) + FillTraces(NegativeImpact, negativeFill);
    traces := traces + [Average(DraftedBest, Min(Reals(d.draftWeeks)), Max(Reals(d.draftWeeks)), d.avgDraft),
                        Average(ActualBest, Min(Reals(d.bestWeeks)), Max(Reals(d.bestWeeks)), d.avgBest)];
    traces := traces + [Hover(Reals(d.draftWeeks))];
  }

  /** `create_annotations_roster` / `create_annotations_lineup`: one label per average. */
  method PlaceLabels(d: ChartMetrics.ChartData, viewMode: string) returns (labels: seq<Label>)
    requires WellFormedData(d)
    ensures LabelsFor(d, viewMode, labels)
  {
    var values := LabelValues(d, viewMode);
    var columns := LabelColumns(d, viewMode);
    var heights := AnnotationPlacer.PositionAnnotations(values, LabelGap);
    labels := seq(|values|, k requires 0 <= k < |values| => Label(columns[k], heights[k], values[k]));
    assert seq(|labels|, k requires 0 <= k < |labels| => labels[k].y) == heights;
  }

  /**
   * The figure `create_season_overview` builds from the chart data: the
   * view's traces, then the common layout.
   */
  method BuildFigure(d: ChartMetrics.ChartData, viewMode: string) returns (r: Result<Figure, OverviewError>)
    requires WellFormedData(d)
    ensures r.Err? <==> Misaligned(d, viewMode)
    ensures r.Err? ==> r.error == MisalignedSeries
    ensures r.Ok? ==> r.value.data == d && Shows(r.value, viewMode)
  {
    if Misaligned(d, viewMode) {
      return Err(MisalignedSeries);
    }
    var f := Overview(d, viewMode);
    r := Ok(f);
  }

  /** The figure of data that every series of the view covers. */
  method Overview(d: ChartMetrics.ChartData, viewMode: string) returns (f: Figure)
    requires WellFormedData(d) && !Misaligned(d, viewMode)
    ensures f.data == d && Shows(f, viewMode)
  {
    var traces := ViewTraces(d, viewMode);
    var labels := PlaceLabels(d, viewMode);
    var title, subtitle := LineupTitle, LineupSubtitle;
    if viewMode == RosterComparison {
      title, subtitle := RosterTitle, RosterSubtitle;
    }
    f := Figure(d, title, subtitle, traces, labels,
                XRange(d.draftWeeks), (d.yMin, d.yMax));
    ShowsParts(f, viewMode);
  }

  /** A figure whose parts are those of the view shows the view. */
  lemma ShowsParts(f: Figure, viewMode: string)
    requires WellFormedData(f.data) && !Misaligned(f.data, viewMode)
    requires (f.title, f.subtitle) == (if viewMode == RosterComparison then (RosterTitle, RosterSubtitle) else (LineupTitle, LineupSubtitle))
    requires TracesFor(f.data, viewMode, f.traces) && LabelsFor(f.data, viewMode, f.labels)
    requires f.xRange == XRange(f.data.draftWeeks)
    requires f.yRange == (f.data.yMin, f.data.yMax)
    ensures Shows(f, viewMode)
  {
  }

  /**
   * `create_season_overview` on the three records that `fetch_chart_data`
   * would fetch. A record with no week at all is excluded: its averages are
   * NaN in the source.
   */
  method CreateSeasonOverview(draftRecord: LineupRecord, bestRecord: LineupRecord, lineupRecord: LineupRecord,
                              viewMode: string)
    returns (r: Result<Figure, OverviewError>)
    requires |draftRecord| > 0 && |bestRecord| > 0 && |lineupRecord| > 0
    ensures r.Err? && r.error.BadRecord? <==>
      !AllWeekKeys(draftRecord) || !AllWeekKeys(bestRecord) || !AllWeekKeys(lineupRecord)
    ensures r.Err? && r.error.MisalignedSeries? ==> exists d :: Misaligned(d, viewMode) && FetchedFrom(d, draftRecord, bestRecord, lineupRecord)
    ensures r.Ok? ==> FetchedFrom(r.value.data, draftRecord, bestRecord, lineupRecord) && Shows(r.value, viewMode)
  {
    var draft := ProcessWeeklyData(draftRecord);
    if draft.Err? {
      return Err(BadRecord(draft.error));
    }
    var best := ProcessWeeklyData(bestRecord);
    if best.Err? {
      return Err(BadRecord(best.error));
    }
    var lineup := ProcessWeeklyData(lineupRecord);
    if lineup.Err? {
      return Err(BadRecord(lineup.error));
    }
    ExtractsSomeWeek(draftRecord, draft.value);
    ExtractsSomeWeek(bestRecord, best.value);
    ExtractsSomeWeek(lineupRecord, lineup.value);
    var d := ChartMetrics.FetchChartData(draft.value, best.value, lineup.value);
    assert FetchedFrom(d, draftRecord, bestRecord, lineupRecord);
    r := BuildFigure(d, viewMode);
  }

  /** `fetch_chart_data`: the chart data of the three extracted records. */
  ghost predicate FetchedFrom(d: ChartMetrics.ChartData, draftRecord: LineupRecord, bestRecord: LineupRecord,
                              lineupRecord: LineupRecord)
  {
    var draft := Extraction(d.draftWeeks, d.draftPoints, []);
    var best := Extraction(d.bestWeeks, d.bestPoints, []);
    var lineup := Extraction(d.lineupWeeks, d.lineupPoints, []);
    Extracts(draftRecord, draft) && Extracts(bestRecord, best) && Extracts(lineupRecord, lineup)
    && |d.draftPoints| > 0 && |d.bestPoints| > 0 && |d.lineupPoints| > 0
    && d == ChartMetrics.FetchChartData(draft, best, lineup)
  }

  /**
   * The labels never overlap: any two are at least the gap apart, each sits at
   * or above the average it reports, and the lowest average keeps its height.
   */
  lemma LabelsDoNotOverlap(f: Figure, viewMode: string)
    requires Shows(f, viewMode)
    ensures forall i, j :: 0 <= i < j < |f.labels| ==>
      f.labels[j].y - f.labels[i].y >= LabelGap || f.labels[i].y - f.labels[j].y >= LabelGap
    ensures forall i :: 0 <= i < |f.labels| ==> f.labels[i].reports <= f.labels[i].y
  {
    var values := LabelValues(f.data, viewMode);
    var ys := seq(|f.labels|, k requires 0 <= k < |f.labels| => f.labels[k].y);
    AnnotationPlacer.PlacementNeverLowers(values, LabelGap, ys);
    forall i, j | 0 <= i < j < |f.labels|
      ensures f.labels[j].y - f.labels[i].y >= LabelGap || f.labels[i].y - f.labels[j].y >= LabelGap
    {
      AnnotationPlacer.PlacementSeparates(values, LabelGap, ys, i, j);
    }
  }

  /** With no negative week totals the y-range shows every point of the three series. */
  lemma RangeShowsEverySeries(d: ChartMetrics.ChartData, draft: Extraction, best: Extraction, lineup: Extraction)
    requires |draft.points| > 0 && |best.points| > 0 && |lineup.points| > 0
    requires d == ChartMetrics.FetchChartData(draft, best, lineup)
    requires forall p :: p in draft.points + best.points + lineup.points ==> p >= 0.0
    ensures forall p :: p in draft.points + best.points + lineup.points ==> d.yMin <= p <= d.yMax
  {
    var all := draft.points + best.points + lineup.points;
    ChartMetrics.AxisShowsEveryPoint(all);
  }
}
