/**
 * The metric block of `fetch_chart_data`: season averages, per-week efficiency
 * and differences, and the y-axis bounds of the overview chart, computed from
 * the three extracted series.
 */
module ChartMetrics {
  import opened Numbers
  import DataProcessor

  datatype ChartData = ChartData(
    draftWeeks: seq<int>, draftPoints: seq<real>,
    bestWeeks: seq<int>, bestPoints: seq<real>,
    lineupWeeks: seq<int>, lineupPoints: seq<real>,
    avgDraft: real, avgBest: real, avgLineup: real,
    lineupEfficiency: seq<real>, avgEfficiency: real,
    weeklyDiffs: seq<real>,
    yMin: real, yMax: real)

  /** `[(actual / best) * 100 if best > 0 else 0 for actual, best in zip(lineup, best)]` */
  function Efficiencies(lineup: seq<real>, best: seq<real>): (e: seq<real>)
    ensures |e| == if |lineup| < |best| then |lineup| else |best|
    ensures forall i :: 0 <= i < |e| ==> e[i] == Percent(lineup[i], best[i])
  {
    if lineup == [] || best == [] then [] else [Percent(lineup[0], best[0])] + Efficiencies(lineup[1..], best[1..])
  }

  /** `min(80, min(all) * 0.8)` */
  function AxisMin(all: seq<real>): real
    requires |all| > 0
  {
    var lowest := Min(all) * 0.8;
    if 80.0 <= lowest then 80.0 else lowest
  }

  /** `max(all) * 1.1` */
  function AxisMax(all: seq<real>): real
    requires |all| > 0
  {
    Max(all) * 1.1
  }

  /**
   * `fetch_chart_data` once the three records are extracted. Every series must
   * be non-empty: the source's averages of an empty series are NaN, which the
   * model does not represent.
   */
  function FetchChartData(draft: DataProcessor.Extraction, best: DataProcessor.Extraction,
                          lineup: DataProcessor.Extraction): (d: ChartData)
    requires |draft.points| > 0 && |best.points| > 0 && |lineup.points| > 0
    ensures d.draftWeeks == draft.weeks && d.bestWeeks == best.weeks && d.lineupWeeks == lineup.weeks
    ensures d.draftPoints == draft.points && d.bestPoints == best.points && d.lineupPoints == lineup.points
    ensures |d.weeklyDiffs| == (if |best.points| < |draft.points| then |best.points| else |draft.points|)
    ensures forall i :: 0 <= i < |d.weeklyDiffs| ==> d.weeklyDiffs[i] == best.points[i] - draft.points[i]
    ensures |d.lineupEfficiency| == (if |lineup.points| < |best.points| then |lineup.points| else |best.points|)
    ensures forall i :: 0 <= i < |d.lineupEfficiency| ==>
      d.lineupEfficiency[i] == Percent(lineup.points[i], best.points[i])
    ensures d.avgDraft == Mean(draft.points) && d.avgBest == Mean(best.points) && d.avgLineup == Mean(lineup.points)
    ensures d.avgEfficiency == Mean(d.lineupEfficiency)
    ensures d.yMin == AxisMin(draft.points + best.points + lineup.points)
    ensures d.yMax == AxisMax(draft.points + best.points + lineup.points)
  {
    var all := draft.points + best.points + lineup.points;
    var efficiency := Efficiencies(lineup.points, best.points);
    ChartData(
      draft.weeks, draft.points, best.weeks, best.points, lineup.weeks, lineup.points,
      Mean(draft.points), Mean(best.points), Mean(lineup.points),
      efficiency, Mean(efficiency),
      Differences(best.points, draft.points),
      AxisMin(all), AxisMax(all))
  }

  /**
   * The y-axis bounds: the lower bound is at most 80 and at most 80% of every
   * point and is one of these, the upper bound is 110% of the highest point.
   */
  lemma AxisBounds(all: seq<real>)
    requires |all| > 0
    ensures AxisMin(all) <= 80.0
    ensures forall k :: 0 <= k < |all| ==> AxisMin(all) <= all[k] * 0.8 && all[k] * 1.1 <= AxisMax(all)
    ensures AxisMin(all) == 80.0 || exists k :: 0 <= k < |all| && AxisMin(all) == all[k] * 0.8
    ensures exists k :: 0 <= k < |all| && AxisMax(all) == all[k] * 1.1
  {
    var m := Min(all);
    var k :| 0 <= k < |all| && all[k] == m;
    var M := Max(all);
    var l :| 0 <= l < |all| && all[l] == M;
  }

  /** With no negative scores the axis range shows every point of every series. */
  lemma AxisShowsEveryPoint(all: seq<real>)
    requires |all| > 0
    requires forall k :: 0 <= k < |all| ==> all[k] >= 0.0
    ensures forall k :: 0 <= k < |all| ==> AxisMin(all) <= all[k] <= AxisMax(all)
  {
    AxisBounds(all);
  }

  /** A week's efficiency is a percentage whenever the started lineup does not outscore the best one. */
  lemma EfficiencyIsPercentage(lineup: seq<real>, best: seq<real>, i: nat)
    requires i < |lineup| && i < |best|
    requires 0.0 <= lineup[i] <= best[i]
    ensures 0.0 <= Efficiencies(lineup, best)[i] <= 100.0
  {
    PercentBounds(lineup[i], best[i]);
  }

  /**
   * On week-aligned series the mean weekly difference is the transaction
   * impact, the difference of the season averages.
   */
  lemma WeeklyDiffsAverageToImpact(draft: DataProcessor.Extraction, best: DataProcessor.Extraction,
                                   lineup: DataProcessor.Extraction)
    requires |draft.points| == |best.points| > 0 && |lineup.points| > 0
    ensures var d := FetchChartData(draft, best, lineup);
      Mean(d.weeklyDiffs) == d.avgBest - d.avgDraft
  {
    MeanDifferences(best.points, draft.points);
  }
}
