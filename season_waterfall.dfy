/**
 * `create_season_waterfall`: the "Season Performance Breakdown" bar chart. It
 * starts at the drafted roster's weekly average, steps by the transaction
 * impact to the actual roster's best average, and ends at the started
 * lineup's average topped by the points left unrealized.
 */
module SeasonWaterfall {
  import opened Numbers

  /** The three categories on the x-axis. */
  datatype Column = DraftBaseline | Transactions | ActualColumn

  datatype BarColour = DraftBlue | PositiveGreen | NegativeRed | ActualYellow | MissedYellow

  /** A bar drawn from `base` up to `base + height`. */
  datatype Bar = Bar(column: Column, base: real, height: real, colour: BarColour)

  /** A dotted horizontal line at `level` from x0 to x1 (the columns sit at x = 0, 1, 2). */
  datatype ReferenceLine = ReferenceLine(x0: real, x1: real, level: real)

  datatype Waterfall = Waterfall(
    draftAvg: real, bestAvg: real, lineupAvg: real,
    transactionImpact: real, efficiency: real,
    bars: seq<Bar>, lines: seq<ReferenceLine>)

  /** The transaction bar as the source draws it: from the draft average up by the size of the impact. */
  function TransactionBarAsWritten(draftAvg: real, impact: real): Bar
  {
    Bar(Transactions, draftAvg, Abs(impact), if impact > 0.0 then PositiveGreen else NegativeRed)
  }

  /**
   * The transaction bar as the chart means it: spanning from the draft average
   * to the actual roster's best average, downwards for a negative impact.
   */
  function TransactionBar(draftAvg: real, bestAvg: real): (b: Bar)
    ensures b.column == Transactions
    ensures b.height == Abs(bestAvg - draftAvg)
    ensures {b.base, b.base + b.height} == {draftAvg, bestAvg}
    ensures b.colour == (if bestAvg - draftAvg > 0.0 then PositiveGreen else NegativeRed)
  {
    var impact := bestAvg - draftAvg;
    Bar(Transactions, if impact >= 0.0 then draftAvg else bestAvg, Abs(impact),
        if impact > 0.0 then PositiveGreen else NegativeRed)
  }

  /**
   * `create_season_waterfall` on the three extracted point series. The view
   * mode is accepted and ignored, as in the source. The transaction bar is the
   * corrected one, spanning from the draft average to the best average; it is
   * the bar the source draws exactly when the impact is not negative.
   */
  function CreateSeasonWaterfall(draftPoints: seq<real>, bestPoints: seq<real>, lineupPoints: seq<real>,
                                 viewMode: string): (w: Waterfall)
    requires |draftPoints| > 0 && |bestPoints| > 0 && |lineupPoints| > 0
    ensures w.draftAvg == Mean(draftPoints) && w.bestAvg == Mean(bestPoints) && w.lineupAvg == Mean(lineupPoints)
    ensures w.transactionImpact == w.bestAvg - w.draftAvg
    ensures w.bestAvg > 0.0 ==> w.efficiency * w.bestAvg == 100.0 * w.lineupAvg
    ensures w.bestAvg <= 0.0 ==> w.efficiency == 0.0
    ensures |w.bars| == 4
    ensures w.bars[0] == Bar(DraftBaseline, 0.0, w.draftAvg, DraftBlue)
    ensures w.bars[1] == TransactionBar(w.draftAvg, w.bestAvg)
    ensures w.bars[1] == TransactionBarAsWritten(w.draftAvg, w.transactionImpact) <==> w.transactionImpact >= 0.0
    ensures w.bars[2] == Bar(ActualColumn, 0.0, w.lineupAvg, ActualYellow)
    ensures w.bars[3] == Bar(ActualColumn, w.lineupAvg, w.bestAvg - w.lineupAvg, MissedYellow)
    ensures w.lines == [ReferenceLine(-0.5, 2.5, w.draftAvg), ReferenceLine(1.5, 2.5, w.bestAvg)]
  {
    var draftAvg := Mean(draftPoints);
    var bestAvg := Mean(bestPoints);
    var lineupAvg := Mean(lineupPoints);
    var impact := bestAvg - draftAvg;
    TransactionBarAgreesUnlessNegative(draftAvg, bestAvg);
    Waterfall(
      draftAvg, bestAvg, lineupAvg, impact, Percent(lineupAvg, bestAvg),
      [Bar(DraftBaseline, 0.0, draftAvg, DraftBlue),
       TransactionBar(draftAvg, bestAvg),
       Bar(ActualColumn, 0.0, lineupAvg, ActualYellow),
       Bar(ActualColumn, lineupAvg, bestAvg - lineupAvg, MissedYellow)],
      [ReferenceLine(-0.5, 2.5, draftAvg), ReferenceLine(1.5, 2.5, bestAvg)])
  }

  /** The view mode has no effect on the chart. */
  lemma ViewModeIgnored(draftPoints: seq<real>, bestPoints: seq<real>, lineupPoints: seq<real>, m1: string, m2: string)
    requires |draftPoints| > 0 && |bestPoints| > 0 && |lineupPoints| > 0
    ensures CreateSeasonWaterfall(draftPoints, bestPoints, lineupPoints, m1)
         == CreateSeasonWaterfall(draftPoints, bestPoints, lineupPoints, m2)
  {
  }

  /**
   * The bars chain up: the draft bar ends at the draft line, the transaction
   * bar spans from there to the best average, and the actual column's two
   * bars stack from zero through the lineup average to the best average; the
   * transaction bar is green exactly when the impact is positive.
   */
  lemma BarsChain(draftPoints: seq<real>, bestPoints: seq<real>, lineupPoints: seq<real>, viewMode: string)
    requires |draftPoints| > 0 && |bestPoints| > 0 && |lineupPoints| > 0
    ensures var w := CreateSeasonWaterfall(draftPoints, bestPoints, lineupPoints, viewMode);
      var (draft, transaction, actual, unrealized) := (w.bars[0], w.bars[1], w.bars[2], w.bars[3]);
      draft.base + draft.height == w.lines[0].level == w.draftAvg
      && {transaction.base, transaction.base + transaction.height} == {w.draftAvg, w.bestAvg}
      && transaction.height >= 0.0
      && (transaction.colour == PositiveGreen <==> w.transactionImpact > 0.0)
      && actual.base == 0.0 && actual.base + actual.height == unrealized.base
      && unrealized.base + unrealized.height == w.lines[1].level == w.bestAvg
  {
  }

  /**
   * As written, a negative impact draws the red bar upwards from the draft
   * average, away from the best average it should reach: with averages of
   * 100 drafted and 90 actual, it spans 100 to 110 instead of 90 to 100.
   */
  lemma NegativeImpactBarRises()
    ensures var b := TransactionBarAsWritten(100.0, 90.0 - 100.0);
      b.base == 100.0 && b.base + b.height == 110.0 && b.colour == NegativeRed
    ensures var b := TransactionBar(100.0, 90.0);
      b.base == 90.0 && b.base + b.height == 100.0 && b.colour == NegativeRed
  {
  }

  /** The two drawings agree exactly when the impact is not negative. */
  lemma TransactionBarAgreesUnlessNegative(draftAvg: real, bestAvg: real)
    ensures TransactionBarAsWritten(draftAvg, bestAvg - draftAvg) == TransactionBar(draftAvg, bestAvg)
        <==> bestAvg >= draftAvg
  {
  }

  /** The transaction impact is the average of the weekly differences when the series are week-aligned. */
  lemma ImpactIsMeanWeeklyDifference(draftPoints: seq<real>, bestPoints: seq<real>, lineupPoints: seq<real>, viewMode: string)
    requires |draftPoints| == |bestPoints| > 0 && |lineupPoints| > 0
    ensures CreateSeasonWaterfall(draftPoints, bestPoints, lineupPoints, viewMode).transactionImpact
         == Mean(Differences(bestPoints, draftPoints))
  {
    MeanDifferences(bestPoints, draftPoints);
  }

  /** The efficiency is a percentage when the started lineup does not outscore the best one on average. */
  lemma EfficiencyIsPercentage(draftPoints: seq<real>, bestPoints: seq<real>, lineupPoints: seq<real>, viewMode: string)
    requires |draftPoints| > 0 && |bestPoints| > 0 && |lineupPoints| > 0
    requires 0.0 <= Mean(lineupPoints) <= Mean(bestPoints)
    ensures 0.0 <= CreateSeasonWaterfall(draftPoints, bestPoints, lineupPoints, viewMode).efficiency <= 100.0
  {
    PercentBounds(Mean(lineupPoints), Mean(bestPoints));
  }
}
