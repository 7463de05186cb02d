/**
 * `create_season_summary_cards`: the three weekly figures of the season
 * (draft baseline, best possible with the actual roster, points actually
 * scored), the transaction impact badge and the efficiency badge.
 */
module SummaryCards {
  import opened Wrappers
  import opened Numbers
  import opened Records
  import Sorting

  /** The transaction badge: POSITIVE in "success" colour, or NEGATIVE in "danger". */
  datatype Badge = Positive | Negative

  /** `fa-plus` or `fa-minus`. */
  datatype Icon = Plus | Minus

  datatype Summary = Summary(
    draftBaseline: real, bestPossible: real, actualPoints: real,
    transactionImpact: real, lineupImpact: real, efficiency: real,
    sign: string, badge: Badge, transactionIcon: Icon, badgeMagnitude: real,
    efficiencyIcon: Icon)

  /** Every entry of the record has its "starters". */
  predicate AllStarters(r: LineupRecord)
  {
    forall i :: 0 <= i < |r| ==> r[i].1.starters.Some?
  }

  /** The week totals of a record whose entries all have starters, in entry order. */
  function WeekTotals(r: LineupRecord): (t: seq<real>)
    requires AllStarters(r)
    ensures |t| == |r|
    ensures forall i :: 0 <= i < |r| ==> t[i] == StartersTotal(r[i].1.starters.value)
  {
    if r == [] then [] else [StartersTotal(r[0].1.starters.value)] + WeekTotals(r[1..])
  }

  /**
   * `sum(sum(points of the week's starters) for week in record)`, failing at
   * the first entry without "starters".
   */
  function SeasonTotal(r: LineupRecord): (t: Result<real, DataError>)
    ensures t.Ok? <==> AllStarters(r)
    ensures t.Ok? ==> t.value == Sum(WeekTotals(r))
    ensures t.Err? ==> exists i :: (0 <= i < |r| && t.error == MissingStarters(r[i].0)
      && r[i].1.starters.None? && forall j :: 0 <= j < i ==> r[j].1.starters.Some?)
  {
    if r == [] then Ok(0.0)
    else match r[0].1.starters
      case None => Err(MissingStarters(r[0].0))
      case Some(st) =>
        var rest := SeasonTotal(r[1..]);
        assert rest.Err? ==> exists i :: (0 <= i < |r[1..]| && rest.error == MissingStarters(r[1..][i].0)
          && r[1..][i].1.starters.None? && forall j :: 0 <= j < i ==> r[1..][j].1.starters.Some?);
        if rest.Err? then
          var i :| 0 <= i < |r[1..]| && rest.error == MissingStarters(r[1..][i].0)
            && r[1..][i].1.starters.None? && forall j :: 0 <= j < i ==> r[1..][j].1.starters.Some?;
          assert r[1..][i] == r[i + 1];
          assert forall j :: 0 <= j < i + 1 ==> r[j].1.starters.Some? by {
            forall j | 0 < j < i + 1 ensures r[j].1.starters.Some? {
              assert r[1..][j - 1] == r[j];
            }
          }
          rest
        else
          Ok(StartersTotal(st) + rest.value)
  }

  /**
   * The cards computed from the three season totals and the number of weeks:
   * the weekly averages, the two impacts, the efficiency and the badge
   * choices, all of which follow the sign of the transaction impact.
   */
  function Summarize(draftTotal: real, bestTotal: real, actualTotal: real, numWeeks: nat): (s: Summary)
    requires numWeeks > 0
    ensures s.draftBaseline == draftTotal / numWeeks as real
    ensures s.bestPossible == bestTotal / numWeeks as real
    ensures s.actualPoints == actualTotal / numWeeks as real
    ensures s.draftBaseline + s.transactionImpact + s.lineupImpact == s.actualPoints
    ensures s.transactionImpact == s.bestPossible - s.draftBaseline
    ensures s.bestPossible <= 0.0 ==> s.efficiency == 0.0
    ensures s.bestPossible > 0.0 ==> s.efficiency * s.bestPossible == 100.0 * s.actualPoints
  {
    var draftAvg := draftTotal / numWeeks as real;
    var bestAvg := bestTotal / numWeeks as real;
    var actualAvg := actualTotal / numWeeks as real;
    var transactionImpact := bestAvg - draftAvg;
    var lineupImpact := actualAvg - bestAvg;
    var positive := transactionImpact > 0.0;
    Summary(
      draftAvg, bestAvg, actualAvg, transactionImpact, lineupImpact, Percent(actualAvg, bestAvg),
      if positive then "+" else "", if positive then Positive else Negative,
      if positive then Plus else Minus, Abs(transactionImpact),
      if positive then Plus else Minus)
  }

  /**
   * `create_season_summary_cards` on the three records: the totals in the
   * order draft, best, actual (the first missing "starters" is the error),
   * then the cards over the number of weeks in the draft record.
   */
  function CreateSeasonSummaryCards(draft: LineupRecord, best: LineupRecord, actual: LineupRecord)
    : (r: Result<Summary, DataError>)
    ensures r.Err? && r.error.NoWeeks? <==>
      AllStarters(draft) && AllStarters(best) && AllStarters(actual) && |draft| == 0
    ensures r.Ok? <==> AllStarters(draft) && AllStarters(best) && AllStarters(actual) && |draft| > 0
    ensures r.Ok? ==>
      r.value == Summarize(Sum(WeekTotals(draft)), Sum(WeekTotals(best)), Sum(WeekTotals(actual)), |draft|)
  {
    var draftTotal := SeasonTotal(draft);
    var bestTotal := SeasonTotal(best);
    var actualTotal := SeasonTotal(actual);
    var numWeeks := |draft|;
    if draftTotal.Err? then Err(draftTotal.error)
    else if bestTotal.Err? then Err(bestTotal.error)
    else if actualTotal.Err? then Err(actualTotal.error)
    else if numWeeks == 0 then Err(NoWeeks)
    else Ok(Summarize(draftTotal.value, bestTotal.value, actualTotal.value, numWeeks))
  }

  /**
   * The error is the first missing "starters" in the order the totals are
   * taken (draft, best, actual); an empty draft record is reported only once
   * every total exists.
   */
  lemma ErrorOrder(draft: LineupRecord, best: LineupRecord, actual: LineupRecord)
    ensures var r := CreateSeasonSummaryCards(draft, best, actual);
      (!AllStarters(draft) ==> r == Err(SeasonTotal(draft).error))
      && (AllStarters(draft) && !AllStarters(best) ==> r == Err(SeasonTotal(best).error))
      && (AllStarters(draft) && AllStarters(best) && !AllStarters(actual) ==> r == Err(SeasonTotal(actual).error))
  {
  }

  /**
   * The sign, the badge and the plus icon all say "positive" exactly when the
   * transaction impact is above zero, and the badge's number read with its
   * sign is the impact itself. The efficiency badge's icon follows the
   * transaction impact too, not the efficiency.
   */
  lemma BadgeAgreesWithImpact(draftTotal: real, bestTotal: real, actualTotal: real, numWeeks: nat)
    requires numWeeks > 0
    ensures var s := Summarize(draftTotal, bestTotal, actualTotal, numWeeks);
      (s.sign == "+" <==> s.transactionImpact > 0.0)
      && (s.badge == Positive <==> s.transactionImpact > 0.0)
      && (s.transactionIcon == Plus <==> s.transactionImpact > 0.0)
      && s.efficiencyIcon == s.transactionIcon
      && s.badgeMagnitude >= 0.0
      && (s.transactionIcon == Plus ==> s.badgeMagnitude == s.transactionImpact)
      && (s.transactionIcon == Minus ==> s.badgeMagnitude == -s.transactionImpact)
  {
  }

  /** The efficiency badge shows a percentage when the actual figure does not exceed the best one. */
  lemma EfficiencyIsPercentage(draftTotal: real, bestTotal: real, actualTotal: real, numWeeks: nat)
    requires numWeeks > 0
    requires var s := Summarize(draftTotal, bestTotal, actualTotal, numWeeks); 0.0 <= s.actualPoints <= s.bestPossible
    ensures var s := Summarize(draftTotal, bestTotal, actualTotal, numWeeks);
      0.0 <= s.efficiency <= 100.0
      && (s.bestPossible > 0.0 ==> s.efficiency * s.bestPossible == 100.0 * s.actualPoints)
  {
    var s := Summarize(draftTotal, bestTotal, actualTotal, numWeeks);
    PercentBounds(s.actualPoints, s.bestPossible);
  }

  lemma AllStartersRemove(t: LineupRecord, j: nat)
    requires j < |t| && AllStarters(t)
    ensures AllStarters(t[..j] + t[j + 1..])
  {
    var rest := t[..j] + t[j + 1..];
    forall i | 0 <= i < |rest| ensures rest[i].1.starters.Some? {
      if i < j { assert rest[i] == t[i]; } else { assert rest[i] == t[i + 1]; }
    }
  }

  lemma SumWeekTotalsCons(t: LineupRecord)
    requires |t| > 0 && AllStarters(t)
    ensures AllStarters(t[1..])
    ensures Sum(WeekTotals(t)) == StartersTotal(t[0].1.starters.value) + Sum(WeekTotals(t[1..]))
  {
    assert AllStarters(t[1..]);
  }

  lemma RemoveAfterHead<T>(t: seq<T>, j: nat)
    requires 0 < j < |t|
    ensures t[..j] + t[j + 1..] == [t[0]] + (t[1..][..j - 1] + t[1..][j..])
  {
    assert t[..j] == [t[0]] + t[1..][..j - 1];
    assert t[j + 1..] == t[1..][j..];
  }

  /** Taking week j out of a record takes exactly its total out of the season's sum. */
  lemma {:induction false} WeekTotalsRemove(t: LineupRecord, j: nat)
    requires j < |t| && AllStarters(t)
    ensures AllStarters(t[..j] + t[j + 1..])
    ensures Sum(WeekTotals(t)) == StartersTotal(t[j].1.starters.value) + Sum(WeekTotals(t[..j] + t[j + 1..]))
  {
    var rest := t[..j] + t[j + 1..];
    AllStartersRemove(t, j);
    SumWeekTotalsCons(t);
    if j == 0 {
      assert rest == t[1..];
    } else {
      var tail := t[1..];
      WeekTotalsRemove(tail, j - 1);
      RemoveAfterHead(t, j);
      SumWeekTotalsCons(rest);
      assert rest[0] == t[0] && rest[1..] == tail[..j - 1] + tail[j..];
      assert tail[j - 1] == t[j];
    }
  }

  lemma {:induction false} TotalsPermutation(s: LineupRecord, t: LineupRecord)
    requires multiset(s) == multiset(t) && AllStarters(s) && AllStarters(t)
    ensures Sum(WeekTotals(s)) == Sum(WeekTotals(t))
  {
    if s == [] {
      assert |t| == |multiset(t)| == 0;
    } else {
      assert s[0] in multiset(t);
      var j :| 0 <= j < |t| && t[j] == s[0];
      Sorting.RemoveMatched(s, t, j);
      SumWeekTotalsCons(s);
      WeekTotalsRemove(t, j);
      TotalsPermutation(s[1..], t[..j] + t[j + 1..]);
    }
  }

  /** Reordering the weeks of a record leaves its season total unchanged: nothing here sorts. */
  lemma SeasonTotalIgnoresOrder(s: LineupRecord, t: LineupRecord)
    requires multiset(s) == multiset(t)
    ensures SeasonTotal(s).Ok? <==> SeasonTotal(t).Ok?
    ensures SeasonTotal(s).Ok? ==> SeasonTotal(s).value == SeasonTotal(t).value
  {
    assert AllStarters(s) <==> AllStarters(t) by {
      forall i | 0 <= i < |s| ensures s[i] in multiset(t) { }
      forall i | 0 <= i < |t| ensures t[i] in multiset(s) { }
    }
    if AllStarters(s) {
      TotalsPermutation(s, t);
    }
  }
}
