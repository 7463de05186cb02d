/**
 * `process_weekly_data`: one lineup record -> the weeks in ascending order and
 * the total starter points of each week.
 */
module DataProcessor {
  import opened Wrappers
  import opened Records
  import Text
  import Sorting

  /** The record re-keyed by week number: `{int(k): v for k, v in record.items()}`. */
  type WeekTable = seq<(int, WeekEntry)>

  function TableKeys(t: WeekTable): (ks: seq<int>)
    ensures |ks| == |t| && forall i :: 0 <= i < |t| ==> ks[i] == t[i].0
  {
    if t == [] then [] else [t[0].0] + TableKeys(t[1..])
  }

  /** `table[w] = e`: an existing key keeps its place and takes the new value; a new key goes last. */
  function Put(t: WeekTable, w: int, e: WeekEntry): WeekTable
  {
    if t == [] then [(w, e)]
    else if t[0].0 == w then [(w, e)] + t[1..]
    else [t[0]] + Put(t[1..], w, e)
  }

  /** `table[w]` for a key that is present. */
  function Lookup(t: WeekTable, w: int): WeekEntry
    requires w in TableKeys(t)
  {
    if t[0].0 == w then t[0].1 else Lookup(t[1..], w)
  }

  /** The dict comprehension, key by key from the left; the first key that is not a number raises. */
  function Rekey(r: LineupRecord): Result<WeekTable, DataError>
  {
    if r == [] then Ok([])
    else
      match Rekey(r[..|r| - 1])
      case Err(e) => Err(e)
      case Ok(t) =>
        match Text.ParseInt(r[|r| - 1].0)
        case None => Err(NotAWeekNumber(r[|r| - 1].0))
        case Some(w) => Ok(Put(t, w, r[|r| - 1].1))
  }

  /** The entry a week number ends up with: that of the last key that denotes it. */
  function LastEntryFor(r: LineupRecord, w: int): Option<WeekEntry>
  {
    if r == [] then None
    else if Text.ParseInt(r[|r| - 1].0) == Some(w) then Some(r[|r| - 1].1)
    else LastEntryFor(r[..|r| - 1], w)
  }

  ghost predicate AllWeekKeys(r: LineupRecord)
  {
    forall i :: 0 <= i < |r| ==> Text.ParseInt(r[i].0).Some?
  }

  /** Total points of one week; an entry without "starters" counts as an empty lineup. */
  function WeekPoints(e: WeekEntry): real
  {
    match e.starters
    case None => 0.0
    case Some(st) => StartersTotal(st)
  }

  function IntLess(a: int, b: int): bool
  {
    a < b
  }

  /** The result of `process_weekly_data`: weeks, points per week, hover texts. */
  datatype Extraction = Extraction(weeks: seq<int>, points: seq<real>, hover: seq<string>)

  lemma IntLessIsStrictTotalOrder()
    ensures Sorting.IsStrictTotalOrder(IntLess)
  {
  }

  lemma {:induction false} PutKeys(t: WeekTable, w: int, e: WeekEntry)
    requires Sorting.Distinct(TableKeys(t))
    ensures Sorting.Distinct(TableKeys(Put(t, w, e)))
    ensures forall v :: v in TableKeys(Put(t, w, e)) <==> v in TableKeys(t) || v == w
    ensures Lookup(Put(t, w, e), w) == e
    ensures forall v :: v in TableKeys(t) && v != w ==> Lookup(Put(t, w, e), v) == Lookup(t, v)
  {
    if t != [] && t[0].0 != w {
      assert Sorting.Distinct(TableKeys(t[1..])) by {
        forall i, j | 0 <= i < j < |t| - 1 ensures TableKeys(t[1..])[i] != TableKeys(t[1..])[j] {
          assert TableKeys(t)[i + 1] != TableKeys(t)[j + 1];
        }
      }
      PutKeys(t[1..], w, e);
      var rest := TableKeys(Put(t[1..], w, e));
      assert t[0].0 !in TableKeys(t[1..]) by {
        forall i | 0 <= i < |t| - 1 ensures TableKeys(t[1..])[i] != t[0].0 {
          assert TableKeys(t)[i + 1] != TableKeys(t)[0];
        }
      }
      assert t[0].0 !in rest;
      assert TableKeys(Put(t, w, e)) == [t[0].0] + rest;
    }
  }

  /** A week number that some key denotes has a last entry, and only those do. */
  lemma {:induction false} LastEntryForSome(r: LineupRecord, w: int)
    ensures LastEntryFor(r, w).Some? <==> exists i :: 0 <= i < |r| && Text.ParseInt(r[i].0) == Some(w)
  {
    if r != [] {
      var n := |r| - 1;
      LastEntryForSome(r[..n], w);
      if Text.ParseInt(r[n].0) != Some(w) {
        forall i | 0 <= i < n ensures r[..n][i] == r[i] { }
      } else {
        assert 0 <= n < |r|;
      }
    }
  }

  /**
   * The re-keyed table succeeds exactly when every key is a number, and then it
   * holds each week once, with the entry of the last key that denotes it.
   */
  lemma {:induction false} RekeyTable(r: LineupRecord)
    requires AllWeekKeys(r)
    ensures Rekey(r).Ok?
    ensures Sorting.Distinct(TableKeys(Rekey(r).value))
    ensures forall w :: w in TableKeys(Rekey(r).value) <==> LastEntryFor(r, w).Some?
    ensures forall w :: w in TableKeys(Rekey(r).value) ==> Lookup(Rekey(r).value, w) == LastEntryFor(r, w).value
  {
    if r != [] {
      var n := |r| - 1;
      assert AllWeekKeys(r[..n]) by {
        forall i | 0 <= i < n ensures Text.ParseInt(r[..n][i].0).Some? {
          assert r[..n][i] == r[i];
        }
      }
      RekeyTable(r[..n]);
      var t := Rekey(r[..n]).value;
      var w := Text.ParseInt(r[n].0).value;
      PutKeys(t, w, r[n].1);
    }
  }

  /** Re-keying fails exactly at the first key that is not a number. */
  lemma {:induction false} RekeyFailure(r: LineupRecord)
    ensures Rekey(r).Err? <==> !AllWeekKeys(r)
    ensures Rekey(r).Err? ==> exists i :: (0 <= i < |r| && Rekey(r).error == NotAWeekNumber(r[i].0)
      && Text.ParseInt(r[i].0).None? && forall j :: 0 <= j < i ==> Text.ParseInt(r[j].0).Some?)
  {
    if r != [] {
      var n := |r| - 1;
      RekeyFailure(r[..n]);
      assert forall i :: 0 <= i < n ==> r[..n][i] == r[i];
      if Rekey(r[..n]).Err? {
        var i :| 0 <= i < n && Rekey(r[..n]).error == NotAWeekNumber(r[..n][i].0)
          && Text.ParseInt(r[..n][i].0).None? && forall j :: 0 <= j < i ==> Text.ParseInt(r[..n][j].0).Some?;
        assert Rekey(r).error == NotAWeekNumber(r[i].0);
      } else if Text.ParseInt(r[n].0).None? {
        assert AllWeekKeys(r[..n]);
        assert Rekey(r).error == NotAWeekNumber(r[n].0);
      }
    }
  }

  /**
   * What a successful extraction of a record is: the week numbers its keys
   * denote, each once and in ascending order; for each of them the total
   * points of the entry that the dict comprehension kept; no hover texts.
   */
  ghost predicate Extracts(record: LineupRecord, e: Extraction)
  {
    (forall i, j :: 0 <= i < j < |e.weeks| ==> e.weeks[i] < e.weeks[j])
    && (forall w :: w in e.weeks <==> exists i :: 0 <= i < |record| && Text.ParseInt(record[i].0) == Some(w))
    && |e.points| == |e.weeks|
    && (forall i :: 0 <= i < |e.weeks| ==>
          LastEntryFor(record, e.weeks[i]).Some? && e.points[i] == WeekPoints(LastEntryFor(record, e.weeks[i]).value))
    && e.hover == []
  }

  /** Only an empty record extracts to no weeks at all. */
  lemma ExtractsSomeWeek(record: LineupRecord, e: Extraction)
    requires Extracts(record, e) && AllWeekKeys(record) && |record| > 0
    ensures |e.weeks| > 0 && |e.points| > 0
  {
    assert Text.ParseInt(record[0].0).value in e.weeks;
  }

  /** Sorted keys of the re-keyed table with the totals of their entries make an extraction of the record. */
  lemma ExtractionOfTable(record: LineupRecord, weeks: seq<int>, points: seq<real>)
    requires Rekey(record).Ok?
    requires forall w :: w in weeks <==> w in TableKeys(Rekey(record).value)
    requires Sorting.StrictlyAscending(weeks, IntLess)
    requires |points| == |weeks|
    requires forall k :: 0 <= k < |weeks| ==> points[k] == WeekPoints(Lookup(Rekey(record).value, weeks[k]))
    ensures Extracts(record, Extraction(weeks, points, []))
  {
    RekeyFailure(record);
    RekeyTable(record);
    forall w ensures w in weeks <==> exists i :: 0 <= i < |record| && Text.ParseInt(record[i].0) == Some(w) {
      LastEntryForSome(record, w);
    }
  }

  /**
   * `process_weekly_data`: the distinct week numbers in ascending order, and for
   * each of them the total points of the entry that the dict comprehension kept.
   */
  method ProcessWeeklyData(record: LineupRecord) returns (r: Result<Extraction, DataError>)
    ensures r.Ok? <==> AllWeekKeys(record)
    ensures r.Err? ==> exists i :: (0 <= i < |record| && r.error == NotAWeekNumber(record[i].0)
      && Text.ParseInt(record[i].0).None? && forall j :: 0 <= j < i ==> Text.ParseInt(record[j].0).Some?)
    ensures r.Ok? ==> Extracts(record, r.value)
    ensures record == [] ==> r == Ok(Extraction([], [], []))
  {
    RekeyFailure(record);
    var table :- Rekey(record);
    RekeyTable(record);
    var weeks := Sorting.Sort(TableKeys(table), IntLess);
    IntLessIsStrictTotalOrder();
    Sorting.SortCorrect(TableKeys(table), IntLess);
    Sorting.SameElements(weeks, TableKeys(table));
    var points := PointsByWeek(table, weeks);
    var hover: seq<string> := [];
    ExtractionOfTable(record, weeks, points);
    var e := Extraction(weeks, points, hover);
    r := Ok(e);
  }

  /** The loop over the sorted weeks: the total points of each week's entry, in week order. */
  method PointsByWeek(table: WeekTable, weeks: seq<int>) returns (points: seq<real>)
    requires forall k :: 0 <= k < |weeks| ==> weeks[k] in TableKeys(table)
    ensures |points| == |weeks|
    ensures forall k :: 0 <= k < |weeks| ==> points[k] == WeekPoints(Lookup(table, weeks[k]))
  {
    points := [];
    for i := 0 to |weeks|
      invariant |points| == i
      invariant forall k :: 0 <= k < i ==> points[k] == WeekPoints(Lookup(table, weeks[k]))
    {
      var weekData := Lookup(table, weeks[i]);
      var totalPoints := WeekPoints(weekData);
      ghost var before := points;
      points := points + [totalPoints];
      assert points[..i] == before && points[i] == totalPoints;
    }
  }
}
