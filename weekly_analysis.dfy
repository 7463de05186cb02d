/**
 * `create_week_analysis`: one week of the three lineup records -> the lineup
 * decisions table (actual starters against the best lineup of the actual
 * roster, position by position) and the four values of the weekly waterfall.
 */
module WeeklyAnalysis {
  import opened Wrappers
  import opened Numbers
  import opened Records
  import Text
  import Sorting

  /** One entry of `actual_starters` / `best_starters`: a player tagged with the position it started at. */
  datatype Starter = Starter(position: string, name: string, points: real)

  /** `actual_by_position` / `best_by_position`: position -> its starters, keys in order of first appearance. */
  type Groups = seq<(string, seq<Starter>)>

  /** The players of one position, tagged with it. */
  function Tag(pos: string, players: seq<Player>): (s: seq<Starter>)
    ensures |s| == |players|
    ensures forall k :: 0 <= k < |s| ==> s[k] == Starter(pos, players[k].name, players[k].points)
  {
    seq(|players|, k requires 0 <= k < |players| => Starter(pos, players[k].name, players[k].points))
  }

  /** Every starter of a week, position by position in dict order, players in list order. */
  function Flatten(st: Starters): seq<Starter>
  {
    if st == [] then [] else Tag(st[0].0, st[0].1) + Flatten(st[1..])
  }

  function Points(s: seq<Starter>): (ps: seq<real>)
    ensures |ps| == |s| && forall k :: 0 <= k < |s| ==> ps[k] == s[k].points
  {
    seq(|s|, k requires 0 <= k < |s| => s[k].points)
  }

  function Positions(s: seq<Starter>): (ps: seq<string>)
    ensures |ps| == |s| && forall k :: 0 <= k < |s| ==> ps[k] == s[k].position
  {
    seq(|s|, k requires 0 <= k < |s| => s[k].position)
  }

  lemma {:induction false} FlattenAppend(a: Starters, b: Starters)
    ensures Flatten(a + b) == Flatten(a) + Flatten(b)
  {
    if a != [] {
      assert (a + b)[0] == a[0] && (a + b)[1..] == a[1..] + b;
      FlattenAppend(a[1..], b);
      assert Flatten(a + b) == Tag(a[0].0, a[0].1) + (Flatten(a[1..]) + Flatten(b));
    } else {
      assert a + b == b;
    }
  }

  lemma {:induction false} PointsAppend(a: seq<Starter>, b: seq<Starter>)
    ensures Sum(Points(a + b)) == Sum(Points(a)) + Sum(Points(b))
  {
    assert Points(a + b) == Points(a) + Points(b);
    SumAppend(Points(a), Points(b));
  }

  /** The flattened starters carry exactly the points the week total adds up. */
  lemma {:induction false} FlattenTotal(st: Starters)
    ensures Sum(Points(Flatten(st))) == StartersTotal(st)
  {
    StartersTotalByPosition(st);
    if st != [] {
      FlattenTotal(st[1..]);
      PointsAppend(Tag(st[0].0, st[0].1), Flatten(st[1..]));
      assert Points(Tag(st[0].0, st[0].1)) == PlayerPoints(st[0].1);
    }
  }

  /** The loops that fill `actual_starters` / `best_starters`. */
  method FlattenStarters(st: Starters) returns (flat: seq<Starter>)
    ensures flat == Flatten(st)
    ensures Sum(Points(flat)) == StartersTotal(st)
  {
    flat := [];
    for i := 0 to |st|
      invariant flat == Flatten(st[..i])
    {
      var (position, players) := st[i];
      for j := 0 to |players|
        invariant flat == Flatten(st[..i]) + Tag(position, players[..j])
      {
        flat := flat + [Starter(position, players[j].name, players[j].points)];
        assert Tag(position, players[..j + 1]) == Tag(position, players[..j]) + [Starter(position, players[j].name, players[j].points)];
      }
      assert players[..|players|] == players;
      assert st[..i + 1] == st[..i] + [st[i]];
      FlattenAppend(st[..i], [st[i]]);
      assert Flatten([st[i]]) == Tag(position, players) + Flatten([]);
    }
    assert st[..|st|] == st;
    FlattenTotal(st);
  }

  // ---------------------------------------------------------------------------
  // Grouping by position

  function Keys(g: Groups): (ks: seq<string>)
    ensures |ks| == |g| && forall k :: 0 <= k < |g| ==> ks[k] == g[k].0
  {
    seq(|g|, k requires 0 <= k < |g| => g[k].0)
  }

  /** `groups.get(pos, [])` */
  function Get(g: Groups, pos: string): seq<Starter>
  {
    if g == [] then [] else if g[0].0 == pos then g[0].1 else Get(g[1..], pos)
  }

  /** One step of the grouping loop: open the position's list on first sight, then append. */
  function AddTo(g: Groups, s: Starter): Groups
  {
    if g == [] then [(s.position, [s])]
    else if g[0].0 == s.position then [(g[0].0, g[0].1 + [s])] + g[1..]
    else [g[0]] + AddTo(g[1..], s)
  }

  /** The dict the grouping loop builds from a list of starters. */
  function Group(flat: seq<Starter>): Groups
  {
    if flat == [] then [] else AddTo(Group(flat[..|flat| - 1]), flat[|flat| - 1])
  }

  /** The starters of one position, in their original order. */
  function OfPosition(flat: seq<Starter>, pos: string): (s: seq<Starter>)
    ensures forall k :: 0 <= k < |s| ==> s[k] in flat && s[k].position == pos
  {
    if flat == [] then []
    else
      var rest := OfPosition(flat[..|flat| - 1], pos);
      assert forall k :: 0 <= k < |rest| ==> rest[k] in flat by {
        forall k | 0 <= k < |rest| ensures rest[k] in flat {
          var m :| 0 <= m < |flat| - 1 && flat[..|flat| - 1][m] == rest[k];
          assert flat[m] == rest[k];
        }
      }
      if flat[|flat| - 1].position == pos then rest + [flat[|flat| - 1]] else rest
  }

  lemma KeysCons(h: (string, seq<Starter>), g: Groups)
    ensures Keys([h] + g) == [h.0] + Keys(g)
  {
  }

  lemma DistinctTail(g: Groups)
    requires g != [] && Sorting.Distinct(Keys(g))
    ensures Sorting.Distinct(Keys(g[1..])) && g[0].0 !in Keys(g[1..])
  {
    forall i, j | 0 <= i < j < |g| - 1 ensures Keys(g[1..])[i] != Keys(g[1..])[j] {
      assert Keys(g)[i + 1] != Keys(g)[j + 1];
    }
    forall i | 0 <= i < |g| - 1 ensures Keys(g[1..])[i] != g[0].0 {
      assert Keys(g)[i + 1] != Keys(g)[0];
    }
  }

  lemma DistinctCons(x: string, ks: seq<string>)
    requires Sorting.Distinct(ks) && x !in ks
    ensures Sorting.Distinct([x] + ks)
  {
    forall i, j | 0 <= i < j < |ks| + 1 ensures ([x] + ks)[i] != ([x] + ks)[j] {
      if i > 0 {
        assert ([x] + ks)[i] == ks[i - 1];
      }
      assert ([x] + ks)[j] == ks[j - 1];
    }
  }

  /** A grouping step keeps the keys distinct and adds exactly the new starter's position. */
  lemma {:induction false} AddToKeys(g: Groups, s: Starter)
    requires Sorting.Distinct(Keys(g))
    ensures Sorting.Distinct(Keys(AddTo(g, s)))
    ensures forall p :: p in Keys(AddTo(g, s)) <==> p in Keys(g) || p == s.position
  {
    if g == [] {
      assert Keys(AddTo(g, s)) == [s.position];
    } else if g[0].0 == s.position {
      KeysCons((g[0].0, g[0].1 + [s]), g[1..]);
      KeysCons(g[0], g[1..]);
      assert g == [g[0]] + g[1..];
    } else {
      DistinctTail(g);
      AddToKeys(g[1..], s);
      var added := AddTo(g[1..], s);
      KeysCons(g[0], added);
      KeysCons(g[0], g[1..]);
      assert g == [g[0]] + g[1..];
      DistinctCons(g[0].0, Keys(added));
    }
  }

  /** A grouping step appends the new starter to its own position's list and to no other. */
  lemma {:induction false} AddToGet(g: Groups, s: Starter, p: string)
    ensures Get(AddTo(g, s), p) == Get(g, p) + (if p == s.position then [s] else [])
  {
    if g != [] && g[0].0 != s.position {
      AddToGet(g[1..], s, p);
      assert ([g[0]] + AddTo(g[1..], s))[1..] == AddTo(g[1..], s);
    } else if g != [] {
      assert ([(g[0].0, g[0].1 + [s])] + g[1..])[1..] == g[1..];
    }
  }

  lemma AddToSpec(g: Groups, s: Starter)
    requires Sorting.Distinct(Keys(g))
    ensures Sorting.Distinct(Keys(AddTo(g, s)))
    ensures forall p :: p in Keys(AddTo(g, s)) <==> p in Keys(g) || p == s.position
    ensures forall p :: Get(AddTo(g, s), p) == Get(g, p) + (if p == s.position then [s] else [])
  {
    AddToKeys(g, s);
    forall p ensures Get(AddTo(g, s), p) == Get(g, p) + (if p == s.position then [s] else []) {
      AddToGet(g, s, p);
    }
  }

  /**
   * The grouping keeps each position once, holds exactly the positions that
   * occur, and gives each position its starters in their original order.
   */
  lemma {:induction false} GroupSpec(flat: seq<Starter>)
    ensures Sorting.Distinct(Keys(Group(flat)))
    ensures forall p :: p in Keys(Group(flat)) <==> p in Positions(flat)
    ensures forall p :: Get(Group(flat), p) == OfPosition(flat, p)
  {
    if flat != [] {
      var n := |flat| - 1;
      GroupSpec(flat[..n]);
      AddToSpec(Group(flat[..n]), flat[n]);
      assert Positions(flat) == Positions(flat[..n]) + [flat[n].position];
    }
  }

  /** Where `pos in groups` finds the position: its index, or the length when it is absent. */
  function KeyIndex(g: Groups, pos: string): (i: nat)
    ensures i <= |g|
    ensures i < |g| ==> g[i].0 == pos
    ensures forall k :: 0 <= k < i ==> g[k].0 != pos
  {
    if g == [] || g[0].0 == pos then 0 else 1 + KeyIndex(g[1..], pos)
  }

  /** Appending to the list found at the key, or opening a new one at the end, is one grouping step. */
  lemma {:induction false} AddToAt(g: Groups, s: Starter)
    ensures var i := KeyIndex(g, s.position);
      if i < |g| then AddTo(g, s) == g[i := (s.position, g[i].1 + [s])]
      else AddTo(g, s) == g + [(s.position, [s])]
  {
    if g != [] && g[0].0 != s.position {
      AddToAt(g[1..], s);
    }
  }

  /** The loop that fills `actual_by_position` / `best_by_position`. */
  method GroupByPosition(flat: seq<Starter>) returns (groups: Groups)
    ensures groups == Group(flat)
    ensures Sorting.Distinct(Keys(groups))
    ensures forall p :: p in Keys(groups) <==> p in Positions(flat)
    ensures forall p :: Get(groups, p) == OfPosition(flat, p)
  {
    groups := [];
    for i := 0 to |flat|
      invariant groups == Group(flat[..i])
    {
      var player := flat[i];
      var pos := player.position;
      var idx := KeyIndex(groups, pos);
      ghost var before := groups;
      AddToAt(groups, player);
      if idx == |groups| {
        groups := groups + [(pos, [])];
        assert groups[idx].1 + [player] == [player];
      }
      groups := groups[idx := (pos, groups[idx].1 + [player])];
      assert groups == AddTo(before, player) by {
        if idx == |before| {
          assert groups == before + [(pos, [player])];
        }
      }
      assert flat[..i + 1][..i] == flat[..i] && flat[..i + 1][i] == player;
    }
    assert flat[..|flat|] == flat;
    GroupSpec(flat);
  }

  // ---------------------------------------------------------------------------
  // The rows of the lineup decisions table

  /** `set(...)` of a list of positions, as a list without repeats. */
  function Dedup(s: seq<string>): (d: seq<string>)
    ensures Sorting.Distinct(d)
    ensures forall x :: x in d <==> x in s
  {
    if s == [] then []
    else
      var rest := Dedup(s[..|s| - 1]);
      assert forall x :: x in s <==> x in s[..|s| - 1] || x == s[|s| - 1] by {
        assert s == s[..|s| - 1] + [s[|s| - 1]];
      }
      if s[|s| - 1] in rest then rest else rest + [s[|s| - 1]]
  }

  /** `sorted(set(actual keys + best keys))` */
  function AllPositions(actualBy: Groups, bestBy: Groups): seq<string>
  {
    Sorting.Sort(Dedup(Keys(actualBy) + Keys(bestBy)), Text.LexLess)
  }

  /** The positions of the table are the union of both groupings' positions, each once, in string order. */
  lemma AllPositionsSpec(actualBy: Groups, bestBy: Groups)
    ensures Sorting.StrictlyAscending(AllPositions(actualBy, bestBy), Text.LexLess)
    ensures Sorting.Distinct(AllPositions(actualBy, bestBy))
    ensures forall p :: p in AllPositions(actualBy, bestBy) <==> p in Keys(actualBy) || p in Keys(bestBy)
  {
    var d := Dedup(Keys(actualBy) + Keys(bestBy));
    Text.LexIsStrictTotalOrder();
    Sorting.SortCorrect(d, Text.LexLess);
    Sorting.SameElements(Sorting.Sort(d, Text.LexLess), d);
    Sorting.AscendingIsDistinct(Sorting.Sort(d, Text.LexLess), Text.LexLess);
  }

  /** "red": different players; "green": the same player; "gray": one side has no player. */
  datatype RowColour = Red | Green | Gray

  /** One row of the table: the position label, both starters (padded) and the colour. */
  datatype Row = Row(positionLabel: string, actualName: string, actualPoints: real,
                     bestName: string, bestPoints: real, colour: RowColour)

  /** `pos + (f"-{i+1}" if max_players > 1 else "")` */
  function RowLabel(pos: string, i: nat, count: nat): string
  {
    pos + (if count > 1 then "-" + Text.DecimalString(i + 1) else "")
  }

  function MaxCount(a: seq<Starter>, b: seq<Starter>): nat
  {
    if |a| >= |b| then |a| else |b|
  }

  /** Row i of a position with `count` rows, matching players by index. */
  function RowAt(pos: string, actual: seq<Starter>, best: seq<Starter>, i: nat, count: nat): Row
  {
    Row(RowLabel(pos, i, count),
        if i < |actual| then actual[i].name else "",
        if i < |actual| then actual[i].points else 0.0,
        if i < |best| then best[i].name else "",
        if i < |best| then best[i].points else 0.0,
        if i < |actual| && i < |best| then (if actual[i].name != best[i].name then Red else Green)
        else Gray)
  }

  /** The rows one position contributes: as many as its larger side has players. */
  function PositionRows(pos: string, actual: seq<Starter>, best: seq<Starter>): (rows: seq<Row>)
    ensures |rows| == MaxCount(actual, best)
  {
    seq(MaxCount(actual, best), i requires 0 <= i < MaxCount(actual, best) =>
      RowAt(pos, actual, best, i, MaxCount(actual, best)))
  }

  /** All rows, position by position in the given order. */
  function Rows(positions: seq<string>, actualBy: Groups, bestBy: Groups): seq<Row>
  {
    if positions == [] then []
    else
      var n := |positions| - 1;
      Rows(positions[..n], actualBy, bestBy)
        + PositionRows(positions[n], Get(actualBy, positions[n]), Get(bestBy, positions[n]))
  }

  /** The colour says exactly whether both sides have a player and whether they are the same player. */
  lemma RowColourMeaning(pos: string, actual: seq<Starter>, best: seq<Starter>, i: nat, count: nat)
    ensures var r := RowAt(pos, actual, best, i, count);
      && (r.colour == Gray <==> i >= |actual| || i >= |best|)
      && (r.colour == Red <==> i < |actual| && i < |best| && actual[i].name != best[i].name)
      && (r.colour == Green <==> i < |actual| && i < |best| && actual[i].name == best[i].name)
  {
  }

  /** A side without a player at that index shows an empty name and zero points. */
  lemma RowPadding(pos: string, actual: seq<Starter>, best: seq<Starter>, i: nat, count: nat)
    ensures var r := RowAt(pos, actual, best, i, count);
      && (i >= |actual| ==> r.actualName == "" && r.actualPoints == 0.0)
      && (i >= |best| ==> r.bestName == "" && r.bestPoints == 0.0)
      && (i < |actual| ==> r.actualName == actual[i].name && r.actualPoints == actual[i].points)
      && (i < |best| ==> r.bestName == best[i].name && r.bestPoints == best[i].points)
  {
  }

  /** Within a position that has several rows, the `pos-k` labels are pairwise different. */
  lemma {:induction false} RowLabelsDistinct(pos: string, i: nat, j: nat, count: nat)
    requires count > 1 && i != j
    ensures RowLabel(pos, i, count) != RowLabel(pos, j, count)
  {
    var di, dj := Text.DecimalString(i + 1), Text.DecimalString(j + 1);
    var li, lj := pos + ("-" + di), pos + ("-" + dj);
    assert RowLabel(pos, i, count) == li && RowLabel(pos, j, count) == lj;
    assert li[|pos| + 1..] == di;
    assert lj[|pos| + 1..] == dj;
    if li == lj {
      Text.DecimalStringInjective(i + 1, j + 1);
    }
  }

  // ---------------------------------------------------------------------------
  // The parallel column lists

  /** The six lists `positions`, `actual_names`, `actual_points`, `best_names`, `best_points`, `colors` hold the rows, column by column. */
  predicate HasColumns(rows: seq<Row>, positions: seq<string>, actualNames: seq<string>, actualPoints: seq<real>,
                       bestNames: seq<string>, bestPoints: seq<real>, colours: seq<RowColour>)
  {
    && |positions| == |actualNames| == |actualPoints| == |bestNames| == |bestPoints| == |colours| == |rows|
    && forall k :: 0 <= k < |rows| ==>
      rows[k] == Row(positions[k], actualNames[k], actualPoints[k], bestNames[k], bestPoints[k], colours[k])
  }

  function ActualPointsColumn(rows: seq<Row>): (c: seq<real>)
    ensures |c| == |rows| && forall k :: 0 <= k < |rows| ==> c[k] == rows[k].actualPoints
  {
    seq(|rows|, k requires 0 <= k < |rows| => rows[k].actualPoints)
  }

  function BestPointsColumn(rows: seq<Row>): (c: seq<real>)
    ensures |c| == |rows| && forall k :: 0 <= k < |rows| ==> c[k] == rows[k].bestPoints
  {
    seq(|rows|, k requires 0 <= k < |rows| => rows[k].bestPoints)
  }

  /** One pass of the inner loop: the six values of row j of a position, matched by index. */
  method MatchRow(pos: string, actualPlayers: seq<Starter>, bestPlayers: seq<Starter>, j: nat, maxPlayers: nat)
    returns (position: string, actualName: string, actualPoint: real, bestName: string, bestPoint: real, colour: RowColour)
    ensures Row(position, actualName, actualPoint, bestName, bestPoint, colour) == RowAt(pos, actualPlayers, bestPlayers, j, maxPlayers)
  {
    position := pos + (if maxPlayers > 1 then "-" + Text.DecimalString(j + 1) else "");
    if j < |actualPlayers| {
      actualName, actualPoint := actualPlayers[j].name, actualPlayers[j].points;
    } else {
      actualName, actualPoint := "", 0.0;
    }
    if j < |bestPlayers| {
      bestName, bestPoint := bestPlayers[j].name, bestPlayers[j].points;
    } else {
      bestName, bestPoint := "", 0.0;
    }
    if j < |actualPlayers| && j < |bestPlayers| {
      if actualPlayers[j].name != bestPlayers[j].name {
        colour := Red;
      } else {
        colour := Green;
      }
    } else {
      colour := Gray;
    }
  }

  /** The inner loop for one position: `max_players` rows appended to the six lists. */
  method CompilePosition(pos: string, actualPlayers: seq<Starter>, bestPlayers: seq<Starter>, ghost rows: seq<Row>,
                         positions0: seq<string>, actualNames0: seq<string>, actualPoints0: seq<real>,
                         bestNames0: seq<string>, bestPoints0: seq<real>, colours0: seq<RowColour>)
    returns (positions: seq<string>, actualNames: seq<string>, actualPoints: seq<real>,
             bestNames: seq<string>, bestPoints: seq<real>, colours: seq<RowColour>)
    requires HasColumns(rows, positions0, actualNames0, actualPoints0, bestNames0, bestPoints0, colours0)
    ensures HasColumns(rows + PositionRows(pos, actualPlayers, bestPlayers),
      positions, actualNames, actualPoints, bestNames, bestPoints, colours)
  {
    positions, actualNames, actualPoints, bestNames, bestPoints, colours :=
      positions0, actualNames0, actualPoints0, bestNames0, bestPoints0, colours0;
    var maxPlayers := if |actualPlayers| >= |bestPlayers| then |actualPlayers| else |bestPlayers|;
    ghost var all := PositionRows(pos, actualPlayers, bestPlayers);
    for j := 0 to maxPlayers
      invariant HasColumns(rows + all[..j], positions, actualNames, actualPoints, bestNames, bestPoints, colours)
    {
      var position, actualName, actualPoint, bestName, bestPoint, colour := MatchRow(pos, actualPlayers, bestPlayers, j, maxPlayers);
      positions := positions + [position];
      actualNames := actualNames + [actualName];
      actualPoints := actualPoints + [actualPoint];
      bestNames := bestNames + [bestName];
      bestPoints := bestPoints + [bestPoint];
      colours := colours + [colour];
      assert rows + all[..j + 1] == (rows + all[..j]) + [all[j]];
    }
    assert all[..maxPlayers] == all;
  }

  /** The loops over `all_positions` and `range(max_players)` that fill the six lists. */
  method CompileRows(allPositions: seq<string>, actualBy: Groups, bestBy: Groups)
    returns (positions: seq<string>, actualNames: seq<string>, actualPoints: seq<real>,
             bestNames: seq<string>, bestPoints: seq<real>, colours: seq<RowColour>)
    ensures HasColumns(Rows(allPositions, actualBy, bestBy), positions, actualNames, actualPoints, bestNames, bestPoints, colours)
  {
    positions, actualNames, actualPoints, bestNames, bestPoints, colours := [], [], [], [], [], [];
    for i := 0 to |allPositions|
      invariant HasColumns(Rows(allPositions[..i], actualBy, bestBy),
        positions, actualNames, actualPoints, bestNames, bestPoints, colours)
    {
      var pos := allPositions[i];
      var actualPlayers := Get(actualBy, pos);
      var bestPlayers := Get(bestBy, pos);
      positions, actualNames, actualPoints, bestNames, bestPoints, colours :=
        CompilePosition(pos, actualPlayers, bestPlayers, Rows(allPositions[..i], actualBy, bestBy),
          positions, actualNames, actualPoints, bestNames, bestPoints, colours);
      assert allPositions[..i + 1][..i] == allPositions[..i] && allPositions[..i + 1][i] == pos;
    }
    assert allPositions[..|allPositions|] == allPositions;
  }

  // ---------------------------------------------------------------------------
  // Column sums

  /** The points of the given positions' groups, position by position. */
  function GroupedTotal(positions: seq<string>, g: Groups): real
  {
    if positions == [] then 0.0
    else
      var n := |positions| - 1;
      GroupedTotal(positions[..n], g) + Sum(Points(Get(g, positions[n])))
  }

  /** One grouping step adds the new starter's points to the total of the positions that include its own. */
  lemma DistinctInit(s: seq<string>)
    requires s != [] && Sorting.Distinct(s)
    ensures Sorting.Distinct(s[..|s| - 1]) && s[|s| - 1] !in s[..|s| - 1]
  {
    var n := |s| - 1;
    forall k | 0 <= k < n ensures s[..n][k] != s[n] {
      assert s[k] != s[n];
    }
  }

  lemma {:induction false} GroupedTotalAddTo(positions: seq<string>, g: Groups, x: Starter)
    requires Sorting.Distinct(positions)
    ensures GroupedTotal(positions, AddTo(g, x)) == GroupedTotal(positions, g) + (if x.position in positions then x.points else 0.0)
  {
    if positions != [] {
      var n := |positions| - 1;
      var p := positions[n];
      var init := positions[..n];
      DistinctInit(positions);
      GroupedTotalAddTo(init, g, x);
      AddToGet(g, x, p);
      var added: seq<Starter> := if p == x.position then [x] else [];
      PointsAppend(Get(g, p), added);
      var step := Sum(Points(added));
      assert step == (if p == x.position then x.points else 0.0);
      assert positions == init + [p];
      assert x.position in positions <==> x.position in init || x.position == p;
      assert GroupedTotal(positions, AddTo(g, x))
        == GroupedTotal(init, AddTo(g, x)) + Sum(Points(Get(g, p))) + step;
      assert GroupedTotal(positions, g) == GroupedTotal(init, g) + Sum(Points(Get(g, p)));
    }
  }

  /** Grouped by position, the starters of every listed position carry all the points, each starter once. */
  lemma {:induction false} GroupedTotalAll(positions: seq<string>, flat: seq<Starter>)
    requires Sorting.Distinct(positions)
    requires forall p :: p in Positions(flat) ==> p in positions
    ensures GroupedTotal(positions, Group(flat)) == Sum(Points(flat))
  {
    if flat == [] {
      GroupedTotalEmpty(positions);
    } else {
      var n := |flat| - 1;
      assert Positions(flat) == Positions(flat[..n]) + [flat[n].position];
      GroupedTotalAll(positions, flat[..n]);
      GroupedTotalAddTo(positions, Group(flat[..n]), flat[n]);
      assert flat == flat[..n] + [flat[n]];
      PointsAppend(flat[..n], [flat[n]]);
    }
  }

  lemma {:induction false} GroupedTotalEmpty(positions: seq<string>)
    ensures GroupedTotal(positions, []) == 0.0
  {
    if positions != [] {
      GroupedTotalEmpty(positions[..|positions| - 1]);
    }
  }

  /** A column padded with zeros past the side's last player sums to that side's points. */
  lemma {:induction false} PaddedColumnSum(pos: string, actual: seq<Starter>, best: seq<Starter>)
    ensures Sum(ActualPointsColumn(PositionRows(pos, actual, best))) == Sum(Points(actual))
    ensures Sum(BestPointsColumn(PositionRows(pos, actual, best))) == Sum(Points(best))
  {
    var rows := PositionRows(pos, actual, best);
    var m := |rows|;
    assert ActualPointsColumn(rows) == Points(actual) + Zeros(m - |actual|);
    assert BestPointsColumn(rows) == Points(best) + Zeros(m - |best|);
    SumAppend(Points(actual), Zeros(m - |actual|));
    SumAppend(Points(best), Zeros(m - |best|));
    ZerosSum(m - |actual|);
    ZerosSum(m - |best|);
  }

  function Zeros(n: nat): (z: seq<real>)
    ensures |z| == n && forall k :: 0 <= k < n ==> z[k] == 0.0
  {
    seq(n, k => 0.0)
  }

  lemma {:induction false} ZerosSum(n: nat)
    ensures Sum(Zeros(n)) == 0.0
  {
    if n > 0 {
      ZerosSum(n - 1);
      assert Zeros(n)[1..] == Zeros(n - 1);
    }
  }

  lemma ColumnsAppend(front: seq<Row>, back: seq<Row>)
    ensures Sum(ActualPointsColumn(front + back)) == Sum(ActualPointsColumn(front)) + Sum(ActualPointsColumn(back))
    ensures Sum(BestPointsColumn(front + back)) == Sum(BestPointsColumn(front)) + Sum(BestPointsColumn(back))
  {
    assert ActualPointsColumn(front + back) == ActualPointsColumn(front) + ActualPointsColumn(back);
    assert BestPointsColumn(front + back) == BestPointsColumn(front) + BestPointsColumn(back);
    SumAppend(ActualPointsColumn(front), ActualPointsColumn(back));
    SumAppend(BestPointsColumn(front), BestPointsColumn(back));
  }

  /** The points columns of the rows sum to the grouped totals of both sides. */
  lemma {:induction false} ColumnSums(positions: seq<string>, actualBy: Groups, bestBy: Groups)
    ensures Sum(ActualPointsColumn(Rows(positions, actualBy, bestBy))) == GroupedTotal(positions, actualBy)
    ensures Sum(BestPointsColumn(Rows(positions, actualBy, bestBy))) == GroupedTotal(positions, bestBy)
  {
    if positions != [] {
      var n := |positions| - 1;
      var p := positions[n];
      ColumnSums(positions[..n], actualBy, bestBy);
      var front := Rows(positions[..n], actualBy, bestBy);
      var back := PositionRows(p, Get(actualBy, p), Get(bestBy, p));
      assert Rows(positions, actualBy, bestBy) == front + back;
      ColumnsAppend(front, back);
      PaddedColumnSum(p, Get(actualBy, p), Get(bestBy, p));
    }
  }

  // ---------------------------------------------------------------------------
  // The table and the waterfall of one week

  /** Fill of a difference cell: "#ffcccc" for a loss, "#ccffcc" for a gain, "white" otherwise. */
  datatype DiffShade = Loss | Gain | Even

  function Shades(diffs: seq<real>): (sh: seq<DiffShade>)
    ensures |sh| == |diffs|
    ensures forall k :: 0 <= k < |diffs| ==>
      (sh[k] == Loss <==> diffs[k] < 0.0) && (sh[k] == Gain <==> diffs[k] > 0.0) && (sh[k] == Even <==> diffs[k] == 0.0)
  {
    seq(|diffs|, k requires 0 <= k < |diffs| => if diffs[k] < 0.0 then Loss else if diffs[k] > 0.0 then Gain else Even)
  }

  /** The cells of the lineup decisions table, its difference column with its shading, and its height. */
  datatype LineupTable = LineupTable(
    positions: seq<string>, actualNames: seq<string>, actualPoints: seq<real>,
    bestNames: seq<string>, bestPoints: seq<real>, colours: seq<RowColour>,
    pointDiffs: seq<real>, diffShades: seq<DiffShade>, height: int)

  /** The table whose rows are the given ones. */
  function TableFor(rows: seq<Row>): LineupTable
  {
    var actualPoints := ActualPointsColumn(rows);
    var bestPoints := BestPointsColumn(rows);
    var diffs := Differences(bestPoints, actualPoints);
    LineupTable(
      seq(|rows|, k requires 0 <= k < |rows| => rows[k].positionLabel),
      seq(|rows|, k requires 0 <= k < |rows| => rows[k].actualName),
      actualPoints,
      seq(|rows|, k requires 0 <= k < |rows| => rows[k].bestName),
      bestPoints,
      seq(|rows|, k requires 0 <= k < |rows| => rows[k].colour),
      diffs, Shades(diffs), |rows| * 35 + 100)
  }

  /** The lineup decisions table of the actual lineup against the best lineup of the actual roster. */
  function WeekTable(actualSt: Starters, bestSt: Starters): LineupTable
  {
    var actualBy := Group(Flatten(actualSt));
    var bestBy := Group(Flatten(bestSt));
    TableFor(Rows(AllPositions(actualBy, bestBy), actualBy, bestBy))
  }

  /** The four values of the waterfall: "Draft Value", "Transactions", "Lineup Decisions", "Actual Points". */
  datatype WeekWaterfall = WeekWaterfall(draftValue: real, transactions: real, lineupDecisions: real, actualPoints: real)

  /** Either "Week N data not available" or both charts. */
  datatype WeekAnalysis = NotAvailable | Analysis(table: LineupTable, waterfall: WeekWaterfall)

  /** What `create_week_analysis` computes for a week from the three records. */
  /** The analysis of a week whose three entries all have their starters. */
  function WeekOf(draftSt: Starters, bestSt: Starters, lineupSt: Starters): WeekAnalysis
  {
    var draftTotal := StartersTotal(draftSt);
    var bestTotal := StartersTotal(bestSt);
    var lineupTotal := StartersTotal(lineupSt);
    Analysis(WeekTable(lineupSt, bestSt),
      WeekWaterfall(draftTotal, bestTotal - draftTotal, lineupTotal - bestTotal, lineupTotal))
  }

  function Analyze(draftBest: LineupRecord, actualBest: LineupRecord, actualLineup: LineupRecord, week: int)
    : Result<WeekAnalysis, DataError>
  {
    var key := Text.DecimalString(week);
    var draftEntry := Find(draftBest, key);
    var bestEntry := Find(actualBest, key);
    var lineupEntry := Find(actualLineup, key);
    if draftEntry.None? || bestEntry.None? || lineupEntry.None? then Ok(NotAvailable)
    else if draftEntry.value.starters.None? || bestEntry.value.starters.None? || lineupEntry.value.starters.None? then
      Err(MissingStarters(key))
    else
      Ok(WeekOf(draftEntry.value.starters.value, bestEntry.value.starters.value, lineupEntry.value.starters.value))
  }

  /** Six lists that hold the rows column by column are the table's columns. */
  lemma ColumnsOfRows(rows: seq<Row>, positions: seq<string>, actualNames: seq<string>, actualPoints: seq<real>,
                      bestNames: seq<string>, bestPoints: seq<real>, colours: seq<RowColour>)
    requires HasColumns(rows, positions, actualNames, actualPoints, bestNames, bestPoints, colours)
    ensures var t := TableFor(rows);
      t.positions == positions && t.actualNames == actualNames && t.actualPoints == actualPoints
      && t.bestNames == bestNames && t.bestPoints == bestPoints && t.colours == colours
  {
    var t := TableFor(rows);
    assert forall k :: 0 <= k < |rows| ==> t.positions[k] == positions[k] && t.actualNames[k] == actualNames[k];
    assert forall k :: 0 <= k < |rows| ==> t.bestNames[k] == bestNames[k] && t.colours[k] == colours[k];
    assert forall k :: 0 <= k < |rows| ==> t.actualPoints[k] == actualPoints[k] && t.bestPoints[k] == bestPoints[k];
  }

  /** The lineup decisions table: flatten, group by position, match rows, take differences. */
  method LineupDecisions(actualSt: Starters, bestSt: Starters) returns (table: LineupTable)
    ensures table == WeekTable(actualSt, bestSt)
  {
    var actualStarters := FlattenStarters(actualSt);
    var bestStarters := FlattenStarters(bestSt);
    var actualByPosition := GroupByPosition(actualStarters);
    var bestByPosition := GroupByPosition(bestStarters);
    var allPositions := AllPositions(actualByPosition, bestByPosition);

    var positions, actualNames, actualPoints, bestNames, bestPoints, colours :=
      CompileRows(allPositions, actualByPosition, bestByPosition);
    ColumnsOfRows(Rows(allPositions, actualByPosition, bestByPosition),
      positions, actualNames, actualPoints, bestNames, bestPoints, colours);
    var pointDiffs := Differences(bestPoints, actualPoints);
    table := LineupTable(positions, actualNames, actualPoints, bestNames, bestPoints, colours,
      pointDiffs, Shades(pointDiffs), |positions| * 35 + 100);
  }

  /** `create_week_analysis` */
  method CreateWeekAnalysis(draftBest: LineupRecord, actualBest: LineupRecord, actualLineup: LineupRecord, week: int)
    returns (r: Result<WeekAnalysis, DataError>)
    ensures r == Analyze(draftBest, actualBest, actualLineup, week)
  {
    var weekStr := Text.DecimalString(week);
    var draftEntry := Find(draftBest, weekStr);
    var bestEntry := Find(actualBest, weekStr);
    var lineupEntry := Find(actualLineup, weekStr);
    if draftEntry.None? || bestEntry.None? || lineupEntry.None? {
      return Ok(NotAvailable);
    }
    if draftEntry.value.starters.None? || bestEntry.value.starters.None? || lineupEntry.value.starters.None? {
      return Err(MissingStarters(weekStr));
    }
    var analysis := WeekFigures(draftEntry.value.starters.value, bestEntry.value.starters.value,
      lineupEntry.value.starters.value);
    r := Ok(analysis);
  }

  /** The totals and the lineup table of a week whose three entries have their starters. */
  method WeekFigures(draftSt: Starters, bestSt: Starters, lineupSt: Starters) returns (a: WeekAnalysis)
    ensures a == WeekOf(draftSt, bestSt, lineupSt)
  {
    var draftBestTotal := StartersTotal(draftSt);
    var actualBestTotal := StartersTotal(bestSt);
    var actualLineupTotal := StartersTotal(lineupSt);

    var table := LineupDecisions(lineupSt, bestSt);

    var transactionImpact := actualBestTotal - draftBestTotal;
    var lineupDecisionImpact := actualLineupTotal - actualBestTotal;
    a := Analysis(table, WeekWaterfall(draftBestTotal, transactionImpact, lineupDecisionImpact, actualLineupTotal));
  }

  // ---------------------------------------------------------------------------
  // What the week analysis promises

  /** "Data not available" exactly when the week's key is missing from one of the three records. */
  lemma WeekAvailability(draftBest: LineupRecord, actualBest: LineupRecord, actualLineup: LineupRecord, week: int)
    ensures var key := Text.DecimalString(week);
      Analyze(draftBest, actualBest, actualLineup, week) == Ok(NotAvailable)
      <==> (|| !(exists i :: 0 <= i < |draftBest| && draftBest[i].0 == key)
            || !(exists i :: 0 <= i < |actualBest| && actualBest[i].0 == key)
            || !(exists i :: 0 <= i < |actualLineup| && actualLineup[i].0 == key))
  {
  }

  /** A week present in all three records fails exactly when one of its entries has no starters. */
  lemma MissingStartersFailure(draftBest: LineupRecord, actualBest: LineupRecord, actualLineup: LineupRecord, week: int)
    ensures var key := Text.DecimalString(week);
      var r := Analyze(draftBest, actualBest, actualLineup, week);
      && (r.Err? ==> r.error == MissingStarters(key))
      && (r.Err? <==> (&& Find(draftBest, key).Some? && Find(actualBest, key).Some? && Find(actualLineup, key).Some?
                      && (|| Find(draftBest, key).value.starters.None?
                          || Find(actualBest, key).value.starters.None?
                          || Find(actualLineup, key).value.starters.None?)))
  {
  }

  /** The waterfall's steps add up, and each total counts every starter of its record's week once. */
  lemma WaterfallAddsUp(draftBest: LineupRecord, actualBest: LineupRecord, actualLineup: LineupRecord, week: int)
    requires Analyze(draftBest, actualBest, actualLineup, week).Ok?
    requires Analyze(draftBest, actualBest, actualLineup, week).value.Analysis?
    ensures var key := Text.DecimalString(week);
      var w := Analyze(draftBest, actualBest, actualLineup, week).value.waterfall;
      && w.draftValue + w.transactions + w.lineupDecisions == w.actualPoints
      && w.draftValue == Sum(Points(Flatten(Find(draftBest, key).value.starters.value)))
      && w.draftValue + w.transactions == Sum(Points(Flatten(Find(actualBest, key).value.starters.value)))
      && w.actualPoints == Sum(Points(Flatten(Find(actualLineup, key).value.starters.value)))
  {
    var key := Text.DecimalString(week);
    FlattenTotal(Find(draftBest, key).value.starters.value);
    FlattenTotal(Find(actualBest, key).value.starters.value);
    FlattenTotal(Find(actualLineup, key).value.starters.value);
  }

  /**
   * The table accounts for every point: its actual points column sums to the
   * lineup total, its optimal points column to the best total, and its
   * difference column to the points the lineup decisions cost.
   */
  lemma TableSums(actualSt: Starters, bestSt: Starters)
    ensures var t := WeekTable(actualSt, bestSt);
      && Sum(t.actualPoints) == StartersTotal(actualSt)
      && Sum(t.bestPoints) == StartersTotal(bestSt)
      && Sum(t.pointDiffs) == StartersTotal(bestSt) - StartersTotal(actualSt)
  {
    var actualFlat, bestFlat := Flatten(actualSt), Flatten(bestSt);
    var actualBy, bestBy := Group(actualFlat), Group(bestFlat);
    var all := AllPositions(actualBy, bestBy);
    AllPositionsSpec(actualBy, bestBy);
    GroupSpec(actualFlat);
    GroupSpec(bestFlat);
    GroupedTotalAll(all, actualFlat);
    GroupedTotalAll(all, bestFlat);
    ColumnSums(all, actualBy, bestBy);
    FlattenTotal(actualSt);
    FlattenTotal(bestSt);
    var rows := Rows(all, actualBy, bestBy);
    SumDifferences(BestPointsColumn(rows), ActualPointsColumn(rows));
  }

  /** The analysed week's table sums agree with its waterfall: the difference column undoes the lineup decisions. */
  lemma TableMatchesWaterfall(draftBest: LineupRecord, actualBest: LineupRecord, actualLineup: LineupRecord, week: int)
    requires Analyze(draftBest, actualBest, actualLineup, week).Ok?
    requires Analyze(draftBest, actualBest, actualLineup, week).value.Analysis?
    ensures var a := Analyze(draftBest, actualBest, actualLineup, week).value;
      && Sum(a.table.actualPoints) == a.waterfall.actualPoints
      && Sum(a.table.bestPoints) == a.waterfall.draftValue + a.waterfall.transactions
      && Sum(a.table.pointDiffs) == -a.waterfall.lineupDecisions
  {
    var key := Text.DecimalString(week);
    TableSums(Find(actualLineup, key).value.starters.value, Find(actualBest, key).value.starters.value);
  }

  /**
   * The table's shape: rows follow the positions in string order, each
   * position once and exactly the positions either lineup uses; all columns
   * have one entry per row; each difference is optimal minus actual points
   * and is shaded by its sign; the height grows by 35 per row.
   */
  lemma TableShape(actualSt: Starters, bestSt: Starters)
    ensures var actualBy, bestBy := Group(Flatten(actualSt)), Group(Flatten(bestSt));
      var all := AllPositions(actualBy, bestBy);
      var t := WeekTable(actualSt, bestSt);
      && Sorting.StrictlyAscending(all, Text.LexLess)
      && (forall p :: p in all <==> p in Positions(Flatten(actualSt)) || p in Positions(Flatten(bestSt)))
      && (forall p :: Get(actualBy, p) == OfPosition(Flatten(actualSt), p))
      && (forall p :: Get(bestBy, p) == OfPosition(Flatten(bestSt), p))
      && HasColumns(Rows(all, actualBy, bestBy), t.positions, t.actualNames, t.actualPoints, t.bestNames, t.bestPoints, t.colours)
      && |t.pointDiffs| == |t.diffShades| == |t.positions|
      && (forall k :: 0 <= k < |t.pointDiffs| ==> t.pointDiffs[k] == t.bestPoints[k] - t.actualPoints[k])
      && t.height == |t.positions| * 35 + 100
  {
    var actualBy, bestBy := Group(Flatten(actualSt)), Group(Flatten(bestSt));
    AllPositionsSpec(actualBy, bestBy);
    GroupSpec(Flatten(actualSt));
    GroupSpec(Flatten(bestSt));
  }
}
