/**
 * The shaded regions of the season overview chart. In the roster view the
 * region between the drafted-roster line and the actual-roster line is split
 * into a positive part (actual above drafted) and a negative part, cutting a
 * week segment at the exact point where the two lines cross; each part is
 * closed into a polygon by walking its upper edge forward and its lower edge
 * back. In the lineup view the two polygons are drawn directly from the series.
 */
module FillAreas {
  import opened Wrappers

  /** The three lists one polarity accumulates: x positions, upper edge, lower edge. */
  datatype FillBuffer = FillBuffer(x: seq<real>, upper: seq<real>, lower: seq<real>)

  /** A closed polygon as plotted with `fill="toself"`. */
  datatype Path = Path(x: seq<real>, y: seq<real>)

  /** What one week segment adds to the positive and to the negative buffer. */
  datatype Pieces = Pieces(positive: FillBuffer, negative: FillBuffer)

  const NoPoints := FillBuffer([], [], [])

  function Extend(b: FillBuffer, c: FillBuffer): FillBuffer
  {
    FillBuffer(b.x + c.x, b.upper + c.upper, b.lower + c.lower)
  }

  /** The lists grow in lockstep and the upper edge never dips below the lower one. */
  predicate WellFormed(b: FillBuffer)
  {
    |b.x| == |b.upper| == |b.lower|
    && forall k :: 0 <= k < |b.x| ==> b.lower[k] <= b.upper[k]
  }

  /** Every x lies in [lo, hi] and the x positions never go backwards. */
  predicate SpansWithin(b: FillBuffer, lo: real, hi: real)
  {
    (forall k :: 0 <= k < |b.x| ==> lo <= b.x[k] <= hi)
    && (forall k :: 0 < k < |b.x| ==> b.x[k - 1] <= b.x[k])
  }

  /** `s[::-1]` */
  function Reverse<T>(s: seq<T>): (r: seq<T>)
    ensures |r| == |s|
    ensures forall k :: 0 <= k < |s| ==> r[k] == s[|s| - 1 - k]
  {
    if s == [] then [] else Reverse(s[1..]) + [s[0]]
  }

  /** The strict crossing test of the segment from week x1 to week x2 (draft d, actual a). */
  predicate LinesCross(d1: real, d2: real, a1: real, a2: real)
  {
    (d1 > a1 && d2 < a2) || (d1 < a1 && d2 > a2)
  }

  /** Slope and intercept `(m, b)` of the line `y = m * x + b` through (x1, y1) and (x2, y2). */
  function Line(x1: real, x2: real, y1: real, y2: real): (real, real)
    requires x1 != x2
  {
    var m := (y2 - y1) / (x2 - x1);
    (m, y1 - m * x1)
  }

  /** The intersection of the drafted and the actual line, or None under the `m1 != m2` guard. */
  function Intersection(x1: real, x2: real, d1: real, d2: real, a1: real, a2: real): Option<(real, real)>
    requires x1 != x2
  {
    var m1 := Line(x1, x2, d1, d2).0;
    var b1 := Line(x1, x2, d1, d2).1;
    var m2 := Line(x1, x2, a1, a2).0;
    var b2 := Line(x1, x2, a1, a2).1;
    if m1 != m2 then
      var xi := (b2 - b1) / (m1 - m2);
      Some((xi, m1 * xi + b1))
    else None
  }

  /** What the segment from (x1, d1/a1) to (x2, d2/a2) contributes to each buffer. */
  function SegmentPieces(x1: real, x2: real, d1: real, d2: real, a1: real, a2: real): Pieces
    requires x1 < x2
  {
    if LinesCross(d1, d2, a1, a2) then
      match Intersection(x1, x2, d1, d2, a1, a2)
      case None => Pieces(NoPoints, NoPoints)
      case Some((xi, yi)) =>
        if d1 < a1 then
          Pieces(FillBuffer([x1, xi], [a1, yi], [d1, yi]), FillBuffer([xi, x2], [yi, d2], [yi, a2]))
        else
          Pieces(FillBuffer([xi, x2], [yi, a2], [yi, d2]), FillBuffer([x1, xi], [d1, yi], [a1, yi]))
    else if a1 >= d1 && a2 >= d2 then
      Pieces(FillBuffer([x1, x2], [a1, a2], [d1, d2]), NoPoints)
    else if d1 >= a1 && d2 >= a2 then
      Pieces(NoPoints, FillBuffer([x1, x2], [d1, d2], [a1, a2]))
    else
      Pieces(NoPoints, NoPoints)
  }

  /** Weeks usable as x positions: one per drafted point, strictly increasing, each with an actual point. */
  predicate Aligned(weeks: seq<int>, draft: seq<real>, best: seq<real>)
  {
    |draft| == |weeks| && |best| >= |weeks|
    && forall i, j :: 0 <= i < j < |weeks| ==> weeks[i] < weeks[j]
  }

  /** The two buffers after the first n week segments. */
  function Buffers(weeks: seq<int>, draft: seq<real>, best: seq<real>, n: nat): Pieces
    requires Aligned(weeks, draft, best)
    requires n == 0 || n < |weeks|
  {
    if n == 0 then Pieces(NoPoints, NoPoints)
    else
      var acc := Buffers(weeks, draft, best, n - 1);
      var seg := SegmentPieces(weeks[n - 1] as real, weeks[n] as real,
                               draft[n - 1], draft[n], best[n - 1], best[n]);
      Pieces(Extend(acc.positive, seg.positive), Extend(acc.negative, seg.negative))
  }

  /** The number of week segments, `len(draft_weeks) - 1` and never negative. */
  function Segments(weeks: seq<int>): nat
  {
    if |weeks| == 0 then 0 else |weeks| - 1
  }

  /** `x + x[::-1]` over `upper + lower[::-1]`: forward along the upper edge, back along the lower. */
  function ClosedPath(b: FillBuffer): Path
  {
    Path(b.x + Reverse(b.x), b.upper + Reverse(b.lower))
  }

  /**
   * A polygon that goes out and comes back over the same x positions, the
   * outbound edge never below the returning one: an even number of points,
   * point k and its mirror sharing an x.
   */
  predicate Closed(p: Path)
  {
    |p.x| == |p.y| && |p.x| % 2 == 0
    && forall k :: 0 <= k < |p.x| / 2 ==> p.x[k] == p.x[|p.x| - 1 - k] && p.y[|p.y| - 1 - k] <= p.y[k]
  }

  /** The trace a buffer produces: none at all when it is empty. */
  function FillTrace(b: FillBuffer): Option<Path>
  {
    if b.x == [] then None else Some(ClosedPath(b))
  }

  // ---------------------------------------------------------------- geometry

  lemma SlopeTimesRun(x1: real, x2: real, y1: real, y2: real)
    requires x1 < x2
    ensures Line(x1, x2, y1, y2).0 * (x2 - x1) == y2 - y1
  {
  }

  /** A product with a positive factor has the sign of the other factor. */
  lemma FactorSign(a: real, b: real)
    requires b > 0.0
    ensures a * b >= 0.0 ==> a >= 0.0
  {
  }

  lemma PositiveFactor(u: real, v: real, w: real)
    requires v > 0.0 && w > 0.0 && u * v == w
    ensures u > 0.0
  {
    assert u >= 0.0 by { FactorSign(u, v); }
  }

  /** The strict crossing test says exactly that draft minus actual changes sign over the segment. */
  lemma CrossIffSignChange(d1: real, d2: real, a1: real, a2: real)
    ensures LinesCross(d1, d2, a1, a2) <==> (d1 - a1) * (d2 - a2) < 0.0
  {
    var e1, e2 := d1 - a1, d2 - a2;
    if e1 > 0.0 && e2 < 0.0 {
      assert e1 * e2 < 0.0 by { assert e1 * (-e2) > 0.0; }
    } else if e1 < 0.0 && e2 > 0.0 {
      assert e1 * e2 < 0.0 by { assert (-e1) * e2 > 0.0; }
    } else if e1 >= 0.0 && e2 >= 0.0 {
      assert e1 * e2 >= 0.0;
    } else {
      assert e1 <= 0.0 && e2 <= 0.0;
      assert e1 * e2 >= 0.0 by { assert (-e1) * (-e2) >= 0.0; }
    }
  }

  /**
   * A point whose offset from x1, scaled by the slope gap k, cancels the gap e1
   * at x1, lies strictly inside the interval when the gap changes sign.
   */
  lemma CrossingInside(x1: real, x2: real, xi: real, k: real, e1: real, e2: real)
    requires x1 < x2 && ((e1 > 0.0 && e2 < 0.0) || (e1 < 0.0 && e2 > 0.0))
    requires (xi - x1) * k == -e1 && k * (x2 - x1) == e2 - e1
    ensures x1 < xi < x2
  {
    var dx := x2 - x1;
    assert (xi - x1) * (e1 - e2) == e1 * dx by {
      calc {
        (xi - x1) * (e1 - e2);
        (xi - x1) * (-(k * dx));
        -(((xi - x1) * k) * dx);
        e1 * dx;
      }
    }
    assert (x2 - xi) * (e1 - e2) == -e2 * dx by {
      assert (x2 - xi) * (e1 - e2) == dx * (e1 - e2) - (xi - x1) * (e1 - e2);
    }
    if e1 > 0.0 {
      PositiveFactor(xi - x1, e1 - e2, e1 * dx);
      PositiveFactor(x2 - xi, e1 - e2, -e2 * dx);
    } else {
      assert (xi - x1) * (e2 - e1) == -e1 * dx;
      assert (x2 - xi) * (e2 - e1) == e2 * dx;
      PositiveFactor(xi - x1, e2 - e1, -e1 * dx);
      PositiveFactor(x2 - xi, e2 - e1, e2 * dx);
    }
  }

  /** A point of a line through (x1, y1) and (x2, y2) rises from y1 by the slope times its offset. */
  lemma OnLine(x1: real, x2: real, y1: real, y2: real, m: real, b: real, xi: real, yi: real)
    requires x1 < x2 && m * (x2 - x1) == y2 - y1 && b == y1 - m * x1
    requires yi == m * xi + b
    ensures (yi - y1) * (x2 - x1) == (y2 - y1) * (xi - x1)
  {
    assert yi - y1 == m * (xi - x1);
    assert m * (xi - x1) * (x2 - x1) == m * (x2 - x1) * (xi - x1);
  }

  /** The crossing of two lines, given by slope and intercept, whose gap changes sign over [x1, x2]. */
  lemma CrossingOfLines(x1: real, x2: real, d1: real, d2: real, a1: real, a2: real,
                        m1: real, b1: real, m2: real, b2: real)
    requires x1 < x2 && LinesCross(d1, d2, a1, a2)
    requires m1 * (x2 - x1) == d2 - d1 && b1 == d1 - m1 * x1
    requires m2 * (x2 - x1) == a2 - a1 && b2 == a1 - m2 * x1
    ensures m1 != m2
    ensures var xi := (b2 - b1) / (m1 - m2);
      x1 < xi < x2
      && (m1 * xi + b1 - d1) * (x2 - x1) == (d2 - d1) * (xi - x1)
      && (m1 * xi + b1 - a1) * (x2 - x1) == (a2 - a1) * (xi - x1)
  {
    var dx := x2 - x1;
    var e1, e2 := d1 - a1, d2 - a2;
    assert (m1 - m2) * dx == e2 - e1 by {
      assert (m1 - m2) * dx == m1 * dx - m2 * dx;
    }
    assert m1 != m2 by {
      assert e2 - e1 != 0.0;
    }
    var xi := (b2 - b1) / (m1 - m2);
    var yi := m1 * xi + b1;
    assert xi * (m1 - m2) == b2 - b1;
    assert (xi - x1) * (m1 - m2) == -e1 by {
      assert (xi - x1) * (m1 - m2) == xi * (m1 - m2) - x1 * (m1 - m2);
    }
    CrossingInside(x1, x2, xi, m1 - m2, e1, e2);
    OnLine(x1, x2, d1, d2, m1, b1, xi, yi);
    assert yi == m2 * xi + b2 by {
      assert m1 * xi - m2 * xi == (m1 - m2) * xi;
    }
    OnLine(x1, x2, a1, a2, m2, b2, xi, yi);
  }

  /**
   * Where the lines cross, the slopes differ, the intersection lies strictly
   * inside the week interval, and it lies on both lines.
   */
  lemma CrossingPoint(x1: real, x2: real, d1: real, d2: real, a1: real, a2: real)
    requires x1 < x2 && LinesCross(d1, d2, a1, a2)
    ensures Line(x1, x2, d1, d2).0 != Line(x1, x2, a1, a2).0
    ensures Intersection(x1, x2, d1, d2, a1, a2).Some?
    ensures var (xi, yi) := Intersection(x1, x2, d1, d2, a1, a2).value;
      x1 < xi < x2
      && (yi - d1) * (x2 - x1) == (d2 - d1) * (xi - x1)
      && (yi - a1) * (x2 - x1) == (a2 - a1) * (xi - x1)
  {
    SlopeTimesRun(x1, x2, d1, d2);
    SlopeTimesRun(x1, x2, a1, a2);
    CrossingOfLines(x1, x2, d1, d2, a1, a2,
      Line(x1, x2, d1, d2).0, Line(x1, x2, d1, d2).1, Line(x1, x2, a1, a2).0, Line(x1, x2, a1, a2).1);
  }

  /**
   * A segment without a strict crossing is entirely positive or entirely
   * negative, so the configuration the source only logs a warning for never
   * occurs.
   */
  lemma NoUnexpectedConfiguration(d1: real, d2: real, a1: real, a2: real)
    requires !LinesCross(d1, d2, a1, a2)
    ensures (a1 >= d1 && a2 >= d2) || (d1 >= a1 && d2 >= a2)
  {
  }

  /**
   * Each segment adds exactly two points to one buffer (to both when the lines
   * cross), within the segment's x-interval, with the upper edge on top; the
   * positive buffer's upper edge is the actual line and the negative buffer's
   * the drafted line.
   */
  lemma {:induction false} SegmentPiecesShape(x1: real, x2: real, d1: real, d2: real, a1: real, a2: real)
    requires x1 < x2
    ensures var p := SegmentPieces(x1, x2, d1, d2, a1, a2);
      WellFormed(p.positive) && WellFormed(p.negative)
      && SpansWithin(p.positive, x1, x2) && SpansWithin(p.negative, x1, x2)
      && (LinesCross(d1, d2, a1, a2) ==> |p.positive.x| == 2 && |p.negative.x| == 2)
      && (!LinesCross(d1, d2, a1, a2) ==> |p.positive.x| + |p.negative.x| == 2)
      && (|p.positive.x| == 2 && p.positive.x[0] == x1 ==> p.positive.upper[0] == a1 && p.positive.lower[0] == d1)
      && (|p.positive.x| == 2 && p.positive.x[1] == x2 ==> p.positive.upper[1] == a2 && p.positive.lower[1] == d2)
      && (|p.negative.x| == 2 && p.negative.x[0] == x1 ==> p.negative.upper[0] == d1 && p.negative.lower[0] == a1)
      && (|p.negative.x| == 2 && p.negative.x[1] == x2 ==> p.negative.upper[1] == d2 && p.negative.lower[1] == a2)
  {
    if LinesCross(d1, d2, a1, a2) {
      CrossingPoint(x1, x2, d1, d2, a1, a2);
    } else {
      NoUnexpectedConfiguration(d1, d2, a1, a2);
    }
  }

  lemma ExtendKeepsShape(b: FillBuffer, c: FillBuffer, lo: real, mid: real, hi: real)
    requires lo <= mid <= hi
    requires WellFormed(b) && WellFormed(c) && SpansWithin(b, lo, mid) && SpansWithin(c, mid, hi)
    ensures WellFormed(Extend(b, c)) && SpansWithin(Extend(b, c), lo, hi)
  {
    var e := Extend(b, c);
    forall k | 0 < k < |e.x|
      ensures e.x[k - 1] <= e.x[k]
    {
      if k == |b.x| {
        assert e.x[k - 1] == b.x[k - 1] && e.x[k] == c.x[0];
      }
    }
  }

  /**
   * Both buffers stay well formed after any number of segments, and their x
   * positions run forward from the first week to the last one reached.
   */
  lemma {:induction false} BuffersWellFormed(weeks: seq<int>, draft: seq<real>, best: seq<real>, n: nat)
    requires Aligned(weeks, draft, best)
    requires n == 0 || n < |weeks|
    ensures var p := Buffers(weeks, draft, best, n);
      WellFormed(p.positive) && WellFormed(p.negative)
      && (n > 0 ==>
            SpansWithin(p.positive, weeks[0] as real, weeks[n] as real)
            && SpansWithin(p.negative, weeks[0] as real, weeks[n] as real))
      && |p.positive.x| + |p.negative.x| >= 2 * n
  {
    if n > 0 {
      BuffersWellFormed(weeks, draft, best, n - 1);
      var x1, x2 := weeks[n - 1] as real, weeks[n] as real;
      assert weeks[n - 1] < weeks[n];
      SegmentPiecesShape(x1, x2, draft[n - 1], draft[n], best[n - 1], best[n]);
      var acc := Buffers(weeks, draft, best, n - 1);
      var seg := SegmentPieces(x1, x2, draft[n - 1], draft[n], best[n - 1], best[n]);
      if n == 1 {
        assert acc.positive.x == [] && acc.negative.x == [];
        ExtendKeepsShape(acc.positive, seg.positive, x1, x1, x2);
        ExtendKeepsShape(acc.negative, seg.negative, x1, x1, x2);
      } else {
        assert weeks[0] < weeks[n - 1];
        ExtendKeepsShape(acc.positive, seg.positive, weeks[0] as real, x1, x2);
        ExtendKeepsShape(acc.negative, seg.negative, weeks[0] as real, x1, x2);
      }
    }
  }

  /**
   * The closed path is twice as long as its buffer; the point k places and the
   * point that mirrors it share an x, and the outbound point is never below
   * the returning one.
   */
  lemma ClosedPathShape(b: FillBuffer)
    requires WellFormed(b)
    ensures var p := ClosedPath(b); var n := |b.x|;
      |p.x| == |p.y| == 2 * n
      && forall k :: 0 <= k < n ==>
           p.x[k] == p.x[2 * n - 1 - k] == b.x[k]
           && p.y[k] == b.upper[k] && p.y[2 * n - 1 - k] == b.lower[k]
           && p.y[2 * n - 1 - k] <= p.y[k]
    ensures Closed(ClosedPath(b))
  {
  }

  // ------------------------------------------------------------- the method

  /**
   * One pass of the loop in `add_fill_areas_roster`: the points the segment
   * from week x1 to week x2 appends to the positive and to the negative buffer.
   */
  method SplitSegment(x1: real, x2: real, y1Draft: real, y2Draft: real, y1Actual: real, y2Actual: real)
    returns (positive: FillBuffer, negative: FillBuffer)
    requires x1 < x2
    ensures Pieces(positive, negative) == SegmentPieces(x1, x2, y1Draft, y2Draft, y1Actual, y2Actual)
  {
    positive, negative := NoPoints, NoPoints;
    var linesCross := (y1Draft > y1Actual && y2Draft < y2Actual) || (y1Draft < y1Actual && y2Draft > y2Actual);
    if linesCross {
      var m1 := (y2Draft - y1Draft) / (x2 - x1);
      var b1 := y1Draft - m1 * x1;
      var m2 := (y2Actual - y1Actual) / (x2 - x1);
      var b2 := y1Actual - m2 * x1;
      if m1 != m2 {
        var xIntersect := (b2 - b1) / (m1 - m2);
        var yIntersect := m1 * xIntersect + b1;
        assert Intersection(x1, x2, y1Draft, y2Draft, y1Actual, y2Actual).Some?;
        assert Intersection(x1, x2, y1Draft, y2Draft, y1Actual, y2Actual).value.0 == xIntersect;
        assert Intersection(x1, x2, y1Draft, y2Draft, y1Actual, y2Actual).value.1 == yIntersect;
        if y1Draft < y1Actual {
          positive := FillBuffer([x1, xIntersect], [y1Actual, yIntersect], [y1Draft, yIntersect]);
          negative := FillBuffer([xIntersect, x2], [yIntersect, y2Draft], [yIntersect, y2Actual]);
        } else {
          negative := FillBuffer([x1, xIntersect], [y1Draft, yIntersect], [y1Actual, yIntersect]);
          positive := FillBuffer([xIntersect, x2], [yIntersect, y2Actual], [yIntersect, y2Draft]);
        }
      }
    } else if y1Actual >= y1Draft && y2Actual >= y2Draft {
      positive := FillBuffer([x1, x2], [y1Actual, y2Actual], [y1Draft, y2Draft]);
    } else if y1Draft >= y1Actual && y2Draft >= y2Actual {
      negative := FillBuffer([x1, x2], [y1Draft, y2Draft], [y1Actual, y2Actual]);
    } else {
      // the source logs an "unexpected line configuration" warning here
      assert false;
    }
  }

  /**
   * `add_fill_areas_roster`: walks each pair of consecutive weeks, extends the
   * positive and negative buffers, and returns the fill trace of each
   * buffer, absent when the buffer stayed empty.
   */
  method AddFillAreasRoster(weeks: seq<int>, draft: seq<real>, best: seq<real>)
    returns (positiveFill: Option<Path>, negativeFill: Option<Path>)
    requires Aligned(weeks, draft, best)
    ensures var p := Buffers(weeks, draft, best, Segments(weeks));
      positiveFill == FillTrace(p.positive) && negativeFill == FillTrace(p.negative)
    ensures positiveFill.Some? ==> Closed(positiveFill.value)
    ensures negativeFill.Some? ==> Closed(negativeFill.value)
    ensures |weeks| >= 2 ==> positiveFill.Some? || negativeFill.Some?
  {
    var positive, negative := FillBuffers(weeks, draft, best);
    BuffersWellFormed(weeks, draft, best, Segments(weeks));
    ClosedPathShape(positive);
    ClosedPathShape(negative);
    positiveFill := FillTrace(positive);
    negativeFill := FillTrace(negative);
  }

  /** The loop over consecutive weeks that fills the positive and the negative buffer. */
  method FillBuffers(weeks: seq<int>, draft: seq<real>, best: seq<real>)
    returns (positive: FillBuffer, negative: FillBuffer)
    requires Aligned(weeks, draft, best)
    ensures Pieces(positive, negative) == Buffers(weeks, draft, best, Segments(weeks))
  {
    var positiveX, positiveUpper, positiveLower := [], [], [];
    var negativeX, negativeUpper, negativeLower := [], [], [];
    var i := 0;
    while i < |weeks| - 1
      invariant i == 0 || i < |weeks|
      invariant Buffers(weeks, draft, best, i)
        == Pieces(FillBuffer(positiveX, positiveUpper, positiveLower),
                  FillBuffer(negativeX, negativeUpper, negativeLower))
    {
      assert weeks[i] < weeks[i + 1];
      var positive, negative := SplitSegment(weeks[i] as real, weeks[i + 1] as real,
                                             draft[i], draft[i + 1], best[i], best[i + 1]);
      positiveX, positiveUpper, positiveLower := positiveX + positive.x, positiveUpper + positive.upper, positiveLower + positive.lower;
      negativeX, negativeUpper, negativeLower := negativeX + negative.x, negativeUpper + negative.upper, negativeLower + negative.lower;
      i := i + 1;
    }
    positive := FillBuffer(positiveX, positiveUpper, positiveLower);
    negative := FillBuffer(negativeX, negativeUpper, negativeLower);
  }

  // ------------------------------------------------------------ lineup view

  /**
   * `add_fill_areas_lineup`: the bench region runs forward along the best
   * lineup and back along the started lineup; the achieved region runs
   * forward along the started lineup and back along zero.
   */
  function LineupFills(bestWeeks: seq<int>, bestPoints: seq<real>, lineupWeeks: seq<int>, lineupPoints: seq<real>)
    : (fills: (Path, Path))
    ensures |fills.0.x| == 2 * |bestWeeks| && |fills.0.y| == |bestPoints| + |lineupPoints|
    ensures |fills.1.x| == 2 * |lineupWeeks| && |fills.1.y| == |lineupPoints| + |lineupWeeks|
  {
    var weeksX := seq(|bestWeeks|, k requires 0 <= k < |bestWeeks| => bestWeeks[k] as real);
    var lineupX := seq(|lineupWeeks|, k requires 0 <= k < |lineupWeeks| => lineupWeeks[k] as real);
    (Path(weeksX + Reverse(weeksX), bestPoints + Reverse(lineupPoints)),
     Path(lineupX + Reverse(lineupX), lineupPoints + seq(|lineupWeeks|, _ => 0.0)))
  }

  /**
   * On week-aligned series, the bench polygon's vertical at week k spans from
   * the started total up to the best total, and the achieved polygon's from
   * zero up to the started total.
   */
  lemma LineupFillsSpan(weeks: seq<int>, bestPoints: seq<real>, lineupPoints: seq<real>, k: nat)
    requires |bestPoints| == |lineupPoints| == |weeks| && k < |weeks|
    ensures var (bench, achieved) := LineupFills(weeks, bestPoints, weeks, lineupPoints);
      var n := |weeks|;
      bench.x[k] == bench.x[2 * n - 1 - k] == weeks[k] as real
      && bench.y[k] == bestPoints[k] && bench.y[2 * n - 1 - k] == lineupPoints[k]
      && achieved.x[k] == achieved.x[2 * n - 1 - k] == weeks[k] as real
      && achieved.y[k] == lineupPoints[k] && achieved.y[2 * n - 1 - k] == 0.0
  {
  }
}
