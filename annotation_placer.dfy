/**
 * `position_annotations`: spreads the "Avg" labels at the right edge of the
 * season overview so that no two are closer than `min_gap` vertically. The
 * values are visited in ascending order (ties by position in the list, as the
 * stable sort leaves them), each pushed up to `min_gap` above its already
 * adjusted predecessor when it is closer than that, and the adjusted values
 * are written back in the original order.
 */
module AnnotationPlacer {
  import opened Sorting

  /** The order of `sorted(range(n), key=lambda i: values[i])`: by value, then by index. */
  function Before(p: (real, int), q: (real, int)): bool
  {
    p.0 < q.0 || (p.0 == q.0 && p.1 < q.1)
  }

  lemma BeforeIsStrictTotalOrder()
    ensures IsStrictTotalOrder(Before)
  {
  }

  /** Each value paired with its index. */
  function Tagged(values: seq<real>): (t: seq<(real, int)>)
    ensures |t| == |values|
    ensures forall i :: 0 <= i < |t| ==> t[i] == (values[i], i)
  {
    seq(|values|, i requires 0 <= i < |values| => (values[i], i))
  }

  lemma {:induction false} SortedTagged(values: seq<real>)
    ensures var sorted := Sort(Tagged(values), Before);
      |sorted| == |values|
      && (forall k :: 0 <= k < |sorted| ==> 0 <= sorted[k].1 < |values| && sorted[k] == (values[sorted[k].1], sorted[k].1))
      && (forall i :: 0 <= i < |values| ==> (values[i], i) in sorted)
      && StrictlyAscending(sorted, Before)
  {
    var tagged := Tagged(values);
    var sorted := Sort(tagged, Before);
    BeforeIsStrictTotalOrder();
    SortCorrect(tagged, Before);
    SameElements(sorted, tagged);
    forall k | 0 <= k < |sorted|
      ensures 0 <= sorted[k].1 < |values| && sorted[k] == (values[sorted[k].1], sorted[k].1)
    {
      assert sorted[k] in sorted;
      var j :| 0 <= j < |tagged| && tagged[j] == sorted[k];
    }
    forall i | 0 <= i < |values|
      ensures (values[i], i) in sorted
    {
      assert tagged[i] in tagged;
    }
  }

  /**
   * `sorted_indices`: a permutation of the indices, ascending by value with
   * ties in index order.
   */
  function SortedOrder(values: seq<real>): (order: seq<int>)
    ensures |order| == |values|
    ensures forall k :: 0 <= k < |order| ==> 0 <= order[k] < |values|
    ensures forall i :: 0 <= i < |values| ==> i in order
    ensures forall k, l :: 0 <= k < l < |order| ==> Before((values[order[k]], order[k]), (values[order[l]], order[l]))
    ensures forall k, l :: 0 <= k < l < |order| ==> order[k] != order[l]
  {
    var sorted := Sort(Tagged(values), Before);
    SortedTagged(values);
    var order := seq(|sorted|, k requires 0 <= k < |sorted| => sorted[k].1);
    assert forall k :: 0 <= k < |order| ==> sorted[k] == (values[order[k]], order[k]);
    forall i | 0 <= i < |values| ensures i in order {
      var k :| 0 <= k < |sorted| && sorted[k] == (values[i], i);
      assert order[k] == i;
    }
    order
  }

  /** `sorted_positions` before the pass: the values in sorted order. */
  function SortedValues(values: seq<real>): (s: seq<real>)
    ensures |s| == |values|
    ensures forall k, l :: 0 <= k <= l < |s| ==> s[k] <= s[l]
  {
    var order := SortedOrder(values);
    var s := seq(|values|, k requires 0 <= k < |values| => values[order[k]]);
    assert forall k, l :: 0 <= k < l < |s| ==> Before((s[k], order[k]), (s[l], order[l]));
    s
  }

  /**
   * The greedy pass: each value after the first is raised to `gap` above its
   * adjusted predecessor when it is closer than that.
   */
  function Relax(s: seq<real>, gap: real): (r: seq<real>)
    ensures |r| == |s|
  {
    if |s| <= 1 then s
    else
      var prefix := Relax(s[..|s| - 1], gap);
      var last := prefix[|prefix| - 1];
      if s[|s| - 1] - last < gap then prefix + [last + gap] else prefix + [s[|s| - 1]]
  }

  /** The pass one element at a time, as the source's loop performs it. */
  lemma {:induction false} RelaxAt(s: seq<real>, gap: real)
    ensures |s| > 0 ==> Relax(s, gap)[0] == s[0]
    ensures forall k :: 0 < k < |s| ==>
      Relax(s, gap)[k] == if s[k] - Relax(s, gap)[k - 1] < gap then Relax(s, gap)[k - 1] + gap else s[k]
  {
    if |s| > 1 {
      var p := s[..|s| - 1];
      RelaxAt(p, gap);
      assert forall k :: 0 <= k < |p| ==> Relax(s, gap)[k] == Relax(p, gap)[k] && s[k] == p[k];
    }
  }

  /** Extending the input by one value extends the pass by one step. */
  lemma RelaxSnoc(s: seq<real>, gap: real, i: nat)
    requires 0 < i < |s|
    ensures Relax(s[..i + 1], gap) == Relax(s[..i], gap)
      + [if s[i] - Relax(s[..i], gap)[i - 1] < gap then Relax(s[..i], gap)[i - 1] + gap else s[i]]
  {
    assert s[..i + 1][..i] == s[..i];
  }

  /** The pass only raises values, never lowers them. */
  lemma RelaxNeverLowers(s: seq<real>, gap: real)
    ensures forall k :: 0 <= k < |s| ==> s[k] <= Relax(s, gap)[k]
  {
    RelaxAt(s, gap);
  }

  /** After the pass consecutive values are at least `gap` apart. */
  lemma RelaxKeepsGap(s: seq<real>, gap: real)
    ensures forall k :: 0 < k < |s| ==> Relax(s, gap)[k] - Relax(s, gap)[k - 1] >= gap
  {
    RelaxAt(s, gap);
  }

  /** A value moves only when it is closer than `gap` to its adjusted predecessor, and then to exactly `gap` above it. */
  lemma RelaxRaisesOnlyWhenClose(s: seq<real>, gap: real)
    ensures |s| > 0 ==> Relax(s, gap)[0] == s[0]
    ensures forall k :: 0 < k < |s| && Relax(s, gap)[k] != s[k] ==>
      s[k] - Relax(s, gap)[k - 1] < gap && Relax(s, gap)[k] == Relax(s, gap)[k - 1] + gap
  {
    RelaxAt(s, gap);
  }

  lemma {:induction false} RelaxSeparatedAt(s: seq<real>, gap: real, k: nat)
    requires forall j :: 0 < j < |s| ==> s[j] - s[j - 1] >= gap
    requires k < |s|
    ensures Relax(s, gap)[k] == s[k]
  {
    RelaxAt(s, gap);
    if k > 0 {
      RelaxSeparatedAt(s, gap, k - 1);
    }
  }

  /** Values already `gap` apart are left alone. */
  lemma RelaxSeparated(s: seq<real>, gap: real)
    requires forall j :: 0 < j < |s| ==> s[j] - s[j - 1] >= gap
    ensures Relax(s, gap) == s
  {
    forall k | 0 <= k < |s| ensures Relax(s, gap)[k] == s[k] {
      RelaxSeparatedAt(s, gap, k);
    }
  }

  lemma {:induction false} RelaxIncreasingFrom(s: seq<real>, gap: real, k: nat, l: nat)
    requires gap > 0.0 && k < l < |s|
    ensures Relax(s, gap)[k] < Relax(s, gap)[l]
  {
    RelaxKeepsGap(s, gap);
    if k < l - 1 {
      RelaxIncreasingFrom(s, gap, k, l - 1);
    }
  }

  /** With a positive gap the adjusted values are strictly increasing. */
  lemma RelaxIncreasing(s: seq<real>, gap: real)
    requires gap > 0.0
    ensures forall k, l :: 0 <= k < l < |s| ==> Relax(s, gap)[k] < Relax(s, gap)[l]
  {
    forall k, l | 0 <= k < l < |s| ensures Relax(s, gap)[k] < Relax(s, gap)[l] {
      RelaxIncreasingFrom(s, gap, k, l);
    }
  }

  /**
   * `result` is what `position_annotations(values, gap)` returns: the value at
   * sorted position k goes back to index `sorted_indices[k]`.
   */
  predicate IsPlacement(values: seq<real>, gap: real, result: seq<real>)
  {
    var order := SortedOrder(values);
    |result| == |values|
    && forall k :: 0 <= k < |values| ==> result[order[k]] == Relax(SortedValues(values), gap)[k]
  }

  /**
   * The loop `for i in range(1, len(sorted_positions))` that pushes each
   * position up to `gap` above its predecessor, in place.
   */
  method EnforceGap(positions: array<real>, gap: real)
    modifies positions
    ensures positions[..] == Relax(old(positions[..]), gap)
  {
    ghost var s := positions[..];
    var n := positions.Length;
    var i := 1;
    while i < n
      invariant n == 0 || 1 <= i <= n
      invariant n > 0 ==> positions[..i] == Relax(s[..i], gap) && positions[i..] == s[i..]
    {
      RelaxSnoc(s, gap, i);
      ghost var prefix := positions[..i];
      ghost var tail := positions[i + 1..];
      assert positions[i] == s[i] && tail == s[i + 1..] by {
        assert positions[i..] == [positions[i]] + tail;
        assert s[i..] == [s[i]] + s[i + 1..];
      }
      assert positions[i - 1] == prefix[i - 1];
      if positions[i] - positions[i - 1] < gap {
        positions[i] := positions[i - 1] + gap;
      }
      assert positions[..i] == prefix && positions[i + 1..] == tail;
      assert positions[..i + 1] == prefix + [positions[i]];
      i := i + 1;
    }
    if n > 0 {
      assert s[..n] == s && positions[..n] == positions[..];
    }
  }

  /** `position_annotations`: sort, enforce the gap, and write each position back to its index. */
  method PositionAnnotations(values: seq<real>, minGap: real) returns (result: seq<real>)
    ensures IsPlacement(values, minGap, result)
  {
    var n := |values|;
    var sortedIndices := SortedOrder(values);
    var sortedPositions := new real[n](k requires 0 <= k < n => values[sortedIndices[k]]);
    assert sortedPositions[..] == SortedValues(values);
    EnforceGap(sortedPositions, minGap);
    result := ScatterBack(sortedIndices, sortedPositions);
  }

  /** `result[sorted_indices[k]] = sorted_positions[k]` for every k, into a fresh list. */
  method ScatterBack(order: seq<int>, positions: array<real>) returns (result: seq<real>)
    requires |order| == positions.Length
    requires forall k :: 0 <= k < |order| ==> 0 <= order[k] < |order|
    requires forall k, l :: 0 <= k < l < |order| ==> order[k] != order[l]
    ensures |result| == |order|
    ensures forall k :: 0 <= k < |order| ==> result[order[k]] == positions[..][k]
  {
    var n := |order|;
    var placed := new real[n](_ => 0.0);
    for j := 0 to n
      modifies placed
      invariant forall k :: 0 <= k < j ==> placed[order[k]] == positions[k]
    {
      placed[order[j]] := positions[j];
    }
    result := placed[..];
  }

  /** Every value ends up at sorted position k for some k. */
  lemma PlacementAt(values: seq<real>, gap: real, result: seq<real>, i: nat)
    returns (k: nat)
    requires IsPlacement(values, gap, result) && i < |values|
    ensures k < |values| && SortedOrder(values)[k] == i
    ensures SortedValues(values)[k] == values[i] && result[i] == Relax(SortedValues(values), gap)[k]
  {
    var order := SortedOrder(values);
    assert i in order;
    k :| 0 <= k < |order| && order[k] == i;
  }

  /** No label is placed below its own value. */
  lemma PlacementNeverLowers(values: seq<real>, gap: real, result: seq<real>)
    requires IsPlacement(values, gap, result)
    ensures forall i :: 0 <= i < |values| ==> values[i] <= result[i]
  {
    RelaxNeverLowers(SortedValues(values), gap);
    forall i | 0 <= i < |values| ensures values[i] <= result[i] {
      var k := PlacementAt(values, gap, result, i);
    }
  }

  /** The first smallest value keeps its place. */
  lemma PlacementKeepsMinimum(values: seq<real>, gap: real, result: seq<real>)
    requires IsPlacement(values, gap, result) && |values| > 0
    ensures var m := SortedOrder(values)[0];
      result[m] == values[m]
      && forall j :: 0 <= j < |values| ==> values[m] <= values[j] && (values[m] == values[j] ==> m <= j)
  {
    RelaxAt(SortedValues(values), gap);
    var m := SortedOrder(values)[0];
    forall j | 0 <= j < |values| ensures values[m] <= values[j] && (values[m] == values[j] ==> m <= j) {
      var l := PlacementAt(values, gap, result, j);
    }
  }

  /** In sorted order consecutive labels are at least `gap` apart. */
  lemma PlacementKeepsGap(values: seq<real>, gap: real, result: seq<real>)
    requires IsPlacement(values, gap, result)
    ensures var order := SortedOrder(values);
      forall k :: 0 < k < |values| ==> result[order[k]] - result[order[k - 1]] >= gap
  {
    RelaxKeepsGap(SortedValues(values), gap);
  }

  /**
   * The labels keep the order of their values: a smaller value gets a lower
   * label, and with a positive gap equal values are stacked in index order.
   */
  lemma PlacementKeepsRank(values: seq<real>, gap: real, result: seq<real>, i: nat, j: nat)
    requires IsPlacement(values, gap, result) && i < |values| && j < |values|
    requires values[i] < values[j] || (gap > 0.0 && values[i] == values[j] && i < j)
    ensures result[i] < result[j]
  {
    var s := SortedValues(values);
    var k := PlacementAt(values, gap, result, i);
    var l := PlacementAt(values, gap, result, j);
    assert k < l;
    if gap > 0.0 {
      RelaxIncreasing(s, gap);
    } else {
      RelaxSeparated(s, gap);
    }
  }

  lemma {:induction false} RelaxSpreadFrom(s: seq<real>, gap: real, k: nat, l: nat)
    requires gap > 0.0 && k < l < |s|
    ensures Relax(s, gap)[l] - Relax(s, gap)[k] >= gap
  {
    RelaxKeepsGap(s, gap);
    if k < l - 1 {
      RelaxSpreadFrom(s, gap, k, l - 1);
    }
  }

  /** With a positive gap no two labels end up closer than `gap`, whatever their order. */
  lemma PlacementSeparates(values: seq<real>, gap: real, result: seq<real>, i: nat, j: nat)
    requires IsPlacement(values, gap, result) && gap > 0.0
    requires i < |values| && j < |values| && i != j
    ensures result[j] - result[i] >= gap || result[i] - result[j] >= gap
  {
    var k := PlacementAt(values, gap, result, i);
    var l := PlacementAt(values, gap, result, j);
    if k < l {
      RelaxSpreadFrom(SortedValues(values), gap, k, l);
    } else {
      RelaxSpreadFrom(SortedValues(values), gap, l, k);
    }
  }

  /** Labels whose values are already `gap` apart stay where they are. */
  lemma PlacementOfSeparated(values: seq<real>, gap: real, result: seq<real>)
    requires IsPlacement(values, gap, result)
    requires forall i, j :: 0 <= i < |values| && 0 <= j < |values| && i != j ==>
      values[i] - values[j] >= gap || values[j] - values[i] >= gap
    ensures result == values
  {
    var s := SortedValues(values);
    var order := SortedOrder(values);
    forall k | 0 < k < |s| ensures s[k] - s[k - 1] >= gap {
      assert order[k - 1] != order[k];
    }
    RelaxSeparated(s, gap);
    forall i | 0 <= i < |values| ensures result[i] == values[i] {
      var k := PlacementAt(values, gap, result, i);
    }
  }

  /** Three averages one point apart with the default gap of 7 end up 7 apart above the lowest. */
  lemma PlacementExample(result: seq<real>)
    requires IsPlacement([100.0, 101.0, 102.0], 7.0, result)
    ensures result == [100.0, 107.0, 114.0]
  {
    var values := [100.0, 101.0, 102.0];
    var order := SortedOrder(values);
    assert order == [0, 1, 2] by {
      assert Before((values[order[0]], order[0]), (values[order[1]], order[1]));
      assert Before((values[order[1]], order[1]), (values[order[2]], order[2]));
    }
    var s := SortedValues(values);
    assert s == values;
    RelaxAt(s, 7.0);
  }
}
