/**
 * Sums, means, extrema and the zero-guarded percentage shared by every chart
 * assembler. Points are modelled as mathematical reals.
 */
module Numbers {

  function Sum(s: seq<real>): real
  {
    if s == [] then 0.0 else s[0] + Sum(s[1..])
  }

  /** Arithmetic mean, `np.mean` on a non-empty list. */
  function Mean(s: seq<real>): real
    requires |s| > 0
  {
    Sum(s) / (|s| as real)
  }

  /** `min(s)` of a non-empty list: an element that no element undercuts. */
  function Min(s: seq<real>): (m: real)
    requires |s| > 0
    ensures m in s
    ensures forall k :: 0 <= k < |s| ==> m <= s[k]
  {
    if |s| == 1 then s[0]
    else
      var rest := Min(s[1..]);
      if s[0] <= rest then s[0] else rest
  }

  /** `max(s)` of a non-empty list: an element that no element exceeds. */
  function Max(s: seq<real>): (m: real)
    requires |s| > 0
    ensures m in s
    ensures forall k :: 0 <= k < |s| ==> s[k] <= m
  {
    if |s| == 1 then s[0]
    else
      var rest := Max(s[1..]);
      if s[0] >= rest then s[0] else rest
  }

  /** `part / whole * 100 if whole > 0 else 0`: the efficiency formula used throughout. */
  function Percent(part: real, whole: real): (p: real)
    ensures whole <= 0.0 ==> p == 0.0
    ensures whole > 0.0 ==> p * whole == 100.0 * part
  {
    if whole > 0.0 then part / whole * 100.0 else 0.0
  }

  /** `abs(x)` */
  function Abs(x: real): (a: real)
    ensures a >= 0.0 && (a == x || a == -x)
  {
    if x >= 0.0 then x else -x
  }

  /** A percentage of a whole that the part does not exceed lies between 0 and 100. */
  lemma PercentBounds(part: real, whole: real)
    requires 0.0 <= part <= whole
    ensures 0.0 <= Percent(part, whole) <= 100.0
  {
    if whole > 0.0 {
      QuotientBounds(part, whole);
    }
  }

  lemma {:induction false} SumAppend(a: seq<real>, b: seq<real>)
    ensures Sum(a + b) == Sum(a) + Sum(b)
  {
    if a == [] {
      assert a + b == b;
    } else {
      assert (a + b)[1..] == a[1..] + b;
      SumAppend(a[1..], b);
    }
  }

  /** Taking element j out of a list takes exactly its value out of the sum. */
  lemma {:induction false} SumRemove(t: seq<real>, j: nat)
    requires j < |t|
    ensures Sum(t) == t[j] + Sum(t[..j] + t[j + 1..])
  {
    var tail := [t[j]] + t[j + 1..];
    assert t == t[..j] + tail;
    assert tail[1..] == t[j + 1..];
    assert Sum(tail) == t[j] + Sum(t[j + 1..]);
    SumAppend(t[..j], tail);
    SumAppend(t[..j], t[j + 1..]);
  }

  /** A sum does not depend on the order of its terms. */
  lemma {:induction false} SumPermutation(s: seq<real>, t: seq<real>)
    requires multiset(s) == multiset(t)
    ensures Sum(s) == Sum(t)
  {
    if s == [] {
      assert |t| == |multiset(t)| == 0;
    } else {
      assert s[0] in multiset(t);
      var j :| 0 <= j < |t| && t[j] == s[0];
      var rest := t[..j] + t[j + 1..];
      assert t == t[..j] + [t[j]] + t[j + 1..];
      assert s == [s[0]] + s[1..];
      assert multiset(t) == multiset(t[..j]) + multiset([t[j]]) + multiset(t[j + 1..]);
      assert multiset(s) == multiset([s[0]]) + multiset(s[1..]);
      assert multiset(rest) == multiset(t[..j]) + multiset(t[j + 1..]);
      assert multiset(rest) == multiset(t) - multiset{t[j]};
      assert multiset(s[1..]) == multiset(s) - multiset{s[0]};
      SumPermutation(s[1..], rest);
      SumRemove(t, j);
    }
  }

  /** Pointwise difference `[b - a for b, a in zip(bs, as)]`, truncated to the shorter list. */
  function Differences(bs: seq<real>, as_: seq<real>): (d: seq<real>)
    ensures |d| == if |bs| < |as_| then |bs| else |as_|
    ensures forall i :: 0 <= i < |d| ==> d[i] == bs[i] - as_[i]
  {
    if bs == [] || as_ == [] then [] else [bs[0] - as_[0]] + Differences(bs[1..], as_[1..])
  }

  /** The sum of the pointwise differences is the difference of the sums. */
  lemma {:induction false} SumDifferences(bs: seq<real>, as_: seq<real>)
    requires |bs| == |as_|
    ensures Sum(Differences(bs, as_)) == Sum(bs) - Sum(as_)
  {
    if bs != [] {
      SumDifferences(bs[1..], as_[1..]);
    }
  }

  /** The mean of the pointwise differences is the difference of the means. */
  lemma MeanDifferences(bs: seq<real>, as_: seq<real>)
    requires |bs| == |as_| > 0
    ensures Mean(Differences(bs, as_)) == Mean(bs) - Mean(as_)
  {
    SumDifferences(bs, as_);
    QuotientOfDifference(Sum(bs), Sum(as_), |bs| as real);
  }

  /** A mean lies between the smallest and the largest term. */
  lemma {:induction false} MeanBetweenExtremes(s: seq<real>)
    requires |s| > 0
    ensures Min(s) <= Mean(s) <= Max(s)
  {
    MeanWithin(s, Min(s), Max(s));
  }

  /** Terms between two bounds have their mean between them too. */
  lemma MeanWithin(s: seq<real>, lo: real, hi: real)
    requires |s| > 0
    requires forall k :: 0 <= k < |s| ==> lo <= s[k] <= hi
    ensures lo <= Mean(s) <= hi
  {
    SumBounds(s, lo, hi);
    QuotientBetween(Sum(s), |s| as real, lo, hi);
  }

  lemma {:induction false} SumBounds(s: seq<real>, lo: real, hi: real)
    requires forall k :: 0 <= k < |s| ==> lo <= s[k] <= hi
    ensures (|s| as real) * lo <= Sum(s) <= (|s| as real) * hi
  {
    if s != [] {
      SumBounds(s[1..], lo, hi);
    }
  }

  lemma QuotientBounds(part: real, whole: real)
    requires 0.0 <= part <= whole && whole > 0.0
    ensures 0.0 <= part / whole * 100.0 <= 100.0
  {
    var q := part / whole;
    assert q * whole == part;
    FactorSign(q, whole);
    assert (1.0 - q) * whole == whole - part;
    FactorSign(1.0 - q, whole);
  }

  lemma QuotientOfDifference(x: real, y: real, n: real)
    requires n > 0.0
    ensures (x - y) / n == x / n - y / n
  {
  }

  lemma QuotientBetween(x: real, n: real, lo: real, hi: real)
    requires n > 0.0 && n * lo <= x <= n * hi
    ensures lo <= x / n <= hi
  {
    var q := x / n;
    assert (q - lo) * n == x - n * lo;
    FactorSign(q - lo, n);
    assert (hi - q) * n == n * hi - x;
    FactorSign(hi - q, n);
  }

  /** A product with a positive factor has the sign of the other factor. */
  lemma FactorSign(a: real, b: real)
    requires b > 0.0
    ensures a * b >= 0.0 ==> a >= 0.0
  {
  }
}
