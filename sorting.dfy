/**
 * Python's `sorted` on lists whose elements are pairwise distinct under a strict
 * total order: dictionary keys, a set of position names, and (value, index)
 * pairs. On such lists every sort, stable or not, returns the same list, so one
 * insertion sort stands for all of them.
 */
module Sorting {

  ghost predicate IsStrictTotalOrder<T(!new)>(less: (T, T) -> bool)
  {
    && (forall x :: !less(x, x))
    && (forall x, y, z :: less(x, y) && less(y, z) ==> less(x, z))
    && (forall x, y :: x == y || less(x, y) || less(y, x))
  }

  ghost predicate Distinct<T>(s: seq<T>)
  {
    forall i, j :: 0 <= i < j < |s| ==> s[i] != s[j]
  }

  predicate StrictlyAscending<T>(s: seq<T>, less: (T, T) -> bool)
  {
    forall i, j :: 0 <= i < j < |s| ==> less(s[i], s[j])
  }

  function Insert<T>(x: T, s: seq<T>, less: (T, T) -> bool): seq<T>
  {
    if s == [] || less(x, s[0]) then [x] + s else [s[0]] + Insert(x, s[1..], less)
  }

  function Sort<T>(s: seq<T>, less: (T, T) -> bool): seq<T>
  {
    if s == [] then [] else Insert(s[0], Sort(s[1..], less), less)
  }

  /** An element below every element of an ascending list can go in front of it. */
  lemma PrependAscending<T>(y: T, s: seq<T>, less: (T, T) -> bool)
    requires StrictlyAscending(s, less)
    requires forall k :: 0 <= k < |s| ==> less(y, s[k])
    ensures StrictlyAscending([y] + s, less)
  {
    var r := [y] + s;
    forall i, j | 0 <= i < j < |r| ensures less(r[i], r[j]) {
      assert r[j] == s[j - 1];
      if i > 0 {
        assert r[i] == s[i - 1];
      }
    }
  }

  lemma {:induction false} InsertCorrect<T(!new)>(x: T, s: seq<T>, less: (T, T) -> bool)
    requires IsStrictTotalOrder(less)
    requires StrictlyAscending(s, less) && x !in s
    ensures multiset(Insert(x, s, less)) == multiset(s) + multiset{x}
    ensures StrictlyAscending(Insert(x, s, less), less)
  {
    if s == [] || less(x, s[0]) {
      forall k | 0 <= k < |s| ensures less(x, s[k]) {
        if k > 0 {
          assert less(s[0], s[k]);
        }
      }
      PrependAscending(x, s, less);
    } else {
      InsertCorrect(x, s[1..], less);
      var tail := Insert(x, s[1..], less);
      assert less(s[0], x) by {
        assert x != s[0];
      }
      assert s == [s[0]] + s[1..];
      forall k | 0 <= k < |tail| ensures less(s[0], tail[k]) {
        assert tail[k] in multiset(tail);
        assert tail[k] in multiset(s[1..]) + multiset{x};
        if tail[k] != x {
          assert tail[k] in s[1..];
          var m :| 0 <= m < |s[1..]| && s[1..][m] == tail[k];
          assert s[m + 1] == tail[k];
        }
      }
      PrependAscending(s[0], tail, less);
    }
  }

  lemma DistinctTail<T>(s: seq<T>)
    requires s != [] && Distinct(s)
    ensures Distinct(s[1..]) && s[0] !in s[1..]
  {
    forall m | 0 <= m < |s| - 1 ensures s[1..][m] != s[0] {
      assert s[1..][m] == s[m + 1];
    }
  }

  /** Sorting a list of distinct elements yields a strictly ascending permutation of it. */
  lemma {:induction false} SortCorrect<T(!new)>(s: seq<T>, less: (T, T) -> bool)
    requires IsStrictTotalOrder(less)
    requires Distinct(s)
    ensures multiset(Sort(s, less)) == multiset(s)
    ensures StrictlyAscending(Sort(s, less), less)
  {
    if s != [] {
      DistinctTail(s);
      SortCorrect(s[1..], less);
      var sorted := Sort(s[1..], less);
      assert s[0] !in sorted by {
        assert s[0] !in multiset(s[1..]);
        assert s[0] !in multiset(sorted);
      }
      InsertCorrect(s[0], sorted, less);
      assert s == [s[0]] + s[1..];
    }
  }

  /** A permutation has the same length and the same elements. */
  lemma SameElements<T>(s: seq<T>, t: seq<T>)
    requires multiset(s) == multiset(t)
    ensures |s| == |t|
    ensures forall x :: x in s <==> x in t
  {
    assert |s| == |multiset(s)| == |multiset(t)| == |t|;
    forall x ensures x in s <==> x in t {
      assert x in s <==> x in multiset(s);
      assert x in t <==> x in multiset(t);
    }
  }

  /** Matching the head of `s` with element j of its permutation `t` leaves permutations behind. */
  lemma RemoveMatched<T>(s: seq<T>, t: seq<T>, j: nat)
    requires multiset(s) == multiset(t) && s != [] && j < |t| && t[j] == s[0]
    ensures multiset(s[1..]) == multiset(t[..j] + t[j + 1..])
  {
    assert t == t[..j] + [t[j]] + t[j + 1..];
    assert s == [s[0]] + s[1..];
    assert multiset(t) == multiset(t[..j]) + multiset([t[j]]) + multiset(t[j + 1..]);
    assert multiset(s) == multiset([s[0]]) + multiset(s[1..]);
    assert multiset(t[..j] + t[j + 1..]) == multiset(t[..j]) + multiset(t[j + 1..]);
    assert multiset(t[..j] + t[j + 1..]) == multiset(t) - multiset{t[j]};
    assert multiset(s[1..]) == multiset(s) - multiset{s[0]};
  }

  /** A strictly ascending list has no repeated element. */
  lemma AscendingIsDistinct<T(!new)>(s: seq<T>, less: (T, T) -> bool)
    requires IsStrictTotalOrder(less)
    requires StrictlyAscending(s, less)
    ensures Distinct(s)
  {
    forall i, j | 0 <= i < j < |s| ensures s[i] != s[j] {
      assert less(s[i], s[j]);
    }
  }
}
