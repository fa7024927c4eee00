/** What counting, medians and percentiles compute, said through numbers of positions only. */
module Ranks {
  import opened Collections
  import opened Numerics

  ghost function AtMost(values: seq<real>, x: real): nat {
    |Where(values, (v: real) => v <= x)|
  }

  ghost function Below(values: seq<real>, x: real): nat {
    |Where(values, (v: real) => v < x)|
  }

  ghost function Above(values: seq<real>, x: real): nat {
    |Where(values, (v: real) => v > x)|
  }

  /** The value that is k-th from below, counting from zero. */
  ghost predicate HasRank(values: seq<real>, k: nat, v: real) {
    v in values && Below(values, v) <= k < AtMost(values, v)
  }

  /** The lower and upper middle values, the same one when the number of values is odd. */
  ghost predicate Middle(values: seq<real>, lo: real, hi: real) {
    values != [] && HasRank(values, (|values| - 1) / 2, lo) && HasRank(values, |values| / 2, hi)
  }

  ghost predicate IsMedian(values: seq<real>, m: real) {
    exists lo, hi :: Middle(values, lo, hi) && m == (lo + hi) / 2.0
  }

  /** The least value with at least 95% of the values at or below it. */
  ghost predicate IsPercentile95(values: seq<real>, p: real) {
    && p in values && 100 * AtMost(values, p) >= 95 * |values|
    && forall q :: q in values && q < p ==> 100 * AtMost(values, q) < 95 * |values|
  }

  lemma {:induction false} CountAboveCounts(values: seq<real>, x: real)
    ensures CountAbove(values, x) == Above(values, x)
  {
    if values != [] {
      CountAboveCounts(values[1..], x);
      WhereTail(values, (v: real) => v > x);
    } else {
      assert Where(values, (v: real) => v > x) == {};
    }
  }

  // ---------------------------------------------------------------- counting in a sorted list

  lemma {:induction false} InsertCount(x: real, values: seq<real>, p: real -> bool)
    ensures |Where(Insert(x, values), p)| == |Where(values, p)| + if p(x) then 1 else 0
  {
    if values == [] || x <= values[0] {
      WhereTail([x] + values, p);
      assert ([x] + values)[1..] == values;
    } else {
      InsertCount(x, values[1..], p);
      WhereTail(Insert(x, values), p);
      WhereTail(values, p);
      assert Insert(x, values)[1..] == Insert(x, values[1..]);
    }
  }

  lemma {:induction false} SortCount(values: seq<real>, p: real -> bool)
    ensures |Where(Sort(values), p)| == |Where(values, p)|
  {
    if values != [] {
      SortCount(values[1..], p);
      InsertCount(values[0], Sort(values[1..]), p);
      WhereTail(values, p);
    }
  }

  lemma SortMembers(values: seq<real>, v: real)
    ensures v in Sort(values) <==> v in values
  {
    SortCorrect(values);
    assert v in multiset(Sort(values)) <==> v in multiset(values);
  }

  lemma SortedBelow(s: seq<real>, k: nat)
    requires Ascending(s) && k < |s|
    ensures Below(s, s[k]) <= k < AtMost(s, s[k])
  {
    var x := s[k];
    SubsetSize(Where(s, (v: real) => v < x), First(k));
    SubsetSize(First(k + 1), Where(s, (v: real) => v <= x));
  }

  /** Every place of the sorted list holds the value of that rank. */
  lemma SortRanks(values: seq<real>, k: nat)
    requires k < |values|
    ensures HasRank(values, k, Sort(values)[k])
  {
    hide Ascending;
    var s := Sort(values);
    var x := s[k];
    SortCorrect(values);
    SortMembers(values, x);
    SortCount(values, (v: real) => v < x);
    SortCount(values, (v: real) => v <= x);
    hide Sort, Where;
    SortedBelow(s, k);
  }

  lemma RankUnique(values: seq<real>, k: nat, v: real, w: real)
    requires HasRank(values, k, v) && HasRank(values, k, w)
    ensures v == w
  {
    if v < w {
      SubsetSize(Where(values, (u: real) => u <= v), Where(values, (u: real) => u < w));
    } else if w < v {
      SubsetSize(Where(values, (u: real) => u <= w), Where(values, (u: real) => u < v));
    }
  }

  // ---------------------------------------------------------------- medians and percentiles

  lemma MedianByRank(values: seq<real>, m: real)
    requires values != []
    ensures IsMedian(values, m) <==> m == Median(values)
  {
    hide HasRank, Sort;
    var n, s := |values|, Sort(values);
    SortRanks(values, (n - 1) / 2);
    SortRanks(values, n / 2);
    forall lo, hi | Middle(values, lo, hi)
      ensures (lo + hi) / 2.0 == Median(values)
    {
      RankUnique(values, (n - 1) / 2, lo, s[(n - 1) / 2]);
      RankUnique(values, n / 2, hi, s[n / 2]);
    }
    assert Middle(values, s[(n - 1) / 2], s[n / 2]);
  }

  lemma FewerBelow(values: seq<real>, q: real, x: real)
    requires q < x
    ensures AtMost(values, q) <= Below(values, x)
  {
    SubsetSize(Where(values, (v: real) => v <= q), Where(values, (v: real) => v < x));
  }

  lemma PercentileIs(values: seq<real>)
    requires values != []
    ensures IsPercentile95(values, Percentile95(values))
  {
    var k, x := (95 * |values| + 99) / 100 - 1, Percentile95(values);
    SortRanks(values, k);
    hide AtMost, Below, Sort, Percentile95;
    forall q | q in values && q < x
      ensures 100 * AtMost(values, q) < 95 * |values|
    {
      FewerBelow(values, q, x);
    }
  }

  lemma PercentileUnique(values: seq<real>, p: real, q: real)
    requires IsPercentile95(values, p) && IsPercentile95(values, q)
    ensures p == q
  {
    hide AtMost;
  }

  lemma PercentileByRank(values: seq<real>, p: real)
    requires values != []
    ensures IsPercentile95(values, p) <==> p == Percentile95(values)
  {
    hide IsPercentile95, Percentile95;
    PercentileIs(values);
    if IsPercentile95(values, p) {
      PercentileUnique(values, p, Percentile95(values));
    }
  }
}
