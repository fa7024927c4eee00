/** Exact-real versions of the statistics the detector relies on: ordering, medians,
    six-digit rounding and the Wilson score interval.

    The square root is a parameter, nonnegative or exact. The detector only sees the
    resulting score of a proportion, and its results ask no more of that score than
    `Bounded` or `Clears`, which the Wilson interval meets.
 */
module Numerics {

  const Z := 1.959963984540054

  type Root = real -> real

  datatype Interval = Interval(low: real, high: real)

  ghost predicate NonNegative(root: Root) {
    forall x: real :: root(x) >= 0.0
  }

  ghost predicate ExactRoot(root: Root) {
    && NonNegative(root)
    && forall x: real :: x >= 0.0 ==> root(x) * root(x) == x
  }

  function Max(x: real, y: real): real {
    if x >= y then x else y
  }

  function Min(x: real, y: real): real {
    if x <= y then x else y
  }

  // ---------------------------------------------------------------- rounding

  /** Python's round(x, 6): to the nearest multiple of 1e-6, ties to the even one. */
  function Round6(x: real): real {
    var scaled := x * 1000000.0;
    var down := scaled.Floor;
    var rest := scaled - down as real;
    var nearest := if rest < 0.5 || (rest == 0.5 && down % 2 == 0) then down else down + 1;
    nearest as real / 1000000.0
  }

  lemma Round6Monotone(x: real, y: real)
    requires x <= y
    ensures Round6(x) <= Round6(y)
  {
    var a, b := x * 1000000.0, y * 1000000.0;
    if a.Floor == b.Floor {
    } else {
      assert a.Floor + 1 <= b.Floor;
    }
  }

  /** Rounding moves no value across a six-digit bound. */
  lemma Round6Fixes(k: int)
    ensures Round6(k as real / 1000000.0) == k as real / 1000000.0
  {
    var x := k as real / 1000000.0;
    assert x * 1000000.0 == k as real;
  }

  // ---------------------------------------------------------------- ordering

  function Insert(x: real, values: seq<real>): seq<real> {
    if values == [] || x <= values[0] then [x] + values
    else [values[0]] + Insert(x, values[1..])
  }

  function Sort(values: seq<real>): (sorted: seq<real>)
    ensures |sorted| == |values|
  {
    if values == [] then []
    else InsertLength(values[0], Sort(values[1..])); Insert(values[0], Sort(values[1..]))
  }

  lemma InsertLength(x: real, values: seq<real>)
    ensures |Insert(x, values)| == |values| + 1
  {
  }

  ghost predicate Ascending(values: seq<real>) {
    forall i, j :: 0 <= i < j < |values| ==> values[i] <= values[j]
  }

  lemma {:induction false} InsertKeepsValues(x: real, values: seq<real>)
    ensures multiset(Insert(x, values)) == multiset(values) + multiset{x}
  {
    if values != [] && x > values[0] {
      InsertKeepsValues(x, values[1..]);
      assert values == [values[0]] + values[1..];
    }
  }

  lemma AscendingFrom(x: real, values: seq<real>)
    requires Ascending(values)
    requires forall y :: y in multiset(values) ==> x <= y
    ensures Ascending([x] + values)
  {
    forall k | 0 <= k < |values|
      ensures x <= values[k]
    {
      assert values[k] in multiset(values);
    }
  }

  lemma {:induction false} InsertKeepsOrder(x: real, values: seq<real>)
    requires Ascending(values)
    ensures Ascending(Insert(x, values))
  {
    if values != [] && x > values[0] {
      var rest := Insert(x, values[1..]);
      InsertKeepsOrder(x, values[1..]);
      InsertKeepsValues(x, values[1..]);
      forall y | y in multiset(rest)
        ensures values[0] <= y
      {
        assert y in multiset(values[1..]) + multiset{x};
        assert y == x || y in values[1..];
      }
      AscendingFrom(values[0], rest);
    }
  }

  /** Sorting is a rearrangement into nondecreasing order. */
  lemma {:induction false} SortCorrect(values: seq<real>)
    ensures Ascending(Sort(values))
    ensures multiset(Sort(values)) == multiset(values)
  {
    if values != [] {
      SortCorrect(values[1..]);
      InsertKeepsOrder(values[0], Sort(values[1..]));
      InsertKeepsValues(values[0], Sort(values[1..]));
      assert values == [values[0]] + values[1..];
    }
  }

  function Median(values: seq<real>): real
    requires values != []
  {
    var s := Sort(values);
    if |s| % 2 == 1 then s[|s| / 2] else (s[|s| / 2 - 1] + s[|s| / 2]) / 2.0
  }

  /** sorted(values)[ceil(0.95 * n) - 1], with the ceiling taken in integers. */
  function Percentile95(values: seq<real>): real
    requires values != []
  {
    Sort(values)[(95 * |values| + 99) / 100 - 1]
  }

  function CountAbove(values: seq<real>, threshold: real): (n: nat)
    ensures n <= |values|
  {
    if values == [] then 0
    else (if values[0] > threshold then 1 else 0) + CountAbove(values[1..], threshold)
  }

  // ---------------------------------------------------------------- Wilson interval

  /** Z squared over the sample count. */
  function Weight(count: nat): (a: real)
    requires 0 < count
    ensures a > 0.0
  {
    Z * Z / count as real
  }

  function Rate(failures: nat, count: nat): (rate: real)
    requires 0 < count && failures <= count
    ensures 0.0 <= rate <= 1.0
  {
    failures as real / count as real
  }

  /** The term under the root: rate * (1 - rate) / n + Z * Z / (4 * n * n). */
  function Radicand(rate: real, count: nat): real
    requires 0 < count
  {
    (rate * (1.0 - rate) + Weight(count) / 4.0) / count as real
  }

  /** The unclamped centre and radius of the two-sided 95% interval. */
  function Center(rate: real, count: nat): real
    requires 0 < count
  {
    (rate + Weight(count) / 2.0) / (1.0 + Weight(count))
  }

  function Radius(root: Root, rate: real, count: nat): real
    requires 0 < count
  {
    Z * root(Radicand(rate, count)) / (1.0 + Weight(count))
  }

  function Wilson(root: Root, failures: nat, count: nat): Interval
    requires failures <= count
  {
    if count == 0 then Interval(0.0, 1.0)
    else
      var rate := Rate(failures, count);
      var center, radius := Center(rate, count), Radius(root, rate, count);
      Interval(if failures == 0 then 0.0 else Max(0.0, center - radius),
               if failures == count then 1.0 else Min(1.0, center + radius))
  }

  lemma MulNonNegative(x: real, y: real)
    requires x >= 0.0 && y >= 0.0
    ensures x * y >= 0.0
  {
  }

  lemma MulPositive(x: real, y: real)
    requires x > 0.0 && y > 0.0
    ensures x * y > 0.0
  {
  }

  lemma ScaleGrows(x: real, y: real, d: real)
    requires d > 0.0 && x > y
    ensures x * d > y * d
  {
    MulPositive(x - y, d);
    assert (x - y) * d == x * d - y * d;
  }

  lemma DivideBoth(x: real, y: real, d: real)
    requires d > 0.0 && x <= y
    ensures x / d <= y / d
  {
    var u, v := x / d, y / d;
    assert u * d == x && v * d == y;
    if u > v {
      ScaleGrows(u, v, d);
    }
  }

  lemma CenterInside(rate: real, count: nat)
    requires 0.0 <= rate <= 1.0 && 0 < count
    ensures 0.0 <= Center(rate, count) <= 1.0
  {
    var a := Weight(count);
    hide Weight;
    DivideBoth(0.0, rate + a / 2.0, 1.0 + a);
    DivideBoth(rate + a / 2.0, 1.0 + a, 1.0 + a);
    Cancel(1.0, 1.0 + a);
  }

  lemma RadiusNonNegative(root: Root, rate: real, count: nat)
    requires NonNegative(root) && 0 < count
    ensures Radius(root, rate, count) >= 0.0
  {
    var a, r := Weight(count), root(Radicand(rate, count));
    hide Weight, Radicand;
    MulNonNegative(Z, r);
    DivideBoth(0.0, Z * r, 1.0 + a);
  }

  /** Whatever nonnegative root is used, the bounds are ordered and lie in [0, 1]. */
  lemma WilsonOrdered(root: Root, failures: nat, count: nat)
    requires NonNegative(root)
    requires failures <= count
    ensures var w := Wilson(root, failures, count);
            0.0 <= w.low <= w.high <= 1.0
  {
    if count > 0 {
      var rate := Rate(failures, count);
      CenterInside(rate, count);
      RadiusNonNegative(root, rate, count);
      hide Center, Radius, Rate;
    }
  }

  lemma SquaresGrow(x: real, y: real)
    requires 0.0 <= y < x
    ensures y * y < x * x
  {
    ScaleGrows(x, y, x);
    MulNonNegative(x - y, y);
    assert (x - y) * y == x * y - y * y;
  }

  lemma SquaresOrder(x: real, y: real)
    requires 0.0 <= y && x * x <= y * y
    ensures x <= y
  {
    if x > y {
      SquaresGrow(x, y);
    }
  }

  /** With q the scaled root and a the weight: q is at most p + a/2. */
  lemma LowerBoundStays(p: real, a: real, q: real)
    requires 0.0 <= p <= 1.0 && a > 0.0 && q >= 0.0
    requires q * q == a * (p * (1.0 - p)) + a * a / 4.0
    ensures q <= p + a / 2.0
  {
    var x := p + a / 2.0;
    MulNonNegative(p, p);
    MulNonNegative(a, p * p);
    assert p * (1.0 - p) == p - p * p;
    assert a * (p * (1.0 - p)) == a * p - a * (p * p);
    assert x * x == p * p + a * p + a * a / 4.0;
    SquaresOrder(q, x);
  }

  lemma RateStaysInside(p: real, a: real, q: real)
    requires 0.0 <= p <= 1.0 && a > 0.0 && q >= 0.0
    requires q * q == a * (p * (1.0 - p)) + a * a / 4.0
    ensures a / 2.0 - a * p <= q
  {
    var d, v := a / 2.0 - a * p, p * (1.0 - p);
    MulNonNegative(p, 1.0 - p);
    MulNonNegative(a, v);
    MulNonNegative(a, a * v);
    calc {
      d * d;
    ==
      a * a / 4.0 - a * (a * p) + (a * p) * (a * p);
    ==
      a * a / 4.0 - a * (a * (p - p * p));
    ==
      a * a / 4.0 - a * (a * v);
    }
    SquaresOrder(d, q);
  }

  /** The algebra of the interval: it contains the rate p and needs no clamping. */
  lemma WilsonAlgebra(p: real, a: real, q: real)
    requires 0.0 <= p <= 1.0 && a > 0.0 && q >= 0.0
    requires q * q == a * (p * (1.0 - p)) + a * a / 4.0
    ensures 0.0 <= p + a / 2.0 - q <= p * (1.0 + a) <= p + a / 2.0 + q <= 1.0 + a
  {
    LowerBoundStays(p, a, q);
    RateStaysInside(p, a, q);
    // The upper bounds are the lower ones seen from the successes, 1 - p.
    assert (1.0 - p) * (1.0 - (1.0 - p)) == p * (1.0 - p);
    LowerBoundStays(1.0 - p, a, q);
    RateStaysInside(1.0 - p, a, q);
    assert p * (1.0 + a) == p + a * p;
    assert a * (1.0 - p) == a - a * p;
  }

  lemma ScaledRoot(root: Root, p: real, count: nat)
    requires ExactRoot(root)
    requires 0.0 <= p <= 1.0 && 0 < count
    ensures var q := Z * root(Radicand(p, count));
            q >= 0.0 && q * q == Weight(count) * (p * (1.0 - p)) + Weight(count) * Weight(count) / 4.0
  {
    var n, a, v := count as real, Weight(count), p * (1.0 - p);
    MulNonNegative(p, 1.0 - p);
    DivideBoth(0.0, v + a / 4.0, n);
    var under := Radicand(p, count);
    var r := root(under);
    assert r * r == under;
    assert under * n == v + a / 4.0;
    assert a * n == Z * Z;
    calc {
      (Z * r) * (Z * r);
    ==
      (Z * Z) * (r * r);
    ==
      (a * n) * under;
    ==
      a * (n * under);
    ==
      a * (v + a / 4.0);
    ==
      a * v + a * a / 4.0;
    }
  }

  lemma DivideSum(x: real, q: real, d: real)
    requires d > 0.0
    ensures (x - q) / d == x / d - q / d
    ensures (x + q) / d == x / d + q / d
  {
    var u, w := x / d, q / d;
    assert u * d == x && w * d == q;
    assert (u - w) * d == x - q;
    assert (u + w) * d == x + q;
  }

  lemma DivideChain(x: real, q: real, p: real, d: real)
    requires d > 0.0
    requires 0.0 <= x - q <= p * d <= x + q <= d
    ensures 0.0 <= x / d - q / d <= p <= x / d + q / d <= 1.0
  {
    DivideSum(x, q, d);
    DivideBoth(0.0, x - q, d);
    DivideBoth(x - q, p * d, d);
    DivideBoth(p * d, x + q, d);
    DivideBoth(x + q, d, d);
    Cancel(p, d);
    Cancel(1.0, d);
    assert 1.0 * d == d;
  }

  lemma Cancel(p: real, d: real)
    requires d > 0.0
    ensures p * d / d == p
  {
    var u := p * d / d;
    assert u * d == p * d;
    if u > p {
      ScaleGrows(u, p, d);
    } else if p > u {
      ScaleGrows(p, u, d);
    }
  }

  /** The unclamped bounds enclose the proportion and stay in [0, 1]. */
  lemma UnclampedEncloses(root: Root, p: real, count: nat)
    requires ExactRoot(root) && 0.0 <= p <= 1.0 && 0 < count
    ensures 0.0 <= Center(p, count) - Radius(root, p, count) <= p <= Center(p, count) + Radius(root, p, count) <= 1.0
  {
    var a, q := Weight(count), Z * root(Radicand(p, count));
    ScaledRoot(root, p, count);
    WilsonAlgebra(p, a, q);
    DivideChain(p + a / 2.0, q, p, 1.0 + a);
  }

  /** The exact Wilson interval never needs its clamps. */
  lemma WilsonUnclamped(root: Root, failures: nat, count: nat)
    requires ExactRoot(root)
    requires 0 < count && failures <= count
    ensures var rate := Rate(failures, count);
            Wilson(root, failures, count)
            == Interval(Center(rate, count) - Radius(root, rate, count),
                        Center(rate, count) + Radius(root, rate, count))
  {
    UnclampedEncloses(root, Rate(failures, count), count);
    hide Center, Radius;
  }

  /** It contains the observed rate. */
  lemma WilsonContains(root: Root, failures: nat, count: nat)
    requires ExactRoot(root)
    requires 0 < count && failures <= count
    ensures Wilson(root, failures, count).low <= Rate(failures, count) <= Wilson(root, failures, count).high
  {
    UnclampedEncloses(root, Rate(failures, count), count);
    hide Center, Radius;
  }

  // ---------------------------------------------------------------- what the detector sees

  datatype Proportion = Proportion(rate: real, interval: Interval)

  /** How so many failures among so many samples are scored. */
  type Score = (nat, nat) -> Proportion

  /** The detector's own scoring: the observed rate with its Wilson interval. */
  function Scored(root: Root): Score {
    (failures: nat, count: nat) =>
      if 0 < count && failures <= count then Proportion(Rate(failures, count), Wilson(root, failures, count))
      else Proportion(0.0, Interval(0.0, 1.0))
  }

  /** Intervals are ordered, and they and the rates lie in [0, 1]. */
  ghost predicate Bounded(score: Score) {
    forall failures: nat, count: nat :: failures <= count ==>
      var p := score(failures, count);
      0.0 <= p.interval.low <= p.interval.high <= 1.0 && 0.0 <= p.rate <= 1.0
  }

  /** Fifty samples without a failure score clearly under 0.25. */
  ghost predicate Clears(score: Score) {
    && Bounded(score)
    && score(0, 50).rate == 0.0 && score(0, 50).interval.low == 0.0 && score(0, 50).interval.high <= 0.24
  }

  lemma ScoredBounded(root: Root)
    requires NonNegative(root)
    ensures Bounded(Scored(root))
  {
    forall failures: nat, count: nat | failures <= count
      ensures var p := Scored(root)(failures, count);
              0.0 <= p.interval.low <= p.interval.high <= 1.0 && 0.0 <= p.rate <= 1.0
    {
      WilsonOrdered(root, failures, count);
      hide Wilson;
    }
  }

  lemma RootUnique(root: Root, x: real)
    requires ExactRoot(root) && x >= 0.0
    ensures root(x * x) == x
  {
    MulNonNegative(x, x);
    SquaresOrder(root(x * x), x);
    SquaresOrder(x, root(x * x));
  }

  /** With no failure among 50 rows the upper bound is a / (1 + a), well under 0.25. */
  lemma CleanWilson(root: Root)
    requires ExactRoot(root)
    ensures Wilson(root, 0, 50).low == 0.0
    ensures Wilson(root, 0, 50).high <= 0.24
  {
    var a := Weight(50);
    assert Radicand(0.0, 50) == (Z / 100.0) * (Z / 100.0);
    RootUnique(root, Z / 100.0);
    assert Center(0.0, 50) == a / 2.0 / (1.0 + a);
    assert Radius(root, 0.0, 50) == a / 2.0 / (1.0 + a);
    assert a / 2.0 / (1.0 + a) <= 0.12 by {
      DivideBoth(a / 2.0, 0.12 * (1.0 + a), 1.0 + a);
      Cancel(0.12, 1.0 + a);
    }
  }

  lemma ScoredClears(root: Root)
    requires ExactRoot(root)
    ensures Clears(Scored(root))
  {
    CleanWilson(root);
    ScoredBounded(root);
    hide Wilson;
  }
}
