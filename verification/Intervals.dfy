/** What rounding and the Wilson interval mean, and what the interval says of windows of
    at most fifty rows.
 */
module Intervals {
  import opened Numerics

  // ---------------------------------------------------------------- rounding

  /** The nearest multiple of one millionth; of two equally near ones, the even one. */
  lemma Round6Nearest(x: real) returns (k: int)
    ensures Round6(x) == k as real / 1000000.0
    ensures -0.5 <= k as real - x * 1000000.0 <= 0.5
    ensures k as real - x * 1000000.0 in {-0.5, 0.5} ==> k % 2 == 0
  {
    var scaled := x * 1000000.0;
    var down := scaled.Floor;
    var rest := scaled - down as real;
    k := if rest < 0.5 || (rest == 0.5 && down % 2 == 0) then down else down + 1;
  }

  // ---------------------------------------------------------------- the interval inverts a test

  /** A true proportion x is compatible with what was observed: the score test at 5% does
      not reject it. */
  predicate Plausible(failures: nat, count: nat, x: real)
    requires 0 < count
  {
    var rate := failures as real / count as real;
    count as real * ((rate - x) * (rate - x)) <= 1.959963984540054 * 1.959963984540054 * (x * (1.0 - x))
  }

  /** With X = x * (1 + a) and c the unscaled centre. */
  lemma ShiftedSquare(p: real, a: real, q: real, x: real)
    requires q * q == a * (p * (1.0 - p)) + a * a / 4.0
    ensures var d := x * (1.0 + a) - (p + a / 2.0);
            d * d - q * q == (1.0 + a) * ((p - x) * (p - x) - a * (x * (1.0 - x)))
  {
    var b := 1.0 + a;
    var c := p + a / 2.0;
    var X := x * b;
    assert p * (1.0 - p) == p - p * p && x * (1.0 - x) == x - x * x;
    assert a * (p - p * p) == a * p - a * (p * p);
    assert c * c == p * p + a * p + a * a / 4.0;
    assert c * c - q * q == p * p + a * (p * p);
    assert p * p + a * (p * p) == b * (p * p);
    assert X * X == b * (x * X);
    assert 2.0 * c == 2.0 * p + a;
    assert X * (2.0 * c) == b * (x * (2.0 * c));
    assert (X - c) * (X - c) == X * X - X * (2.0 * c) + c * c;
    calc {
      (X - c) * (X - c) - q * q;
    ==
      b * (x * X) - b * (x * (2.0 * c)) + b * (p * p);
    ==
      b * (x * X - x * (2.0 * c) + p * p);
    ==  { assert x * X == x * x + a * (x * x); assert x * (2.0 * c) == 2.0 * (p * x) + a * x; }
      b * (x * x + a * (x * x) - 2.0 * (p * x) - a * x + p * p);
    ==  { assert (p - x) * (p - x) == p * p - 2.0 * (p * x) + x * x; assert a * (x - x * x) == a * x - a * (x * x); }
      b * ((p - x) * (p - x) - a * (x - x * x));
    }
  }

  lemma SameSign(b: real, t: real)
    requires b > 0.0
    ensures b * t <= 0.0 <==> t <= 0.0
  {
    if t > 0.0 {
      MulPositive(b, t);
    } else {
      MulNonNegative(b, -t);
      assert b * (-t) == -(b * t);
    }
  }

  lemma Between(d: real, q: real)
    requires q >= 0.0
    ensures -q <= d <= q <==> d * d <= q * q
  {
    var e := if d < 0.0 then -d else d;
    assert e * e == d * d;
    if e <= q {
      if e < q {
        SquaresGrow(q, e);
      }
    } else {
      SquaresGrow(e, q);
    }
  }

  lemma CrossDivide(y: real, d: real, x: real)
    requires d > 0.0
    ensures y / d <= x <==> y <= x * d
    ensures x <= y / d <==> x * d <= y
  {
    var u := y / d;
    assert u * d == y;
    if u > x {
      ScaleGrows(u, x, d);
    } else if u < x {
      ScaleGrows(x, u, d);
    }
  }

  /** The test over the weight, and the bounds over a scaled root. */
  ghost predicate Accepts(p: real, a: real, x: real) {
    (p - x) * (p - x) - a * (x * (1.0 - x)) <= 0.0
  }

  ghost function Bounds(p: real, a: real, q: real): Interval
    requires a > 0.0
  {
    var c, b := p + a / 2.0, 1.0 + a;
    Interval(c / b - q / b, c / b + q / b)
  }

  /** Scaled by the sample count, the weight is Z squared. */
  lemma PlausibleScaled(failures: nat, count: nat, x: real)
    requires 0 < count && failures <= count
    ensures Plausible(failures, count, x) <==> Accepts(Rate(failures, count), Weight(count), x)
  {
    var n, p, a, v := count as real, Rate(failures, count), Weight(count), x * (1.0 - x);
    var s := (p - x) * (p - x);
    assert a * n == Z * Z;
    assert n * (a * v) == (a * n) * v;
    assert n * (s - a * v) == n * s - n * (a * v);
    SameSign(n, s - a * v);
  }

  lemma InvertedBounds(p: real, a: real, q: real, x: real)
    requires a > 0.0 && q >= 0.0 && q * q == a * (p * (1.0 - p)) + a * a / 4.0
    ensures Bounds(p, a, q).low <= x <= Bounds(p, a, q).high <==> Accepts(p, a, x)
  {
    var c, b := p + a / 2.0, 1.0 + a;
    DivideSum(c, q, b);
    CrossDivide(c - q, b, x);
    CrossDivide(c + q, b, x);
    Between(x * b - c, q);
    ShiftedSquare(p, a, q, x);
    SameSign(b, (p - x) * (p - x) - a * (x * (1.0 - x)));
  }

  // ---------------------------------------------------------------- an exact score

  /** The observed rate, inside the interval of exactly the plausible proportions. */
  ghost predicate Inverts(p: Proportion, failures: nat, count: nat)
    requires 0 < count
  {
    && p.rate == failures as real / count as real
    && p.interval.low <= p.rate <= p.interval.high
    && forall x: real {:trigger Plausible(failures, count, x)} ::
         p.interval.low <= x <= p.interval.high <==> Plausible(failures, count, x)
  }

  /** A score that inverts the test for every proportion. */
  ghost predicate Exact(score: Score) {
    && Bounded(score) && score(0, 0).interval == Interval(0.0, 1.0)
    && forall failures: nat, count: nat :: failures <= count && 0 < count ==>
         Inverts(score(failures, count), failures, count)
  }

  /** The detector's score is such a score. */
  lemma ScoredExact(root: Root)
    requires ExactRoot(root)
    ensures Exact(Scored(root))
  {
    hide Wilson, Plausible, Weight, Radicand, Accepts, Bounded;
    ScoredBounded(root);
    forall failures: nat, count: nat | failures <= count && 0 < count
      ensures Inverts(Scored(root)(failures, count), failures, count)
    {
      var p := Rate(failures, count);
      hide Rate;
      var q := Z * root(Radicand(p, count));
      WilsonUnclamped(root, failures, count);
      assert Wilson(root, failures, count) == Bounds(p, Weight(count), q);
      hide Bounds, Center, Radius;
      WilsonContains(root, failures, count);
      ScaledRoot(root, p, count);
      forall x: real
        ensures Wilson(root, failures, count).low <= x <= Wilson(root, failures, count).high
                <==> Plausible(failures, count, x)
      {
        InvertedBounds(p, Weight(count), q, x);
        PlausibleScaled(failures, count, x);
      }
    }
  }

  // ---------------------------------------------------------------- a bound on either side of the rate

  lemma LowAbove(p: Proportion, failures: nat, count: nat, x: real)
    requires 0 < count && Inverts(p, failures, count) && x < p.rate
    ensures p.interval.low > x <==> !Plausible(failures, count, x)
  {
    hide Plausible;
  }

  lemma HighBelow(p: Proportion, failures: nat, count: nat, x: real)
    requires 0 < count && Inverts(p, failures, count) && x > p.rate
    ensures p.interval.high < x <==> !Plausible(failures, count, x)
  {
    hide Plausible;
  }

  // ---------------------------------------------------------------- recovery: at most six failures in fifty

  lemma SquareAtLeast(d: real, e: real)
    requires d >= e >= 0.0
    ensures d * d >= e * e
  {
    if d > e {
      SquaresGrow(d, e);
    }
  }

  /** What is plausible, cleared of fractions. */
  lemma PlausibleCleared(failures: nat, count: nat, x: real)
    requires 0 < count
    ensures var d := failures as real - count as real * x;
            Plausible(failures, count, x) <==> d * d <= count as real * (Z * Z * (x * (1.0 - x)))
  {
    var f, n := failures as real, count as real;
    var e := f / n - x;
    var u := n * (e * e) - Z * Z * (x * (1.0 - x));
    assert n * e == f - n * x;
    assert n * (n * (e * e)) == (n * e) * (n * e);
    assert n * u == n * (n * (e * e)) - n * (Z * Z * (x * (1.0 - x)));
    SameSign(n, u);
  }

  lemma SevenPlausible(failures: nat)
    requires 7 <= failures <= 12
    ensures Plausible(failures, 50, 0.25)
  {
    SquareAtLeast(5.5, 12.5 - failures as real);
    PlausibleCleared(failures, 50, 0.25);
  }

  lemma SixImplausible(failures: nat)
    requires failures <= 6
    ensures !Plausible(failures, 50, 0.2499)
  {
    SquareAtLeast(12.495 - failures as real, 6.495);
    PlausibleCleared(failures, 50, 0.2499);
  }

  lemma SixFailures(p: Proportion, failures: nat)
    requires failures <= 50 && Inverts(p, failures, 50)
    ensures Round6(p.interval.high) >= 0.25 <==> failures > 6
  {
    hide Round6, Plausible;
    if failures > 6 {
      if failures <= 12 {
        SevenPlausible(failures);
      }
      Round6Monotone(0.25, p.interval.high);
      Round6Fixes(250000);
    } else {
      SixImplausible(failures);
      HighBelow(p, failures, 50, 0.2499);
      Round6Monotone(p.interval.high, 0.2499);
      Round6Fixes(249900);
    }
  }

  // ---------------------------------------------------------------- the absolute alarm

  /** With d more failures than successes the interval lies above one half. */
  predicate MostlyFailing(failures: nat, count: nat) {
    2 * failures > count
    && ((2 * failures - count) * (2 * failures - count)) as real
       > 1.959963984540054 * 1.959963984540054 * count as real
  }

  lemma NoNearMiss(square: int, count: nat)
    requires 25 <= count <= 50 && square as real > Z * Z * count as real
    ensures square as real >= Z * Z * count as real + 0.02
  {
  }

  /** A hundredth to spare covers the rounding. */
  lemma AlarmMargin(n: real, z: real, d: real, e: real)
    requires 0.0 <= d <= n <= 50.0 && z >= 0.0
    requires d * d >= z * n + 0.02 && 2.0 * e == d - 0.000002 * n
    ensures e * e > n * (z * (0.500001 * (1.0 - 0.500001)))
  {
    var t, w := 0.000002 * n, z * n;
    MulNonNegative(z, n);
    MulNonNegative(50.0 - d, t);
    assert (50.0 - d) * t == 50.0 * t - d * t;
    MulNonNegative(t, t);
    assert (2.0 * e) * (2.0 * e) == 4.0 * (e * e);
    assert (d - t) * (d - t) == d * d - 2.0 * (d * t) + t * t;
    assert n * (z * (0.500001 * (1.0 - 0.500001))) == w * (0.500001 * (1.0 - 0.500001));
  }

  /** The surplus of failures squares clear of the alarm line. */
  ghost predicate Wide(n: real, d: real) {
    0.0 <= d <= n <= 50.0 && d * d >= Z * Z * n + 0.02
  }

  ghost predicate Outside(n: real, e: real) {
    e * e > n * (Z * Z * (0.500001 * (1.0 - 0.500001)))
  }

  lemma IntSquare(k: int)
    ensures (k * k) as real == k as real * k as real
  {
  }

  lemma SurplusWide(failures: nat, count: nat)
    requires 25 <= count <= 50 && failures <= count && MostlyFailing(failures, count)
    ensures Wide(count as real, (2 * failures - count) as real)
  {
    var k := 2 * failures - count;
    NoNearMiss(k * k, count);
    IntSquare(k);
  }

  lemma WideOutside(n: real, d: real, e: real)
    requires Wide(n, d) && 2.0 * e == d - 0.000002 * n
    ensures Outside(n, e)
  {
    AlarmMargin(n, Z * Z, d, e);
  }

  lemma OutsideImplausible(failures: nat, count: nat)
    requires 0 < count && Outside(count as real, failures as real - count as real * 0.500001)
    ensures !Plausible(failures, count, 0.500001)
  {
    PlausibleCleared(failures, count, 0.500001);
    hide Plausible;
  }

  lemma AlarmClear(failures: nat, count: nat)
    requires 25 <= count <= 50 && failures <= count && MostlyFailing(failures, count)
    ensures !Plausible(failures, count, 0.500001)
  {
    hide Plausible, MostlyFailing, Wide, Outside;
    var n := count as real;
    var e := failures as real - n * 0.500001;
    SurplusWide(failures, count);
    WideOutside(n, (2 * failures - count) as real, e);
    OutsideImplausible(failures, count);
  }

  lemma AlarmNeeded(failures: nat, count: nat)
    requires 0 < count && failures <= count && 2 * failures > count && !Plausible(failures, count, 0.5)
    ensures MostlyFailing(failures, count)
  {
    PlausibleCleared(failures, count, 0.5);
    var d := (2 * failures - count) as real;
    var e := failures as real - count as real * 0.5;
    assert d == 2.0 * e && d * d == 4.0 * (e * e);
  }

  lemma AlarmRaised(p: Proportion, failures: nat, count: nat)
    requires 25 <= count <= 50 && failures <= count && Inverts(p, failures, count) && MostlyFailing(failures, count)
    ensures Round6(p.interval.low) > 0.5
  {
    hide Round6, Plausible;
    AlarmClear(failures, count);
    AlarmRate(failures, count);
    LowAbove(p, failures, count, 0.500001);
    Round6Fixes(500001);
    Round6Monotone(0.500001, p.interval.low);
  }

  lemma AlarmSilent(p: Proportion, failures: nat, count: nat)
    requires 25 <= count <= 50 && failures <= count && Inverts(p, failures, count) && !MostlyFailing(failures, count)
    ensures Round6(p.interval.low) <= 0.5
  {
    hide Round6, Plausible, MostlyFailing;
    var low := p.interval.low;
    if low > 0.5 {
      LowAbove(p, failures, count, 0.5);
      OverHalf(failures, count);
      AlarmNeeded(failures, count);
    }
    Round6Fixes(500000);
    Round6Monotone(low, 0.5);
  }

  lemma OverHalf(failures: nat, count: nat)
    requires 0 < count && failures <= count && failures as real / count as real > 0.5
    ensures 2 * failures > count
  {
    CrossDivide(failures as real, count as real, 0.5);
  }

  /** The alarm line of one half, in counts. */
  lemma AbsoluteAlarm(p: Proportion, failures: nat, count: nat)
    requires 25 <= count <= 50 && failures <= count && Inverts(p, failures, count)
    ensures Round6(p.interval.low) > 0.5 <==> MostlyFailing(failures, count)
  {
    hide Round6, MostlyFailing, Inverts;
    if MostlyFailing(failures, count) {
      AlarmRaised(p, failures, count);
    } else {
      AlarmSilent(p, failures, count);
    }
  }

  lemma AlarmRate(failures: nat, count: nat)
    requires 0 < count <= 50 && failures <= count && MostlyFailing(failures, count)
    ensures failures as real / count as real > 0.500001
  {
    CrossDivide(failures as real, count as real, 0.500001);
  }

  // ---------------------------------------------------------------- the metric alarm

  lemma AllImplausible(all: nat)
    requires 40 <= all
    ensures !Plausible(all, all, 0.5) && all as real / all as real > 0.5
  {
    PlausibleCleared(all, all, 0.5);
    MulNonNegative(all as real - 40.0, all as real);
    CrossDivide(all as real, all as real, 0.6);
  }

  lemma FewImplausible(few: nat, count: nat)
    requires 40 <= count && 20 * few <= count
    ensures !Plausible(few, count, 0.5) && few as real / count as real < 0.5
  {
    PlausibleCleared(few, count, 0.5);
    var n, d := count as real, count as real * 0.5 - few as real;
    SquareAtLeast(d, n * 0.45);
    MulNonNegative(n - 40.0, n);
    assert d * d == (-d) * (-d);
    CrossDivide(few as real, n, 0.4);
  }

  /** All of one window against at most a twentieth of another separate at one half. */
  lemma AllAgainstFew(a: Proportion, all: nat, f: Proportion, few: nat, count: nat)
    requires 40 <= all && 40 <= count && 20 * few <= count
    requires Inverts(a, all, all) && Inverts(f, few, count)
    ensures a.interval.low > 0.5 > f.interval.high
  {
    hide Plausible;
    AllImplausible(all);
    LowAbove(a, all, all, 0.5);
    FewImplausible(few, count);
    HighBelow(f, few, count, 0.5);
  }
}
