/** The detection and recovery rules in numbers of rows and ranked values, for the exact
    score: when each signal fires, and when an incident is over.
 */
module Rules {
  import opened Wrappers
  import opened Collections
  import opened Protocol
  import opened Numerics
  import opened Ranks
  import opened Intervals
  import opened Judgement

  // ---------------------------------------------------------------- counting rows

  /** How many rows failed. */
  ghost function Failed(rows: seq<Sample>): nat {
    |Where(rows, (row: Sample) => row.failure.Some?)|
  }

  lemma {:induction false} FailuresCounts(rows: seq<Sample>)
    ensures Failures(rows) == Failed(rows)
  {
    if rows != [] {
      FailuresCounts(rows[1..]);
      WhereTail(rows, (row: Sample) => row.failure.Some?);
    }
  }

  /** A row's value of a metric. */
  ghost predicate Reads(row: Sample, m: Metric, value: real) {
    && (m == Latency ==> row.latency == Some(value))
    && (m == Tokens ==> row.tokens == Some(value))
    && (m == Retries ==> row.retries == Some(value))
  }

  /** The listed values are the rows' own, row by row, unknown ones left out. */
  ghost predicate Collects(rows: seq<Sample>, m: Metric, values: seq<real>)
    decreases |rows|
  {
    if rows == [] then values == []
    else if values != [] && Reads(rows[0], m, values[0]) then Collects(rows[1..], m, values[1..])
    else (forall v :: !Reads(rows[0], m, v)) && Collects(rows[1..], m, values)
  }

  lemma {:induction false} KnownCollects(rows: seq<Sample>, m: Metric)
    ensures Collects(rows, m, Known(rows, m))
  {
    if rows != [] {
      KnownCollects(rows[1..], m);
      if Measure(rows[0], m).Some? {
        assert Known(rows, m)[1..] == Known(rows[1..], m);
      } else {
        assert Known(rows, m) == Known(rows[1..], m);
      }
    }
  }

  lemma {:induction false} CollectsUnique(rows: seq<Sample>, m: Metric, a: seq<real>, b: seq<real>)
    requires Collects(rows, m, a) && Collects(rows, m, b)
    ensures a == b
  {
    if rows != [] {
      if a != [] && Reads(rows[0], m, a[0]) {
        CollectsUnique(rows[1..], m, a[1..], b[1..]);
      } else {
        CollectsUnique(rows[1..], m, a, b);
      }
    }
  }

  // ---------------------------------------------------------------- what the statistics say

  /** The statistics kept of a window, in numbers of rows and ranked values. */
  ghost predicate Describes(score: Score, rows: seq<Sample>, stats: Stats) {
    && stats.count == |rows| && stats.failures == Failed(rows) <= |rows|
    && (if rows == [] then
          stats.rate.None? && stats.first.None? && stats.last.None? && stats.interval == Interval(0.0, 1.0)
        else
          && stats.rate == Some(Failed(rows) as real / |rows| as real)
          && stats.first == Some(rows[0].ts) && stats.last == Some(rows[|rows| - 1].ts)
          && stats.interval == Interval(Round6(score(Failed(rows), |rows|).interval.low),
                                        Round6(score(Failed(rows), |rows|).interval.high)))
    && (forall m :: MetricDescribes(rows, m, stats.Of(m)))
    && (forall v :: stats.versionCounts[v] == |Where(rows, (row: Sample) => row.version == v)|)
  }

  ghost predicate MetricDescribes(rows: seq<Sample>, m: Metric, stats: MetricStats) {
    exists values ::
      && Collects(rows, m, values) && stats.samples == |values|
      && if values == [] then stats.median.None? else stats.median.Some? && IsMedian(values, stats.median.value)
  }

  lemma {:induction false} VersionsCount(rows: seq<Sample>, v: VersionId)
    ensures Versions(rows)[v] == |Where(rows, (row: Sample) => row.version == v)|
  {
    if rows == [] {
      assert Where(rows, (row: Sample) => row.version == v) == {};
    } else {
      VersionsCount(rows[1..], v);
      WhereTail(rows, (row: Sample) => row.version == v);
    }
  }

  lemma MetricDescribed(rows: seq<Sample>, m: Metric)
    ensures MetricDescribes(rows, m, MetricStatsOf(rows, m))
  {
    var values := Known(rows, m);
    KnownCollects(rows, m);
    if values != [] {
      MedianByRank(values, Median(values));
    }
    hide Known, Collects, Median, IsMedian;
  }

  lemma EmptyInterval(score: Score)
    requires Exact(score)
    ensures StatsOf(score, []).interval == Interval(0.0, 1.0)
  {
    hide MetricStatsOf;
    Round6Fixes(0);
    Round6Fixes(1000000);
    assert 0 as real / 1000000.0 == 0.0 && 1000000 as real / 1000000.0 == 1.0;
    hide Round6;
  }

  lemma WindowDescribed(score: Score, rows: seq<Sample>)
    requires Exact(score)
    ensures Describes(score, rows, StatsOf(score, rows))
  {
    hide MetricStatsOf, MetricDescribes, Versions, Round6, Inverts, Failed, Failures, Where;
    FailuresCounts(rows);
    RateFigures(score, rows, |rows|);
    EmptyInterval(score);
    forall m
      ensures MetricDescribes(rows, m, StatsOf(score, rows).Of(m))
    {
      MetricFigures(score, rows, m);
      MetricDescribed(rows, m);
    }
    forall v
      ensures Versions(rows)[v] == |Where(rows, (row: Sample) => row.version == v)|
    {
      VersionsCount(rows, v);
    }
  }

  // ---------------------------------------------------------------- when a signal fires

  /** The alarm level of a metric: the 95th percentile, 1.5 medians, or the median and the
      smallest change worth an alarm, whichever is highest. */
  ghost predicate AlarmLevel(m: Metric, before: seq<real>, level: real) {
    exists median, percentile ::
      && IsMedian(before, median) && IsPercentile95(before, percentile)
      && level >= percentile && level >= 1.5 * median && level >= median + Smallest(m)
      && level in {percentile, 1.5 * median, median + Smallest(m)}
  }

  ghost function Smallest(m: Metric): real {
    match m
    case Latency => 50.0
    case Tokens => 100.0
    case Retries => 2.0
  }

  /** The middle of the later values is above the level, and provably more of them are. */
  ghost predicate Shifted(score: Score, before: seq<real>, after: seq<real>, level: real) {
    && 40 <= |before| && 40 <= |after|
    && (exists median :: IsMedian(after, median) && median > level)
    && Above(before, level) <= |before| && Above(after, level) <= |after|
    && score(Above(after, level), |after|).interval.low > score(Above(before, level), |before|).interval.high
  }

  ghost predicate Alarms(score: Score, baseline: seq<Sample>, current: seq<Sample>, kind: Kind) {
    match kind
    case HighFailureRate =>
      25 <= |current| && MostlyFailing(Failed(current), |current|)
    case FailureRateRegression =>
      && |baseline| == 50 == |current|
      && Failed(baseline) + 8 <= Failed(current) <= 50
      && Round6(score(Failed(current), 50).interval.low) > Round6(score(Failed(baseline), 50).interval.high)
    case Degraded(m) =>
      && |baseline| == 50 == |current|
      && exists before, after, level ::
           Collects(baseline, m, before) && Collects(current, m, after) && AlarmLevel(m, before, level)
           && Shifted(score, before, after, level)
  }

  /** The figures a window's statistics are scored by. */
  lemma RateFigures(score: Score, rows: seq<Sample>, count: nat)
    requires Exact(score) && count == |rows|
    ensures var stats := StatsOf(score, rows);
            && Failed(rows) <= count
            && (0 < count ==>
                  && stats.rate == Some(Failed(rows) as real / count as real)
                  && stats.interval == Interval(Round6(score(Failed(rows), count).interval.low),
                                                Round6(score(Failed(rows), count).interval.high)))
  {
    FailuresCounts(rows);
    assert 0 < count ==> Inverts(score(Failed(rows), count), Failed(rows), count);
    hide Plausible, Round6, MetricStatsOf, Versions, Failed, Failures;
  }

  lemma AbsoluteRule(score: Score, baseline: seq<Sample>, current: seq<Sample>)
    requires Exact(score) && |current| <= 50
    ensures Fires(score, baseline, current, HighFailureRate)
            <==> Alarms(score, baseline, current, HighFailureRate)
  {
    RateFigures(score, current, |current|);
    hide StatsOf, Failed;
    if 25 <= |current| {
      AbsoluteAlarm(score(Failed(current), |current|), Failed(current), |current|);
    }
    hide Round6, MostlyFailing;
  }

  lemma RegressionRule(score: Score, baseline: seq<Sample>, current: seq<Sample>)
    requires Exact(score) && |baseline| <= 50 && |current| <= 50
    ensures Fires(score, baseline, current, FailureRateRegression)
            <==> Alarms(score, baseline, current, FailureRateRegression)
  {
    hide StatsOf, Failed, Round6, Exact;
    if |baseline| == 50 == |current| {
      FiftyFigures(score, baseline);
      FiftyFigures(score, current);
    }
  }

  lemma FiftyFigures(score: Score, rows: seq<Sample>)
    requires Exact(score) && |rows| == 50
    ensures var stats := StatsOf(score, rows);
            && Failed(rows) <= 50
            && stats.rate == Some(Failed(rows) as real / 50.0)
            && stats.interval == Interval(Round6(score(Failed(rows), 50).interval.low),
                                          Round6(score(Failed(rows), 50).interval.high))
  {
    hide StatsOf, Failed, Round6, Exact;
    RateFigures(score, rows, 50);
  }

  lemma LevelIsThreshold(m: Metric, before: seq<real>, level: real)
    requires before != []
    ensures AlarmLevel(m, before, level) <==> level == Threshold(before, m)
  {
    MedianByRank(before, Median(before));
    PercentileByRank(before, Percentile95(before));
    hide IsMedian, IsPercentile95, Median, Percentile95;
    forall median | IsMedian(before, median)
      ensures median == Median(before)
    {
      MedianByRank(before, median);
    }
    forall percentile | IsPercentile95(before, percentile)
      ensures percentile == Percentile95(before)
    {
      PercentileByRank(before, percentile);
    }
  }

  lemma ShiftedSignal(score: Score, baseline: seq<Sample>, current: seq<Sample>, m: Metric)
    ensures var before, after := Known(baseline, m), Known(current, m);
            MetricSignal(score, baseline, current, m).Some?
            <==> 40 <= |before| && Shifted(score, before, after, Threshold(before, m))
  {
    var before, after := Known(baseline, m), Known(current, m);
    if |before| >= 40 && |after| >= 40 {
      var level := Threshold(before, m);
      CountAboveCounts(before, level);
      CountAboveCounts(after, level);
      MedianByRank(after, Median(after));
      hide Threshold, Median, IsMedian, Above, CountAbove;
      if Shifted(score, before, after, level) {
        var median :| IsMedian(after, median) && median > level;
        MedianByRank(after, median);
      }
    }
  }

  lemma MetricAlarm(score: Score, baseline: seq<Sample>, current: seq<Sample>, m: Metric)
    requires |baseline| <= 50 && |current| <= 50
    ensures Fires(score, baseline, current, Degraded(m)) <==> Alarms(score, baseline, current, Degraded(m))
  {
    var before, after := Known(baseline, m), Known(current, m);
    ShiftedSignal(score, baseline, current, m);
    KnownCollects(baseline, m);
    KnownCollects(current, m);
    hide Known, MetricSignal, Collects, Threshold, AlarmLevel;
    if |before| >= 40 {
      LevelIsThreshold(m, before, Threshold(before, m));
    }
    hide Shifted;
    if Alarms(score, baseline, current, Degraded(m)) {
      var b, a, level :| Collects(baseline, m, b) && Collects(current, m, a) && AlarmLevel(m, b, level)
                         && Shifted(score, b, a, level);
      CollectsUnique(baseline, m, b, before);
      CollectsUnique(current, m, a, after);
      ShiftedSizes(score, b, a, level);
      LevelIsThreshold(m, before, level);
    }
  }

  lemma ShiftedSizes(score: Score, before: seq<real>, after: seq<real>, level: real)
    requires Shifted(score, before, after, level)
    ensures 40 <= |before| && 40 <= |after|
  {
  }

  /** Which signals a pair of windows gives. */
  lemma SignalRule(score: Score, baseline: seq<Sample>, current: seq<Sample>, kind: Kind)
    requires Exact(score) && |baseline| <= 50 && |current| <= 50
    ensures kind in Signals(score, baseline, current) <==> Alarms(score, baseline, current, kind)
  {
    hide Fires, Alarms;
    SignalKinds(score, baseline, current);
    match kind
    case HighFailureRate => AbsoluteRule(score, baseline, current);
    case FailureRateRegression => RegressionRule(score, baseline, current);
    case Degraded(m) => MetricAlarm(score, baseline, current, m);
  }

  // ---------------------------------------------------------------- when an incident is over

  /** How far above the baseline median a metric may stay. */
  ghost function Slack(m: Metric): real {
    match m
    case Latency => 25.0
    case Tokens => 50.0
    case Retries => 1.0
  }

  ghost predicate BackDown(baseline: seq<Sample>, current: seq<Sample>, m: Metric) {
    exists before, after, past, present ::
      && Collects(baseline, m, before) && Collects(current, m, after) && 40 <= |after|
      && IsMedian(before, past) && IsMedian(after, present)
      && (present <= 1.25 * past || present <= past + Slack(m))
  }

  /** A full window with few enough failures and every gathered metric back down. */
  ghost predicate Over(baseline: seq<Sample>, current: seq<Sample>, kinds: set<Kind>) {
    && |current| == 50
    && (HighFailureRate in kinds ==> Failed(current) <= 6)
    && (FailureRateRegression in kinds ==> Failed(current) <= Failed(baseline) + 2)
    && AllDown(baseline, current, kinds)
  }

  ghost predicate AllDown(baseline: seq<Sample>, current: seq<Sample>, kinds: set<Kind>) {
    forall m :: Degraded(m) in kinds ==> BackDown(baseline, current, m)
  }

  lemma BackDownMedians(baseline: seq<Sample>, current: seq<Sample>, m: Metric)
    requires Known(baseline, m) != []
    ensures var before, after := Known(baseline, m), Known(current, m);
            BackDown(baseline, current, m)
            <==> 40 <= |after| && (Median(after) <= 1.25 * Median(before) || Median(after) <= Median(before) + Slack(m))
  {
    var before, after := Known(baseline, m), Known(current, m);
    KnownCollects(baseline, m);
    KnownCollects(current, m);
    MedianByRank(before, Median(before));
    if after != [] {
      MedianByRank(after, Median(after));
    }
    hide Known, Collects, IsMedian, Median;
    if BackDown(baseline, current, m) {
      var b, a, past, present :|
        Collects(baseline, m, b) && Collects(current, m, a) && 40 <= |a| && IsMedian(b, past) && IsMedian(a, present)
        && (present <= 1.25 * past || present <= past + Slack(m));
      CollectsUnique(baseline, m, b, before);
      CollectsUnique(current, m, a, after);
      MedianByRank(before, past);
      MedianByRank(after, present);
    }
  }

  lemma MetricFigures(score: Score, rows: seq<Sample>, m: Metric)
    ensures StatsOf(score, rows).Of(m) == MetricStatsOf(rows, m)
  {
    hide MetricStatsOf, Round6, Versions, Failures;
  }

  lemma MetricOver(score: Score, baseline: seq<Sample>, current: seq<Sample>, kinds: set<Kind>, m: Metric)
    requires Supports(baseline, kinds)
    ensures MetricRecovered(StatsOf(score, baseline), StatsOf(score, current), kinds, m)
            == Ok(Degraded(m) in kinds ==> BackDown(baseline, current, m))
  {
    MetricFigures(score, baseline, m);
    MetricFigures(score, current, m);
    hide StatsOf, Median, BackDown;
    if Degraded(m) in kinds {
      assert Known(baseline, m) != [];
      BackDownMedians(baseline, current, m);
      hide Known, Supports;
    }
  }

  lemma RatesOver(score: Score, baseline: seq<Sample>, current: seq<Sample>)
    requires Exact(score) && |current| == 50
    ensures var observed := StatsOf(score, current);
            && observed.rate.Some? && (observed.interval.high >= 0.25 <==> Failed(current) > 6)
    ensures |baseline| == 50 ==>
              var base, observed := StatsOf(score, baseline), StatsOf(score, current);
              && base.rate.Some?
              && (observed.rate.value > base.rate.value + 0.05 <==> Failed(current) > Failed(baseline) + 2)
  {
    FiftyFigures(score, current);
    SixFailures(score(Failed(current), 50), Failed(current));
    hide StatsOf, Failed, Round6;
    if |baseline| == 50 {
      FiftyFigures(score, baseline);
    }
  }

  /** Recovery is the conjunction of its tests. */
  lemma EveryTest(base: Stats, observed: Stats, kinds: set<Kind>, latency: bool, tokens: bool, retries: bool)
    requires observed.rate.Some? && (FailureRateRegression in kinds ==> base.rate.Some?)
    requires MetricRecovered(base, observed, kinds, Latency) == Ok(latency)
    requires MetricRecovered(base, observed, kinds, Tokens) == Ok(tokens)
    requires MetricRecovered(base, observed, kinds, Retries) == Ok(retries)
    ensures RecoveredFrom(base, observed, kinds)
            == Ok(&& (HighFailureRate in kinds ==> observed.interval.high < 0.25)
                  && (FailureRateRegression in kinds ==> observed.rate.value <= base.rate.value + 0.05)
                  && latency && tokens && retries)
  {
    hide MetricRecovered;
  }

  lemma ThreeMetrics(baseline: seq<Sample>, current: seq<Sample>, kinds: set<Kind>)
    ensures AllDown(baseline, current, kinds)
            <==> && (Degraded(Latency) in kinds ==> BackDown(baseline, current, Latency))
                 && (Degraded(Tokens) in kinds ==> BackDown(baseline, current, Tokens))
                 && (Degraded(Retries) in kinds ==> BackDown(baseline, current, Retries))
  {
    hide BackDown;
    if && (Degraded(Latency) in kinds ==> BackDown(baseline, current, Latency))
       && (Degraded(Tokens) in kinds ==> BackDown(baseline, current, Tokens))
       && (Degraded(Retries) in kinds ==> BackDown(baseline, current, Retries))
    {
      forall m | Degraded(m) in kinds
        ensures BackDown(baseline, current, m)
      {
        match m
        case Latency =>
        case Tokens =>
        case Retries =>
      }
    }
  }

  /** When an incident of these kinds is over. */
  lemma RecoveryRule(score: Score, baseline: seq<Sample>, current: seq<Sample>, kinds: set<Kind>)
    requires Exact(score) && |current| <= 50 && Supports(baseline, kinds)
    ensures Recovered(score, baseline, current, kinds) == Ok(Over(baseline, current, kinds))
  {
    if |current| == 50 {
      RatesOver(score, baseline, current);
      assert FailureRateRegression in kinds ==> |baseline| == 50;
      MetricOver(score, baseline, current, kinds, Latency);
      MetricOver(score, baseline, current, kinds, Tokens);
      MetricOver(score, baseline, current, kinds, Retries);
      ThreeMetrics(baseline, current, kinds);
      hide StatsOf, Failed, BackDown, MetricRecovered, Supports, AllDown, RecoveredFrom;
      EveryTest(StatsOf(score, baseline), StatsOf(score, current), kinds,
                Degraded(Latency) in kinds ==> BackDown(baseline, current, Latency),
                Degraded(Tokens) in kinds ==> BackDown(baseline, current, Tokens),
                Degraded(Retries) in kinds ==> BackDown(baseline, current, Retries));
    }
  }

  // ---------------------------------------------------------------- a metric that rises for every row

  /** If every known current value passes the alarm level, the metric's signal fires. */
  lemma AllRise(score: Score, baseline: seq<Sample>, current: seq<Sample>, m: Metric,
                before: seq<real>, after: seq<real>, level: real)
    requires Exact(score) && |baseline| == 50 == |current|
    requires Collects(baseline, m, before) && Collects(current, m, after) && 40 <= |before| <= 50 && 40 <= |after| <= 50
    requires AlarmLevel(m, before, level)
    requires forall v :: v in after ==> v > level
    ensures Degraded(m) in Signals(score, baseline, current)
  {
    FewAbove(m, before, level);
    AllShifted(score, before, after, level);
    hide AlarmLevel, Collects, Shifted;
    assert Alarms(score, baseline, current, Degraded(m));
    SignalRule(score, baseline, current, Degraded(m));
  }

  lemma AllShifted(score: Score, before: seq<real>, after: seq<real>, level: real)
    requires Exact(score) && 40 <= |before| <= 50 && 40 <= |after| <= 50
    requires 20 * Above(before, level) <= |before|
    requires forall v :: v in after ==> v > level
    ensures Shifted(score, before, after, level)
  {
    assert Above(after, level) == |after| by {
      forall k | k in First(|after|)
        ensures k in Where(after, (v: real) => v > level)
      {
        assert after[k] in after;
      }
      assert Where(after, (v: real) => v > level) == First(|after|);
    }
    var few := Above(before, level);
    AllAgainstFew(score(|after|, |after|), |after|, score(few, |before|), few, |before|);
    MedianAbove(after, level);
    hide Above, IsMedian;
  }

  lemma MedianAbove(values: seq<real>, level: real)
    requires values != [] && forall v :: v in values ==> v > level
    ensures exists median :: IsMedian(values, median) && median > level
  {
    var lo, hi := Sort(values)[(|values| - 1) / 2], Sort(values)[|values| / 2];
    SortRanks(values, (|values| - 1) / 2);
    SortRanks(values, |values| / 2);
    assert lo in values && hi in values;
    hide HasRank, Sort;
    assert Middle(values, lo, hi);
    assert IsMedian(values, (lo + hi) / 2.0);
  }

  /** No more than a twentieth of the values lie above the alarm level they set. */
  lemma FewAbove(m: Metric, before: seq<real>, level: real)
    requires AlarmLevel(m, before, level)
    ensures 20 * Above(before, level) <= |before|
  {
    var median, percentile :| IsMedian(before, median) && IsPercentile95(before, percentile) && level >= percentile;
    var high, low := Where(before, (v: real) => v > level), Where(before, (v: real) => v <= percentile);
    assert high !! low;
    SubsetSize(high + low, First(|before|));
  }

  lemma AllEqual(values: seq<real>, x: real)
    requires values != [] && forall v :: v in values ==> v == x
    ensures IsMedian(values, x) && IsPercentile95(values, x)
  {
    SortRanks(values, (|values| - 1) / 2);
    SortRanks(values, |values| / 2);
    forall k | k in First(|values|)
      ensures k in Where(values, (v: real) => v <= x)
    {
      assert values[k] in values;
    }
    assert Where(values, (v: real) => v <= x) == First(|values|);
    hide HasRank, Sort;
    assert Middle(values, x, x);
  }

  /** Against a steady baseline x, every known value above max(1.5 x, x + delta) is an alarm. */
  lemma SteadyBaseline(score: Score, baseline: seq<Sample>, current: seq<Sample>, m: Metric,
                       before: seq<real>, after: seq<real>, x: real)
    requires Exact(score) && |baseline| == 50 == |current| && x >= 0.0
    requires Collects(baseline, m, before) && Collects(current, m, after) && 40 <= |before| <= 50 && 40 <= |after| <= 50
    requires forall v :: v in before ==> v == x
    requires forall v :: v in after ==> v > 1.5 * x && v > x + Smallest(m)
    ensures Degraded(m) in Signals(score, baseline, current)
  {
    AllEqual(before, x);
    var level := Max(1.5 * x, x + Smallest(m));
    assert AlarmLevel(m, before, level);
    hide AlarmLevel, Collects;
    AllRise(score, baseline, current, m, before, after, level);
  }
}
