/** What a pair of sample windows says about a stream: window statistics, the signals
    that open an incident, and the conditions under which an incident is over.
 */
module Judgement {
  import opened Wrappers
  import opened Protocol
  import opened Numerics

  const WINDOW := 50

  /** One retained observation; no event content is kept. */
  datatype Sample = Sample(
    ts: int,
    latency: Option<real>,
    tokens: Option<real>,
    version: VersionId,
    failure: Option<string>,
    retries: Option<real>)
  {
    predicate Failed() {
      failure.Some?
    }
  }

  datatype Metric = Latency | Tokens | Retries

  datatype Kind = HighFailureRate | FailureRateRegression | Degraded(metric: Metric)

  datatype Evidence =
    | AbsoluteRate(interval: Interval)
    | RateChange(baselineRate: real, currentRate: real, baselineInterval: Interval, currentInterval: Interval)
    | MetricChange(threshold: real, baselineMedian: real, currentMedian: real,
                   baselineElevated: Interval, currentElevated: Interval)

  datatype MetricStats = MetricStats(samples: nat, median: Option<real>)

  datatype Stats = Stats(
    count: nat,
    failures: nat,
    rate: Option<real>,
    interval: Interval,
    latency: MetricStats,
    tokens: MetricStats,
    retries: MetricStats,
    first: Option<int>,
    last: Option<int>,
    versionCounts: multiset<VersionId>)
  {
    function Of(m: Metric): MetricStats {
      match m
      case Latency => latency
      case Tokens => tokens
      case Retries => retries
    }
  }

  /** A None reached arithmetic: the exception Python would raise. */
  datatype Missing = MissingValue

  function Measure(row: Sample, m: Metric): Option<real> {
    match m
    case Latency => row.latency
    case Tokens => row.tokens
    case Retries => row.retries
  }

  function Failures(rows: seq<Sample>): (n: nat)
    ensures n <= |rows|
  {
    if rows == [] then 0
    else (if rows[0].Failed() then 1 else 0) + Failures(rows[1..])
  }

  /** The known values of one metric, in row order. */
  function Known(rows: seq<Sample>, m: Metric): (values: seq<real>)
    ensures |values| <= |rows|
  {
    if rows == [] then []
    else
      (match Measure(rows[0], m) case Some(v) => [v] case None => []) + Known(rows[1..], m)
  }

  function Versions(rows: seq<Sample>): (versions: multiset<VersionId>)
    ensures forall v :: v in versions <==> exists k :: 0 <= k < |rows| && rows[k].version == v
  {
    if rows == [] then multiset{}
    else
      assert rows == [rows[0]] + rows[1..];
      multiset{rows[0].version} + Versions(rows[1..])
  }

  function MetricStatsOf(rows: seq<Sample>, m: Metric): MetricStats {
    var values := Known(rows, m);
    MetricStats(|values|, if values == [] then None else Some(Median(values)))
  }

  function StatsOf(score: Score, rows: seq<Sample>): Stats {
    var failed := Failures(rows);
    var scored := score(failed, |rows|);
    Stats(|rows|, failed,
          if rows == [] then None else Some(scored.rate),
          Interval(Round6(scored.interval.low), Round6(scored.interval.high)),
          MetricStatsOf(rows, Latency), MetricStatsOf(rows, Tokens), MetricStatsOf(rows, Retries),
          if rows == [] then None else Some(rows[0].ts),
          if rows == [] then None else Some(rows[|rows| - 1].ts),
          Versions(rows))
  }

  // ---------------------------------------------------------------- signals

  const KNOWN := 40

  /** The smallest change in a median worth an incident; recovery uses half of it. */
  function MinimumDelta(m: Metric): real {
    match m
    case Latency => 50.0
    case Tokens => 100.0
    case Retries => 2.0
  }

  function RecoveryDelta(m: Metric): real {
    match m
    case Latency => 25.0
    case Tokens => 50.0
    case Retries => 1.0
  }

  function Threshold(before: seq<real>, m: Metric): real
    requires before != []
  {
    Max(Percentile95(before), Max(Median(before) * 1.5, Median(before) + MinimumDelta(m)))
  }

  function MetricSignal(score: Score, baseline: seq<Sample>, current: seq<Sample>, m: Metric): Option<Evidence> {
    var before, after := Known(baseline, m), Known(current, m);
    if |before| < KNOWN || |after| < KNOWN then None
    else
      var threshold := Threshold(before, m);
      var base := score(CountAbove(before, threshold), |before|).interval;
      var observed := score(CountAbove(after, threshold), |after|).interval;
      if Median(after) > threshold && observed.low > base.high then
        Some(MetricChange(threshold, Median(before), Median(after), base, observed))
      else None
  }

  function FailureSignals(score: Score, baseline: seq<Sample>, current: seq<Sample>): map<Kind, Evidence> {
    var base, observed := StatsOf(score, baseline), StatsOf(score, current);
    var absolute: map<Kind, Evidence> :=
      if |current| >= 25 && observed.interval.low > 0.5 then map[HighFailureRate := AbsoluteRate(observed.interval)]
      else map[];
    if |baseline| < WINDOW || |current| < WINDOW then absolute
    else if observed.rate.value - base.rate.value >= 0.15 && observed.interval.low > base.interval.high then
      absolute[FailureRateRegression :=
        RateChange(base.rate.value, observed.rate.value, base.interval, observed.interval)]
    else absolute
  }

  function WithMetric(score: Score, baseline: seq<Sample>, current: seq<Sample>, m: Metric,
                      signals: map<Kind, Evidence>): map<Kind, Evidence>
  {
    match MetricSignal(score, baseline, current, m)
    case Some(evidence) => signals[Degraded(m) := evidence]
    case None => signals
  }

  function Signals(score: Score, baseline: seq<Sample>, current: seq<Sample>): map<Kind, Evidence> {
    var rates := FailureSignals(score, baseline, current);
    if |baseline| < WINDOW || |current| < WINDOW then rates
    else
      WithMetric(score, baseline, current, Retries,
        WithMetric(score, baseline, current, Tokens,
          WithMetric(score, baseline, current, Latency, rates)))
  }

  // ---------------------------------------------------------------- recovery

  /** One metric's recovery test. A missing baseline median is Python's TypeError. */
  function MetricRecovered(base: Stats, current: Stats, kinds: set<Kind>, m: Metric): Result<bool, Missing> {
    if Degraded(m) !in kinds then Ok(true)
    else if current.Of(m).samples < KNOWN then Ok(false)
    else if base.Of(m).median.None? || current.Of(m).median.None? then Err(MissingValue)
    else
      var before := base.Of(m).median.value;
      Ok(current.Of(m).median.value <= Max(before * 1.25, before + RecoveryDelta(m)))
  }

  function RecoveredFrom(base: Stats, observed: Stats, kinds: set<Kind>): Result<bool, Missing>
    requires observed.rate.Some?
  {
    if HighFailureRate in kinds && observed.interval.high >= 0.25 then Ok(false)
    else if FailureRateRegression in kinds && base.rate.None? then Err(MissingValue)
    else if FailureRateRegression in kinds && observed.rate.value > base.rate.value + 0.05 then Ok(false)
    else
      var latency :- MetricRecovered(base, observed, kinds, Latency);
      if !latency then Ok(false)
      else
        var tokens :- MetricRecovered(base, observed, kinds, Tokens);
        if !tokens then Ok(false)
        else MetricRecovered(base, observed, kinds, Retries)
  }

  function Recovered(score: Score, baseline: seq<Sample>, current: seq<Sample>, kinds: set<Kind>)
    : Result<bool, Missing>
  {
    if |current| < WINDOW then Ok(false)
    else RecoveredFrom(StatsOf(score, baseline), StatsOf(score, current), kinds)
  }

  /** What a baseline must hold for these kinds to have fired, and for recovery
      from them to be decidable. */
  ghost predicate Supports(baseline: seq<Sample>, kinds: set<Kind>) {
    && (FailureRateRegression in kinds ==> |baseline| == WINDOW)
    && forall m :: Degraded(m) in kinds ==> |baseline| == WINDOW && |Known(baseline, m)| >= KNOWN
  }

  lemma MetricDecidable(score: Score, baseline: seq<Sample>, current: seq<Sample>, kinds: set<Kind>, m: Metric)
    requires Supports(baseline, kinds)
    ensures MetricRecovered(StatsOf(score, baseline), StatsOf(score, current), kinds, m).Ok?
  {
    hide Round6, Median;
  }

  /** Recovery is always decidable from a supporting baseline. */
  lemma RecoveredTotal(score: Score, baseline: seq<Sample>, current: seq<Sample>, kinds: set<Kind>)
    requires Supports(baseline, kinds)
    ensures Recovered(score, baseline, current, kinds).Ok?
  {
    hide Round6, MetricStatsOf, MetricRecovered, Known, Versions;
    MetricDecidable(score, baseline, current, kinds, Latency);
    MetricDecidable(score, baseline, current, kinds, Tokens);
    MetricDecidable(score, baseline, current, kinds, Retries);
  }

  // ---------------------------------------------------------------- recovery implies quiet

  /** The rule of one kind, read on its own. */
  predicate Fires(score: Score, baseline: seq<Sample>, current: seq<Sample>, kind: Kind) {
    var base, observed := StatsOf(score, baseline), StatsOf(score, current);
    match kind
    case HighFailureRate =>
      |current| >= 25 && observed.interval.low > 0.5
    case FailureRateRegression =>
      && |baseline| >= WINDOW && |current| >= WINDOW
      && observed.rate.value - base.rate.value >= 0.15
      && observed.interval.low > base.interval.high
    case Degraded(m) =>
      && |baseline| >= WINDOW && |current| >= WINDOW
      && MetricSignal(score, baseline, current, m).Some?
  }

  /** The signal map holds exactly the kinds whose own rule fires. */
  lemma SignalKinds(score: Score, baseline: seq<Sample>, current: seq<Sample>)
    ensures forall kind :: kind in Signals(score, baseline, current) <==> Fires(score, baseline, current, kind)
  {
    hide MetricSignal, Round6, MetricStatsOf;
    forall kind: Kind
      ensures kind in Signals(score, baseline, current) <==> Fires(score, baseline, current, kind)
    {
      match kind {
        case HighFailureRate =>
        case FailureRateRegression =>
        case Degraded(m) =>
          match m {
            case Latency =>
            case Tokens =>
            case Retries =>
          }
      }
    }
  }

  /** The evidence kept with a signal separates the two windows: it alone shows why the
      kind fired, and its figures are those of the windows it names. */
  ghost predicate Tells(score: Score, baseline: seq<Sample>, current: seq<Sample>, kind: Kind, evidence: Evidence) {
    var base, observed := StatsOf(score, baseline), StatsOf(score, current);
    match evidence
    case AbsoluteRate(interval) =>
      kind == HighFailureRate && interval == observed.interval && interval.low > 0.5
    case RateChange(baselineRate, currentRate, baselineInterval, currentInterval) =>
      && kind == FailureRateRegression
      && Some(baselineRate) == base.rate && Some(currentRate) == observed.rate
      && baselineInterval == base.interval && currentInterval == observed.interval
      && currentRate >= baselineRate + 0.15 && currentInterval.low > baselineInterval.high
    case MetricChange(threshold, baselineMedian, currentMedian, baselineElevated, currentElevated) =>
      && kind.Degraded?
      && Some(baselineMedian) == base.Of(kind.metric).median && Some(currentMedian) == observed.Of(kind.metric).median
      && currentMedian > threshold && threshold >= baselineMedian * 1.5
      && threshold >= baselineMedian + MinimumDelta(kind.metric)
      && currentElevated.low > baselineElevated.high
  }

  lemma MetricTells(score: Score, baseline: seq<Sample>, current: seq<Sample>, m: Metric)
    requires MetricSignal(score, baseline, current, m).Some?
    ensures Tells(score, baseline, current, Degraded(m), MetricSignal(score, baseline, current, m).value)
  {
    hide Round6, Median, Percentile95;
  }

  lemma SignalsTell(score: Score, baseline: seq<Sample>, current: seq<Sample>, kind: Kind)
    requires kind in Signals(score, baseline, current)
    ensures Tells(score, baseline, current, kind, Signals(score, baseline, current)[kind])
  {
    hide Round6, MetricStatsOf, MetricSignal;
    if kind.Degraded? {
      SignalKinds(score, baseline, current);
      MetricTells(score, baseline, current, kind.metric);
      hide Tells;
    }
  }

  /** A comparison fires only on evidence that recovery can later be measured against. */
  lemma SignalsSupported(score: Score, baseline: seq<Sample>, current: seq<Sample>)
    requires |baseline| <= WINDOW
    ensures Supports(baseline, Signals(score, baseline, current).Keys)
  {
    hide Round6, MetricStatsOf;
    SignalKinds(score, baseline, current);
  }

  /** A metric whose median has come back cannot still be above its alarm threshold. */
  lemma MetricQuiet(score: Score, baseline: seq<Sample>, current: seq<Sample>, kinds: set<Kind>, m: Metric)
    requires Degraded(m) in kinds
    requires MetricRecovered(StatsOf(score, baseline), StatsOf(score, current), kinds, m) == Ok(true)
    ensures MetricSignal(score, baseline, current, m).None?
  {
  }

  lemma IntervalOrdered(score: Score, rows: seq<Sample>)
    requires Bounded(score)
    ensures 0.0 <= StatsOf(score, rows).interval.low <= StatsOf(score, rows).interval.high <= 1.0
  {
    var w := score(Failures(rows), |rows|).interval;
    Round6Monotone(0.0, w.low);
    Round6Monotone(w.low, w.high);
    Round6Monotone(w.high, 1.0);
    Round6Fixes(0);
    Round6Fixes(1000000);
  }

  /** Once the firing kinds are merged into an incident, a passed recovery test means
      that nothing is firing: the extra `not signals` guard never changes the outcome. */
  lemma RecoveryImpliesQuiet(score: Score, baseline: seq<Sample>, current: seq<Sample>, kinds: set<Kind>)
    requires Bounded(score)
    requires Signals(score, baseline, current).Keys <= kinds
    requires Recovered(score, baseline, current, kinds) == Ok(true)
    ensures Signals(score, baseline, current) == map[]
  {
    var signals := Signals(score, baseline, current);
    SignalKinds(score, baseline, current);
    forall kind: Kind
      ensures kind !in signals
    {
      if kind in signals {
        FiringBlocksRecovery(score, baseline, current, kinds, kind);
      }
    }
  }

  lemma FiringBlocksRecovery(score: Score, baseline: seq<Sample>, current: seq<Sample>, kinds: set<Kind>, kind: Kind)
    requires Bounded(score)
    requires kind in kinds && Fires(score, baseline, current, kind)
    ensures Recovered(score, baseline, current, kinds) != Ok(true)
  {
    hide MetricSignal, Round6, MetricStatsOf, Known;
    if Recovered(score, baseline, current, kinds) == Ok(true) {
      match kind {
        case HighFailureRate =>
          IntervalOrdered(score, current);
        case FailureRateRegression =>
        case Degraded(m) =>
          MetricQuiet(score, baseline, current, kinds, m);
      }
    }
  }
}
