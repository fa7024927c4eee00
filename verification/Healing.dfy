/** How an open incident heals: successes within the recovery limits fill its stream's
    window one by one, prunes take nothing away from them, and once the record is closed
    nothing opens it again.
 */
module Healing {
  import opened Wrappers
  import opened Protocol
  import opened Numerics
  import opened Judgement
  import opened Tenant
  import opened Invariants
  import opened Pruning
  import opened Batches
  import opened ExactlyOnce
  import opened Reachable
  import opened TwoWindows

  // ---------------------------------------------------------------- helpful rows

  /** The baseline knows enough values of the metric to compare with. */
  predicate Comparable(base: seq<Sample>, m: Metric) {
    |Known(base, m)| >= KNOWN
  }

  /** The median a metric must come back to. */
  function Limit(base: seq<Sample>, m: Metric): real
    requires Known(base, m) != []
  {
    Max(Median(Known(base, m)) * 1.25, Median(Known(base, m)) + RecoveryDelta(m))
  }

  /** A value that cannot hold up recovery: none at all of a silent metric, and one within
      the limit of any other. */
  predicate Eases(base: seq<Sample>, silent: set<Metric>, row: Sample, m: Metric) {
    Comparable(base, m) ==>
      if m in silent then Measure(row, m).None?
      else Measure(row, m).Some? && Measure(row, m).value <= Limit(base, m)
  }

  ghost predicate Helpful(base: seq<Sample>, silent: set<Metric>, row: Sample) {
    !row.Failed() && forall m: Metric :: Eases(base, silent, row, m)
  }

  ghost predicate AllHelpful(base: seq<Sample>, silent: set<Metric>, rows: seq<Sample>) {
    forall k :: 0 <= k < |rows| ==> Helpful(base, silent, rows[k])
  }

  /** No silent metric can fire: each is too rare in the baseline or absent from the rows. */
  ghost predicate Muted(base: seq<Sample>, silent: set<Metric>, rows: seq<Sample>) {
    forall m :: m in silent && Comparable(base, m) ==> forall k :: 0 <= k < |rows| ==> Measure(rows[k], m).None?
  }

  ghost predicate Unblamed(silent: set<Metric>, kinds: set<Kind>) {
    forall m :: m in silent ==> Degraded(m) !in kinds
  }

  // ---------------------------------------------------------------- a window of helpful rows

  lemma {:induction false} NoFailures(rows: seq<Sample>)
    requires forall k :: 0 <= k < |rows| ==> !rows[k].Failed()
    ensures Failures(rows) == 0
  {
    if rows != [] {
      assert !rows[0].Failed();
      NoFailures(rows[1..]);
    }
  }

  lemma {:induction false} NothingKnown(rows: seq<Sample>, m: Metric)
    requires forall k :: 0 <= k < |rows| ==> Measure(rows[k], m).None?
    ensures Known(rows, m) == []
  {
    if rows != [] {
      assert Measure(rows[0], m).None?;
      NothingKnown(rows[1..], m);
    }
  }

  lemma {:induction false} AllKnown(rows: seq<Sample>, m: Metric, limit: real)
    requires forall k :: 0 <= k < |rows| ==> Measure(rows[k], m).Some? && Measure(rows[k], m).value <= limit
    ensures |Known(rows, m)| == |rows|
    ensures forall k :: 0 <= k < |rows| ==> Known(rows, m)[k] <= limit
  {
    if rows != [] {
      assert Measure(rows[0], m).Some?;
      AllKnown(rows[1..], m, limit);
    }
  }

  lemma MedianWithin(values: seq<real>, limit: real)
    requires values != [] && forall k :: 0 <= k < |values| ==> values[k] <= limit
    ensures Median(values) <= limit
  {
    SortCorrect(values);
    var s := Sort(values);
    hide Sort;
    forall k | 0 <= k < |s|
      ensures s[k] <= limit
    {
      assert s[k] in multiset(s);
      assert s[k] in values;
    }
  }

  lemma CleanStats(score: Score, rows: seq<Sample>)
    requires Clears(score) && |rows| == WINDOW && forall k :: 0 <= k < |rows| ==> !rows[k].Failed()
    ensures var st := StatsOf(score, rows);
            st.interval.low == 0.0 && st.interval.high < 0.25 && st.rate == Some(0.0)
  {
    NoFailures(rows);
    Round6Fixes(0);
    Round6Fixes(240000);
    Round6Monotone(score(0, WINDOW).interval.high, 0.24);
  }

  lemma MutedMetric(score: Score, base: seq<Sample>, silent: set<Metric>, rows: seq<Sample>, m: Metric)
    requires Muted(base, silent, rows) && m in silent
    ensures MetricSignal(score, base, rows, m).None?
  {
    if Comparable(base, m) {
      NothingKnown(rows, m);
    }
  }

  /** Silent metrics are never blamed. */
  lemma MutedSignals(score: Score, base: seq<Sample>, silent: set<Metric>, rows: seq<Sample>)
    requires Muted(base, silent, rows)
    ensures Unblamed(silent, Signals(score, base, rows).Keys)
  {
    hide Signals, MetricSignal, Muted;
    SignalKinds(score, base, rows);
    forall m | m in silent
      ensures Degraded(m) !in Signals(score, base, rows).Keys
    {
      MutedMetric(score, base, silent, rows, m);
    }
  }

  /** A full window of helpful rows passes a metric's recovery test. */
  lemma MetricEased(score: Score, base: seq<Sample>, silent: set<Metric>, rows: seq<Sample>, kinds: set<Kind>,
                    m: Metric)
    requires AllHelpful(base, silent, rows) && |rows| == WINDOW && Unblamed(silent, kinds) && Supports(base, kinds)
    ensures MetricRecovered(StatsOf(score, base), StatsOf(score, rows), kinds, m) == Ok(true)
  {
    hide Round6, Failures, Versions, Median, Known;
    if Degraded(m) in kinds {
      assert Comparable(base, m);
      forall k | 0 <= k < |rows|
        ensures Measure(rows[k], m).Some? && Measure(rows[k], m).value <= Limit(base, m)
      {
        assert Helpful(base, silent, rows[k]) && Eases(base, silent, rows[k], m);
      }
      AllKnown(rows, m, Limit(base, m));
      MedianWithin(Known(rows, m), Limit(base, m));
    }
  }

  lemma HelpfulRecovers(score: Score, base: seq<Sample>, silent: set<Metric>, rows: seq<Sample>, kinds: set<Kind>)
    requires Clears(score) && AllHelpful(base, silent, rows) && |rows| == WINDOW
    requires Unblamed(silent, kinds) && Supports(base, kinds)
    ensures Recovered(score, base, rows, kinds) == Ok(true)
  {
    MetricEased(score, base, silent, rows, kinds, Latency);
    MetricEased(score, base, silent, rows, kinds, Tokens);
    MetricEased(score, base, silent, rows, kinds, Retries);
    assert forall k :: 0 <= k < |rows| ==> Helpful(base, silent, rows[k]);
    CleanStats(score, rows);
    hide Helpful, Round6, MetricStatsOf, MetricRecovered, Failures, Versions, Unblamed;
  }

  lemma HelpfulMuted(base: seq<Sample>, silent: set<Metric>, rows: seq<Sample>)
    requires AllHelpful(base, silent, rows)
    ensures Muted(base, silent, rows)
  {
    forall m, k | m in silent && Comparable(base, m) && 0 <= k < |rows|
      ensures Measure(rows[k], m).None?
    {
      assert Helpful(base, silent, rows[k]) && Eases(base, silent, rows[k], m);
    }
  }

  /** A full window of helpful rows fires nothing and passes every recovery test, whatever
      kinds were gathered, silent metrics apart. */
  lemma HelpfulWindow(score: Score, base: seq<Sample>, silent: set<Metric>, rows: seq<Sample>, kinds: set<Kind>)
    requires Clears(score) && AllHelpful(base, silent, rows) && |rows| == WINDOW && |base| <= WINDOW
    requires Unblamed(silent, kinds) && Supports(base, kinds)
    ensures Signals(score, base, rows) == map[]
    ensures Recovered(score, base, rows, kinds) == Ok(true)
  {
    var all := kinds + Signals(score, base, rows).Keys;
    HelpfulMuted(base, silent, rows);
    MutedSignals(score, base, silent, rows);
    SignalsSupported(score, base, rows);
    hide AllHelpful, Signals, Recovered, Muted;
    HelpfulRecovers(score, base, silent, rows, kinds);
    HelpfulRecovers(score, base, silent, rows, all);
    RecoveryImpliesQuiet(score, base, rows, all);
  }

  // ---------------------------------------------------------------- recovering, one event at a time

  ghost predicate IsOpen(s: State, id: IncidentId) {
    exists k :: 0 <= k < |s.incidents| && s.incidents[k].id == id && s.incidents[k].status.Open?
  }

  /** The newest n rows of the observation window are helpful ones accepted since the onset. */
  ghost predicate Recovering(s: State, base: seq<Sample>, silent: set<Metric>, inc: Incident, n: nat) {
    && inc.status.Open? && inc.id.stream in s.streams
    && var st := s.streams[inc.id.stream];
       && st.active == Some(inc.id) && st.baseline == base
       && n <= |st.current| && n < WINDOW
       && Unblamed(silent, inc.signals.Keys)
       && Muted(st.baseline, silent, st.current)
       && forall k :: |st.current| - n <= k < |st.current| ==>
            Helpful(base, silent, st.current[k]) && inc.openedAt <= st.current[k].ts
  }

  /** No event can reopen this incident. */
  ghost predicate Retired(when: Clock, s: State, onset: EventId, cutoff: int) {
    || when(onset) <= cutoff
    || when(onset) <= s.floor
    || (onset in s.dedup && s.dedup[onset].ts == when(onset))
  }

  /** Either the incident is over, or n rows towards its end are in. */
  ghost predicate Heals(s: State, base: seq<Sample>, silent: set<Metric>, id: IncidentId, n: nat) {
    forall k :: 0 <= k < |s.incidents| && s.incidents[k].id == id && s.incidents[k].status.Open? ==>
      Recovering(s, base, silent, s.incidents[k], n)
  }

  lemma FullWindowCloses(s: State, base: seq<Sample>, silent: set<Metric>, id: IncidentId, n: nat)
    requires Heals(s, base, silent, id, n) && n >= WINDOW
    ensures !IsOpen(s, id)
  {
    hide Helpful, Muted, Unblamed;
  }

  ghost predicate Helps(base: seq<Sample>, silent: set<Metric>, e: Event) {
    Helpful(base, silent, SampleOf(e))
  }

  lemma RollRecovering(s: State, base: seq<Sample>, silent: set<Metric>, inc: Incident, n: nat, st: Stream, row: Sample)
    requires Recovering(s, base, silent, inc, n)
    requires st.(versions := s.streams[inc.id.stream].versions) == s.streams[inc.id.stream]
    requires |st.current| <= WINDOW && inc.openedAt <= row.ts && Helpful(base, silent, row)
    ensures var rolled := Roll(st, row);
            && rolled.baseline == st.baseline && rolled.active == st.active
            && n + 1 <= |rolled.current| <= WINDOW
            && Muted(rolled.baseline, silent, rolled.current)
            && forall k :: |rolled.current| - (n + 1) <= k < |rolled.current| ==>
                 Helpful(base, silent, rolled.current[k]) && inc.openedAt <= rolled.current[k].ts
  {
    var rolled := Roll(st, row);
    var shift := |st.current| + 1 - |rolled.current|;
    assert forall k :: 0 <= k < |rolled.current| ==>
             rolled.current[k] == if k == |rolled.current| - 1 then row else st.current[k + shift];
    assert [row][0] == row;
    HelpfulMuted(base, silent, [row]);
    hide Known, Helpful;
  }

  /** Evaluating the incident's own stream: it closes, or stays on its way. */
  lemma EvaluateRecovering(score: Score, silent: set<Metric>, incidents: seq<Incident>, sid: StreamId, st: Stream,
                           e: Event, n: nat)
    requires Clears(score)
    requires st.active.Some? && |st.baseline| <= WINDOW && n <= |st.current| <= WINDOW && n <= WINDOW
    requires Muted(st.baseline, silent, st.current)
    requires var k := Find(incidents, st.active.value);
             k < |incidents| && Unblamed(silent, incidents[k].signals.Keys)
               && Supports(st.baseline, incidents[k].signals.Keys)
    requires forall k :: |st.current| - n <= k < |st.current| ==> Helpful(st.baseline, silent, st.current[k])
    ensures Evaluate(score, incidents, sid, st, e).Ok?
    ensures var k := Find(incidents, st.active.value);
            var after := Evaluate(score, incidents, sid, st, e).value;
            && |after.incidents| == |incidents| && after.incidents == incidents[k := after.incidents[k]]
            && after.incidents[k].id == incidents[k].id && after.incidents[k].openedAt == incidents[k].openedAt
            && (after.incidents[k].status.Open? ==>
                  n < WINDOW && after.stream == st && Unblamed(silent, after.incidents[k].signals.Keys))
  {
    var k := Find(incidents, st.active.value);
    var inc := Observe(score, incidents[k], st);
    ObserveSupported(score, incidents[k], st);
    MutedSignals(score, st.baseline, silent, st.current);
    ObserveKinds(score, silent, incidents[k], st);
    if n == WINDOW {
      HelpfulWindow(score, st.baseline, silent, st.current, inc.signals.Keys);
    }
    hide Signals, StatsOf, Recovered, Muted, Helpful, Supports, Unblamed, Find;
  }

  lemma ObserveKinds(score: Score, silent: set<Metric>, inc: Incident, st: Stream)
    requires Unblamed(silent, inc.signals.Keys) && Unblamed(silent, Signals(score, st.baseline, st.current).Keys)
    ensures Unblamed(silent, Observe(score, inc, st).signals.Keys)
  {
    hide Signals, StatsOf;
  }

  lemma RoomMembers(incidents: seq<Incident>, j: nat)
    requires j < |MakeRoom(incidents)|
    ensures MakeRoom(incidents)[j] in incidents
  {
  }

  /** A record that is open after an evaluation was open before, unless it is the new one;
      records of other streams are untouched. */
  lemma OpenBefore(score: Score, streams: map<StreamId, Stream>, incidents: seq<Incident>, sid: StreamId,
                   st: Stream, e: Event, j: nat) returns (k: nat)
    requires Linked(score, streams, incidents)
    requires sid in streams ==> st.active == streams[sid].active
    requires sid !in streams ==> st.active.None?
    requires Evaluate(score, incidents, sid, st, e).Ok?
    requires j < |Evaluate(score, incidents, sid, st, e).value.incidents|
    requires var inc := Evaluate(score, incidents, sid, st, e).value.incidents[j];
             inc.status.Open? && inc.id != IncidentHash(sid, e.id)
    ensures var inc := Evaluate(score, incidents, sid, st, e).value.incidents[j];
            && k < |incidents| && incidents[k].status.Open? && incidents[k].id == inc.id
            && (incidents[k].streamId != sid ==> inc == incidents[k])
  {
    hide Linked, MakeRoom, StatsOf, Signals;
    EvaluateRecords(score, incidents, sid, st, e);
    var after := Evaluate(score, incidents, sid, st, e).value.incidents;
    hide Evaluate;
    if st.active.Some? {
      FindRecorded(score, streams, incidents, sid);
      k := j;
    } else if after == incidents {
      k := j;
    } else {
      assert after[j] == MakeRoom(incidents)[j];
      RoomMembers(incidents, j);
      k :| 0 <= k < |incidents| && incidents[k] == after[j];
    }
  }

  lemma IdsDistinct(score: Score, when: Clock, s: State, i: nat, j: nat)
    requires Inv(score, when, s) && i < |s.incidents| && j < |s.incidents|
    requires s.incidents[i].id == s.incidents[j].id
    ensures i == j
    ensures s.incidents[i].streamId == s.incidents[i].id.stream
  {
    assert Spent(when, s.dedup, s.floor, s.incidents[i]);
  }

  lemma RetiredStays(when: Clock, s: State, e: Event, onset: EventId, cutoff: int)
    requires Retired(when, s, onset, cutoff)
    requires e.timestamp == when(e.id) && e.id !in s.dedup && s.floor < e.timestamp && cutoff < e.timestamp
    ensures onset != e.id
    ensures Retired(when, s.(dedup := s.dedup[e.id := Seen(EventHash(e), e.timestamp)]), onset, cutoff)
  {
  }

  /** One more accepted event: a helpful one of the stream brings the end nearer, and those
      of other streams change nothing. */
  lemma AcceptHeals(score: Score, when: Clock, s: State, base: seq<Sample>, silent: set<Metric>, e: Event,
                    id: IncidentId, n: nat, cutoff: int)
    requires Clears(score) && Inv(score, when, s) && Accept(score, s, e).Ok?
    requires e.timestamp == when(e.id) && e.id !in s.dedup && s.floor < e.timestamp && cutoff < e.timestamp
    requires Retired(when, s, id.onset, cutoff) && Heals(s, base, silent, id, n)
    requires StreamOf(e) == id.stream ==> Helps(base, silent, e)
    ensures Heals(Accept(score, s, e).value, base, silent, id, if StreamOf(e) == id.stream then n + 1 else n)
  {
    hide Inv, Recovering, Accept, Helps, Retired, Clears;
    var after := Accept(score, s, e).value;
    forall j | 0 <= j < |after.incidents| && after.incidents[j].id == id && after.incidents[j].status.Open?
      ensures Recovering(after, base, silent, after.incidents[j], if StreamOf(e) == id.stream then n + 1 else n)
    {
      OneRecovers(score, when, s, base, silent, e, j, n, cutoff);
    }
  }

  /** A closed incident stays closed, whatever is accepted. */
  lemma AcceptKeepsClosed(score: Score, when: Clock, s: State, e: Event, id: IncidentId, cutoff: int)
    requires Inv(score, when, s) && Accept(score, s, e).Ok?
    requires e.timestamp == when(e.id) && e.id !in s.dedup && s.floor < e.timestamp && cutoff < e.timestamp
    requires Retired(when, s, id.onset, cutoff) && !IsOpen(s, id)
    ensures !IsOpen(Accept(score, s, e).value, id)
  {
    hide Inv, Retired;
    RetiredAccept(score, when, s, e, id.onset, cutoff);
    var after := Accept(score, s, e).value;
    if IsOpen(after, id) {
      var j: nat :| j < |after.incidents| && after.incidents[j].id == id && after.incidents[j].status.Open?;
      var k := WasOpen(score, when, s, e, j);
    }
  }

  /** An open record an event did not open was open before it. */
  lemma WasOpen(score: Score, when: Clock, s: State, e: Event, j: nat) returns (k: nat)
    requires Inv(score, when, s) && Accept(score, s, e).Ok?
    requires j < |Accept(score, s, e).value.incidents| && Accept(score, s, e).value.incidents[j].status.Open?
    requires Accept(score, s, e).value.incidents[j].id.onset != e.id
    ensures var inc := Accept(score, s, e).value.incidents[j];
            && k < |s.incidents| && s.incidents[k].status.Open? && s.incidents[k].id == inc.id
            && (s.incidents[k].streamId != StreamOf(e) ==> inc == s.incidents[k])
  {
    hide Inv, Linked, Enter, Evaluate, Roll, Promote;
    AcceptIncidents(score, s, e);
    EnteredActive(s, e);
    LinkedOf(score, when, s);
    hide Accept;
    k := OpenBefore(score, s.streams, s.incidents, StreamOf(e), Roll(Enter(s, e).value, SampleOf(e)), e, j);
  }

  lemma RetiredAccept(score: Score, when: Clock, s: State, e: Event, onset: EventId, cutoff: int)
    requires Accept(score, s, e).Ok? && Retired(when, s, onset, cutoff)
    requires e.timestamp == when(e.id) && e.id !in s.dedup && s.floor < e.timestamp && cutoff < e.timestamp
    ensures onset != e.id && Retired(when, Accept(score, s, e).value, onset, cutoff)
  {
    AcceptCache(score, s, e);
    RetiredStays(when, s, e, onset, cutoff);
    hide Accept;
  }

  lemma OneRecovers(score: Score, when: Clock, s: State, base: seq<Sample>, silent: set<Metric>, e: Event,
                    j: nat, n: nat, cutoff: int)
    requires Clears(score) && Inv(score, when, s) && Accept(score, s, e).Ok?
    requires e.timestamp == when(e.id) && e.id !in s.dedup && s.floor < e.timestamp && cutoff < e.timestamp
    requires j < |Accept(score, s, e).value.incidents| && Accept(score, s, e).value.incidents[j].status.Open?
    requires var id := Accept(score, s, e).value.incidents[j].id;
             && Retired(when, s, id.onset, cutoff) && Heals(s, base, silent, id, n)
             && (StreamOf(e) == id.stream ==> Helps(base, silent, e))
    ensures var after := Accept(score, s, e).value;
            Recovering(after, base, silent, after.incidents[j],
                       if StreamOf(e) == after.incidents[j].id.stream then n + 1 else n)
  {
    hide Inv, Recovering, Enter, Evaluate, Roll, Promote, Retired, Helps, Clears;
    var after, sid := Accept(score, s, e).value, StreamOf(e);
    var inc := after.incidents[j];
    RetiredAccept(score, when, s, e, inc.id.onset, cutoff);
    AcceptInv(score, when, s, e);
    AcceptStreams(score, s, e);
    var k := WasOpen(score, when, s, e, j);
    hide Accept;
    IdsDistinct(score, when, s, k, k);
    assert Recovering(s, base, silent, s.incidents[k], n);
    if sid != inc.id.stream {
      RecoveringStream(s, base, silent, s.incidents[k], n);
      UntouchedRecovers(s, base, silent, after, s.incidents[k], n);
    } else {
      OwnRecovers(score, when, s, base, silent, e, k, j, n);
    }
  }

  lemma EnteredActive(s: State, e: Event)
    requires Enter(s, e).Ok?
    ensures Roll(Enter(s, e).value, SampleOf(e)).active ==
            if StreamOf(e) in s.streams then s.streams[StreamOf(e)].active else None
  {
    EnterSame(s, e);
    hide Enter;
  }

  lemma RecoveringStream(s: State, base: seq<Sample>, silent: set<Metric>, inc: Incident, n: nat)
    requires Recovering(s, base, silent, inc, n)
    ensures inc.id.stream in s.streams
  {
  }

  lemma LinkedOf(score: Score, when: Clock, s: State)
    requires Inv(score, when, s)
    ensures Linked(score, s.streams, s.incidents)
  {
  }

  lemma AcceptIncidents(score: Score, s: State, e: Event)
    requires Accept(score, s, e).Ok?
    ensures Enter(s, e).Ok?
    ensures var st := Roll(Enter(s, e).value, SampleOf(e));
            && Evaluate(score, s.incidents, StreamOf(e), st, e).Ok?
            && Accept(score, s, e).value.incidents == Evaluate(score, s.incidents, StreamOf(e), st, e).value.incidents
  {
    hide Enter, Evaluate, Roll, Promote;
  }

  lemma UntouchedRecovers(s: State, base: seq<Sample>, silent: set<Metric>, after: State, inc: Incident, n: nat)
    requires Recovering(s, base, silent, inc, n)
    requires inc.id.stream in after.streams && after.streams[inc.id.stream] == s.streams[inc.id.stream]
    ensures Recovering(after, base, silent, inc, n)
  {
  }

  /** One more success on the incident's own stream. */
  lemma OwnRecovers(score: Score, when: Clock, s: State, base: seq<Sample>, silent: set<Metric>, e: Event, k: nat,
                    j: nat, n: nat)
    requires Clears(score) && Inv(score, when, s) && Accept(score, s, e).Ok?
    requires k < |s.incidents| && Recovering(s, base, silent, s.incidents[k], n)
    requires s.incidents[k].streamId == StreamOf(e)
    requires s.incidents[k].id.stream == StreamOf(e) && Helps(base, silent, e)
    requires var incidents := Accept(score, s, e).value.incidents;
             j < |incidents| && incidents[j].id == s.incidents[k].id && incidents[j].status.Open?
    requires Inv(score, when, Accept(score, s, e).value)
    ensures Recovering(Accept(score, s, e).value, base, silent, Accept(score, s, e).value.incidents[j], n + 1)
  {
    hide Inv, Roll, Enter, Muted, Helpful, Supports, Unblamed, Evaluate, Accept;
    AcceptIncidents(score, s, e);
    var inc, entered, after := s.incidents[k], Enter(s, e).value, Accept(score, s, e).value;
    AcceptStreams(score, s, e);
    OwnFacts(score, when, s, k);
    FindIs(score, when, s, k);
    EnterSame(s, e);
    RollRecovering(s, base, silent, inc, n, entered, SampleOf(e));
    EvaluateRecovering(score, silent, s.incidents, StreamOf(e), Roll(entered, SampleOf(e)), e, n + 1);
    IdsDistinct(score, when, after, j, k);
    assert after.streams[StreamOf(e)] == Roll(entered, SampleOf(e));
  }

  lemma OwnFacts(score: Score, when: Clock, s: State, k: nat)
    requires Inv(score, when, s) && k < |s.incidents| && s.incidents[k].status.Open?
    ensures s.incidents[k].streamId in s.streams
    ensures var st := s.streams[s.incidents[k].streamId];
            && |st.baseline| <= WINDOW && |st.current| <= WINDOW && s.incidents[k].openedAt <= st.last
            && Supports(st.baseline, s.incidents[k].signals.Keys)
  {
    hide Supports, StatsOf, Orderly, Registry, Recorded;
    assert Attached(score, s.streams, s.incidents[k]);
    assert Live(s.incidents[k].streamId, s.streams[s.incidents[k].streamId]);
  }

  lemma FindIs(score: Score, when: Clock, s: State, k: nat)
    requires Inv(score, when, s) && k < |s.incidents|
    ensures Find(s.incidents, s.incidents[k].id) == k
  {
    IdsDistinct(score, when, s, Find(s.incidents, s.incidents[k].id), k);
  }

  // ---------------------------------------------------------------- pruning on the way

  lemma FreshTail(base: seq<Sample>, silent: set<Metric>, rows: seq<Sample>, n: nat, since: int, cutoff: int)
    requires Chronological(rows) && n <= |rows| && since > cutoff
    requires forall k :: |rows| - n <= k < |rows| ==> Helpful(base, silent, rows[k]) && since <= rows[k].ts
    ensures var kept := Fresh(rows, cutoff);
            && n <= |kept| <= |rows|
            && (forall k :: |kept| - n <= k < |kept| ==> Helpful(base, silent, kept[k]) && since <= kept[k].ts)
            && (forall k :: 0 <= k < |kept| ==> kept[k] in rows)
  {
    hide Helpful;
    FreshSuffix(rows, cutoff);
    var cut := |rows| - |Fresh(rows, cutoff)|;
    assert forall k :: |rows| - n <= k < |rows| ==> rows[k].ts > cutoff;
  }

  lemma MutedFewer(base: seq<Sample>, silent: set<Metric>, rows: seq<Sample>, fewer: seq<Sample>)
    requires Muted(base, silent, rows)
    requires forall k :: 0 <= k < |fewer| ==> fewer[k] in rows
    ensures Muted(base, silent, fewer)
  {
    hide Known;
  }

  /** The stream of an incident that survives a prune keeps its baseline and its successes. */
  lemma PruneRecovers(s: State, base: seq<Sample>, silent: set<Metric>, inc: Incident, n: nat, cutoff: int)
    requires Recovering(s, base, silent, inc, n) && inc in s.incidents && inc.openedAt > cutoff
    requires var st := s.streams[inc.id.stream];
             st.last >= inc.openedAt && Chronological(st.Rows()) && !Shrinks(st, cutoff)
    ensures Recovering(PruneAt(s, cutoff), base, silent, inc, n)
  {
    var sid := inc.id.stream;
    var st, after := s.streams[sid], PruneAt(s, cutoff);
    ChronologicalParts(st.baseline, st.current);
    FreshKeeps(st.baseline, cutoff);
    FreshTail(base, silent, st.current, n, inc.openedAt, cutoff);
    MutedFewer(st.baseline, silent, st.current, Fresh(st.current, cutoff));
    assert Holds(s.incidents, inc.id, cutoff);
    hide Muted, Unblamed, Helpful, Fresh, Chronological;
    assert after.streams[sid] == PruneStream(st, cutoff, s.incidents);
  }

  lemma StreamOfOpen(score: Score, when: Clock, s: State, k: nat)
    requires Inv(score, when, s) && k < |s.incidents| && s.incidents[k].status.Open?
    ensures s.incidents[k].streamId == s.incidents[k].id.stream
    ensures s.incidents[k].streamId in s.streams
    ensures var st := s.streams[s.incidents[k].streamId];
            && Chronological(st.Rows()) && s.incidents[k].openedAt <= st.last
            && st.active == Some(s.incidents[k].id)
  {
    hide Supports, StatsOf, Registry, Recorded;
    assert Attached(score, s.streams, s.incidents[k]);
    assert Spent(when, s.dedup, s.floor, s.incidents[k]);
    assert Live(s.incidents[k].streamId, s.streams[s.incidents[k].streamId]);
  }

  lemma DistinctOf(score: Score, when: Clock, s: State)
    requires Inv(score, when, s)
    ensures Distinct(s.incidents)
  {
  }

  lemma PruneHeals(score: Score, when: Clock, s: State, base: seq<Sample>, silent: set<Metric>, id: IncidentId,
                   n: nat, cutoff: int)
    requires Inv(score, when, s) && Heals(s, base, silent, id, n)
    ensures Heals(PruneAt(s, cutoff), base, silent, id, n)
  {
    hide Inv, Recovering;
    var after := PruneAt(s, cutoff);
    forall j: nat | j < |after.incidents| && after.incidents[j].id == id && after.incidents[j].status.Open?
      ensures Recovering(after, base, silent, after.incidents[j], n)
    {
      var k := OpenBeforePrune(score, when, s, cutoff, j);
      StreamOfOpen(score, when, s, k);
      PruneRecovers(s, base, silent, s.incidents[k], n, cutoff);
    }
  }

  /** Pruning opens nothing: an open record it keeps is one it did not touch. */
  lemma OpenBeforePrune(score: Score, when: Clock, s: State, cutoff: int, j: nat) returns (k: nat)
    requires Inv(score, when, s)
    requires j < |PruneAt(s, cutoff).incidents| && PruneAt(s, cutoff).incidents[j].status.Open?
    ensures k < |s.incidents| && s.incidents[k] == PruneAt(s, cutoff).incidents[j] && s.incidents[k].openedAt > cutoff
    ensures s.incidents[k] == PruneIncident(s.incidents[k], s.streams, cutoff)
  {
    DistinctOf(score, when, s);
    hide Inv, PruneIncidents, Distinct;
    k := PrunedSource(s.incidents, s.streams, cutoff, j);
  }

  lemma PruneKeepsClosed(score: Score, when: Clock, s: State, id: IncidentId, cutoff: int)
    requires Inv(score, when, s) && !IsOpen(s, id)
    ensures !IsOpen(PruneAt(s, cutoff), id)
  {
    hide Inv, PruneAt;
    var after := PruneAt(s, cutoff);
    if IsOpen(after, id) {
      var j: nat :| j < |after.incidents| && after.incidents[j].id == id && after.incidents[j].status.Open?;
      var k := OpenBeforePrune(score, when, s, cutoff, j);
    }
  }

  lemma PruneRetired(when: Clock, s: State, onset: EventId, c1: int, c2: int)
    requires Retired(when, s, onset, c1) && c1 <= c2
    ensures Retired(when, PruneAt(s, c2), onset, c2)
  {
  }

  lemma CloseRetired(when: Clock, q: Progress, onset: EventId, cutoff: int)
    requires Retired(when, q.state, onset, cutoff)
    ensures Retired(when, Close(q), onset, cutoff)
  {
    hide Evict;
    EvictSound(Cache(q.state.dedup, q.state.floor));
  }
}
