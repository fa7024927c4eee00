/** What one accepted event does to its stream and to the incident history: exactly when an
    incident opens, what is recorded of it, and exactly when it closes.
 */
module Openings {
  import opened Wrappers
  import opened Collections
  import opened Protocol
  import opened Numerics
  import opened Intervals
  import opened Judgement
  import opened Rules
  import opened Tenant
  import opened Invariants
  import opened Pruning
  import opened Batches
  import opened BatchShape
  import opened Admission
  import opened Runs
  import opened Reachable

  // ---------------------------------------------------------------- the windows an event leads to

  /** The row an event is kept as. */
  ghost predicate Keeps(row: Sample, e: Event) {
    && row.ts == e.timestamp && row.failure == e.failure && row.version == VersionHash(e.labels)
    && (forall v :: Reads(row, Latency, v) <==> e.latency == Some(v))
    && (forall v :: Reads(row, Retries, v) <==> exists n :: e.retries == Some(n) && v == n as real)
    && (forall v :: Reads(row, Tokens, v) <==>
          exists x, y :: e.inputTokens == Some(x) && e.outputTokens == Some(y) && v == (x + y) as real)
  }

  lemma RowKeeps(e: Event)
    ensures Keeps(SampleOf(e), e)
  {
  }

  datatype Windows = Windows(baseline: seq<Sample>, current: seq<Sample>)

  /** The windows the event's stream is judged by: the newest 50 rows, and the baseline, which
      takes in the row pushed out unless an incident freezes it. */
  ghost function Slid(s: State, e: Event, row: Sample): Windows {
    var sid := StreamHash(e.dimensions);
    if sid !in s.streams then Windows([], [row])
    else
      var st := s.streams[sid];
      if |st.current| < 50 then Windows(st.baseline, st.current + [row])
      else if st.active.Some? || st.baseline == [] then Windows(st.baseline, st.current[1..] + [row])
      else Windows(st.baseline[1..] + [st.current[0]], st.current[1..] + [row])
  }

  ghost function ActiveOf(s: State, e: Event): Option<IncidentId> {
    var sid := StreamHash(e.dimensions);
    if sid in s.streams then s.streams[sid].active else None
  }

  lemma LiveSizes(score: Score, when: Clock, s: State, sid: StreamId)
    requires Inv(score, when, s) && sid in s.streams
    ensures |s.streams[sid].baseline| in {0, 50} && |s.streams[sid].current| <= 50
  {
    hide Linked, Spent, Cached;
    assert Live(sid, s.streams[sid]);
  }

  lemma SlidRoll(score: Score, when: Clock, s: State, e: Event)
    requires Inv(score, when, s) && Enter(s, e).Ok?
    ensures var rolled := Roll(Enter(s, e).value, SampleOf(e));
            && Slid(s, e, SampleOf(e)) == Windows(rolled.baseline, rolled.current)
            && rolled.active == ActiveOf(s, e) && rolled.last == e.timestamp
            && |rolled.baseline| in {0, 50} && 0 < |rolled.current| <= 50
  {
    hide Inv;
    assert SampleOf(e).ts == e.timestamp;
    hide SampleOf;
    EnterSame(s, e);
    hide Enter;
    var st := Enter(s, e).value;
    if StreamOf(e) in s.streams {
      LiveSizes(score, when, s, StreamOf(e));
      assert |st.current| == 50 && st.baseline != [] ==>
          Newest(st.baseline + [st.current[0]], WINDOW) == st.baseline[1..] + [st.current[0]];
    }
  }

  /** Only the event's own stream changes, and its last event is this one. */
  ghost predicate OthersStay(s: State, e: Event, after: State) {
    var sid := StreamHash(e.dimensions);
    && after.streams.Keys == s.streams.Keys + {sid}
    && after.streams[sid].last == e.timestamp
    && forall id :: id in s.streams && id != sid ==> after.streams[id] == s.streams[id]
  }

  // ---------------------------------------------------------------- opening

  /** The record an incident is opened with. */
  ghost predicate OpenedAs(score: Score, inc: Incident, e: Event, w: Windows) {
    && inc.id == IncidentHash(StreamHash(e.dimensions), e.id) && inc.streamId == StreamHash(e.dimensions)
    && inc.status == Open && inc.openedAt == e.timestamp && inc.resolvedAt.None? && inc.resolution.None?
    && inc.synthetic == e.dimensions.synthetic
    && (forall kind :: kind in inc.signals <==> Alarms(score, w.baseline, w.current, kind))
    && inc.baseline == StatsOf(score, w.baseline) && inc.current == StatsOf(score, w.current)
  }

  /** The history without its oldest closed record, when it is full. */
  ghost predicate Trimmed(before: seq<Incident>, after: seq<Incident>) {
    if |before| < 32 then after == before
    else
      exists k :: 0 <= k < |before| && before[k].status != Open && after == before[..k] + before[k + 1..]
                  && forall j :: 0 <= j < k ==> before[j].status == Open
  }

  ghost predicate SomeAlarm(score: Score, w: Windows) {
    exists kind :: Alarms(score, w.baseline, w.current, kind)
  }

  /** An accepted event of a quiet stream opens an incident exactly when its windows alarm. */
  ghost predicate QuietOutcome(score: Score, s: State, e: Event, after: State) {
    var sid, w := StreamHash(e.dimensions), Slid(s, e, SampleOf(e));
    && OthersStay(s, e, after)
    && var st := after.streams[sid];
       if SomeAlarm(score, w) then
         && st.active == Some(IncidentHash(sid, e.id)) && st.baseline == w.baseline && st.current == w.current
         && |after.incidents| > 0 && var last := |after.incidents| - 1;
            OpenedAs(score, after.incidents[last], e, w) && Trimmed(s.incidents, after.incidents[..last])
       else
         && st.active.None? && after.incidents == s.incidents
         && if w.baseline == [] && |w.current| == 50 then st.baseline == w.current && st.current == []
            else st.baseline == w.baseline && st.current == w.current
  }

  // ---------------------------------------------------------------- closing

  /** What an open record becomes: its kinds grow by what alarms now, and it closes exactly
      when the windows are over all of them. */
  ghost predicate Continues(score: Score, before: Incident, after: Incident, e: Event, w: Windows) {
    && after.id == before.id && after.streamId == before.streamId && after.openedAt == before.openedAt
    && after.synthetic == before.synthetic && after.baseline == before.baseline
    && after.current == StatsOf(score, w.current)
    && (forall kind :: kind in after.signals <==> kind in before.signals || Alarms(score, w.baseline, w.current, kind))
    && if Over(w.baseline, w.current, after.signals.Keys) then
         after.status == Resolved && after.resolvedAt == Some(e.timestamp) && after.resolution == Some(ByRecovery)
       else
         after.status == Open && after.resolvedAt == before.resolvedAt && after.resolution == before.resolution
  }

  ghost predicate DegradedOutcome(score: Score, s: State, e: Event, after: State) {
    var sid, w := StreamHash(e.dimensions), Slid(s, e, SampleOf(e));
    && sid in s.streams && OthersStay(s, e, after)
    && |after.incidents| == |s.incidents|
    && exists k :: 0 <= k < |s.incidents|
         && s.streams[sid].active == Some(s.incidents[k].id) && s.incidents[k].status == Open
         && (forall j :: 0 <= j < |s.incidents| && j != k ==> after.incidents[j] == s.incidents[j])
         && Continues(score, s.incidents[k], after.incidents[k], e, w)
         && var st := after.streams[sid];
            if after.incidents[k].status == Resolved then
              st.active.None? && st.baseline == w.current && st.current == []
            else st.active == s.streams[sid].active && st.baseline == w.baseline && st.current == w.current
  }

  // ---------------------------------------------------------------- proofs

  lemma SignalsAlarm(score: Score, w: Windows)
    requires Exact(score) && |w.baseline| <= 50 && |w.current| <= 50
    ensures forall kind :: kind in Signals(score, w.baseline, w.current)
                           <==> Alarms(score, w.baseline, w.current, kind)
    ensures Signals(score, w.baseline, w.current) != map[] <==> SomeAlarm(score, w)
  {
    hide Alarms, Signals, Exact;
    forall kind: Kind
      ensures kind in Signals(score, w.baseline, w.current) <==> Alarms(score, w.baseline, w.current, kind)
    {
      SignalRule(score, w.baseline, w.current, kind);
    }
    var signals := Signals(score, w.baseline, w.current);
    if SomeAlarm(score, w) {
      var kind :| Alarms(score, w.baseline, w.current, kind);
      assert kind in signals;
    } else {
      assert forall kind :: kind !in signals;
      assert signals.Keys == {};
    }
  }

  lemma MakeRoomTrims(score: Score, streams: map<StreamId, Stream>, incidents: seq<Incident>)
    requires Linked(score, streams, incidents) && |streams| <= 16 && |incidents| <= 32
    ensures Trimmed(incidents, MakeRoom(incidents))
  {
    if |incidents| >= 32 && FirstClosed(incidents) == |incidents| {
      OpenFit(score, streams, incidents);
    }
    hide Linked;
    var k := FirstClosed(incidents);
    if |incidents| >= 32 {
      assert MakeRoom(incidents) == incidents[..k] + incidents[k + 1..];
    }
  }

  lemma EvaluateQuietly(score: Score, incidents: seq<Incident>, sid: StreamId, st: Stream, e: Event)
    requires Exact(score) && |st.baseline| <= 50 && |st.current| <= 50
    requires st.active.None? && sid == StreamHash(e.dimensions)
    ensures var w, inc := Windows(st.baseline, st.current), OpenIncident(score, sid, st, e);
            && OpenedAs(score, inc, e, w) && inc.id == IncidentHash(sid, e.id)
            && Evaluate(score, incidents, sid, st, e)
               == Ok(if SomeAlarm(score, w) then Evaluated(MakeRoom(incidents) + [inc], st.(active := Some(inc.id)))
                     else Evaluated(incidents, st))
  {
    hide Exact, SomeAlarm, Alarms, Signals, StatsOf, Evaluate, MakeRoom;
    SignalsAlarm(score, Windows(st.baseline, st.current));
    QuietEvaluation(score, incidents, sid, st, e);
  }

  lemma AcceptQuiet(score: Score, when: Clock, s: State, e: Event)
    requires Exact(score) && Inv(score, when, s) && ActiveOf(s, e).None?
    requires Accept(score, s, e).Ok?
    ensures QuietOutcome(score, s, e, Accept(score, s, e).value)
  {
    hide Inv, Exact, SampleOf, Accept, Enter, Roll, Slid, Evaluate, OpenIncident, SomeAlarm, Trimmed,
         MakeRoom;
    var sid, row := StreamHash(e.dimensions), SampleOf(e);
    AcceptParts(score, s, e);
    SlidRoll(score, when, s, e);
    var rolled := Roll(Enter(s, e).value, row);
    InvTrims(score, when, s);
    EvaluateQuietly(score, s.incidents, sid, rolled, e);
    QuietIs(score, s, e, rolled, Accept(score, s, e).value);
  }

  lemma QuietIs(score: Score, s: State, e: Event, st: Stream, after: State)
    requires Slid(s, e, SampleOf(e)) == Windows(st.baseline, st.current) && st.active.None?
    requires Trimmed(s.incidents, MakeRoom(s.incidents))
    requires var sid, w := StreamHash(e.dimensions), Windows(st.baseline, st.current);
             var inc := OpenIncident(score, sid, st, e);
             var degraded := Evaluated(MakeRoom(s.incidents) + [inc], st.(active := Some(inc.id)));
             var out := if SomeAlarm(score, w) then degraded else Evaluated(s.incidents, st);
             && OpenedAs(score, inc, e, w) && inc.id == IncidentHash(sid, e.id)
             && after.incidents == out.incidents && after.streams == s.streams[sid := Promote(out.stream)]
    requires st.last == e.timestamp
    ensures QuietOutcome(score, s, e, after)
  {
    hide SampleOf, Slid, SomeAlarm, Trimmed, MakeRoom, OpenedAs, OpenIncident;
    if SomeAlarm(score, Windows(st.baseline, st.current)) {
      assert after.incidents[..|after.incidents| - 1] == MakeRoom(s.incidents);
    }
  }

  lemma InvTrims(score: Score, when: Clock, s: State)
    requires Inv(score, when, s)
    ensures Trimmed(s.incidents, MakeRoom(s.incidents))
  {
    hide Linked, Live, Spent, Cached, Trimmed, MakeRoom;
    MakeRoomTrims(score, s.streams, s.incidents);
  }

  /** What evaluating a degraded stream does. */
  lemma OpenEvaluation(score: Score, incidents: seq<Incident>, sid: StreamId, st: Stream, e: Event, k: nat)
    requires st.active.Some? && k < |incidents| && Find(incidents, st.active.value) == k
    requires var kinds := incidents[k].signals.Keys + Signals(score, st.baseline, st.current).Keys;
             Bounded(score) && Recovered(score, st.baseline, st.current, kinds).Ok?
    ensures var inc := Observe(score, incidents[k], st);
            Evaluate(score, incidents, sid, st, e)
            == Ok(if Recovered(score, st.baseline, st.current, inc.signals.Keys).value then
                    Evaluated(incidents[k := inc.(status := Resolved, resolvedAt := Some(e.timestamp),
                                                  resolution := Some(ByRecovery))],
                              st.(active := None, baseline := Newest(st.current, WINDOW), current := []))
                  else Evaluated(incidents[k := inc], st))
  {
    hide Signals, StatsOf, Recovered, MakeRoom, Newest, Bounded;
    var inc := Observe(score, incidents[k], st);
    assert inc.signals.Keys == incidents[k].signals.Keys + Signals(score, st.baseline, st.current).Keys;
    if Recovered(score, st.baseline, st.current, inc.signals.Keys) == Ok(true) {
      RecoveryImpliesQuiet(score, st.baseline, st.current, inc.signals.Keys);
    }
  }

  lemma ObserveContinues(score: Score, before: Incident, st: Stream, e: Event)
    requires Exact(score) && |st.baseline| <= 50 && |st.current| <= 50
    requires before.status == Open && Supports(st.baseline, before.signals.Keys)
    ensures var inc := Observe(score, before, st);
            var over := Recovered(score, st.baseline, st.current, inc.signals.Keys);
            && over == Ok(Over(st.baseline, st.current, inc.signals.Keys))
            && Continues(score, before,
                         if over.value then inc.(status := Resolved, resolvedAt := Some(e.timestamp),
                                                 resolution := Some(ByRecovery)) else inc,
                         e, Windows(st.baseline, st.current))
  {
    hide Exact, Alarms, Signals, StatsOf, Over, Supports, Recovered, SomeAlarm;
    SignalsAlarm(score, Windows(st.baseline, st.current));
    ObserveSupported(score, before, st);
    RecoveryRule(score, st.baseline, st.current, Observe(score, before, st).signals.Keys);
  }

  /** The open record a degraded stream names, and what its frozen baseline supports. */
  lemma FrozenRecord(score: Score, when: Clock, s: State, e: Event) returns (k: nat)
    requires Inv(score, when, s) && ActiveOf(s, e).Some?
    ensures k < |s.incidents| && Find(s.incidents, ActiveOf(s, e).value) == k
    ensures s.incidents[k].status == Open && s.incidents[k].streamId == StreamHash(e.dimensions)
    ensures Supports(Slid(s, e, SampleOf(e)).baseline, s.incidents[k].signals.Keys)
  {
    hide Live, Spent, Cached, Supports, SampleOf, Find;
    var sid := StreamHash(e.dimensions);
    FindRecorded(score, s.streams, s.incidents, sid);
    k := Find(s.incidents, ActiveOf(s, e).value);
    assert Attached(score, s.streams, s.incidents[k]);
  }

  lemma DegradedIs(score: Score, s: State, e: Event, st: Stream, inc: Incident, over: bool, after: State, k: nat)
    requires Slid(s, e, SampleOf(e)) == Windows(st.baseline, st.current) && |st.current| <= 50
    requires st.active.Some? && st.active == ActiveOf(s, e)
    requires k < |s.incidents| && Find(s.incidents, st.active.value) == k && s.incidents[k].status == Open
    requires inc.status == (if over then Resolved else Open)
    requires Continues(score, s.incidents[k], inc, e, Windows(st.baseline, st.current))
    requires after.incidents == s.incidents[k := inc]
    requires over ==> |st.current| == 50
    requires st.last == e.timestamp
    requires var resolved := st.(active := None, baseline := Newest(st.current, WINDOW), current := []);
             var stream := if over then resolved else st;
             after.streams == s.streams[StreamHash(e.dimensions) := Promote(stream)]
    ensures DegradedOutcome(score, s, e, after)
  {
    hide Continues, Slid, SampleOf;
    assert after.streams.Keys == s.streams.Keys;
    assert Newest(st.current, WINDOW) == st.current;
  }

  lemma OverFull(baseline: seq<Sample>, current: seq<Sample>, kinds: set<Kind>)
    requires Over(baseline, current, kinds)
    ensures |current| == 50
  {
  }

  lemma ExactBounds(score: Score)
    requires Exact(score)
    ensures Bounded(score)
  {
  }

  lemma AcceptDegraded(score: Score, when: Clock, s: State, e: Event)
    requires Exact(score) && Inv(score, when, s) && ActiveOf(s, e).Some?
    requires Accept(score, s, e).Ok?
    ensures DegradedOutcome(score, s, e, Accept(score, s, e).value)
  {
    hide Inv, Exact, SampleOf, Accept, Enter, Roll, Slid, Evaluate, Continues, Over, Supports, Bounded,
         Recovered, Signals, StatsOf, Find, Promote, DegradedOutcome;
    var sid, row := StreamHash(e.dimensions), SampleOf(e);
    AcceptParts(score, s, e);
    SlidRoll(score, when, s, e);
    var st := Roll(Enter(s, e).value, row);
    var k := FrozenRecord(score, when, s, e);
    var inc := Observe(score, s.incidents[k], st);
    ExactBounds(score);
    ObserveContinues(score, s.incidents[k], st, e);
    OpenEvaluation(score, s.incidents, sid, st, e, k);
    var over := Over(st.baseline, st.current, inc.signals.Keys);
    if over {
      OverFull(st.baseline, st.current, inc.signals.Keys);
      inc := inc.(status := Resolved, resolvedAt := Some(e.timestamp), resolution := Some(ByRecovery));
    }
    DegradedIs(score, s, e, st, inc, over, Accept(score, s, e).value, k);
  }

  // ---------------------------------------------------------------- a call with one event

  /** What a call that takes one event does to the incidents a reader saw before it. */
  lemma OneEventCall(score: Score, when: Clock, fits: State -> bool, s: State, e: Event, now: int)
    requires Exact(score) && Inv(score, when, s)
    requires var r := Process(score, fits, s, [e], now);
             r.Ok? && r.value.taken == [e]
    ensures var view, after := Prune(s, now), Process(score, fits, s, [e], now).value.state;
            if ActiveOf(view, e).Some? then DegradedOutcome(score, view, e, after)
            else QuietOutcome(score, view, e, after)
  {
    hide Exact, Inv, Prune, DegradedOutcome, QuietOutcome;
    var view := Prune(s, now);
    var after := Process(score, fits, s, [e], now).value.state;
    PruneInv(score, when, s, now);
    OneAccepted(score, fits, s, e, now);
    hide Process, Accept;
    var accepted := Accept(score, view, e).value;
    if ActiveOf(view, e).Some? {
      AcceptDegraded(score, when, view, e);
      SameDegraded(score, view, e, accepted, after);
    } else {
      AcceptQuiet(score, when, view, e);
      SameQuiet(score, view, e, accepted, after);
    }
  }

  lemma OneAccepted(score: Score, fits: State -> bool, s: State, e: Event, now: int)
    requires var r := Process(score, fits, s, [e], now);
             r.Ok? && r.value.taken == [e]
    ensures var accepted := Accept(score, Prune(s, now), e);
            && accepted.Ok?
            && Process(score, fits, s, [e], now).value.state.streams == accepted.value.streams
            && Process(score, fits, s, [e], now).value.state.incidents == accepted.value.incidents
  {
    hide Prune, Accept, Evict;
    assert SortEvents([e]) == [e];
    var start := Progress(Prune(s, now), [], 0);
    assert [e][..0] == [];
    FoldNothing(score, start, now);
    FoldLast(score, start, now, [e]);
    hide Fold;
  }

  lemma SameDegraded(score: Score, s: State, e: Event, a: State, b: State)
    requires DegradedOutcome(score, s, e, a) && a.streams == b.streams && a.incidents == b.incidents
    ensures DegradedOutcome(score, s, e, b)
  {
    hide Slid, Continues, SampleOf;
  }

  lemma SameQuiet(score: Score, s: State, e: Event, a: State, b: State)
    requires QuietOutcome(score, s, e, a) && a.streams == b.streams && a.incidents == b.incidents
    ensures QuietOutcome(score, s, e, b)
  {
    hide Slid, OpenedAs, Trimmed, SomeAlarm, SampleOf;
  }

  /** Full windows whose known baseline values are all x, and whose known current values are
      all well above it. */
  ghost predicate Rises(w: Windows, m: Metric, x: real) {
    && |w.baseline| == 50 == |w.current| && x >= 0.0
    && exists before, after ::
         && Collects(w.baseline, m, before) && Collects(w.current, m, after)
         && 40 <= |before| <= 50 && 40 <= |after| <= 50
         && (forall v :: v in before ==> v == x)
         && (forall v :: v in after ==> v > 1.5 * x && v > x + Smallest(m))
  }

  lemma RiseAlarms(score: Score, w: Windows, m: Metric, x: real)
    requires Exact(score) && Rises(w, m, x)
    ensures Alarms(score, w.baseline, w.current, Degraded(m))
  {
    hide Exact, Collects, Alarms, Signals;
    var before, after :| && Collects(w.baseline, m, before) && Collects(w.current, m, after)
                         && 40 <= |before| <= 50 && 40 <= |after| <= 50
                         && (forall v :: v in before ==> v == x)
                         && (forall v :: v in after ==> v > 1.5 * x && v > x + Smallest(m));
    SteadyBaseline(score, w.baseline, w.current, m, before, after, x);
    SignalRule(score, w.baseline, w.current, Degraded(m));
  }

  /** The stream has just opened an incident of this kind. */
  ghost predicate JustOpened(after: State, e: Event, kind: Kind) {
    var sid := StreamHash(e.dimensions);
    && sid in after.streams && after.streams[sid].active == Some(IncidentHash(sid, e.id))
    && after.incidents != []
    && var inc := after.incidents[|after.incidents| - 1];
       inc.id == IncidentHash(sid, e.id) && inc.status == Open && inc.openedAt == e.timestamp && kind in inc.signals
  }

  lemma AlarmOpens(score: Score, s: State, e: Event, after: State, kind: Kind)
    requires QuietOutcome(score, s, e, after)
    requires Alarms(score, Slid(s, e, SampleOf(e)).baseline, Slid(s, e, SampleOf(e)).current, kind)
    ensures JustOpened(after, e, kind)
  {
    hide Slid, SampleOf, Alarms, Trimmed;
  }

  /** The last of enough values well above a steady baseline opens an incident. */
  lemma RiseOpens(score: Score, when: Clock, fits: State -> bool, s: State, e: Event, now: int, m: Metric, x: real)
    requires Exact(score) && Inv(score, when, s)
    requires ActiveOf(Prune(s, now), e).None? && Rises(Slid(Prune(s, now), e, SampleOf(e)), m, x)
    ensures var r := Process(score, fits, s, [e], now);
            r.Ok? && r.value.taken == [e] ==> JustOpened(r.value.state, e, Degraded(m))
  {
    hide Exact, Inv, Prune, Process, Slid, Rises, Alarms, SampleOf, JustOpened, QuietOutcome;
    var r := Process(score, fits, s, [e], now);
    if r.Ok? && r.value.taken == [e] {
      OneEventCall(score, when, fits, s, e, now);
      RiseAlarms(score, Slid(Prune(s, now), e, SampleOf(e)), m, x);
      AlarmOpens(score, Prune(s, now), e, r.value.state, Degraded(m));
    }
  }

  /** The same after any run. */
  lemma ServedOne(when: Clock, env: Setting, created: int, calls: seq<Call>, e: Event, now: int)
    requires Exact(env.score) && TimedCalls(when, calls)
    requires var r := Ingest(env, Load(Run(env, created, calls), now), [e], now);
             r.Ok? && r.value.taken == [e]
    ensures var doc := Load(Run(env, created, calls), now);
            var view, after := Prune(doc.state, now), Ingest(env, doc, [e], now).value.document.state;
            if ActiveOf(view, e).Some? then DegradedOutcome(env.score, view, e, after)
            else QuietOutcome(env.score, view, e, after)
  {
    hide Exact, Inv, Prune, DegradedOutcome, QuietOutcome, Process, Run;
    LoadHealthy(env, when, created, calls, now);
    OneEventCall(env.score, when, env.fits, Load(Run(env, created, calls), now).state, e, now);
  }
}
