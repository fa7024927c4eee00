/** One tenant's analysis state and what a call does to it, as functions on values.

    `Engine` holds the in-place form of the same operations and is proved equal to these.
    `score` is the square score used by the statistics; `fits` is the serialized-size guard,
    an arbitrary predicate on states.
 */
module Tenant {
  import opened Wrappers
  import opened Protocol
  import opened Numerics
  import opened Judgement

  const MAX_STREAMS := 16
  const MAX_VERSIONS := 8
  const MAX_DEDUP := 2048
  const MAX_INCIDENTS := 32
  const MAX_BATCH := 100
  const RETENTION := 7 * 24 * 3600
  const FUTURE := 300

  datatype Status = Open | Resolved | Lapsed
  datatype Resolution = ByRecovery | BaselineExpired

  datatype Incident = Incident(
    id: IncidentId,
    streamId: StreamId,
    status: Status,
    openedAt: int,
    resolvedAt: Option<int>,
    resolution: Option<Resolution>,
    synthetic: bool,
    signals: map<Kind, Evidence>,
    baseline: Stats,
    current: Stats)

  datatype Stream = Stream(
    dimensions: Dimensions,
    baseline: seq<Sample>,
    current: seq<Sample>,
    versions: map<VersionId, Labels>,
    active: Option<IncidentId>,
    last: int)
  {
    function Rows(): seq<Sample> {
      baseline + current
    }
  }

  datatype Seen = Seen(digest: Digest, ts: int)

  datatype State = State(
    streams: map<StreamId, Stream>,
    dedup: map<EventId, Seen>,
    incidents: seq<Incident>,
    floor: int,
    accepted: nat,
    duplicates: nat)

  const EMPTY := State(map[], map[], [], 0, 0, 0)

  /** The refusals a caller can see, and the exception a broken state would cause. */
  datatype Error =
    | BatchSizeExceeded | EventExpired | EventInFuture | EventIdConflict | StaleReplay
    | StreamLimitExceeded | LateEvent | VersionLimitExceeded | StateCapacityExceeded
    | PythonException

  // ---------------------------------------------------------------- pruning

  function Fresh(rows: seq<Sample>, cutoff: int): seq<Sample> {
    if rows == [] then []
    else (if rows[0].ts > cutoff then [rows[0]] else []) + Fresh(rows[1..], cutoff)
  }

  function Uses(rows: seq<Sample>): set<VersionId> {
    set k | 0 <= k < |rows| :: rows[k].version
  }

  function Trim(st: Stream): Stream {
    var used := Uses(st.Rows());
    st.(versions := map v | v in st.versions && v in used :: st.versions[v])
  }

  predicate Shrinks(st: Stream, cutoff: int) {
    |Fresh(st.baseline, cutoff)| < |st.baseline|
  }

  /** A partial baseline is not comparable: the surviving rows are dealt out again. */
  function Rebuild(st: Stream, rows: seq<Sample>): Stream {
    if |rows| >= WINDOW then st.(baseline := rows[..WINDOW], current := rows[WINDOW..], active := None)
    else st.(baseline := [], current := rows, active := None)
  }

  function PruneWindows(st: Stream, cutoff: int, held: bool): Stream {
    var baseline, current := Fresh(st.baseline, cutoff), Fresh(st.current, cutoff);
    if Shrinks(st, cutoff) then Rebuild(st, baseline + current)
    else st.(baseline := baseline, current := current, active := if held then st.active else None)
  }

  predicate Holds(incidents: seq<Incident>, id: IncidentId, cutoff: int) {
    exists k :: 0 <= k < |incidents| && incidents[k].id == id && incidents[k].openedAt > cutoff
  }

  function PruneStream(st: Stream, cutoff: int, incidents: seq<Incident>): Stream {
    var held := st.active.Some? && Holds(incidents, st.active.value, cutoff);
    Trim(PruneWindows(st, cutoff, held))
  }

  /** An incident whose stream survives with a shortened frozen baseline lapses, at the
      moment the oldest baseline row left the retention period. */
  function PruneIncident(inc: Incident, streams: map<StreamId, Stream>, cutoff: int): Incident {
    if && inc.streamId in streams
       && var st := streams[inc.streamId];
          st.last > cutoff && st.active == Some(inc.id) && Shrinks(st, cutoff)
    then
      inc.(status := Lapsed,
           resolvedAt := Some(streams[inc.streamId].baseline[0].ts + RETENTION),
           resolution := Some(BaselineExpired))
    else inc
  }

  function Recent(incidents: seq<Incident>, cutoff: int): seq<Incident> {
    if incidents == [] then []
    else (if incidents[0].openedAt > cutoff then [incidents[0]] else []) + Recent(incidents[1..], cutoff)
  }

  /** A stream's record is looked up by id, so only the first one with that id can lapse. */
  function PruneIncidents(incidents: seq<Incident>, streams: map<StreamId, Stream>,
                          cutoff: int)
    : (pruned: seq<Incident>)
  {
    var kept := Recent(incidents, cutoff);
    seq(|kept|, k requires 0 <= k < |kept| =>
      if Find(kept, kept[k].id) == k then PruneIncident(kept[k], streams, cutoff) else kept[k])
  }

  function Unexpired(dedup: map<EventId, Seen>, cutoff: int): map<EventId, Seen> {
    map e | e in dedup && dedup[e].ts > cutoff :: dedup[e]
  }

  function PruneAt(s: State, cutoff: int): State {
    s.(streams := map id | id in s.streams && s.streams[id].last > cutoff
                    :: PruneStream(s.streams[id], cutoff, s.incidents),
       dedup := Unexpired(s.dedup, cutoff),
       incidents := PruneIncidents(s.incidents, s.streams, cutoff))
  }

  function Prune(s: State, now: int): State {
    PruneAt(s, now - RETENTION)
  }

  // ---------------------------------------------------------------- accepting one event

  function SampleOf(e: Event): Sample {
    Sample(e.timestamp, e.latency,
           if e.inputTokens.Some? && e.outputTokens.Some?
           then Some((e.inputTokens.value + e.outputTokens.value) as real) else None,
           VersionHash(e.labels), e.failure,
           if e.retries.Some? then Some(e.retries.value as real) else None)
  }

  function Newest(rows: seq<Sample>, n: nat): (newest: seq<Sample>)
    ensures |newest| <= n
  {
    if |rows| <= n then rows else rows[|rows| - n..]
  }

  /** Add a row to the observation window. A full window hands its oldest row to a rolling
      baseline; the baseline of an open incident is frozen and an empty one stays empty. */
  function Roll(st: Stream, row: Sample): Stream {
    if |st.current| == WINDOW then
      st.(baseline := if st.active.None? && st.baseline != [] then Newest(st.baseline + [st.current[0]], WINDOW)
                      else st.baseline,
          current := st.current[1..] + [row],
          last := row.ts)
    else
      st.(current := st.current + [row], last := row.ts)
  }

  /** The first 50 rows of a quiet stream become its baseline. */
  function Promote(st: Stream): Stream {
    if st.baseline == [] && |st.current| == WINDOW && st.active.None? then
      st.(baseline := st.current, current := [])
    else st
  }

  /** The position of the first record with this id, or the length when there is none. */
  function Find(incidents: seq<Incident>, id: IncidentId): (k: nat)
    ensures k <= |incidents|
    ensures k < |incidents| ==> incidents[k].id == id
    ensures forall j :: 0 <= j < k ==> incidents[j].id != id
  {
    if incidents == [] || incidents[0].id == id then 0 else 1 + Find(incidents[1..], id)
  }

  function FirstClosed(incidents: seq<Incident>): (k: nat)
    ensures k <= |incidents|
    ensures k < |incidents| ==> !incidents[k].status.Open?
    ensures forall j :: 0 <= j < k ==> incidents[j].status.Open?
  {
    if incidents == [] || !incidents[0].status.Open? then 0 else 1 + FirstClosed(incidents[1..])
  }

  /** A full history gives up its oldest closed record, if it has one. */
  function MakeRoom(incidents: seq<Incident>): seq<Incident> {
    var k := FirstClosed(incidents);
    if |incidents| >= MAX_INCIDENTS && k < |incidents| then incidents[..k] + incidents[k + 1..] else incidents
  }

  function OpenIncident(score: Score, sid: StreamId, st: Stream, e: Event): Incident {
    Incident(IncidentHash(sid, e.id), sid, Open, e.timestamp, None, None, e.dimensions.synthetic,
             Signals(score, st.baseline, st.current), StatsOf(score, st.baseline), StatsOf(score, st.current))
  }

  /** Merge what fires now into an open incident's record. */
  function Observe(score: Score, inc: Incident, st: Stream): Incident {
    inc.(signals := inc.signals + Signals(score, st.baseline, st.current), current := StatsOf(score, st.current))
  }

  datatype Evaluated = Evaluated(incidents: seq<Incident>, stream: Stream)

  function Evaluate(score: Score, incidents: seq<Incident>, sid: StreamId, st: Stream, e: Event)
    : Result<Evaluated, Error>
  {
    var signals := Signals(score, st.baseline, st.current);
    if st.active.Some? then
      var k := Find(incidents, st.active.value);
      if k == |incidents| then Err(PythonException)
      else
        var inc := Observe(score, incidents[k], st);
        match Recovered(score, st.baseline, st.current, inc.signals.Keys)
        case Err(_) => Err(PythonException)
        case Ok(over) =>
          if over && signals == map[] then
            Ok(Evaluated(
                 incidents[k := inc.(status := Resolved, resolvedAt := Some(e.timestamp),
                                       resolution := Some(ByRecovery))],
                 st.(active := None, baseline := Newest(st.current, WINDOW), current := [])))
          else Ok(Evaluated(incidents[k := inc], st))
    else if signals != map[] then
      var inc := OpenIncident(score, sid, st, e);
      Ok(Evaluated(MakeRoom(incidents) + [inc], st.(active := Some(inc.id))))
    else Ok(Evaluated(incidents, st))
  }

  function NewStream(e: Event): Stream {
    Stream(e.dimensions, [], [], map[], None, e.timestamp)
  }

  /** The stream an event is folded into, its version label registered. */
  function Enter(s: State, e: Event): Result<Stream, Error> {
    var sid := StreamOf(e);
    if sid !in s.streams && |s.streams| >= MAX_STREAMS then Err(StreamLimitExceeded)
    else
      var st := if sid in s.streams then s.streams[sid] else NewStream(e);
      if e.timestamp < st.last then Err(LateEvent)
      else
        var trimmed := Trim(st);
        var version := VersionHash(e.labels);
        if version !in trimmed.versions && |trimmed.versions| >= MAX_VERSIONS then Err(VersionLimitExceeded)
        else Ok(trimmed.(versions := trimmed.versions[version := e.labels]))
  }

  /** Accept an event that is in time and not a known duplicate. */
  function Accept(score: Score, s: State, e: Event): Result<State, Error> {
    var entered :- Enter(s, e);
    var evaluated :- Evaluate(score, s.incidents, StreamOf(e), Roll(entered, SampleOf(e)), e);
    Ok(s.(streams := s.streams[StreamOf(e) := Promote(evaluated.stream)],
          dedup := s.dedup[e.id := Seen(EventHash(e), e.timestamp)],
          incidents := evaluated.incidents))
  }

  /** The state part-way through a batch, and the events it took in, in order. */
  datatype Progress = Progress(state: State, taken: seq<Event>, duplicates: nat)

  function Step(score: Score, p: Progress, now: int, e: Event): Result<Progress, Error> {
    if e.timestamp <= now - RETENTION then Err(EventExpired)
    else if e.timestamp > now + FUTURE then Err(EventInFuture)
    else if e.id in p.state.dedup then
      if p.state.dedup[e.id].digest != EventHash(e) then Err(EventIdConflict)
      else Ok(p.(duplicates := p.duplicates + 1))
    else if e.timestamp <= p.state.floor then Err(StaleReplay)
    else
      var next :- Accept(score, p.state, e);
      Ok(p.(state := next, taken := p.taken + [e]))
  }

  function Fold(score: Score, p: Progress, now: int, events: seq<Event>): Result<Progress, Error> {
    if events == [] then Ok(p)
    else
      var before :- Fold(score, p, now, events[..|events| - 1]);
      Step(score, before, now, events[|events| - 1])
  }

  // ---------------------------------------------------------------- a whole batch

  /** Batches are folded in (timestamp, id) order. */
  predicate KeyBelow(a: Event, b: Event) {
    a.timestamp < b.timestamp || (a.timestamp == b.timestamp && a.id < b.id)
  }

  function InsertEvent(e: Event, events: seq<Event>): seq<Event> {
    if events == [] || !KeyBelow(events[0], e) then [e] + events
    else [events[0]] + InsertEvent(e, events[1..])
  }

  function SortEvents(events: seq<Event>): seq<Event> {
    if events == [] then [] else InsertEvent(events[0], SortEvents(events[1..]))
  }

  predicate OlderEntry(dedup: map<EventId, Seen>, a: EventId, b: EventId)
    requires a in dedup && b in dedup
  {
    dedup[a].ts < dedup[b].ts || (dedup[a].ts == dedup[b].ts && a <= b)
  }

  ghost predicate IsOldest(dedup: map<EventId, Seen>, a: EventId) {
    a in dedup && forall b :: b in dedup ==> OlderEntry(dedup, a, b)
  }

  lemma {:induction false} OldestExists(dedup: map<EventId, Seen>)
    requires dedup != map[]
    ensures exists a :: IsOldest(dedup, a)
    decreases |dedup|
  {
    var a :| a in dedup;
    var rest := dedup - {a};
    if rest == map[] {
      assert dedup.Keys - {a} == rest.Keys == {};
      assert forall b :: b in dedup ==> b == a || b in dedup.Keys - {a};
      assert IsOldest(dedup, a);
    } else {
      assert rest.Keys == dedup.Keys - {a};
      OldestExists(rest);
      var b :| IsOldest(rest, b);
      var c := if OlderEntry(dedup, a, b) then a else b;
      forall d | d in dedup
        ensures OlderEntry(dedup, c, d)
      {
        if d != a {
          assert d in rest;
        }
      }
      assert IsOldest(dedup, c);
    }
  }

  ghost function Oldest(dedup: map<EventId, Seen>): (a: EventId)
    requires dedup != map[]
    ensures IsOldest(dedup, a)
  {
    OldestExists(dedup);
    var a :| IsOldest(dedup, a);
    a
  }

  datatype Cache = Cache(dedup: map<EventId, Seen>, floor: int)

  /** Drop the oldest entries beyond the bound, raising the replay floor over each. */
  ghost function Evict(c: Cache): Cache
    decreases |c.dedup|
  {
    if |c.dedup| <= MAX_DEDUP then c
    else
      var a := Oldest(c.dedup);
      var rest := c.dedup - {a};
      assert rest.Keys == c.dedup.Keys - {a};
      Evict(Cache(rest, if c.floor >= c.dedup[a].ts then c.floor else c.dedup[a].ts))
  }

  ghost function Close(p: Progress): State {
    var cache := Evict(Cache(p.state.dedup, p.state.floor));
    p.state.(dedup := cache.dedup, floor := cache.floor,
             accepted := p.state.accepted + |p.taken|,
             duplicates := p.state.duplicates + p.duplicates)
  }

  datatype Receipt = Receipt(accepted: nat, duplicates: nat)

  datatype Processed = Processed(state: State, receipt: Receipt, taken: seq<Event>)

  ghost function Process(score: Score, fits: State -> bool, s: State, events: seq<Event>, now: int)
    : Result<Processed, Error>
  {
    if !(1 <= |events| <= MAX_BATCH) then Err(BatchSizeExceeded)
    else
      var p :- Fold(score, Progress(Prune(s, now), [], 0), now, SortEvents(events));
      var closed := Close(p);
      if !fits(closed) then Err(StateCapacityExceeded)
      else Ok(Processed(closed, Receipt(|p.taken|, p.duplicates), p.taken))
  }
}
