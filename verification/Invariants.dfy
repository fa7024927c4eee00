/** What holds of a tenant state between any two events of any run: stream shapes, the
    pairing of open incidents with degraded streams, frozen baselines and the bounds.
 */
module Invariants {
  import opened Wrappers
  import opened Collections
  import opened Protocol
  import opened Numerics
  import opened Judgement
  import opened Tenant

  /** The protocol's rule that an event id names one event: the instant of each id. */
  type Clock = EventId -> int

  ghost predicate Timed(when: Clock, events: seq<Event>) {
    forall k :: 0 <= k < |events| ==> events[k].timestamp == when(events[k].id)
  }

  ghost predicate Chronological(rows: seq<Sample>) {
    forall i, j :: 0 <= i < j < |rows| ==> rows[i].ts <= rows[j].ts
  }

  ghost predicate Labelled(rows: seq<Sample>, versions: map<VersionId, Labels>) {
    forall k :: 0 <= k < |rows| ==> rows[k].version in versions
  }

  /** Rows in order, none later than `last`, all with a known version. */
  ghost predicate Orderly(rows: seq<Sample>, last: int, versions: map<VersionId, Labels>) {
    && Chronological(rows)
    && (forall k :: 0 <= k < |rows| ==> rows[k].ts <= last)
    && Labelled(rows, versions)
  }

  ghost predicate Registry(versions: map<VersionId, Labels>) {
    && |versions| <= MAX_VERSIONS
    && (forall v :: v in versions ==> v == VersionHash(versions[v]))
  }

  /** A stream's windows, possibly still empty. */
  ghost predicate Shaped(sid: StreamId, st: Stream) {
    && sid == StreamHash(st.dimensions)
    && |st.baseline| in {0, WINDOW}
    && |st.current| <= WINDOW
    && Orderly(st.Rows(), st.last, st.versions)
    && Registry(st.versions)
  }

  /** A stored stream: its newest row is its last accepted event. */
  ghost predicate Live(sid: StreamId, st: Stream) {
    && Shaped(sid, st)
    && st.Rows() != []
    && st.Rows()[|st.Rows()| - 1].ts == st.last
  }

  ghost predicate Distinct(incidents: seq<Incident>) {
    forall i, j :: 0 <= i < j < |incidents| ==> incidents[i].id != incidents[j].id
  }

  /** An open incident belongs to exactly the degraded stream that names it, whose
      baseline is still the one it was opened against. */
  ghost predicate Attached(score: Score, streams: map<StreamId, Stream>, inc: Incident) {
    inc.status.Open? ==>
      && inc.streamId in streams
      && var st := streams[inc.streamId];
         && st.active == Some(inc.id)
         && inc.openedAt <= st.last
         && inc.baseline == StatsOf(score, st.baseline)
         && Supports(st.baseline, inc.signals.Keys)
  }

  ghost predicate Recorded(incidents: seq<Incident>, sid: StreamId, st: Stream) {
    st.active.Some? ==>
      exists k :: 0 <= k < |incidents| && incidents[k].id == st.active.value
                  && incidents[k].status.Open? && incidents[k].streamId == sid
  }

  ghost predicate Linked(score: Score, streams: map<StreamId, Stream>, incidents: seq<Incident>) {
    && Distinct(incidents)
    && (forall k :: 0 <= k < |incidents| ==> Attached(score, streams, incidents[k]))
    && (forall sid :: sid in streams ==> Recorded(incidents, sid, streams[sid]))
  }

  /** The event that opened an incident can never be accepted again. */
  ghost predicate Spent(when: Clock, dedup: map<EventId, Seen>, floor: int, inc: Incident) {
    && inc.id.stream == inc.streamId
    && inc.synthetic == inc.streamId.dimensions.synthetic
    && inc.openedAt == when(inc.id.onset)
    && (inc.openedAt <= floor || (inc.id.onset in dedup && dedup[inc.id.onset].ts == inc.openedAt))
  }

  ghost predicate Cached(when: Clock, dedup: map<EventId, Seen>, floor: int) {
    forall e :: e in dedup ==>
      && dedup[e].ts == when(e) == dedup[e].digest.event.timestamp
      && dedup[e].digest.event.id == e
      && floor <= dedup[e].ts
  }

  ghost predicate Inv(score: Score, when: Clock, s: State) {
    && |s.streams| <= MAX_STREAMS
    && |s.incidents| <= MAX_INCIDENTS
    && (forall sid :: sid in s.streams ==> Live(sid, s.streams[sid]))
    && Linked(score, s.streams, s.incidents)
    && (forall k :: 0 <= k < |s.incidents| ==> Spent(when, s.dedup, s.floor, s.incidents[k]))
    && Cached(when, s.dedup, s.floor)
  }

  // ---------------------------------------------------------------- rolling a stream

  lemma UsesRow(rows: seq<Sample>, k: nat)
    requires k < |rows|
    ensures rows[k].version in Uses(rows)
  {
  }

  lemma TrimShape(sid: StreamId, st: Stream)
    requires Shaped(sid, st)
    ensures Shaped(sid, Trim(st))
  {
    var t := Trim(st);
    assert t.Rows() == st.Rows();
    forall k | 0 <= k < |st.Rows()|
      ensures t.Rows()[k].version in t.versions
    {
      UsesRow(st.Rows(), k);
    }
    SubmapSize(t.versions, st.versions);
  }

  lemma OrderlyMore(rows: seq<Sample>, last: int, versions: map<VersionId, Labels>, more: map<VersionId, Labels>)
    requires Orderly(rows, last, versions) && versions.Keys <= more.Keys
    ensures Orderly(rows, last, more)
  {
  }

  lemma InsertSize<K, V>(m: map<K, V>, k: K, v: V)
    ensures |m[k := v]| == if k in m then |m| else |m| + 1
  {
    if k in m {
      assert m[k := v].Keys == m.Keys;
    } else {
      assert m[k := v].Keys == m.Keys + {k};
    }
  }

  lemma RegistryMore(versions: map<VersionId, Labels>, labels: Labels)
    requires Registry(versions)
    requires VersionHash(labels) in versions || |versions| < MAX_VERSIONS
    ensures Registry(versions[VersionHash(labels) := labels])
  {
    InsertSize(versions, VersionHash(labels), labels);
  }

  lemma RegisterShape(sid: StreamId, st: Stream, labels: Labels)
    requires Shaped(sid, st)
    requires VersionHash(labels) in st.versions || |st.versions| < MAX_VERSIONS
    ensures Shaped(sid, st.(versions := st.versions[VersionHash(labels) := labels]))
  {
    RegistryMore(st.versions, labels);
    OrderlyMore(st.Rows(), st.last, st.versions, st.versions[VersionHash(labels) := labels]);
    hide Orderly, Registry;
  }

  lemma EnterShape(s: State, e: Event)
    requires forall sid :: sid in s.streams ==> Live(sid, s.streams[sid])
    requires Enter(s, e).Ok?
    ensures Shaped(StreamOf(e), Enter(s, e).value)
    ensures Enter(s, e).value.last <= e.timestamp
    ensures VersionHash(e.labels) in Enter(s, e).value.versions
  {
    var sid := StreamOf(e);
    var st := if sid in s.streams then s.streams[sid] else NewStream(e);
    assert Shaped(sid, st);
    TrimShape(sid, st);
    hide Shaped;
    RegisterShape(sid, Trim(st), e.labels);
  }

  function Without(rows: seq<Sample>, k: nat): seq<Sample>
    requires k < |rows|
  {
    rows[..k] + rows[k + 1..]
  }

  lemma WithoutOrderly(rows: seq<Sample>, k: nat, last: int, versions: map<VersionId, Labels>)
    requires k < |rows| && Orderly(rows, last, versions)
    ensures Orderly(Without(rows, k), last, versions)
  {
    var less := Without(rows, k);
    assert forall i :: 0 <= i < |less| ==> less[i] == rows[if i < k then i else i + 1];
  }

  lemma RowOrderly(rows: seq<Sample>, row: Sample, last: int, versions: map<VersionId, Labels>)
    requires Orderly(rows, last, versions) && last <= row.ts && row.version in versions
    ensures Orderly(rows + [row], row.ts, versions)
  {
  }

  /** Rolling appends the row and drops at most one: the oldest, or the oldest of the
      observation window while the baseline is frozen. */
  lemma RollRows(st: Stream, row: Sample)
    requires |st.baseline| in {0, WINDOW} && |st.current| <= WINDOW
    ensures Roll(st, row).Rows() ==
            if |st.current| < WINDOW then st.Rows() + [row]
            else Without(st.Rows() + [row], if st.active.None? then 0 else |st.baseline|)
  {
    var all := st.Rows() + [row];
    if |st.current| == WINDOW {
      var rest := st.current[1..] + [row];
      if st.active.None? && st.baseline != [] {
        assert Newest(st.baseline + [st.current[0]], WINDOW) == st.baseline[1..] + [st.current[0]];
        assert st.baseline[1..] + [st.current[0]] + rest == all[1..];
        assert Without(all, 0) == all[1..];
      } else {
        assert all[..|st.baseline|] == st.baseline;
        assert all[|st.baseline| + 1..] == rest;
      }
    } else {
      assert st.baseline + (st.current + [row]) == all;
    }
  }

  lemma RollOrderly(st: Stream, row: Sample)
    requires |st.baseline| in {0, WINDOW} && |st.current| <= WINDOW && Orderly(st.Rows(), st.last, st.versions)
    requires st.last <= row.ts && row.version in st.versions
    ensures Orderly(Roll(st, row).Rows(), row.ts, st.versions)
  {
    RollRows(st, row);
    RowOrderly(st.Rows(), row, st.last, st.versions);
    hide Orderly, Roll;
    if |st.current| == WINDOW {
      WithoutOrderly(st.Rows() + [row], if st.active.None? then 0 else |st.baseline|, row.ts, st.versions);
    }
  }

  lemma RollSizes(st: Stream, row: Sample)
    requires |st.baseline| in {0, WINDOW} && |st.current| <= WINDOW
    ensures var rolled := Roll(st, row);
            && |rolled.baseline| == |st.baseline| && 0 < |rolled.current| <= WINDOW
            && rolled.Rows()[|rolled.Rows()| - 1] == row
            && rolled.dimensions == st.dimensions && rolled.versions == st.versions && rolled.last == row.ts
  {
  }

  lemma RollShape(sid: StreamId, st: Stream, row: Sample)
    requires Shaped(sid, st)
    requires st.last <= row.ts && row.version in st.versions
    ensures Live(sid, Roll(st, row))
  {
    hide Orderly, Registry, Roll;
    RollOrderly(st, row);
    RollSizes(st, row);
  }

  lemma PromoteShape(sid: StreamId, st: Stream)
    requires Live(sid, st)
    ensures Live(sid, Promote(st))
  {
    assert st.baseline == [] ==> Promote(st).Rows() == st.Rows();
  }

  // ---------------------------------------------------------------- evaluating a stream

  lemma FindAt(incidents: seq<Incident>, j: nat)
    requires Distinct(incidents) && j < |incidents|
    ensures Find(incidents, incidents[j].id) == j
  {
  }

  lemma FindRecorded(score: Score, streams: map<StreamId, Stream>, incidents: seq<Incident>, sid: StreamId)
    requires Linked(score, streams, incidents)
    requires sid in streams && streams[sid].active.Some?
    ensures var k := Find(incidents, streams[sid].active.value);
            k < |incidents| && incidents[k].status.Open? && incidents[k].streamId == sid
  {
    hide Attached, Distinct, Find;
    assert Recorded(incidents, sid, streams[sid]);
    var j: nat :| j < |incidents| && incidents[j].id == streams[sid].active.value
                  && incidents[j].status.Open? && incidents[j].streamId == sid;
    hide Recorded;
    FindAt(incidents, j);
  }

  lemma RollLinked(score: Score, s: State, e: Event, st: Stream, row: Sample)
    requires Linked(score, s.streams, s.incidents)
    requires st.active == (if StreamOf(e) in s.streams then s.streams[StreamOf(e)].active else None)
    requires StreamOf(e) in s.streams ==> st.baseline == s.streams[StreamOf(e)].baseline
    requires StreamOf(e) in s.streams ==> s.streams[StreamOf(e)].last <= row.ts
    ensures Linked(score, s.streams[StreamOf(e) := Roll(st, row)], s.incidents)
  {
    hide Supports, StatsOf;
  }

  /** The stream's own incident is updated or closed; no other pairing is touched. */
  lemma EvaluateOpen(score: Score, streams: map<StreamId, Stream>, incidents: seq<Incident>, sid: StreamId, e: Event)
    requires Linked(score, streams, incidents)
    requires sid in streams && streams[sid].active.Some?
    requires |streams[sid].baseline| <= WINDOW
    ensures Evaluate(score, incidents, sid, streams[sid], e).Ok?
    ensures var out := Evaluate(score, incidents, sid, streams[sid], e).value;
            Linked(score, streams[sid := out.stream], out.incidents)
  {
    var st := streams[sid];
    var k := Find(incidents, st.active.value);
    FindRecorded(score, streams, incidents, sid);
    var inc := Observe(score, incidents[k], st);
    assert Attached(score, streams, incidents[k]);
    ObserveSupported(score, incidents[k], st);
    hide Signals, StatsOf, Supports, Recovered;
    assert Evaluate(score, incidents, sid, st, e).Ok?;
    var out := Evaluate(score, incidents, sid, st, e).value;
    UpdateLinked(score, streams, incidents, k, out.stream, out.incidents[k]);
    assert out.incidents == incidents[k := out.incidents[k]];
  }

  lemma ObserveSupported(score: Score, inc: Incident, st: Stream)
    requires |st.baseline| <= WINDOW
    requires Supports(st.baseline, inc.signals.Keys)
    ensures Supports(st.baseline, Observe(score, inc, st).signals.Keys)
    ensures Recovered(score, st.baseline, st.current, Observe(score, inc, st).signals.Keys).Ok?
  {
    hide Signals, StatsOf, Recovered;
    SignalsSupported(score, st.baseline, st.current);
    assert Observe(score, inc, st).signals.Keys == inc.signals.Keys + Signals(score, st.baseline, st.current).Keys;
    RecoveredTotal(score, st.baseline, st.current, Observe(score, inc, st).signals.Keys);
  }

  /** Replacing the record of one open incident, or closing it together with its stream. */
  lemma UpdateLinked(score: Score, streams: map<StreamId, Stream>, incidents: seq<Incident>, k: nat,
                     st: Stream, inc: Incident)
    requires Linked(score, streams, incidents)
    requires k < |incidents| && incidents[k].status.Open?
    requires inc.id == incidents[k].id && inc.streamId == incidents[k].streamId
    requires inc.status.Open? ==> st.active == Some(inc.id) && Attached(score, streams[inc.streamId := st], inc)
    requires !inc.status.Open? ==> st.active.None?
    ensures Linked(score, streams[inc.streamId := st], incidents[k := inc])
  {
    hide StatsOf, Supports;
    var streams', incidents' := streams[inc.streamId := st], incidents[k := inc];
    assert Attached(score, streams, incidents[k]);
    forall j | 0 <= j < |incidents'|
      ensures Attached(score, streams', incidents'[j])
    {
      assert Attached(score, streams, incidents[j]);
    }
    forall sid | sid in streams'
      ensures Recorded(incidents', sid, streams'[sid])
    {
      if sid == inc.streamId {
        assert incidents'[k] == inc;
      } else {
        assert Recorded(incidents, sid, streams[sid]);
        if streams[sid].active.Some? {
          var j :| 0 <= j < |incidents| && incidents[j].id == streams[sid].active.value
                   && incidents[j].status.Open? && incidents[j].streamId == sid;
          assert incidents'[j] == incidents[j];
        }
      }
    }
  }

  // ---------------------------------------------------------------- opening an incident

  lemma {:induction false} DistinctFit<T>(xs: seq<T>, s: set<T>)
    requires forall i, j :: 0 <= i < j < |xs| ==> xs[i] != xs[j]
    requires forall i :: 0 <= i < |xs| ==> xs[i] in s
    ensures |xs| <= |s|
  {
    if xs != [] {
      var x := xs[|xs| - 1];
      DistinctFit(xs[..|xs| - 1], s - {x});
    }
  }

  /** A history with no closed record is no longer than the number of streams. */
  lemma OpenFit(score: Score, streams: map<StreamId, Stream>, incidents: seq<Incident>)
    requires Linked(score, streams, incidents)
    requires FirstClosed(incidents) == |incidents|
    ensures |incidents| <= |streams|
  {
    hide StatsOf, Supports;
    var ids := seq(|incidents|, k requires 0 <= k < |incidents| => incidents[k].streamId);
    forall k | 0 <= k < |incidents|
      ensures incidents[k].streamId in streams && streams[incidents[k].streamId].active == Some(incidents[k].id)
    {
      assert Attached(score, streams, incidents[k]);
    }
    DistinctFit(ids, streams.Keys);
  }

  /** Making room always succeeds and never removes an open incident. */
  lemma MakeRoomKeepsOpen(score: Score, streams: map<StreamId, Stream>, incidents: seq<Incident>)
    requires Linked(score, streams, incidents)
    requires |streams| <= MAX_STREAMS && |incidents| <= MAX_INCIDENTS
    ensures |MakeRoom(incidents)| < MAX_INCIDENTS
    ensures forall k :: 0 <= k < |incidents| && incidents[k].status.Open? ==> incidents[k] in MakeRoom(incidents)
    ensures Linked(score, streams, MakeRoom(incidents))
  {
    var cut := FirstClosed(incidents);
    if |incidents| >= MAX_INCIDENTS {
      if cut == |incidents| {
        OpenFit(score, streams, incidents);
      }
      RemoveClosed(score, streams, incidents, cut);
    }
  }

  lemma RemoveClosed(score: Score, streams: map<StreamId, Stream>, incidents: seq<Incident>, cut: nat)
    requires Linked(score, streams, incidents)
    requires cut < |incidents| && !incidents[cut].status.Open?
    ensures var room := incidents[..cut] + incidents[cut + 1..];
            && Linked(score, streams, room)
            && forall k :: 0 <= k < |incidents| && k != cut ==> incidents[k] in room
  {
    hide Attached;
    var room := incidents[..cut] + incidents[cut + 1..];
    assert forall k :: 0 <= k < |room| ==> room[k] == incidents[if k < cut then k else k + 1];
    forall k | 0 <= k < |incidents| && k != cut
      ensures incidents[k] in room
    {
      assert incidents[k] == room[if k < cut then k else k - 1];
    }
    forall sid | sid in streams
      ensures Recorded(room, sid, streams[sid])
    {
      assert Recorded(incidents, sid, streams[sid]);
    }
  }

  lemma AppendLinked(score: Score, streams: map<StreamId, Stream>, incidents: seq<Incident>, st: Stream, inc: Incident)
    requires Linked(score, streams, incidents)
    requires inc.status.Open? && st.active == Some(inc.id)
    requires Attached(score, streams[inc.streamId := st], inc)
    requires forall k :: 0 <= k < |incidents| ==> incidents[k].id != inc.id
    requires forall k :: 0 <= k < |incidents| && incidents[k].status.Open? ==> incidents[k].streamId != inc.streamId
    ensures Linked(score, streams[inc.streamId := st], incidents + [inc])
  {
    hide StatsOf, Supports;
    var streams', incidents' := streams[inc.streamId := st], incidents + [inc];
    forall k | 0 <= k < |incidents'|
      ensures Attached(score, streams', incidents'[k])
    {
      if k < |incidents| {
        assert Attached(score, streams, incidents[k]);
      }
    }
    forall sid | sid in streams'
      ensures Recorded(incidents', sid, streams'[sid])
    {
      if sid == inc.streamId {
        assert incidents'[|incidents|] == inc;
      } else {
        assert Recorded(incidents, sid, streams[sid]);
        if streams[sid].active.Some? {
          var j :| 0 <= j < |incidents| && incidents[j].id == streams[sid].active.value
                   && incidents[j].status.Open? && incidents[j].streamId == sid;
          assert incidents'[j] == incidents[j];
        }
      }
    }
  }

  /** What evaluating a quiet stream does. */
  lemma QuietEvaluation(score: Score, incidents: seq<Incident>, sid: StreamId, st: Stream, e: Event)
    requires st.active.None?
    ensures Evaluate(score, incidents, sid, st, e) ==
            if Signals(score, st.baseline, st.current) == map[] then Ok(Evaluated(incidents, st))
            else
              var inc := OpenIncident(score, sid, st, e);
              Ok(Evaluated(MakeRoom(incidents) + [inc], st.(active := Some(inc.id))))
  {
    hide Signals, StatsOf, Recovered, MakeRoom;
  }

  lemma EvaluateQuiet(score: Score, streams: map<StreamId, Stream>, incidents: seq<Incident>, sid: StreamId, e: Event)
    requires Linked(score, streams, incidents)
    requires |streams| <= MAX_STREAMS && |incidents| <= MAX_INCIDENTS
    requires sid in streams && streams[sid].active.None?
    requires |streams[sid].baseline| <= WINDOW && e.timestamp <= streams[sid].last
    requires forall k :: 0 <= k < |incidents| ==> incidents[k].id != IncidentHash(sid, e.id)
    ensures Evaluate(score, incidents, sid, streams[sid], e).Ok?
    ensures var out := Evaluate(score, incidents, sid, streams[sid], e).value;
            && Linked(score, streams[sid := out.stream], out.incidents)
            && |out.incidents| <= MAX_INCIDENTS
  {
    hide Supports, Linked, StatsOf, Signals, Evaluate, MakeRoom, OpenIncident;
    var st := streams[sid];
    QuietEvaluation(score, incidents, sid, st, e);
    if Signals(score, st.baseline, st.current) != map[] {
      MakeRoomKeepsOpen(score, streams, incidents);
      RoomFor(score, streams, incidents, sid, e);
    } else {
      assert streams[sid := st] == streams;
    }
  }

  lemma RoomFor(score: Score, streams: map<StreamId, Stream>, incidents: seq<Incident>, sid: StreamId, e: Event)
    requires Linked(score, streams, incidents)
    requires Linked(score, streams, MakeRoom(incidents))
    requires sid in streams && streams[sid].active.None?
    requires |streams[sid].baseline| <= WINDOW && e.timestamp <= streams[sid].last
    requires forall k :: 0 <= k < |incidents| ==> incidents[k].id != IncidentHash(sid, e.id)
    ensures var inc := OpenIncident(score, sid, streams[sid], e);
            Linked(score, streams[sid := streams[sid].(active := Some(inc.id))], MakeRoom(incidents) + [inc])
  {
    var st := streams[sid];
    SignalsSupported(score, st.baseline, st.current);
    hide Supports, StatsOf, Signals, Recorded;
    var inc, room := OpenIncident(score, sid, st, e), MakeRoom(incidents);
    var st' := st.(active := Some(inc.id));
    assert Attached(score, streams[sid := st'], inc);
    RoomUnrelated(score, streams, incidents, sid, e);
    hide Linked, MakeRoom, Attached;
    AppendLinked(score, streams, room, st', inc);
  }

  /** No record kept is open on a quiet stream, or is the one about to be opened. */
  lemma RoomUnrelated(score: Score, streams: map<StreamId, Stream>, incidents: seq<Incident>, sid: StreamId, e: Event)
    requires Linked(score, streams, MakeRoom(incidents)) && sid in streams && streams[sid].active.None?
    requires forall k :: 0 <= k < |incidents| ==> incidents[k].id != IncidentHash(sid, e.id)
    ensures var room := MakeRoom(incidents);
            forall k :: 0 <= k < |room| ==>
              room[k].id != IncidentHash(sid, e.id) && (room[k].status.Open? ==> room[k].streamId != sid)
  {
    hide Supports, StatsOf, Recorded, Distinct;
    var room := MakeRoom(incidents);
    forall k | 0 <= k < |room|
      ensures room[k].id != IncidentHash(sid, e.id) && (room[k].status.Open? ==> room[k].streamId != sid)
    {
      assert Attached(score, streams, room[k]);
      assert room[k] in incidents;
    }
  }
}
