/** Exactly what the passage of time takes away: streams, rows, cache entries and records past
    the seven days, and the baselines and open incidents that end with them.
 */
module Ageing {
  import opened Wrappers
  import opened Protocol
  import opened Numerics
  import opened Judgement
  import opened Tenant
  import opened Invariants
  import opened Pruning

  /** What is left of rows in time order: those after the cutoff. */
  ghost predicate Leaves(rows: seq<Sample>, cutoff: int, left: seq<Sample>) {
    |left| <= |rows|
    && var n := |rows| - |left|;
       && left == rows[n..]
       && (forall k :: 0 <= k < n ==> rows[k].ts <= cutoff)
       && (forall k :: n <= k < |rows| ==> rows[k].ts > cutoff)
  }

  /** A baseline row has aged out. */
  ghost predicate Broken(st: Stream, cutoff: int) {
    exists k :: 0 <= k < |st.baseline| && st.baseline[k].ts <= cutoff
  }

  ghost predicate RecordKept(incidents: seq<Incident>, id: Option<IncidentId>, cutoff: int) {
    exists k :: 0 <= k < |incidents| && id == Some(incidents[k].id) && incidents[k].openedAt > cutoff
  }

  /** Windows keep their recent rows, dealt out again once the baseline is broken. */
  ghost predicate WindowsLeft(before: Stream, cutoff: int, after: Stream) {
    if Broken(before, cutoff) then
      exists left ::
        && Leaves(before.baseline + before.current, cutoff, left)
        && (if |left| >= 50 then after.baseline == left[..50] && after.current == left[50..]
            else after.baseline == [] && after.current == left)
    else
      after.baseline == before.baseline && Leaves(before.current, cutoff, after.current)
  }

  /** A stream that has not aged out. It stays degraded only on an unbroken baseline. */
  ghost predicate StreamAges(s: State, cutoff: int, before: Stream, after: Stream) {
    && after.dimensions == before.dimensions && after.last == before.last
    && (forall v :: v in after.versions <==>
          v in before.versions && exists k :: 0 <= k < |after.Rows()| && after.Rows()[k].version == v)
    && (forall v :: v in after.versions ==> after.versions[v] == before.versions[v])
    && WindowsLeft(before, cutoff, after)
    && after.active == if Broken(before, cutoff) || !RecordKept(s.incidents, before.active, cutoff) then None
                       else before.active
  }

  /** An open record ends when its stream's frozen baseline breaks, at the moment the oldest
      baseline row was seven days old. */
  ghost predicate RecordAges(s: State, cutoff: int, before: Incident, after: Incident) {
    if before.status == Open && before.streamId in s.streams && Broken(s.streams[before.streamId], cutoff) then
      var st := s.streams[before.streamId];
      && (forall k :: 0 <= k < |st.baseline| ==> st.baseline[0].ts <= st.baseline[k].ts)
      && after == before.(status := Lapsed, resolvedAt := Some(st.baseline[0].ts + 604800),
                          resolution := Some(BaselineExpired))
    else after == before
  }

  ghost predicate RecordsAge(s: State, cutoff: int, before: seq<Incident>, after: seq<Incident>)
    decreases |before|
  {
    if before == [] then after == []
    else if before[0].openedAt <= cutoff then RecordsAge(s, cutoff, before[1..], after)
    else after != [] && RecordAges(s, cutoff, before[0], after[0]) && RecordsAge(s, cutoff, before[1..], after[1..])
  }

  // ---------------------------------------------------------------- streams

  lemma FreshLeaves(rows: seq<Sample>, cutoff: int)
    requires Chronological(rows)
    ensures Leaves(rows, cutoff, Fresh(rows, cutoff))
    ensures |Fresh(rows, cutoff)| < |rows| <==> exists k :: 0 <= k < |rows| && rows[k].ts <= cutoff
  {
    FreshSuffix(rows, cutoff);
    hide Chronological, Fresh;
    if |Fresh(rows, cutoff)| < |rows| {
      assert rows[0].ts <= cutoff;
    }
  }

  lemma TrimmedVersions(st: Stream)
    ensures var after := Trim(st);
            && after == st.(versions := after.versions)
            && (forall v :: v in after.versions <==>
                  v in st.versions && exists k :: 0 <= k < |st.Rows()| && st.Rows()[k].version == v)
            && (forall v :: v in after.versions ==> after.versions[v] == st.versions[v])
  {
  }

  lemma WindowsAge(st: Stream, cutoff: int, held: bool)
    requires Chronological(st.baseline + st.current)
    ensures var after := PruneWindows(st, cutoff, held);
            && after == st.(baseline := after.baseline, current := after.current, active := after.active)
            && WindowsLeft(st, cutoff, after)
            && after.active == if Broken(st, cutoff) || !held then None else st.active
  {
    ChronologicalParts(st.baseline, st.current);
    FreshLeaves(st.baseline, cutoff);
    FreshLeaves(st.current, cutoff);
    FreshLeaves(st.baseline + st.current, cutoff);
    FreshConcat(st.baseline, st.current, cutoff);
    FreshKeeps(st.baseline, cutoff);
    hide Leaves, Fresh, Chronological;
  }

  lemma PruneStreamAges(s: State, cutoff: int, sid: StreamId)
    requires sid in s.streams && Live(sid, s.streams[sid])
    ensures StreamAges(s, cutoff, s.streams[sid], PruneStream(s.streams[sid], cutoff, s.incidents))
  {
    var st := s.streams[sid];
    var held := st.active.Some? && Holds(s.incidents, st.active.value, cutoff);
    assert held <==> RecordKept(s.incidents, st.active, cutoff);
    LiveInOrder(sid, st);
    hide Live, Holds, RecordKept, Trim, Chronological, PruneWindows, Broken, Leaves, WindowsLeft;
    WindowsAge(st, cutoff, held);
    var windows := PruneWindows(st, cutoff, held);
    TrimmedVersions(windows);
    SameWindows(st, cutoff, windows, Trim(windows));
    assert Trim(windows).Rows() == windows.Rows();
  }

  lemma SameWindows(before: Stream, cutoff: int, a: Stream, b: Stream)
    requires WindowsLeft(before, cutoff, a) && a.baseline == b.baseline && a.current == b.current
    ensures WindowsLeft(before, cutoff, b)
  {
    hide Leaves, Broken;
  }

  // ---------------------------------------------------------------- incidents

  lemma LapsesWhenBroken(score: Score, when: Clock, s: State, cutoff: int, inc: Incident)
    requires Inv(score, when, s) && inc in s.incidents && inc.openedAt > cutoff
    ensures RecordAges(s, cutoff, inc, PruneIncident(inc, s.streams, cutoff))
  {
    hide Spent, Cached, Supports, StatsOf, Fresh, Distinct, Recorded, Live;
    assert Attached(score, s.streams, inc);
    if inc.streamId in s.streams {
      var st := s.streams[inc.streamId];
      LiveInOrder(inc.streamId, st);
      ChronologicalParts(st.baseline, st.current);
      FreshLeaves(st.baseline, cutoff);
      if st.active == Some(inc.id) {
        NamedIsOpen(score, s, inc);
      }
    }
  }

  /** The record a stream names is open. */
  lemma NamedIsOpen(score: Score, s: State, inc: Incident)
    requires Linked(score, s.streams, s.incidents) && inc in s.incidents
    requires inc.streamId in s.streams && s.streams[inc.streamId].active == Some(inc.id)
    ensures inc.status == Open
  {
    hide Attached;
    assert Recorded(s.incidents, inc.streamId, s.streams[inc.streamId]);
  }

  lemma {:induction false} EachAges(score: Score, when: Clock, s: State, cutoff: int, incidents: seq<Incident>)
    requires Inv(score, when, s) && forall inc :: inc in incidents ==> inc in s.incidents
    ensures RecordsAge(s, cutoff, incidents, PruneEach(incidents, s.streams, cutoff))
  {
    hide Inv, RecordAges, PruneIncident;
    if incidents != [] {
      EachAges(score, when, s, cutoff, incidents[1..]);
      if incidents[0].openedAt > cutoff {
        LapsesWhenBroken(score, when, s, cutoff, incidents[0]);
        assert PruneEach(incidents, s.streams, cutoff)[1..] == PruneEach(incidents[1..], s.streams, cutoff);
      } else {
        assert PruneEach(incidents, s.streams, cutoff) == PruneEach(incidents[1..], s.streams, cutoff);
      }
    }
  }

  /** What a reader or a call at this time sees of a stored state. */
  ghost predicate Ages(s: State, now: int, view: State) {
    var cutoff := now - 604800;
    && (forall sid :: sid in view.streams <==> sid in s.streams && s.streams[sid].last > cutoff)
    && (forall sid :: sid in view.streams ==> StreamAges(s, cutoff, s.streams[sid], view.streams[sid]))
    && (forall id :: id in view.dedup <==> id in s.dedup && s.dedup[id].ts > cutoff)
    && (forall id :: id in view.dedup ==> view.dedup[id] == s.dedup[id])
    && RecordsAge(s, cutoff, s.incidents, view.incidents)
    && view.floor == s.floor && view.accepted == s.accepted && view.duplicates == s.duplicates
  }

  lemma HistoryAges(score: Score, when: Clock, s: State, cutoff: int)
    requires Inv(score, when, s)
    ensures RecordsAge(s, cutoff, s.incidents, PruneIncidents(s.incidents, s.streams, cutoff))
  {
    hide RecordsAge, PruneIncidents, PruneEach, Live, Attached, Recorded, Spent, Cached;
    EachAges(score, when, s, cutoff, s.incidents);
    FirstIsEach(s.incidents, s.streams, cutoff);
  }

  lemma PruneAges(score: Score, when: Clock, s: State, now: int)
    requires Inv(score, when, s)
    ensures Ages(s, now, Prune(s, now))
  {
    hide RecordsAge, StreamAges, PruneIncidents, PruneStream, Live, Linked, Spent, Cached;
    var cutoff, view := now - RETENTION, Prune(s, now);
    HistoryAges(score, when, s, cutoff);
    forall sid | sid in view.streams
      ensures StreamAges(s, cutoff, s.streams[sid], view.streams[sid])
    {
      PruneStreamAges(s, cutoff, sid);
    }
  }
}
