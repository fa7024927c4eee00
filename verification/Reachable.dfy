/** What holds in every state a run can reach, stated for the caller: no exception, open
    incidents in one-to-one correspondence with degraded streams, a bounded history that
    never loses an open incident, and baselines frozen while an incident is open.
 */
module Reachable {
  import opened Wrappers
  import opened Protocol
  import opened Numerics
  import opened Judgement
  import opened Tenant
  import opened Invariants
  import opened Pruning
  import opened Batches
  import opened Runs

  ghost predicate TimedCalls(when: Clock, calls: seq<Call>) {
    forall k :: 0 <= k < |calls| ==> Timed(when, calls[k].events)
  }

  ghost predicate Healthy(score: Score, when: Clock, s: State) {
    Inv(score, when, s) && |s.dedup| <= MAX_DEDUP
  }

  lemma EmptyHealthy(score: Score, when: Clock)
    ensures Healthy(score, when, EMPTY)
  {
  }

  lemma IngestHealthy(env: Setting, when: Clock, doc: Document, events: seq<Event>, now: int)
    requires Healthy(env.score, when, doc.state) && Timed(when, events)
    ensures var r := Ingest(env, doc, events, now);
            && r != Err(Detection(PythonException))
            && (r.Ok? ==> Healthy(env.score, when, r.value.document.state))
  {
    hide Inv, Timed, Process;
    ProcessInv(env.score, when, env.fits, doc.state, events, now);
  }

  lemma {:induction false} RunHealthy(env: Setting, when: Clock, created: int, calls: seq<Call>)
    requires TimedCalls(when, calls)
    ensures Healthy(env.score, when, Run(env, created, calls).document.state)
  {
    hide Healthy, Ingest, Timed;
    EmptyHealthy(env.score, when);
    if calls != [] {
      var before, call := Run(env, created, calls[..|calls| - 1]), calls[|calls| - 1];
      RunHealthy(env, when, created, calls[..|calls| - 1]);
      IngestHealthy(env, when, Load(before, call.now), call.events, call.now);
    }
  }

  /** What a call or a reader starts from: the stored state, or nothing if it expired. */
  lemma LoadHealthy(env: Setting, when: Clock, created: int, calls: seq<Call>, now: int)
    requires TimedCalls(when, calls)
    ensures Healthy(env.score, when, Load(Run(env, created, calls), now).state)
  {
    hide Healthy, Run;
    RunHealthy(env, when, created, calls);
    EmptyHealthy(env.score, when);
  }

  /** No call of any run raises an exception: an active incident's record is always found,
      and recovery is never computed on a missing rate or median. */
  lemma NeverRaises(env: Setting, when: Clock, created: int, calls: seq<Call>, k: nat)
    requires TimedCalls(when, calls) && k < |calls|
    ensures Ingest(env, Load(Run(env, created, calls[..k]), calls[k].now), calls[k].events, calls[k].now)
            != Err(Detection(PythonException))
  {
    LoadHealthy(env, when, created, calls[..k], calls[k].now);
    IngestHealthy(env, when, Load(Run(env, created, calls[..k]), calls[k].now), calls[k].events, calls[k].now);
  }

  // ---------------------------------------------------------------- incidents and streams

  ghost function DegradedStreams(s: State): set<StreamId> {
    set sid | sid in s.streams && s.streams[sid].active.Some?
  }

  function OpenIds(incidents: seq<Incident>): set<StreamId> {
    set k | 0 <= k < |incidents| && incidents[k].status.Open? :: incidents[k].streamId
  }

  function CountStatus(incidents: seq<Incident>, status: Status): nat {
    if incidents == [] then 0
    else CountStatus(incidents[..|incidents| - 1], status)
         + (if incidents[|incidents| - 1].status == status then 1 else 0)
  }

  ghost predicate DistinctOpen(incidents: seq<Incident>) {
    forall i, j :: 0 <= i < j < |incidents| && incidents[i].status.Open? && incidents[j].status.Open?
                   ==> incidents[i].streamId != incidents[j].streamId
  }

  lemma OpenIdsMore(rest: seq<Incident>, inc: Incident)
    ensures OpenIds(rest + [inc]) == OpenIds(rest) + (if inc.status.Open? then {inc.streamId} else {})
  {
    var all := rest + [inc];
    forall sid | sid in OpenIds(all)
      ensures sid in OpenIds(rest) + (if inc.status.Open? then {inc.streamId} else {})
    {
      var k :| 0 <= k < |all| && all[k].status.Open? && all[k].streamId == sid;
    }
    forall sid | sid in OpenIds(rest)
      ensures sid in OpenIds(all)
    {
      var k :| 0 <= k < |rest| && rest[k].status.Open? && rest[k].streamId == sid;
      assert all[k] == rest[k];
    }
    if inc.status.Open? {
      assert all[|rest|] == inc;
    }
  }

  lemma OpenLast(incidents: seq<Incident>)
    requires DistinctOpen(incidents) && incidents != []
    ensures var n := |incidents| - 1;
            && DistinctOpen(incidents[..n])
            && (incidents[n].status.Open? ==> incidents[n].streamId !in OpenIds(incidents[..n]))
  {
  }

  lemma {:induction false} OpenCountIsSize(incidents: seq<Incident>)
    requires DistinctOpen(incidents)
    ensures CountStatus(incidents, Open) == |OpenIds(incidents)|
  {
    if incidents == [] {
      assert OpenIds(incidents) == {};
    } else {
      var n := |incidents| - 1;
      OpenLast(incidents);
      hide DistinctOpen, OpenIds;
      OpenCountIsSize(incidents[..n]);
      OpenIdsMore(incidents[..n], incidents[n]);
      assert incidents[..n] + [incidents[n]] == incidents;
    }
  }

  lemma LinkedDistinctOpen(score: Score, streams: map<StreamId, Stream>, incidents: seq<Incident>)
    requires Linked(score, streams, incidents)
    ensures DistinctOpen(incidents)
  {
    hide StatsOf, Supports, Recorded;
    forall i, j | 0 <= i < j < |incidents| && incidents[i].status.Open? && incidents[j].status.Open?
      ensures incidents[i].streamId != incidents[j].streamId
    {
      assert Attached(score, streams, incidents[i]) && Attached(score, streams, incidents[j]);
    }
  }

  /** Open incidents and degraded streams correspond one to one. */
  lemma Bijection(score: Score, s: State)
    requires Linked(score, s.streams, s.incidents)
    ensures OpenIds(s.incidents) == DegradedStreams(s)
    ensures CountStatus(s.incidents, Open) == |DegradedStreams(s)|
    ensures DistinctOpen(s.incidents)
    ensures forall k :: 0 <= k < |s.incidents| && s.incidents[k].status.Open? ==>
              s.incidents[k].streamId in s.streams
              && s.streams[s.incidents[k].streamId].active == Some(s.incidents[k].id)
  {
    hide StatsOf, Supports;
    forall k | 0 <= k < |s.incidents| && s.incidents[k].status.Open?
      ensures s.incidents[k].streamId in s.streams
              && s.streams[s.incidents[k].streamId].active == Some(s.incidents[k].id)
    {
      assert Attached(score, s.streams, s.incidents[k]);
    }
    forall sid | sid in DegradedStreams(s)
      ensures sid in OpenIds(s.incidents)
    {
      assert Recorded(s.incidents, sid, s.streams[sid]);
    }
    LinkedDistinctOpen(score, s.streams, s.incidents);
    OpenCountIsSize(s.incidents);
  }

  /** In every reachable state, and in what any reader sees of it, open incidents and
      degraded streams correspond one to one and every bound holds. */
  lemma ReachableBijection(env: Setting, when: Clock, created: int, calls: seq<Call>, now: int)
    requires TimedCalls(when, calls)
    ensures var s := Prune(Load(Run(env, created, calls), now).state, now);
            && OpenIds(s.incidents) == DegradedStreams(s)
            && CountStatus(s.incidents, Open) == |DegradedStreams(s)|
            && |s.streams| <= MAX_STREAMS && |s.incidents| <= MAX_INCIDENTS
  {
    hide Linked, Live, Cached, Spent, Run, Prune;
    var s := Load(Run(env, created, calls), now).state;
    LoadHealthy(env, when, created, calls, now);
    PruneInv(env.score, when, s, now);
    Bijection(env.score, Prune(s, now));
  }

  /** While an incident is open its recorded baseline is that of its stream's frozen
      window, and that window can still decide every signal the incident has gathered. */
  lemma BaselineFrozen(env: Setting, when: Clock, created: int, calls: seq<Call>, now: int, k: nat)
    requires TimedCalls(when, calls)
    requires k < |Prune(Load(Run(env, created, calls), now).state, now).incidents|
    requires Prune(Load(Run(env, created, calls), now).state, now).incidents[k].status.Open?
    ensures var s := Prune(Load(Run(env, created, calls), now).state, now);
            var inc := s.incidents[k];
            && inc.streamId in s.streams
            && inc.baseline == StatsOf(env.score, s.streams[inc.streamId].baseline)
            && Supports(s.streams[inc.streamId].baseline, inc.signals.Keys)
  {
    hide Live, Cached, Spent, Run, Prune, StatsOf, Supports, Recorded;
    var s := Load(Run(env, created, calls), now).state;
    LoadHealthy(env, when, created, calls, now);
    PruneInv(env.score, when, s, now);
    assert Attached(env.score, Prune(s, now).streams, Prune(s, now).incidents[k]);
  }

  /** Every retained row's version label is registered with its stream. */
  lemma VersionsKnown(env: Setting, when: Clock, created: int, calls: seq<Call>, now: int, sid: StreamId, k: nat)
    requires TimedCalls(when, calls)
    requires sid in Prune(Load(Run(env, created, calls), now).state, now).streams
    requires k < |Prune(Load(Run(env, created, calls), now).state, now).streams[sid].Rows()|
    ensures var st := Prune(Load(Run(env, created, calls), now).state, now).streams[sid];
            st.Rows()[k].version in st.versions
            && VersionHash(st.versions[st.Rows()[k].version]) == st.Rows()[k].version
  {
    hide Linked, Cached, Spent, Run, Prune;
    var s := Load(Run(env, created, calls), now).state;
    LoadHealthy(env, when, created, calls, now);
    PruneInv(env.score, when, s, now);
    assert Live(sid, Prune(s, now).streams[sid]);
  }

  // ---------------------------------------------------------------- whose incident is whose

  /** Incident ids carry their stream: records under their stream's id, and no stream naming
      another's. This needs no rule about event ids. */
  ghost predicate Named(s: State) {
    && (forall sid :: sid in s.streams && s.streams[sid].active.Some? ==> s.streams[sid].active.value.stream == sid)
    && (forall k :: 0 <= k < |s.incidents| ==> s.incidents[k].id.stream == s.incidents[k].streamId)
  }

  lemma NamedOwned(s: State)
    requires Named(s)
    ensures Owned(s)
  {
  }

  lemma PruneNamed(s: State, cutoff: int)
    requires Named(s)
    ensures Named(PruneAt(s, cutoff))
  {
    hide Recent, Find, Fresh, Trim;
    var after := PruneAt(s, cutoff);
    forall k | 0 <= k < |after.incidents|
      ensures after.incidents[k].id.stream == after.incidents[k].streamId
    {
      var inc := PrunedFrom(s.incidents, s.streams, cutoff, k);
      var j :| 0 <= j < |s.incidents| && s.incidents[j] == inc;
    }
    forall sid | sid in after.streams && after.streams[sid].active.Some?
      ensures after.streams[sid].active.value.stream == sid
    {
      PrunedActive(s.streams[sid], cutoff, s.incidents);
    }
  }

  lemma PrunedActive(st: Stream, cutoff: int, incidents: seq<Incident>)
    ensures PruneStream(st, cutoff, incidents).active in {None, st.active}
  {
    hide Fresh;
  }

  lemma AcceptNamed(score: Score, s: State, e: Event)
    requires Named(s) && Accept(score, s, e).Ok?
    ensures Named(Accept(score, s, e).value)
  {
    hide Recovered, Signals, StatsOf, Enter;
    EnterSame(s, e);
    var sid, entered := StreamOf(e), Enter(s, e).value;
    var st := Roll(entered, SampleOf(e));
    assert st.active == entered.active;
    EvaluateNamed(score, s, sid, st, e);
    hide Evaluate, Roll;
  }

  lemma EvaluateNamed(score: Score, s: State, sid: StreamId, st: Stream, e: Event)
    requires Named(s) && (st.active.Some? ==> st.active.value.stream == sid)
             && Evaluate(score, s.incidents, sid, st, e).Ok?
    ensures var out := Evaluate(score, s.incidents, sid, st, e).value;
            && (out.stream.active.Some? ==> out.stream.active.value.stream == sid)
            && forall k :: 0 <= k < |out.incidents| ==> out.incidents[k].id.stream == out.incidents[k].streamId
  {
    hide Recovered, Signals, StatsOf;
  }

  lemma {:induction false} FoldNamed(score: Score, p: Progress, now: int, events: seq<Event>)
    requires Named(p.state) && Fold(score, p, now, events).Ok?
    ensures Named(Fold(score, p, now, events).value.state)
  {
    hide Accept, Named;
    if events != [] {
      var n := |events| - 1;
      FoldNamed(score, p, now, events[..n]);
      var before := Fold(score, p, now, events[..n]).value;
      if events[n].id !in before.state.dedup {
        AcceptNamed(score, before.state, events[n]);
      }
    }
  }

  lemma IngestNamed(env: Setting, doc: Document, events: seq<Event>, now: int)
    requires Named(doc.state) && Ingest(env, doc, events, now).Ok?
    ensures Named(Ingest(env, doc, events, now).value.document.state)
  {
    hide Fold, PruneAt, Evict;
    PruneNamed(doc.state, now - RETENTION);
    FoldNamed(env.score, Progress(Prune(doc.state, now), [], 0), now, SortEvents(events));
  }

  /** Whatever was submitted, every document the store hands back is one the in-place prune
      is specified for. */
  lemma {:induction false} RunNamed(env: Setting, created: int, calls: seq<Call>, now: int)
    ensures Named(Run(env, created, calls).document.state) && Named(Load(Run(env, created, calls), now).state)
    ensures Owned(Load(Run(env, created, calls), now).state)
  {
    hide Ingest, Named, Owned;
    if calls != [] {
      var n := |calls| - 1;
      RunNamed(env, created, calls[..n], calls[n].now);
      var doc := Load(Run(env, created, calls[..n]), calls[n].now);
      if Ingest(env, doc, calls[n].events, calls[n].now).Ok? {
        IngestNamed(env, doc, calls[n].events, calls[n].now);
      }
    }
    EmptyNamed();
    NamedOwned(Load(Run(env, created, calls), now).state);
  }

  lemma EmptyNamed()
    ensures Named(EMPTY)
  {
  }

  // ---------------------------------------------------------------- history

  ghost predicate Kept(inc: Incident, incidents: seq<Incident>) {
    exists j :: 0 <= j < |incidents| && incidents[j].id == inc.id && incidents[j].openedAt == inc.openedAt
  }

  /** An evaluation replaces one record in place, or appends one, or does nothing. */
  lemma EvaluateRecords(score: Score, incidents: seq<Incident>, sid: StreamId, st: Stream, e: Event)
    requires Evaluate(score, incidents, sid, st, e).Ok?
    ensures var after := Evaluate(score, incidents, sid, st, e).value.incidents;
            if st.active.Some? then
              var k := Find(incidents, st.active.value);
              && k < |incidents| && |after| == |incidents| && after == incidents[k := after[k]]
              && after[k].id == incidents[k].id && after[k].openedAt == incidents[k].openedAt
            else
              after == incidents || after == MakeRoom(incidents) + [OpenIncident(score, sid, st, e)]
  {
    hide StatsOf, Signals, Recovered, MakeRoom;
  }

  lemma EvaluateKeepsOpen(score: Score, streams: map<StreamId, Stream>, incidents: seq<Incident>,
                          sid: StreamId, st: Stream, e: Event, k: nat)
    requires Linked(score, streams, incidents)
    requires |streams| <= MAX_STREAMS && |incidents| <= MAX_INCIDENTS
    requires k < |incidents| && incidents[k].status.Open?
    requires Evaluate(score, incidents, sid, st, e).Ok?
    ensures Kept(incidents[k], Evaluate(score, incidents, sid, st, e).value.incidents)
  {
    hide Linked, MakeRoom, Evaluate, OpenIncident;
    MakeRoomKeepsOpen(score, streams, incidents);
    EvaluateRecords(score, incidents, sid, st, e);
    var after := Evaluate(score, incidents, sid, st, e).value.incidents;
    if st.active.Some? {
      assert after[k].id == incidents[k].id && after[k].openedAt == incidents[k].openedAt;
    } else if after == incidents {
      assert after[k] == incidents[k];
    } else {
      var j :| 0 <= j < |MakeRoom(incidents)| && MakeRoom(incidents)[j] == incidents[k];
      assert after[j] == incidents[k];
    }
  }

  /** However full the history is, accepting an event never drops an open incident. */
  lemma OpenNeverEvicted(score: Score, when: Clock, s: State, e: Event, k: nat)
    requires Inv(score, when, s) && Accept(score, s, e).Ok?
    requires k < |s.incidents| && s.incidents[k].status.Open?
    ensures Kept(s.incidents[k], Accept(score, s, e).value.incidents)
    ensures e.timestamp == when(e.id) && e.id !in s.dedup && s.floor < e.timestamp ==>
              |Accept(score, s, e).value.incidents| <= MAX_INCIDENTS
  {
    var st := Roll(Enter(s, e).value, SampleOf(e));
    EvaluateKeepsOpen(score, s.streams, s.incidents, StreamOf(e), st, e, k);
    if e.timestamp == when(e.id) && e.id !in s.dedup && s.floor < e.timestamp {
      AcceptInv(score, when, s, e);
    }
    hide Evaluate, Enter, Roll, Promote, Linked, Live, Spent, Cached, Kept;
  }
}
