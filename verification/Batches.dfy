/** The invariant through one event, one batch and the closing of a batch. */
module Batches {
  import opened Wrappers
  import opened Protocol
  import opened Numerics
  import opened Judgement
  import opened Tenant
  import opened Invariants
  import opened Pruning

  // ---------------------------------------------------------------- one event

  lemma PromoteLinked(score: Score, streams: map<StreamId, Stream>, incidents: seq<Incident>, sid: StreamId)
    requires Linked(score, streams, incidents) && sid in streams
    ensures Linked(score, streams[sid := Promote(streams[sid])], incidents)
  {
    hide StatsOf, Supports;
    var st := streams[sid];
    if Promote(st) == st {
      assert streams[sid := st] == streams;
    } else {
      forall k | 0 <= k < |incidents|
        ensures Attached(score, streams[sid := Promote(st)], incidents[k])
      {
        assert Attached(score, streams, incidents[k]);
      }
      forall id | id in streams
        ensures Recorded(incidents, id, streams[sid := Promote(st)][id])
      {
        assert Recorded(incidents, id, streams[id]);
      }
    }
  }

  lemma RecoveredFull(score: Score, baseline: seq<Sample>, current: seq<Sample>, kinds: set<Kind>)
    requires Recovered(score, baseline, current, kinds) == Ok(true)
    ensures |current| >= WINDOW
  {
  }

  /** An evaluation leaves the windows alone, or closes the incident on a full window. */
  lemma EvaluateWindows(score: Score, incidents: seq<Incident>, sid: StreamId, st: Stream, e: Event)
    requires Evaluate(score, incidents, sid, st, e).Ok?
    ensures var after := Evaluate(score, incidents, sid, st, e).value.stream;
            || after.(active := st.active) == st
            || (st.active.Some? && |st.current| >= WINDOW
                && after == st.(active := None, baseline := Newest(st.current, WINDOW), current := []))
  {
    hide StatsOf, Signals, Recovered, MakeRoom, Newest;
    if st.active.Some? {
      var k := Find(incidents, st.active.value);
      if Recovered(score, st.baseline, st.current, Observe(score, incidents[k], st).signals.Keys) == Ok(true) {
        RecoveredFull(score, st.baseline, st.current, Observe(score, incidents[k], st).signals.Keys);
      }
    }
  }

  lemma RelabelLive(sid: StreamId, st: Stream, active: Option<IncidentId>)
    requires Live(sid, st)
    ensures Live(sid, st.(active := active))
  {
    assert st.(active := active).Rows() == st.Rows();
    hide Orderly, Registry;
  }

  lemma ResolvedLive(sid: StreamId, st: Stream)
    requires Live(sid, st) && |st.current| >= WINDOW
    ensures Live(sid, st.(active := None, baseline := Newest(st.current, WINDOW), current := []))
  {
    var after := st.(active := None, baseline := Newest(st.current, WINDOW), current := []);
    assert after.Rows() == st.Rows()[|st.baseline|..];
    SuffixLive(sid, st, after, |st.baseline|);
  }

  lemma EvaluateLive(score: Score, incidents: seq<Incident>, sid: StreamId, st: Stream, e: Event)
    requires Live(sid, st)
    requires Evaluate(score, incidents, sid, st, e).Ok?
    ensures Live(sid, Evaluate(score, incidents, sid, st, e).value.stream)
  {
    hide Live, Newest;
    EvaluateWindows(score, incidents, sid, st, e);
    var after := Evaluate(score, incidents, sid, st, e).value.stream;
    hide Evaluate;
    RelabelLive(sid, st, after.active);
    if after.(active := st.active) == st {
      assert after == st.(active := after.active);
    } else {
      ResolvedLive(sid, st);
    }
  }

  /** An id that is neither cached nor at or below the floor has opened no retained incident. */
  lemma OnsetUnused(when: Clock, dedup: map<EventId, Seen>, floor: int, inc: Incident, e: Event)
    requires Spent(when, dedup, floor, inc)
    requires e.timestamp == when(e.id) && e.id !in dedup && floor < e.timestamp
    ensures inc.id.onset != e.id
  {
  }

  lemma EvaluateLinked(score: Score, when: Clock, s: State, streams: map<StreamId, Stream>, e: Event)
    requires Inv(score, when, s)
    requires e.timestamp == when(e.id) && e.id !in s.dedup && s.floor < e.timestamp
    requires Linked(score, streams, s.incidents) && |streams| <= MAX_STREAMS
    requires StreamOf(e) in streams && Live(StreamOf(e), streams[StreamOf(e)])
    requires streams[StreamOf(e)].last == e.timestamp
    ensures Evaluate(score, s.incidents, StreamOf(e), streams[StreamOf(e)], e).Ok?
    ensures var out := Evaluate(score, s.incidents, StreamOf(e), streams[StreamOf(e)], e).value;
            && Linked(score, streams[StreamOf(e) := out.stream], out.incidents)
            && |out.incidents| <= MAX_INCIDENTS
  {
    hide Evaluate, Attached, Orderly, Recorded;
    var sid := StreamOf(e);
    if streams[sid].active.Some? {
      EvaluateOpen(score, streams, s.incidents, sid, e);
      EvaluateCount(score, s.incidents, sid, streams[sid], e);
    } else {
      forall k | 0 <= k < |s.incidents|
        ensures s.incidents[k].id != IncidentHash(sid, e.id)
      {
        OnsetUnused(when, s.dedup, s.floor, s.incidents[k], e);
      }
      EvaluateQuiet(score, streams, s.incidents, sid, e);
    }
  }

  lemma EvaluateCount(score: Score, incidents: seq<Incident>, sid: StreamId, st: Stream, e: Event)
    requires st.active.Some? && Evaluate(score, incidents, sid, st, e).Ok?
    ensures |Evaluate(score, incidents, sid, st, e).value.incidents| == |incidents|
  {
    hide StatsOf, Signals, Recovered, MakeRoom;
  }

  /** Every record after an evaluation keeps its identity and opening time, or is the new one. */
  lemma EvaluateIdentity(score: Score, incidents: seq<Incident>, sid: StreamId, st: Stream, e: Event, inc: Incident)
    requires Evaluate(score, incidents, sid, st, e).Ok?
    requires inc in Evaluate(score, incidents, sid, st, e).value.incidents
    ensures || (exists earlier :: earlier in incidents && inc.id == earlier.id && inc.streamId == earlier.streamId
                               && inc.openedAt == earlier.openedAt && inc.synthetic == earlier.synthetic)
            || (inc.id == IncidentHash(sid, e.id) && inc.streamId == sid && inc.openedAt == e.timestamp
                && inc.synthetic == e.dimensions.synthetic)
  {
    hide StatsOf, Signals, Recovered;
    var after := Evaluate(score, incidents, sid, st, e).value.incidents;
    var k :| 0 <= k < |after| && after[k] == inc;
    if st.active.Some? {
      assert incidents[k] in incidents;
    } else if Signals(score, st.baseline, st.current) != map[] {
      if k < |after| - 1 {
        assert inc == MakeRoom(incidents)[k];
        assert inc in incidents;
      }
    } else {
      assert inc in incidents;
    }
  }

  lemma SpentStays(when: Clock, s: State, incidents: seq<Incident>, e: Event, inc: Incident)
    requires forall k :: 0 <= k < |s.incidents| ==> Spent(when, s.dedup, s.floor, s.incidents[k])
    requires e.timestamp == when(e.id)
    requires || (exists earlier :: earlier in s.incidents && inc.id == earlier.id && inc.streamId == earlier.streamId
                                && inc.openedAt == earlier.openedAt && inc.synthetic == earlier.synthetic)
             || (inc.id == IncidentHash(StreamOf(e), e.id) && inc.streamId == StreamOf(e) && inc.openedAt == e.timestamp
                 && inc.synthetic == e.dimensions.synthetic)
    ensures Spent(when, s.dedup[e.id := Seen(EventHash(e), e.timestamp)], s.floor, inc)
  {
    if inc.id != IncidentHash(StreamOf(e), e.id) {
      var earlier :| earlier in s.incidents && inc.id == earlier.id && inc.streamId == earlier.streamId
                  && inc.openedAt == earlier.openedAt && inc.synthetic == earlier.synthetic;
      assert Spent(when, s.dedup, s.floor, earlier);
    }
  }

  lemma EnterSame(s: State, e: Event)
    requires Enter(s, e).Ok?
    ensures var before := if StreamOf(e) in s.streams then s.streams[StreamOf(e)] else NewStream(e);
            var st := Enter(s, e).value;
            && st.(versions := before.versions) == before
            && before.last <= e.timestamp
            && (StreamOf(e) in s.streams || |s.streams| < MAX_STREAMS)
  {
  }

  /** The stream an accepted event meets, before it is evaluated. */
  lemma RolledIn(score: Score, when: Clock, s: State, e: Event)
    requires Inv(score, when, s) && Enter(s, e).Ok?
    ensures var rolled := Roll(Enter(s, e).value, SampleOf(e));
            && Live(StreamOf(e), rolled) && rolled.current != [] && rolled.last == e.timestamp
            && Linked(score, s.streams[StreamOf(e) := rolled], s.incidents)
            && |s.streams[StreamOf(e) := rolled]| <= MAX_STREAMS
  {
    var sid, st, row := StreamOf(e), Enter(s, e).value, SampleOf(e);
    EnterShape(s, e);
    EnterSame(s, e);
    hide Enter, Linked, Live, Spent, Cached;
    RollShape(sid, st, row);
    RollLinked(score, s, e, st, row);
    InsertSize(s.streams, sid, Roll(st, row));
  }

  lemma AssembleInv(score: Score, when: Clock, s: State, e: Event, st: Stream, incidents: seq<Incident>)
    requires Inv(score, when, s)
    requires e.timestamp == when(e.id) && s.floor < e.timestamp
    requires Live(StreamOf(e), st) && |s.streams[StreamOf(e) := st]| <= MAX_STREAMS
    requires Linked(score, s.streams[StreamOf(e) := st], incidents) && |incidents| <= MAX_INCIDENTS
    requires forall k :: 0 <= k < |incidents| ==>
               Spent(when, s.dedup[e.id := Seen(EventHash(e), e.timestamp)], s.floor, incidents[k])
    ensures Inv(score, when, s.(streams := s.streams[StreamOf(e) := st],
                               dedup := s.dedup[e.id := Seen(EventHash(e), e.timestamp)],
                               incidents := incidents))
  {
    hide Linked, Live, Spent;
  }

  /** Accepting a new event preserves the invariant, and never raises an exception. */
  lemma AcceptInv(score: Score, when: Clock, s: State, e: Event)
    requires Inv(score, when, s)
    requires e.timestamp == when(e.id) && e.id !in s.dedup && s.floor < e.timestamp
    ensures Accept(score, s, e) != Err(PythonException)
    ensures Accept(score, s, e).Ok? ==> Inv(score, when, Accept(score, s, e).value)
  {
    hide Inv, Roll, Evaluate, Promote, Linked, Live, Spent, Find;
    var sid := StreamOf(e);
    if Enter(s, e).Ok? {
      var rolled := Roll(Enter(s, e).value, SampleOf(e));
      hide Enter;
      var streams := s.streams[sid := rolled];
      RolledIn(score, when, s, e);
      EvaluateLinked(score, when, s, streams, e);
      var out := Evaluate(score, s.incidents, sid, rolled, e).value;
      EvaluateLive(score, s.incidents, sid, rolled, e);
      PromoteShape(sid, out.stream);
      PromoteLinked(score, streams[sid := out.stream], out.incidents, sid);
      var final := Promote(out.stream);
      assert streams[sid := out.stream][sid := final] == s.streams[sid := final];
      InsertSize(s.streams, sid, rolled);
      InsertSize(s.streams, sid, final);
      EvaluateSpent(score, when, s, sid, rolled, e);
      AssembleInv(score, when, s, e, final, out.incidents);
    }
  }

  lemma EvaluateSpent(score: Score, when: Clock, s: State, sid: StreamId, st: Stream, e: Event)
    requires Inv(score, when, s) && sid == StreamOf(e) && e.timestamp == when(e.id)
    requires Evaluate(score, s.incidents, sid, st, e).Ok?
    ensures var incidents := Evaluate(score, s.incidents, sid, st, e).value.incidents;
            forall k :: 0 <= k < |incidents| ==>
              Spent(when, s.dedup[e.id := Seen(EventHash(e), e.timestamp)], s.floor, incidents[k])
  {
    hide Evaluate, Linked, Live, Spent;
    var incidents := Evaluate(score, s.incidents, sid, st, e).value.incidents;
    forall k | 0 <= k < |incidents|
      ensures Spent(when, s.dedup[e.id := Seen(EventHash(e), e.timestamp)], s.floor, incidents[k])
    {
      EvaluateIdentity(score, s.incidents, sid, st, e, incidents[k]);
      SpentStays(when, s, incidents, e, incidents[k]);
    }
  }

  lemma StepInv(score: Score, when: Clock, p: Progress, now: int, e: Event)
    requires Inv(score, when, p.state) && e.timestamp == when(e.id)
    ensures Step(score, p, now, e) != Err(PythonException)
    ensures Step(score, p, now, e).Ok? ==> Inv(score, when, Step(score, p, now, e).value.state)
  {
    hide Inv, Accept;
    if e.id !in p.state.dedup && p.state.floor < e.timestamp {
      AcceptInv(score, when, p.state, e);
    }
  }

  lemma {:induction false} FoldInv(score: Score, when: Clock, p: Progress, now: int, events: seq<Event>)
    requires Inv(score, when, p.state) && Timed(when, events)
    ensures Fold(score, p, now, events) != Err(PythonException)
    ensures Fold(score, p, now, events).Ok? ==> Inv(score, when, Fold(score, p, now, events).value.state)
  {
    hide Inv, Step;
    if events != [] {
      FoldInv(score, when, p, now, events[..|events| - 1]);
      if Fold(score, p, now, events[..|events| - 1]).Ok? {
        StepInv(score, when, Fold(score, p, now, events[..|events| - 1]).value, now, events[|events| - 1]);
      }
    }
  }

  // ---------------------------------------------------------------- closing a batch

  /** Eviction keeps the newest entries, and the floor rises to exactly what it dropped. */
  ghost predicate EvictedTo(c: Cache, after: Cache) {
    && after.dedup.Keys <= c.dedup.Keys
    && (forall e :: e in after.dedup ==> after.dedup[e] == c.dedup[e])
    && c.floor <= after.floor
    && (forall e :: e in c.dedup && e !in after.dedup ==> c.dedup[e].ts <= after.floor)
    && (forall e, f :: e in c.dedup && e !in after.dedup && f in after.dedup ==> c.dedup[e].ts <= c.dedup[f].ts)
    && (after.floor == c.floor || exists e :: e in c.dedup && e !in after.dedup && c.dedup[e].ts == after.floor)
  }

  lemma {:induction false} EvictSound(c: Cache)
    ensures EvictedTo(c, Evict(c))
    ensures |Evict(c).dedup| == if |c.dedup| <= 2048 then |c.dedup| else 2048
    decreases |c.dedup|
  {
    if |c.dedup| > MAX_DEDUP {
      var a := Oldest(c.dedup);
      var rest := c.dedup - {a};
      assert rest.Keys == c.dedup.Keys - {a};
      assert |rest| == |rest.Keys|;
      var next := Cache(rest, if c.floor >= c.dedup[a].ts then c.floor else c.dedup[a].ts);
      EvictSound(next);
      EvictStep(c, a, next, Evict(next));
    }
  }

  lemma EvictStep(c: Cache, a: EventId, next: Cache, after: Cache)
    requires IsOldest(c.dedup, a)
    requires next.dedup == c.dedup - {a}
    requires next.floor == if c.floor >= c.dedup[a].ts then c.floor else c.dedup[a].ts
    requires EvictedTo(next, after)
    ensures EvictedTo(c, after)
  {
    assert next.dedup.Keys == c.dedup.Keys - {a};
    forall e | e in c.dedup && e !in after.dedup
      ensures c.dedup[e].ts <= after.floor
      ensures forall f :: f in after.dedup ==> c.dedup[e].ts <= c.dedup[f].ts
    {
      if e == a {
        assert forall f :: f in after.dedup ==> OlderEntry(c.dedup, a, f);
      } else {
        assert e in next.dedup && next.dedup[e] == c.dedup[e];
      }
    }
    if after.floor != c.floor {
      if after.floor == next.floor {
        assert a in c.dedup && a !in after.dedup && c.dedup[a].ts == after.floor;
      } else {
        var e :| e in next.dedup && e !in after.dedup && next.dedup[e].ts == after.floor;
        assert e in c.dedup && c.dedup[e] == next.dedup[e];
      }
    }
  }

  lemma CloseInv(score: Score, when: Clock, p: Progress)
    requires Inv(score, when, p.state)
    ensures Inv(score, when, Close(p)) && |Close(p).dedup| <= MAX_DEDUP
  {
    hide Linked, Live, Evict;
    var before, after := Cache(p.state.dedup, p.state.floor), Evict(Cache(p.state.dedup, p.state.floor));
    EvictSound(before);
    assert Close(p).incidents == p.state.incidents && Close(p).streams == p.state.streams;
    forall k | 0 <= k < |p.state.incidents|
      ensures Spent(when, after.dedup, after.floor, p.state.incidents[k])
    {
      assert Spent(when, before.dedup, before.floor, p.state.incidents[k]);
    }
    forall e | e in after.dedup
      ensures after.floor <= after.dedup[e].ts
    {
      assert after.dedup[e] == before.dedup[e];
    }
  }

  // ---------------------------------------------------------------- sorting a batch

  lemma {:induction false} InsertEventSame(e: Event, events: seq<Event>)
    ensures multiset(InsertEvent(e, events)) == multiset(events) + multiset{e}
  {
    if events != [] && KeyBelow(events[0], e) {
      InsertEventSame(e, events[1..]);
      assert events == [events[0]] + events[1..];
    }
  }

  /** Sorting a batch only rearranges it. */
  lemma {:induction false} SortEventsSame(events: seq<Event>)
    ensures multiset(SortEvents(events)) == multiset(events)
    ensures |SortEvents(events)| == |events|
  {
    if events != [] {
      SortEventsSame(events[1..]);
      InsertEventSame(events[0], SortEvents(events[1..]));
      assert events == [events[0]] + events[1..];
    }
    assert |multiset(SortEvents(events))| == |multiset(events)|;
  }

  lemma SortTimed(when: Clock, events: seq<Event>)
    requires Timed(when, events)
    ensures Timed(when, SortEvents(events))
  {
    SortEventsSame(events);
    var sorted := SortEvents(events);
    forall k | 0 <= k < |sorted|
      ensures sorted[k].timestamp == when(sorted[k].id)
    {
      assert sorted[k] in multiset(events);
    }
  }

  /** A whole call keeps the invariant and never raises anything but a refusal. */
  lemma ProcessInv(score: Score, when: Clock, fits: State -> bool, s: State, events: seq<Event>, now: int)
    requires Inv(score, when, s) && Timed(when, events)
    ensures var r := Process(score, fits, s, events, now);
            && r != Err(PythonException)
            && (r.Ok? ==> Inv(score, when, r.value.state) && |r.value.state.dedup| <= MAX_DEDUP)
  {
    hide Inv, Timed, Fold, Evict, Prune, SortEvents, Close;
    PruneInv(score, when, s, now);
    SortTimed(when, events);
    var start := Progress(Prune(s, now), [], 0);
    FoldInv(score, when, start, now, SortEvents(events));
    if Fold(score, start, now, SortEvents(events)).Ok? {
      CloseInv(score, when, Fold(score, start, now, SortEvents(events)).value);
    }
  }
}
