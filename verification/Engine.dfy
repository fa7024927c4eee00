/** The detector as it runs: a working copy of the tenant's state whose streams, incidents
    and duplicate cache are updated in place, proved equal to the functions of `Tenant`.

    An exception leaves the working copy half updated, as in the original; the copy is
    then dropped and the stored state is untouched.
 */
module Engine {
  import opened Wrappers
  import opened Protocol
  import opened Numerics
  import opened Judgement
  import opened Tenant
  import opened Pruning

  // ---------------------------------------------------------------- pruning stream by stream

  /** The part of a map over some keys. */
  function Restrict(streams: map<StreamId, Stream>, keys: set<StreamId>): map<StreamId, Stream> {
    map id | id in streams && id in keys :: streams[id]
  }

  function Lapse(inc: Incident, st: Stream): Incident
    requires st.baseline != []
  {
    inc.(status := Lapsed, resolvedAt := Some(st.baseline[0].ts + RETENTION), resolution := Some(BaselineExpired))
  }

  ghost predicate Lapses(st: Stream, id: IncidentId, cutoff: int) {
    st.last > cutoff && st.active == Some(id) && Shrinks(st, cutoff)
  }

  lemma OneRecordMore(inc: Incident, streams: map<StreamId, Stream>, sid: StreamId, st: Stream, cutoff: int)
    requires sid !in streams
    requires st.active == Some(inc.id) ==> inc.streamId == sid
    ensures Lapses(st, inc.id, cutoff) ==> st.baseline != []
    ensures PruneIncident(inc, streams[sid := st], cutoff) ==
            if Lapses(st, inc.id, cutoff) then Lapse(PruneIncident(inc, streams, cutoff), st)
            else PruneIncident(inc, streams, cutoff)
  {
    FreshKeeps(st.baseline, cutoff);
    hide Fresh;
  }

  lemma PruneKeepsId(inc: Incident, streams: map<StreamId, Stream>, cutoff: int)
    ensures PruneIncident(inc, streams, cutoff).id == inc.id
  {
  }

  /** Pruned records keep the ids, in order, of the recent ones. */
  lemma PrunedIds(incidents: seq<Incident>, streams: map<StreamId, Stream>, cutoff: int)
    ensures var kept, pruned := Recent(incidents, cutoff), PruneIncidents(incidents, streams, cutoff);
            |pruned| == |kept| && forall k :: 0 <= k < |kept| ==> pruned[k].id == kept[k].id
  {
    hide Recent, PruneIncident, Find;
    var kept := Recent(incidents, cutoff);
    forall k | 0 <= k < |kept|
      ensures PruneIncidents(incidents, streams, cutoff)[k].id == kept[k].id
    {
      PruneKeepsId(kept[k], streams, cutoff);
    }
  }

  /** So a lookup by id finds the same place in both. */
  lemma {:induction false} SameFind(a: seq<Incident>, b: seq<Incident>, id: IncidentId)
    requires |a| == |b| && forall k :: 0 <= k < |a| ==> a[k].id == b[k].id
    ensures Find(a, id) == Find(b, id)
  {
    if a != [] {
      SameFind(a[1..], b[1..], id);
    }
  }

  lemma PrunedSameIds(incidents: seq<Incident>, streams: map<StreamId, Stream>, cutoff: int, id: IncidentId)
    ensures (Find(PruneIncidents(incidents, streams, cutoff), id) < |PruneIncidents(incidents, streams, cutoff)|)
            == Holds(incidents, id, cutoff)
  {
    hide PruneIncidents, Recent, Find, Holds;
    PrunedIds(incidents, streams, cutoff);
    SameFind(Recent(incidents, cutoff), PruneIncidents(incidents, streams, cutoff), id);
    FoundRecent(incidents, cutoff, id);
  }

  lemma FoundRecent(incidents: seq<Incident>, cutoff: int, id: IncidentId)
    ensures (Find(Recent(incidents, cutoff), id) < |Recent(incidents, cutoff)|) == Holds(incidents, id, cutoff)
  {
    var kept := Recent(incidents, cutoff);
    RecentFrom(incidents, cutoff);
    hide Recent;
    if Holds(incidents, id, cutoff) {
      var j :| 0 <= j < |incidents| && incidents[j].id == id && incidents[j].openedAt > cutoff;
      assert incidents[j] in kept;
      var k :| 0 <= k < |kept| && kept[k] == incidents[j];
    }
    if Find(kept, id) < |kept| {
      assert kept[Find(kept, id)] in kept;
      var j :| 0 <= j < |incidents| && incidents[j] == kept[Find(kept, id)];
    }
  }

  /** Taking one more stream into account touches only the first record that stream names. */
  lemma OneStreamMore(incidents: seq<Incident>, streams: map<StreamId, Stream>, sid: StreamId, st: Stream, cutoff: int)
    requires sid !in streams
    requires forall k :: 0 <= k < |incidents| && st.active == Some(incidents[k].id) ==> incidents[k].streamId == sid
    ensures var before := PruneIncidents(incidents, streams, cutoff);
            var after := PruneIncidents(incidents, streams[sid := st], cutoff);
            && |after| == |before|
            && (forall k :: 0 <= k < |before| ==>
                  && (Lapses(st, before[k].id, cutoff) ==> st.baseline != [])
                  && after[k] == if Lapses(st, before[k].id, cutoff) && Find(before, before[k].id) == k
                                 then Lapse(before[k], st) else before[k])
  {
    hide Lapses, PruneIncident, Find, Recent;
    var kept, before := Recent(incidents, cutoff), PruneIncidents(incidents, streams, cutoff);
    RecentFrom(incidents, cutoff);
    PrunedIds(incidents, streams, cutoff);
    forall k | 0 <= k < |kept|
      ensures Lapses(st, kept[k].id, cutoff) ==> st.baseline != []
      ensures PruneIncidents(incidents, streams[sid := st], cutoff)[k] ==
              if Lapses(st, before[k].id, cutoff) && Find(before, before[k].id) == k
              then Lapse(before[k], st) else before[k]
    {
      assert kept[k] in kept;
      OneRecordMore(kept[k], streams, sid, st, cutoff);
      PruneKeepsId(kept[k], streams, cutoff);
      SameFind(kept, before, kept[k].id);
    }
  }

  /** Closing the first record a shrinking stream names is pruning with that stream included. */
  lemma LapseInPlace(s: State, done: set<StreamId>, sid: StreamId, cutoff: int)
    requires Owned(s) && sid in s.streams && sid !in done
    ensures var st := s.streams[sid];
            var before := PruneIncidents(s.incidents, Restrict(s.streams, done), cutoff);
            var after := PruneIncidents(s.incidents, Restrict(s.streams, done + {sid}), cutoff);
            if st.active.Some? && st.last > cutoff && Shrinks(st, cutoff) && Find(before, st.active.value) < |before|
            then st.baseline != [] && after
              == before[Find(before, st.active.value) := Lapse(before[Find(before, st.active.value)], st)]
            else after == before
  {
    hide PruneIncidents, Fresh;
    var st := s.streams[sid];
    var before := PruneIncidents(s.incidents, Restrict(s.streams, done), cutoff);
    assert Restrict(s.streams, done + {sid}) == Restrict(s.streams, done)[sid := st];
    OneStreamMore(s.incidents, Restrict(s.streams, done), sid, st, cutoff);
    hide Restrict, Owned, Find;
    if st.active.Some? && Find(before, st.active.value) < |before| {
      assert before[Find(before, st.active.value)].id == st.active.value;
    }
    FreshKeeps(st.baseline, cutoff);
  }

  /** Which streams are already pruned, part-way through the loop. */
  ghost function PartlyPruned(s: State, done: set<StreamId>, cutoff: int): map<StreamId, Stream> {
    map id | id in s.streams && (id !in done || s.streams[id].last > cutoff)
      :: if id in done then PruneStream(s.streams[id], cutoff, s.incidents) else s.streams[id]
  }

  // ---------------------------------------------------------------- ordering the cache

  ghost predicate OldestFirst(dedup: map<EventId, Seen>, keys: seq<EventId>) {
    && (forall k :: 0 <= k < |keys| ==> keys[k] in dedup)
    && (forall i, j :: 0 <= i < j < |keys| ==> OlderEntry(dedup, keys[i], keys[j]) && keys[i] != keys[j])
  }

  function Place(dedup: map<EventId, Seen>, keys: seq<EventId>, e: EventId): seq<EventId>
    requires e in dedup && forall k :: 0 <= k < |keys| ==> keys[k] in dedup
  {
    if keys == [] || OlderEntry(dedup, e, keys[0]) then [e] + keys
    else [keys[0]] + Place(dedup, keys[1..], e)
  }

  lemma {:induction false} PlaceSorted(dedup: map<EventId, Seen>, keys: seq<EventId>, e: EventId)
    requires OldestFirst(dedup, keys) && e in dedup && e !in keys
    ensures OldestFirst(dedup, Place(dedup, keys, e))
    ensures forall x :: x in Place(dedup, keys, e) <==> x in keys || x == e
    ensures |Place(dedup, keys, e)| == |keys| + 1
  {
    var placed := Place(dedup, keys, e);
    if keys == [] || OlderEntry(dedup, e, keys[0]) {
      assert forall j :: 0 <= j < |keys| ==> OlderEntry(dedup, e, keys[j]);
    } else {
      PlaceSorted(dedup, keys[1..], e);
      var rest := Place(dedup, keys[1..], e);
      assert keys == [keys[0]] + keys[1..];
      forall j | 0 <= j < |rest|
        ensures OlderEntry(dedup, keys[0], rest[j]) && rest[j] != keys[0]
      {
        assert rest[j] in rest;
        if rest[j] != e {
          var i :| 0 <= i < |keys[1..]| && keys[1..][i] == rest[j];
          assert keys[i + 1] == rest[j];
        }
      }
    }
  }

  method SortKeys(dedup: map<EventId, Seen>) returns (ordered: seq<EventId>)
    ensures OldestFirst(dedup, ordered)
    ensures forall e :: e in ordered <==> e in dedup
    ensures |ordered| == |dedup|
  {
    ordered := [];
    var left := dedup.Keys;
    while left != {}
      invariant left <= dedup.Keys
      invariant OldestFirst(dedup, ordered)
      invariant forall e :: e in ordered <==> e in dedup && e !in left
      invariant |ordered| + |left| == |dedup|
      decreases |left|
    {
      var e :| e in left;
      PlaceSorted(dedup, ordered, e);
      ordered := Place(dedup, ordered, e);
      left := left - {e};
    }
  }

  lemma OldestUnique(dedup: map<EventId, Seen>, a: EventId)
    requires IsOldest(dedup, a)
    ensures dedup != map[] && Oldest(dedup) == a
  {
    var b := Oldest(dedup);
    assert OlderEntry(dedup, a, b) && OlderEntry(dedup, b, a);
  }

  /** The cache after the first i keys of the ordering have been dropped. */
  ghost predicate Remaining(all: map<EventId, Seen>, ordered: seq<EventId>, i: nat, dedup: map<EventId, Seen>) {
    && OldestFirst(all, ordered) && i <= |ordered|
    && dedup.Keys == (set k | i <= k < |ordered| :: ordered[k])
    && forall e :: e in dedup ==> dedup[e] == all[e]
  }

  lemma AllRemaining(all: map<EventId, Seen>, ordered: seq<EventId>)
    requires OldestFirst(all, ordered) && forall e :: e in ordered <==> e in all
    ensures Remaining(all, ordered, 0, all)
  {
  }

  lemma OldestDropped(all: map<EventId, Seen>, ordered: seq<EventId>, i: nat, dedup: map<EventId, Seen>)
    requires Remaining(all, ordered, i, dedup) && i < |ordered|
    ensures IsOldest(dedup, ordered[i])
    ensures Remaining(all, ordered, i + 1, dedup - {ordered[i]})
  {
    assert ordered[i] in dedup.Keys;
    forall e | e in dedup
      ensures OlderEntry(dedup, ordered[i], e)
    {
      var k :| i <= k < |ordered| && ordered[k] == e;
      assert k != i ==> OlderEntry(all, ordered[i], ordered[k]);
    }
    var less := (dedup - {ordered[i]}).Keys;
    forall e
      ensures e in less <==> e in (set k | i + 1 <= k < |ordered| :: ordered[k])
    {
      if e in less {
        var k :| i <= k < |ordered| && ordered[k] == e;
      }
      if e in (set k | i + 1 <= k < |ordered| :: ordered[k]) {
        var k :| i + 1 <= k < |ordered| && ordered[k] == e;
        assert ordered[i] != ordered[k];
      }
    }
  }

  // ---------------------------------------------------------------- the working copy

  class Working {
    var streams: map<StreamId, Stream>
    var dedup: map<EventId, Seen>
    var incidents: seq<Incident>
    var floor: int
    var accepted: nat
    var duplicates: nat

    function Snapshot(): State
      reads this
    {
      State(streams, dedup, incidents, floor, accepted, duplicates)
    }

    constructor (s: State)
      ensures Snapshot() == s
    {
      streams, dedup, incidents := s.streams, s.dedup, s.incidents;
      floor, accepted, duplicates := s.floor, s.accepted, s.duplicates;
    }

    /** Drop everything expired, stream by stream, closing incidents on the way. */
    method Prune(now: int)
      requires Owned(Snapshot())
      modifies this
      ensures Snapshot() == Tenant.Prune(old(Snapshot()), now)
    {
      hide Owned, PruneIncidents, Unexpired, PartlyPruned, Restrict, Recent, Tenant.Prune;
      ghost var s := Snapshot();
      var cutoff := now - RETENTION;
      dedup := Unexpired(dedup, cutoff);
      incidents := Recent(incidents, cutoff);
      NothingPruned(s, cutoff);
      PruneStreams(s, cutoff);
      AllPruned(s, s.streams.Keys, cutoff);
    }

    method PruneStreams(ghost s: State, cutoff: int)
      requires Owned(s) && streams == s.streams
      requires streams == PartlyPruned(s, {}, cutoff)
      requires incidents == PruneIncidents(s.incidents, Restrict(s.streams, {}), cutoff)
      modifies this`streams, this`incidents
      ensures streams == PartlyPruned(s, s.streams.Keys, cutoff)
      ensures incidents == PruneIncidents(s.incidents, Restrict(s.streams, s.streams.Keys), cutoff)
    {
      hide Owned, PruneIncidents, PartlyPruned, Restrict;
      var todo := streams.Keys;
      ghost var all := todo;
      assert all - todo == {};
      while todo != {}
        invariant todo <= all
        invariant streams == PartlyPruned(s, all - todo, cutoff)
        invariant incidents == PruneIncidents(s.incidents, Restrict(s.streams, all - todo), cutoff)
        decreases |todo|
      {
        var sid :| sid in todo;
        PruneOne(s, all - todo, sid, cutoff);
        assert (all - todo) + {sid} == all - (todo - {sid});
        todo := todo - {sid};
      }
      assert all - todo == all;
    }

    /** The body of the loop over streams. */
    method PruneOne(ghost s: State, ghost done: set<StreamId>, sid: StreamId, cutoff: int)
      requires Owned(s) && sid in s.streams && sid !in done
      requires streams == PartlyPruned(s, done, cutoff)
      requires incidents == PruneIncidents(s.incidents, Restrict(s.streams, done), cutoff)
      modifies this`streams, this`incidents
      ensures streams == PartlyPruned(s, done + {sid}, cutoff)
      ensures incidents == PruneIncidents(s.incidents, Restrict(s.streams, done + {sid}), cutoff)
    {
      hide Owned, PruneIncidents, Restrict, Trim, Fresh;
      LapseInPlace(s, done, sid, cutoff);
      var st := streams[sid];
      ghost var stored := s.streams[sid];
      if st.last <= cutoff {
        streams := streams - {sid};
        PartlyMore(s, done, sid, cutoff);
        return;
      }
      var original := |st.baseline|;
      var expiry := if original > 0 then st.baseline[0].ts + RETENTION else 0;
      st := st.(baseline := Fresh(st.baseline, cutoff), current := Fresh(st.current, cutoff));
      if st.active.Some? {
        PrunedSameIds(s.incidents, Restrict(s.streams, done), cutoff, st.active.value);
        if Find(incidents, st.active.value) == |incidents| {
          st := st.(active := None);
        }
      }
      if |st.baseline| < original {
        if st.active.Some? {
          var k := Find(incidents, st.active.value);
          incidents := incidents[k := incidents[k].(status := Lapsed, resolvedAt := Some(expiry),
                                                        resolution := Some(BaselineExpired))];
          st := st.(active := None);
        }
        var rows := st.baseline + st.current;
        st := st.(baseline := if |rows| >= WINDOW then rows[..WINDOW] else [],
                  current := if |rows| >= WINDOW then rows[WINDOW..] else rows);
      }
      st := Trim(st);
      assert st == PruneStream(stored, cutoff, s.incidents);
      streams := streams[sid := st];
      PartlyMore(s, done, sid, cutoff);
    }

    /** Re-examine a stream after a row entered its window. */
    method Evaluate(score: Score, sid: StreamId, e: Event) returns (r: Option<Error>)
      requires sid in streams
      modifies this`streams, this`incidents
      ensures match Tenant.Evaluate(score, old(incidents), sid, old(streams)[sid], e)
              case Ok(out) => r == None && incidents == out.incidents && streams == old(streams)[sid := out.stream]
              case Err(error) => r == Some(error)
    {
      hide StatsOf, Judgement.Signals, Recovered;
      var st := streams[sid];
      var signals := Judgement.Signals(score, st.baseline, st.current);
      if st.active.Some? {
        var k := Find(incidents, st.active.value);
        if k == |incidents| {
          return Some(PythonException);
        }
        incidents := incidents[k := incidents[k].(signals := incidents[k].signals + signals)];
        incidents := incidents[k := incidents[k].(current := StatsOf(score, st.current))];
        var over := Recovered(score, st.baseline, st.current, incidents[k].signals.Keys);
        if over.Err? {
          return Some(PythonException);
        }
        if over.value && signals == map[] {
          incidents := incidents[k := incidents[k].(status := Resolved, resolvedAt := Some(e.timestamp),
                                                        resolution := Some(ByRecovery))];
          st := st.(active := None);
          st := st.(baseline := Newest(st.current, WINDOW));
          st := st.(current := []);
        }
      } else if signals != map[] {
        if |incidents| >= MAX_INCIDENTS {
          var removable := FirstClosed(incidents);
          if removable < |incidents| {
            incidents := incidents[..removable] + incidents[removable + 1..];
          }
        }
        var id := IncidentHash(sid, e.id);
        incidents := incidents + [Incident(id, sid, Open, e.timestamp, None, None, e.dimensions.synthetic, signals,
                                           StatsOf(score, st.baseline), StatsOf(score, st.current))];
        st := st.(active := Some(id));
      }
      streams := streams[sid := st];
      return None;
    }

    /** The stream an event belongs to, created if need be, with its label registered. */
    method EnterStream(e: Event) returns (r: Result<Stream, Error>)
      ensures r == Enter(Snapshot(), e)
    {
      hide Trim;
      var sid := StreamOf(e);
      if sid !in streams && |streams| >= MAX_STREAMS {
        return Err(StreamLimitExceeded);
      }
      var st := if sid in streams then streams[sid] else NewStream(e);
      if e.timestamp < st.last {
        return Err(LateEvent);
      }
      st := Trim(st);
      var version := VersionHash(e.labels);
      if version !in st.versions && |st.versions| >= MAX_VERSIONS {
        return Err(VersionLimitExceeded);
      }
      st := st.(versions := st.versions[version := e.labels]);
      return Ok(st);
    }

    /** Fold in one event that is in time and not a known duplicate. */
    method Accept(score: Score, e: Event) returns (r: Option<Error>)
      modifies this`streams, this`incidents, this`dedup
      ensures match Tenant.Accept(score, old(Snapshot()), e)
              case Ok(next) => r == None && Snapshot() == next
              case Err(error) => r == Some(error)
    {
      hide Tenant.Evaluate, Enter, Roll;
      var sid := StreamOf(e);
      var entered := EnterStream(e);
      if entered.Err? {
        return Some(entered.error);
      }
      var st := Slide(entered.value, SampleOf(e));
      streams := streams[sid := st];
      r := Evaluate(score, sid, e);
      if r.Some? {
        return;
      }
      st := streams[sid];
      if st.baseline == [] && |st.current| == WINDOW && st.active.None? {
        st := st.(baseline := st.current, current := []);
      }
      streams := streams[sid := st];
      dedup := dedup[e.id := Seen(EventHash(e), e.timestamp)];
    }

    /** One round of the loop over a batch: whether the event was accepted or a duplicate. */
    method Take(score: Score, now: int, e: Event, ghost p: Progress) returns (r: Result<bool, Error>)
      requires p.state == Snapshot()
      modifies this`streams, this`incidents, this`dedup
      ensures match Step(score, p, now, e)
              case Ok(q) =>
                && r.Ok? && Snapshot() == q.state
                && q.taken == (if r.value then p.taken + [e] else p.taken)
                && q.duplicates == (if r.value then p.duplicates else p.duplicates + 1)
              case Err(error) => r == Err(error)
    {
      hide Tenant.Accept;
      if e.timestamp <= now - RETENTION {
        return Err(EventExpired);
      }
      if e.timestamp > now + FUTURE {
        return Err(EventInFuture);
      }
      if e.id in dedup {
        if dedup[e.id].digest != EventHash(e) {
          return Err(EventIdConflict);
        }
        return Ok(false);
      }
      if e.timestamp <= floor {
        return Err(StaleReplay);
      }
      var failed := Accept(score, e);
      if failed.Some? {
        return Err(failed.value);
      }
      return Ok(true);
    }

    /** Drop the oldest cache entries beyond the bound, raising the replay floor. */
    method EvictOldest()
      modifies this`dedup, this`floor
      ensures Cache(dedup, floor) == Evict(Cache(old(dedup), old(floor)))
    {
      hide Evict, Evicting, OldestFirst;
      ghost var start := Cache(dedup, floor);
      if |dedup| <= MAX_DEDUP {
        NothingEvicted(start);
        return;
      }
      var ordered := SortKeys(dedup);
      var i, excess: nat := 0, |dedup| - MAX_DEDUP;
      StartEvicting(start, ordered);
      while i < excess
        invariant 0 <= i <= excess
        invariant Evicting(start, ordered, i, excess, Cache(dedup, floor))
      {
        DropNext(start, ordered, i, excess, Cache(dedup, floor));
        var e := ordered[i];
        floor := if floor >= dedup[e].ts then floor else dedup[e].ts;
        dedup := dedup - {e};
        i := i + 1;
      }
      DoneEvicting(start, ordered, excess, Cache(dedup, floor));
    }
  }

  /** One call: prune a copy, fold the ordered batch, evict, count, and check the size. */
  method ProcessEvents(score: Score, fits: State -> bool, state: State, events: seq<Event>, now: int)
    returns (r: Result<Processed, Error>)
    requires Owned(state)
    ensures r == Process(score, fits, state, events, now)
  {
    hide Tenant.Prune, Step, SortEvents, Evict, Owned;
    if !(1 <= |events| <= MAX_BATCH) {
      return Err(BatchSizeExceeded);
    }
    var result := new Working(state);
    result.Prune(now);
    var sorted := SortEvents(events);
    var taken: seq<Event>, repeats := [], 0;
    ghost var start := Progress(Tenant.Prune(state, now), [], 0);
    assert sorted[..0] == [];
    for i := 0 to |sorted|
      invariant Fold(score, start, now, sorted[..i]) == Ok(Progress(result.Snapshot(), taken, repeats))
    {
      assert sorted[..i + 1][..i] == sorted[..i];
      var accepted := result.Take(score, now, sorted[i], Progress(result.Snapshot(), taken, repeats));
      if accepted.Err? {
        FoldStops(score, start, now, sorted, i, accepted.error);
        return Err(accepted.error);
      }
      if accepted.value {
        taken := taken + [sorted[i]];
      } else {
        repeats := repeats + 1;
      }
    }
    assert sorted[..|sorted|] == sorted;
    result.EvictOldest();
    result.accepted := result.accepted + |taken|;
    result.duplicates := result.duplicates + repeats;
    if !fits(result.Snapshot()) {
      return Err(StateCapacityExceeded);
    }
    return Ok(Processed(result.Snapshot(), Receipt(|taken|, repeats), taken));
  }

  /** The first failing event decides the outcome of the whole batch. */
  lemma {:induction false} FoldStops(score: Score, p: Progress, now: int, events: seq<Event>, i: nat, error: Error)
    requires i < |events| && Fold(score, p, now, events[..i + 1]) == Err(error)
    ensures Fold(score, p, now, events) == Err(error)
    decreases |events|
  {
    hide Step;
    if i + 1 == |events| {
      assert events[..i + 1] == events;
    } else {
      assert events[..|events| - 1][..i + 1] == events[..i + 1];
      FoldStops(score, p, now, events[..|events| - 1], i, error);
    }
  }

  /** Push a row into the observation window, popping the oldest one when it is full. */
  method Slide(stream: Stream, row: Sample) returns (st: Stream)
    ensures st == Roll(stream, row)
  {
    st := stream;
    if |st.current| == WINDOW {
      var oldest := st.current[0];
      st := st.(current := st.current[1..]);
      if st.active.None? && st.baseline != [] {
        st := st.(baseline := Newest(st.baseline + [oldest], WINDOW));
      }
    }
    st := st.(current := st.current + [row]);
    st := st.(last := row.ts);
  }

  lemma NothingEvicted(c: Cache)
    requires |c.dedup| <= MAX_DEDUP
    ensures Evict(c) == c
  {
  }

  lemma EvictOne(c: Cache, e: EventId)
    requires |c.dedup| > MAX_DEDUP && IsOldest(c.dedup, e)
    ensures Evict(c) == Evict(Cache(c.dedup - {e}, if c.floor >= c.dedup[e].ts then c.floor else c.dedup[e].ts))
    ensures |c.dedup - {e}| == |c.dedup| - 1
  {
    OldestUnique(c.dedup, e);
    assert (c.dedup - {e}).Keys == c.dedup.Keys - {e};
    assert |c.dedup - {e}| == |(c.dedup - {e}).Keys|;
  }

  /** Where the eviction loop stands after dropping the first i of the excess keys. */
  ghost predicate Evicting(start: Cache, ordered: seq<EventId>, i: nat, excess: nat, c: Cache) {
    && i <= excess && |c.dedup| == MAX_DEDUP + (excess - i)
    && Remaining(start.dedup, ordered, i, c.dedup)
    && Evict(c) == Evict(start)
  }

  lemma StartEvicting(start: Cache, ordered: seq<EventId>)
    requires |start.dedup| > MAX_DEDUP
    requires OldestFirst(start.dedup, ordered) && forall e :: e in ordered <==> e in start.dedup
    ensures Evicting(start, ordered, 0, |start.dedup| - MAX_DEDUP, start)
  {
    AllRemaining(start.dedup, ordered);
  }

  /** Dropping the next key of the ordering is one step of eviction. */
  lemma DropNext(start: Cache, ordered: seq<EventId>, i: nat, excess: nat, c: Cache)
    requires Evicting(start, ordered, i, excess, c) && i < excess
    ensures i < |ordered| && ordered[i] in c.dedup
    ensures var e := ordered[i];
            Evicting(start, ordered, i + 1, excess,
                     Cache(c.dedup - {e}, if c.floor >= c.dedup[e].ts then c.floor else c.dedup[e].ts))
  {
    var x :| x in c.dedup.Keys;
    var k :| i <= k < |ordered| && ordered[k] == x;
    OldestDropped(start.dedup, ordered, i, c.dedup);
    hide Remaining, Evict;
    EvictOne(c, ordered[i]);
  }

  lemma DoneEvicting(start: Cache, ordered: seq<EventId>, excess: nat, c: Cache)
    requires Evicting(start, ordered, excess, excess, c)
    ensures c == Evict(start)
  {
    NothingEvicted(c);
  }

  lemma NothingPruned(s: State, cutoff: int)
    ensures PartlyPruned(s, {}, cutoff) == s.streams
    ensures PruneIncidents(s.incidents, Restrict(s.streams, {}), cutoff) == Recent(s.incidents, cutoff)
  {
    hide PruneStream, Recent;
  }

  lemma AllPruned(s: State, done: set<StreamId>, cutoff: int)
    requires done == s.streams.Keys
    ensures Tenant.Prune(s, cutoff + RETENTION) ==
            State(PartlyPruned(s, done, cutoff), Unexpired(s.dedup, cutoff),
                  PruneIncidents(s.incidents, Restrict(s.streams, done), cutoff), s.floor, s.accepted, s.duplicates)
  {
    hide PruneStream, PruneIncidents;
    assert Restrict(s.streams, done) == s.streams;
  }

  lemma PartlyMore(s: State, done: set<StreamId>, sid: StreamId, cutoff: int)
    requires sid in s.streams && sid !in done
    ensures PartlyPruned(s, done + {sid}, cutoff) ==
            if s.streams[sid].last <= cutoff then PartlyPruned(s, done, cutoff) - {sid}
            else PartlyPruned(s, done, cutoff)[sid := PruneStream(s.streams[sid], cutoff, s.incidents)]
  {
    hide PruneStream;
  }
}
