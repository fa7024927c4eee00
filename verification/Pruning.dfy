/** Pruning keeps a state well formed, and pruning twice is pruning once at the later time. */
module Pruning {
  import opened Wrappers
  import opened Collections
  import opened Protocol
  import opened Numerics
  import opened Judgement
  import opened Tenant
  import opened Invariants

  // ---------------------------------------------------------------- fresh rows

  lemma {:induction false} FreshConcat(a: seq<Sample>, b: seq<Sample>, cutoff: int)
    ensures Fresh(a + b, cutoff) == Fresh(a, cutoff) + Fresh(b, cutoff)
  {
    if a == [] {
      assert a + b == b;
    } else {
      var head := if a[0].ts > cutoff then [a[0]] else [];
      FreshConcat(a[1..], b, cutoff);
      assert (a + b)[1..] == a[1..] + b;
      calc {
        Fresh(a + b, cutoff);
      ==
        head + Fresh(a[1..] + b, cutoff);
      ==
        head + (Fresh(a[1..], cutoff) + Fresh(b, cutoff));
      ==
        (head + Fresh(a[1..], cutoff)) + Fresh(b, cutoff);
      ==
        Fresh(a, cutoff) + Fresh(b, cutoff);
      }
    }
  }

  lemma {:induction false} FreshKeeps(rows: seq<Sample>, cutoff: int)
    ensures |Fresh(rows, cutoff)| <= |rows|
    ensures |Fresh(rows, cutoff)| == |rows| ==> Fresh(rows, cutoff) == rows
    ensures (forall k :: 0 <= k < |rows| ==> rows[k].ts > cutoff) ==> Fresh(rows, cutoff) == rows
  {
    if rows != [] {
      FreshKeeps(rows[1..], cutoff);
    }
  }

  /** In time order, the fresh rows are a suffix. */
  lemma {:induction false} FreshSuffix(rows: seq<Sample>, cutoff: int)
    requires Chronological(rows)
    ensures var n := |rows| - |Fresh(rows, cutoff)|;
            && 0 <= n <= |rows|
            && Fresh(rows, cutoff) == rows[n..]
            && (forall k :: 0 <= k < n ==> rows[k].ts <= cutoff)
            && (forall k :: n <= k < |rows| ==> rows[k].ts > cutoff)
  {
    if rows != [] {
      FreshSuffix(rows[1..], cutoff);
      if rows[0].ts > cutoff {
        FreshKeeps(rows, cutoff);
      }
    }
  }

  lemma {:induction false} FreshTwice(rows: seq<Sample>, c1: int, c2: int)
    requires c1 <= c2
    ensures Fresh(Fresh(rows, c1), c2) == Fresh(rows, c2)
  {
    if rows != [] {
      FreshTwice(rows[1..], c1, c2);
      FreshConcat(if rows[0].ts > c1 then [rows[0]] else [], Fresh(rows[1..], c1), c2);
    }
  }

  /** Whatever happens to the windows, pruning keeps exactly the fresh rows, in order. */
  lemma PruneRows(st: Stream, cutoff: int, held: bool)
    ensures PruneWindows(st, cutoff, held).Rows() == Fresh(st.Rows(), cutoff)
  {
    FreshConcat(st.baseline, st.current, cutoff);
  }

  // ---------------------------------------------------------------- shapes survive

  lemma SuffixOrderly(rows: seq<Sample>, n: nat, last: int, versions: map<VersionId, Labels>)
    requires n <= |rows| && Orderly(rows, last, versions)
    ensures Orderly(rows[n..], last, versions)
  {
    assert forall k :: 0 <= k < |rows[n..]| ==> rows[n..][k] == rows[n + k];
  }

  lemma PruneSizes(st: Stream, cutoff: int, held: bool)
    requires |st.baseline| in {0, WINDOW} && |st.current| <= WINDOW
    ensures var pruned := PruneWindows(st, cutoff, held);
            && |pruned.baseline| in {0, WINDOW} && |pruned.current| <= WINDOW
            && pruned.versions == st.versions && pruned.last == st.last && pruned.dimensions == st.dimensions
  {
    FreshKeeps(st.baseline, cutoff);
    FreshKeeps(st.current, cutoff);
  }

  lemma SuffixLive(sid: StreamId, st: Stream, pruned: Stream, n: nat)
    requires Live(sid, st) && n < |st.Rows()|
    requires pruned.versions == st.versions && pruned.last == st.last && pruned.dimensions == st.dimensions
    requires |pruned.baseline| in {0, WINDOW} && |pruned.current| <= WINDOW
    requires pruned.Rows() == st.Rows()[n..]
    ensures Live(sid, pruned)
  {
    SuffixOrderly(st.Rows(), n, st.last, st.versions);
  }

  lemma PruneLive(sid: StreamId, st: Stream, cutoff: int, held: bool)
    requires Live(sid, st) && st.last > cutoff
    ensures Live(sid, PruneWindows(st, cutoff, held))
  {
    hide PruneWindows, Fresh, Chronological;
    PruneRows(st, cutoff, held);
    PruneSizes(st, cutoff, held);
    FreshSuffix(st.Rows(), cutoff);
    SuffixLive(sid, st, PruneWindows(st, cutoff, held), |st.Rows()| - |Fresh(st.Rows(), cutoff)|);
  }

  lemma PruneShape(sid: StreamId, st: Stream, cutoff: int, held: bool)
    requires Live(sid, st) && st.last > cutoff
    ensures Live(sid, Trim(PruneWindows(st, cutoff, held)))
  {
    var pruned := PruneWindows(st, cutoff, held);
    PruneLive(sid, st, cutoff, held);
    hide PruneWindows;
    TrimShape(sid, pruned);
    assert Trim(pruned).Rows() == pruned.Rows();
  }

  // ---------------------------------------------------------------- incident records

  /** Every recent record lapsed on its own account, whatever ids it shares. */
  function PruneEach(incidents: seq<Incident>, streams: map<StreamId, Stream>, cutoff: int): seq<Incident> {
    if incidents == [] then []
    else
      (if incidents[0].openedAt > cutoff then [PruneIncident(incidents[0], streams, cutoff)] else [])
      + PruneEach(incidents[1..], streams, cutoff)
  }

  lemma {:induction false} RecentFrom(incidents: seq<Incident>, cutoff: int)
    ensures |Recent(incidents, cutoff)| <= |incidents|
    ensures forall inc :: inc in Recent(incidents, cutoff) <==> inc in incidents && inc.openedAt > cutoff
  {
    if incidents != [] {
      RecentFrom(incidents[1..], cutoff);
      assert incidents == [incidents[0]] + incidents[1..];
    }
  }

  lemma {:induction false} RecentDistinct(incidents: seq<Incident>, cutoff: int)
    requires Distinct(incidents)
    ensures Distinct(Recent(incidents, cutoff))
  {
    if incidents != [] {
      RecentDistinct(incidents[1..], cutoff);
      RecentFrom(incidents[1..], cutoff);
      forall k | 0 <= k < |Recent(incidents[1..], cutoff)|
        ensures Recent(incidents[1..], cutoff)[k].id != incidents[0].id
      {
        assert Recent(incidents[1..], cutoff)[k] in incidents[1..];
      }
    }
  }

  lemma {:induction false} EachRecent(incidents: seq<Incident>, streams: map<StreamId, Stream>, cutoff: int)
    ensures var kept, each := Recent(incidents, cutoff), PruneEach(incidents, streams, cutoff);
            |each| == |kept| && forall k :: 0 <= k < |kept| ==> each[k] == PruneIncident(kept[k], streams, cutoff)
  {
    hide PruneIncident;
    if incidents != [] {
      EachRecent(incidents[1..], streams, cutoff);
    }
  }

  /** With distinct ids the rule of the first record makes no difference. */
  lemma FirstIsEach(incidents: seq<Incident>, streams: map<StreamId, Stream>, cutoff: int)
    requires Distinct(incidents)
    ensures PruneIncidents(incidents, streams, cutoff) == PruneEach(incidents, streams, cutoff)
  {
    EachRecent(incidents, streams, cutoff);
    RecentDistinct(incidents, cutoff);
    var kept := Recent(incidents, cutoff);
    hide PruneIncident, Recent, PruneEach;
    forall k | 0 <= k < |kept|
      ensures Find(kept, kept[k].id) == k
    {
      FindAt(kept, k);
    }
  }

  /** Where pruned records come from, whether ids are distinct or not. */
  lemma PrunedFrom(incidents: seq<Incident>, streams: map<StreamId, Stream>, cutoff: int, k: nat)
    returns (inc: Incident)
    requires k < |PruneIncidents(incidents, streams, cutoff)|
    ensures inc in incidents && inc.openedAt > cutoff
    ensures PruneIncidents(incidents, streams, cutoff)[k] == inc
            || PruneIncidents(incidents, streams, cutoff)[k] == PruneIncident(inc, streams, cutoff)
  {
    RecentFrom(incidents, cutoff);
    inc := Recent(incidents, cutoff)[k];
  }

  lemma {:induction false} PrunedEach(incidents: seq<Incident>, streams: map<StreamId, Stream>, cutoff: int)
    ensures var pruned := PruneEach(incidents, streams, cutoff);
            && |pruned| <= |incidents|
            && (forall k :: 0 <= k < |pruned| ==>
                  exists j :: 0 <= j < |incidents| && incidents[j].openedAt > cutoff
                              && pruned[k] == PruneIncident(incidents[j], streams, cutoff))
            && (forall j :: 0 <= j < |incidents| && incidents[j].openedAt > cutoff ==>
                  PruneIncident(incidents[j], streams, cutoff) in pruned)
  {
    if incidents != [] {
      var rest := PruneEach(incidents[1..], streams, cutoff);
      var pruned := PruneEach(incidents, streams, cutoff);
      var shift := |pruned| - |rest|;
      PrunedEach(incidents[1..], streams, cutoff);
      forall k | 0 <= k < |pruned|
        ensures exists j :: 0 <= j < |incidents| && incidents[j].openedAt > cutoff
                            && pruned[k] == PruneIncident(incidents[j], streams, cutoff)
      {
        if k < shift {
          assert pruned[k] == PruneIncident(incidents[0], streams, cutoff);
        } else {
          assert pruned[k] == rest[k - shift];
          var j :| 0 <= j < |incidents[1..]| && incidents[1..][j].openedAt > cutoff
                   && rest[k - shift] == PruneIncident(incidents[1..][j], streams, cutoff);
          assert incidents[1..][j] == incidents[j + 1];
        }
      }
      forall j | 0 <= j < |incidents| && incidents[j].openedAt > cutoff
        ensures PruneIncident(incidents[j], streams, cutoff) in pruned
      {
        if j == 0 {
          assert pruned[0] == PruneIncident(incidents[0], streams, cutoff);
        } else {
          assert incidents[j] == incidents[1..][j - 1];
          assert PruneIncident(incidents[j], streams, cutoff) in rest;
        }
      }
    }
  }

  lemma {:induction false} EachDistinct(incidents: seq<Incident>, streams: map<StreamId, Stream>, cutoff: int)
    requires Distinct(incidents)
    ensures Distinct(PruneEach(incidents, streams, cutoff))
  {
    if incidents != [] {
      var rest := PruneEach(incidents[1..], streams, cutoff);
      EachDistinct(incidents[1..], streams, cutoff);
      PrunedEach(incidents[1..], streams, cutoff);
      forall k | 0 <= k < |rest|
        ensures rest[k].id != incidents[0].id
      {
        var j :| 0 <= j < |incidents[1..]| && rest[k] == PruneIncident(incidents[1..][j], streams, cutoff);
        assert incidents[1..][j] == incidents[j + 1];
      }
    }
  }

  lemma PrunedSize(incidents: seq<Incident>, streams: map<StreamId, Stream>, cutoff: int)
    requires Distinct(incidents)
    ensures var pruned := PruneIncidents(incidents, streams, cutoff); Distinct(pruned) && |pruned| <= |incidents|
  {
    hide PruneEach, PruneIncidents, Distinct;
    FirstIsEach(incidents, streams, cutoff);
    EachDistinct(incidents, streams, cutoff);
    PrunedEach(incidents, streams, cutoff);
  }

  /** The stored record behind a pruned one. */
  lemma PrunedSource(incidents: seq<Incident>, streams: map<StreamId, Stream>, cutoff: int, k: nat) returns (j: nat)
    requires Distinct(incidents) && k < |PruneIncidents(incidents, streams, cutoff)|
    ensures j < |incidents| && incidents[j].openedAt > cutoff
    ensures PruneIncidents(incidents, streams, cutoff)[k] == PruneIncident(incidents[j], streams, cutoff)
  {
    hide PruneEach, PruneIncidents, Distinct, PruneIncident;
    FirstIsEach(incidents, streams, cutoff);
    PrunedEach(incidents, streams, cutoff);
    var pruned := PruneEach(incidents, streams, cutoff);
    assert 0 <= k < |pruned|;
    j :| 0 <= j < |incidents| && incidents[j].openedAt > cutoff
         && pruned[k] == PruneIncident(incidents[j], streams, cutoff);
  }

  /** Recent records survive. */
  lemma PrunedKeeps(incidents: seq<Incident>, streams: map<StreamId, Stream>, cutoff: int, j: nat)
    requires Distinct(incidents) && j < |incidents| && incidents[j].openedAt > cutoff
    ensures PruneIncident(incidents[j], streams, cutoff) in PruneIncidents(incidents, streams, cutoff)
  {
    hide PruneEach, PruneIncidents, Distinct, PruneIncident;
    FirstIsEach(incidents, streams, cutoff);
    PrunedEach(incidents, streams, cutoff);
  }

  /** The record that survives as open is the one whose stream stays degraded. */
  lemma PruneAttached(score: Score, s: State, cutoff: int, inc: Incident)
    requires Attached(score, s.streams, inc) && inc in s.incidents && inc.openedAt > cutoff
    ensures Attached(score, PruneAt(s, cutoff).streams, PruneIncident(inc, s.streams, cutoff))
  {
    hide StatsOf, Supports;
    if PruneIncident(inc, s.streams, cutoff).status.Open? {
      var st := s.streams[inc.streamId];
      FreshKeeps(st.baseline, cutoff);
      assert Holds(s.incidents, inc.id, cutoff);
    }
  }

  lemma PruneRecorded(score: Score, s: State, cutoff: int, sid: StreamId)
    requires Linked(score, s.streams, s.incidents)
    requires sid in s.streams && s.streams[sid].last > cutoff
    ensures Recorded(PruneAt(s, cutoff).incidents, sid, PruneAt(s, cutoff).streams[sid])
  {
    hide StatsOf, Supports;
    var st, after := s.streams[sid], PruneAt(s, cutoff);
    if after.streams[sid].active.Some? {
      assert Holds(s.incidents, st.active.value, cutoff);
      var j :| 0 <= j < |s.incidents| && s.incidents[j].id == st.active.value && s.incidents[j].openedAt > cutoff;
      FindRecorded(score, s.streams, s.incidents, sid);
      assert j == Find(s.incidents, st.active.value);
      PrunedKeeps(s.incidents, s.streams, cutoff, j);
    }
  }

  lemma PruneLinked(score: Score, s: State, cutoff: int)
    requires Linked(score, s.streams, s.incidents)
    ensures Linked(score, PruneAt(s, cutoff).streams, PruneAt(s, cutoff).incidents)
  {
    var after := PruneAt(s, cutoff);
    PrunedSize(s.incidents, s.streams, cutoff);
    forall k: nat | k < |after.incidents|
      ensures Attached(score, after.streams, after.incidents[k])
    {
      var j := PrunedSource(s.incidents, s.streams, cutoff, k);
      PruneAttached(score, s, cutoff, s.incidents[j]);
    }
    forall sid | sid in after.streams
      ensures Recorded(after.incidents, sid, after.streams[sid])
    {
      PruneRecorded(score, s, cutoff, sid);
    }
  }

  lemma PruneSpent(when: Clock, s: State, cutoff: int)
    requires Distinct(s.incidents)
    requires forall k :: 0 <= k < |s.incidents| ==> Spent(when, s.dedup, s.floor, s.incidents[k])
    ensures var after := PruneAt(s, cutoff);
            forall k :: 0 <= k < |after.incidents| ==> Spent(when, after.dedup, after.floor, after.incidents[k])
  {
    var after := PruneAt(s, cutoff);
    forall k: nat | k < |after.incidents|
      ensures Spent(when, after.dedup, after.floor, after.incidents[k])
    {
      var j := PrunedSource(s.incidents, s.streams, cutoff, k);
      assert Spent(when, s.dedup, s.floor, s.incidents[j]);
    }
  }

  /** Pruning preserves the whole invariant, at any instant. */
  lemma PruneInv(score: Score, when: Clock, s: State, now: int)
    requires Inv(score, when, s)
    ensures Inv(score, when, Prune(s, now))
  {
    var cutoff := now - RETENTION;
    var after := PruneAt(s, cutoff);
    forall sid | sid in after.streams
      ensures Live(sid, after.streams[sid])
    {
      var st := s.streams[sid];
      PruneShape(sid, st, cutoff, st.active.Some? && Holds(s.incidents, st.active.value, cutoff));
    }
    SubmapSize(after.streams, s.streams);
    PrunedSize(s.incidents, s.streams, cutoff);
    PruneLinked(score, s, cutoff);
    PruneSpent(when, s, cutoff);
  }

  // ---------------------------------------------------------------- pruning composes

  lemma FreshShorter(rows: seq<Sample>, c1: int, c2: int)
    requires c1 <= c2
    ensures |Fresh(rows, c2)| <= |Fresh(rows, c1)|
  {
    FreshTwice(rows, c1, c2);
    FreshKeeps(Fresh(rows, c1), c2);
  }

  lemma ChronologicalParts(a: seq<Sample>, b: seq<Sample>)
    requires Chronological(a + b)
    ensures Chronological(a) && Chronological(b)
    ensures forall i, j :: 0 <= i < |a| && 0 <= j < |b| ==> a[i].ts <= b[j].ts
  {
    var all := a + b;
    assert forall i :: 0 <= i < |a| ==> a[i] == all[i];
    assert forall j :: 0 <= j < |b| ==> b[j] == all[|a| + j];
  }

  /** In time order, an intact nonempty first part means an intact second part. */
  lemma IntactPrefix(a: seq<Sample>, b: seq<Sample>, cutoff: int)
    requires Chronological(a + b) && a != []
    requires |Fresh(a, cutoff)| == |a|
    ensures Fresh(b, cutoff) == b && Fresh(a + b, cutoff) == a + b
  {
    ChronologicalParts(a, b);
    FreshSuffix(a, cutoff);
    FreshKeeps(a, cutoff);
    FreshKeeps(b, cutoff);
    FreshConcat(a, b, cutoff);
  }

  lemma FreshChronological(rows: seq<Sample>, cutoff: int)
    requires Chronological(rows)
    ensures Chronological(Fresh(rows, cutoff))
  {
    FreshSuffix(rows, cutoff);
  }

  /** A rebuilt stream, pruned again, is the stream rebuilt at the later time. */
  lemma RebuildTwice(st: Stream, rows: seq<Sample>, c2: int, held: bool)
    requires Chronological(rows)
    ensures PruneWindows(Rebuild(st, rows), c2, held) == Rebuild(st, Fresh(rows, c2))
  {
    FreshKeeps(rows, c2);
    if |rows| >= WINDOW {
      var b, c := rows[..WINDOW], rows[WINDOW..];
      assert b + c == rows;
      FreshConcat(b, c, c2);
      if |Fresh(b, c2)| >= |b| {
        FreshKeeps(b, c2);
        IntactPrefix(b, c, c2);
      }
    } else {
      assert Fresh([], c2) == [];
    }
  }

  lemma WindowsTwice(st: Stream, c1: int, c2: int, held1: bool, held2: bool)
    requires c1 <= c2 && Chronological(st.Rows()) && (held2 ==> held1)
    ensures PruneWindows(PruneWindows(st, c1, held1), c2, held2) == PruneWindows(st, c2, held2)
  {
    FreshTwice(st.baseline, c1, c2);
    FreshTwice(st.current, c1, c2);
    FreshShorter(st.baseline, c1, c2);
    if Shrinks(st, c1) {
      var rows := Fresh(st.baseline, c1) + Fresh(st.current, c1);
      FreshConcat(st.baseline, st.current, c1);
      FreshChronological(st.Rows(), c1);
      RebuildTwice(st, rows, c2, held2);
      FreshConcat(Fresh(st.baseline, c1), Fresh(st.current, c1), c2);
    } else {
      FreshKeeps(st.baseline, c1);
    }
  }

  lemma PrunedVersions(st: Stream, cutoff: int, held: bool, versions: map<VersionId, Labels>)
    ensures PruneWindows(st.(versions := versions), cutoff, held)
            == PruneWindows(st, cutoff, held).(versions := versions)
  {
  }

  lemma FreshSubset(rows: seq<Sample>, cutoff: int)
    ensures Uses(Fresh(rows, cutoff)) <= Uses(rows)
  {
    var kept := Fresh(rows, cutoff);
    forall v | v in Uses(kept)
      ensures v in Uses(rows)
    {
      var k :| 0 <= k < |kept| && kept[k].version == v;
      FreshMember(rows, cutoff, k);
    }
  }

  lemma {:induction false} FreshMember(rows: seq<Sample>, cutoff: int, k: nat)
    requires k < |Fresh(rows, cutoff)|
    ensures exists j :: 0 <= j < |rows| && rows[j] == Fresh(rows, cutoff)[k] && rows[j].ts > cutoff
  {
    if rows[0].ts > cutoff && k == 0 {
      assert rows[0] == Fresh(rows, cutoff)[0];
    } else {
      var k' := if rows[0].ts > cutoff then k - 1 else k;
      FreshMember(rows[1..], cutoff, k');
      var j :| 0 <= j < |rows[1..]| && rows[1..][j] == Fresh(rows[1..], cutoff)[k'] && rows[1..][j].ts > cutoff;
      assert rows[j + 1] == rows[1..][j];
    }
  }

  /** Trimming before pruning makes no difference once the result is trimmed. */
  lemma TrimFirst(st: Stream, cutoff: int, held: bool)
    ensures Trim(PruneWindows(Trim(st), cutoff, held)) == Trim(PruneWindows(st, cutoff, held))
  {
    var w := PruneWindows(st, cutoff, held);
    PrunedVersions(st, cutoff, held, Trim(st).versions);
    PruneRows(st, cutoff, held);
    FreshSubset(st.Rows(), cutoff);
    assert w.(versions := Trim(st).versions).Rows() == w.Rows();
    assert Trim(w.(versions := Trim(st).versions)).versions == Trim(w).versions by {
      assert w.versions == st.versions;
    }
  }

  lemma HoldsThrough(incidents: seq<Incident>, streams: map<StreamId, Stream>, id: IncidentId, c1: int, c2: int)
    requires c1 <= c2
    ensures Holds(PruneEach(incidents, streams, c1), id, c2) == Holds(incidents, id, c2)
  {
    var pruned := PruneEach(incidents, streams, c1);
    PrunedEach(incidents, streams, c1);
    if Holds(pruned, id, c2) {
      var k :| 0 <= k < |pruned| && pruned[k].id == id && pruned[k].openedAt > c2;
      var j :| 0 <= j < |incidents| && incidents[j].openedAt > c1
               && pruned[k] == PruneIncident(incidents[j], streams, c1);
      assert incidents[j].id == id;
    }
    if Holds(incidents, id, c2) {
      var j :| 0 <= j < |incidents| && incidents[j].id == id && incidents[j].openedAt > c2;
      assert PruneIncident(incidents[j], streams, c1) in pruned;
    }
  }

  lemma StreamTwice(st: Stream, incidents: seq<Incident>, streams: map<StreamId, Stream>, c1: int, c2: int)
    requires c1 <= c2 && Chronological(st.Rows())
    ensures PruneStream(PruneStream(st, c1, incidents), c2, PruneEach(incidents, streams, c1))
            == PruneStream(st, c2, incidents)
  {
    var held1 := st.active.Some? && Holds(incidents, st.active.value, c1);
    var held2 := st.active.Some? && Holds(incidents, st.active.value, c2);
    var once := PruneWindows(st, c1, held1);
    var later := PruneEach(incidents, streams, c1);
    var held := once.active.Some? && Holds(later, once.active.value, c2);
    if st.active.Some? {
      HoldsThrough(incidents, streams, st.active.value, c1, c2);
    }
    assert once.active.None? || once.active == st.active;
    assert PruneWindows(once, c2, held) == PruneWindows(once, c2, held2);
    assert Trim(once).active == once.active;
    TrimFirst(once, c2, held);
    WindowsTwice(st, c1, c2, held1, held2);
    hide PruneWindows, Trim;
  }

  /** A record named by a stream belongs to it. Nothing more is asked of the states the
      in-place prune starts from. */
  ghost predicate Owned(s: State) {
    forall sid, k :: sid in s.streams && 0 <= k < |s.incidents| && s.streams[sid].active == Some(s.incidents[k].id)
                     ==> s.incidents[k].streamId == sid
  }

  /** The states pruning composes on: streams in time order, incidents paired with them. */
  ghost predicate Settled(score: Score, s: State) {
    && (forall sid :: sid in s.streams ==> Live(sid, s.streams[sid]))
    && Linked(score, s.streams, s.incidents)
  }

  lemma PrunedStreamFacts(s: State, c1: int, c2: int, inc: Incident)
    requires c1 <= c2 && inc in s.incidents && inc.openedAt > c2
    requires inc.streamId in PruneAt(s, c1).streams
    ensures var st, once := s.streams[inc.streamId], PruneAt(s, c1).streams[inc.streamId];
            && once.last == st.last
            && (once.active == Some(inc.id) <==> st.active == Some(inc.id) && !Shrinks(st, c1))
            && (!Shrinks(st, c1) ==> once.baseline == st.baseline)
  {
    FreshKeeps(s.streams[inc.streamId].baseline, c1);
    assert Holds(s.incidents, inc.id, c1);
  }

  lemma IncidentTwice(score: Score, s: State, c1: int, c2: int, inc: Incident)
    requires Settled(score, s) && c1 <= c2
    requires inc in s.incidents && inc.openedAt > c2
    ensures PruneIncident(PruneIncident(inc, s.streams, c1), PruneAt(s, c1).streams, c2)
            == PruneIncident(inc, s.streams, c2)
  {
    hide Live, Linked, Fresh, PruneStream;
    if inc.streamId in s.streams && s.streams[inc.streamId].active == Some(inc.id) {
      var st := s.streams[inc.streamId];
      FreshShorter(st.baseline, c1, c2);
      OwnsOpen(score, s, inc);
      PrunedStreamFacts(s, c1, c2, inc);
    } else if inc.streamId in PruneAt(s, c1).streams {
      PrunedStreamFacts(s, c1, c2, inc);
    }
  }

  lemma OwnsOpen(score: Score, s: State, inc: Incident)
    requires Linked(score, s.streams, s.incidents) && inc in s.incidents
    requires inc.streamId in s.streams && s.streams[inc.streamId].active == Some(inc.id)
    ensures inc.status.Open? && inc.openedAt <= s.streams[inc.streamId].last
  {
    FindRecorded(score, s.streams, s.incidents, inc.streamId);
    var k, j := Find(s.incidents, inc.id), 0;
    j :| 0 <= j < |s.incidents| && s.incidents[j] == inc;
    hide StatsOf, Supports, Recorded;
    assert j == k;
    assert Attached(score, s.streams, s.incidents[k]);
  }

  lemma {:induction false} IncidentsTwice(score: Score, s: State, c1: int, c2: int, incidents: seq<Incident>)
    requires Settled(score, s) && c1 <= c2
    requires forall k :: 0 <= k < |incidents| ==> incidents[k] in s.incidents
    ensures PruneEach(PruneEach(incidents, s.streams, c1), PruneAt(s, c1).streams, c2)
            == PruneEach(incidents, s.streams, c2)
  {
    hide Settled, PruneAt, PruneIncident;
    if incidents != [] {
      var rest := incidents[1..];
      assert incidents[0] in s.incidents;
      IncidentsTwice(score, s, c1, c2, rest);
      var once := PruneIncident(incidents[0], s.streams, c1);
      OpenedAtKept(incidents[0], s.streams, c1);
      if incidents[0].openedAt > c1 {
        assert PruneEach(incidents, s.streams, c1)[1..] == PruneEach(rest, s.streams, c1);
        if incidents[0].openedAt > c2 {
          IncidentTwice(score, s, c1, c2, incidents[0]);
        }
      } else {
        assert PruneEach(incidents, s.streams, c1) == PruneEach(rest, s.streams, c1);
      }
    }
  }

  lemma OpenedAtKept(inc: Incident, streams: map<StreamId, Stream>, cutoff: int)
    ensures PruneIncident(inc, streams, cutoff).openedAt == inc.openedAt
  {
  }

  /** Pruning at two times is pruning at the later one: windows, lapsed incidents with
      their closing times, versions and the duplicate cache all agree. */
  lemma PruneComposes(score: Score, s: State, t1: int, t2: int)
    requires Settled(score, s) && t1 <= t2
    ensures Prune(Prune(s, t1), t2) == Prune(s, t2)
  {
    hide Live, Attached, Recorded, PruneIncidents, PruneEach, PruneStream, Distinct;
    var c1, c2 := t1 - RETENTION, t2 - RETENTION;
    var once, twice, direct := PruneAt(s, c1), PruneAt(PruneAt(s, c1), c2), PruneAt(s, c2);
    FirstIsEach(s.incidents, s.streams, c1);
    FirstIsEach(s.incidents, s.streams, c2);
    PrunedSize(s.incidents, s.streams, c1);
    FirstIsEach(once.incidents, once.streams, c2);
    IncidentsTwice(score, s, c1, c2, s.incidents);
    assert twice.incidents == direct.incidents;
    assert twice.dedup == direct.dedup;
    forall sid | sid in s.streams && s.streams[sid].last > c2
      ensures sid in once.streams && once.streams[sid].last == s.streams[sid].last
      ensures PruneStream(once.streams[sid], c2, once.incidents) == PruneStream(s.streams[sid], c2, s.incidents)
    {
      PruneKeepsLast(s.streams[sid], c1, s.incidents);
      LiveInOrder(sid, s.streams[sid]);
      StreamTwice(s.streams[sid], s.incidents, s.streams, c1, c2);
    }
    forall sid | sid in once.streams
      ensures once.streams[sid].last == s.streams[sid].last
    {
      PruneKeepsLast(s.streams[sid], c1, s.incidents);
    }
    assert twice.streams == direct.streams;
  }

  lemma LiveInOrder(sid: StreamId, st: Stream)
    requires Live(sid, st)
    ensures Chronological(st.Rows())
  {
  }

  lemma PruneKeepsLast(st: Stream, cutoff: int, incidents: seq<Incident>)
    ensures PruneStream(st, cutoff, incidents).last == st.last
  {
  }

  /** In particular, a state that has just been pruned has nothing left to prune. */
  lemma PruneIdempotent(score: Score, s: State, now: int)
    requires Settled(score, s)
    ensures Prune(Prune(s, now), now) == Prune(s, now)
  {
    PruneComposes(score, s, now, now);
  }
}
