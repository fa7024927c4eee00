/** For a stream that never opened an incident, the two rolling windows are a view of its
    history: the newest 100 accepted samples that have not expired, the first 50 of them
    as baseline once there are 50.
 */
module TwoWindows {
  import opened Protocol
  import opened Numerics
  import opened Judgement
  import opened Tenant
  import opened Invariants
  import opened Pruning
  import opened Batches
  import opened Runs
  import opened ExactlyOnce
  import opened Reachable

  const BOTH := 2 * WINDOW

  /** Every sample a stream ever accepted, in order of acceptance. */
  function History(events: seq<Event>, sid: StreamId): seq<Sample> {
    if events == [] then []
    else
      History(events[..|events| - 1], sid)
      + (if StreamOf(events[|events| - 1]) == sid then [SampleOf(events[|events| - 1])] else [])
  }

  function Logged(log: seq<Entry>): (events: seq<Event>)
    ensures |events| == |log|
    ensures forall k :: 0 <= k < |log| ==> events[k] == log[k].event
  {
    seq(|log|, k requires 0 <= k < |log| => log[k].event)
  }

  ghost predicate Viewed(st: Stream, rows: seq<Sample>) {
    var newest := Newest(rows, BOTH);
    && st.active.None?
    && st.Rows() == newest
    && st.baseline == if |newest| >= WINDOW then newest[..WINDOW] else []
  }

  // ---------------------------------------------------------------- one stream

  lemma NewestMore(rows: seq<Sample>, row: Sample, n: nat)
    requires n > 0
    ensures Newest(rows + [row], n) ==
            if |Newest(rows, n)| < n then Newest(rows, n) + [row] else Newest(rows, n)[1..] + [row]
  {
  }

  lemma ViewedSizes(st: Stream, rows: seq<Sample>)
    requires Viewed(st, rows)
    ensures |st.baseline| == (if |st.Rows()| >= WINDOW then WINDOW else 0) && |st.Rows()| <= BOTH
    ensures st.current == st.Rows()[|st.baseline|..]
  {
  }

  /** The rows after rolling, by how many there were. */
  lemma RolledRows(st: Stream, rows: seq<Sample>, row: Sample)
    requires Viewed(st, rows)
    ensures Roll(st, row).Rows() == Newest(rows + [row], BOTH)
    ensures Promote(Roll(st, row)).Rows() == Roll(st, row).Rows() && Promote(Roll(st, row)).active.None?
  {
    ViewedSizes(st, rows);
    NewestMore(rows, row, BOTH);
    RollRows(st, row);
    hide Newest;
  }

  /** With both windows full, the oldest observation moves over to the baseline. */
  lemma RolledFull(st: Stream, row: Sample)
    requires st.active.None? && |st.baseline| == WINDOW && |st.current| == WINDOW
    ensures var rolled := Roll(st, row);
            |rolled.Rows()| == BOTH && Promote(rolled).baseline == rolled.Rows()[..WINDOW]
  {
    assert Roll(st, row).baseline == st.baseline[1..] + [st.current[0]];
  }

  /** With a full baseline and room for observations, the baseline stays. */
  lemma RolledHalf(st: Stream, row: Sample)
    requires st.active.None? && |st.baseline| == WINDOW && |st.current| < WINDOW
    ensures var rolled := Roll(st, row);
            |rolled.Rows()| >= WINDOW && Promote(rolled).baseline == rolled.Rows()[..WINDOW]
  {
  }

  /** Without a baseline, the fiftieth row completes one. */
  lemma RolledCold(st: Stream, row: Sample)
    requires st.active.None? && st.baseline == [] && |st.current| < WINDOW
    ensures var rolled := Roll(st, row);
            Promote(rolled).baseline == if |rolled.Rows()| >= WINDOW then rolled.Rows()[..WINDOW] else []
  {
    var rolled := Roll(st, row);
    assert rolled.Rows() == rolled.current && rolled.current[..|rolled.current|] == rolled.current;
  }

  /** Rolling and promoting an undisturbed stream appends to its view. */
  lemma RollViewed(st: Stream, rows: seq<Sample>, row: Sample)
    requires Viewed(st, rows)
    ensures Viewed(Promote(Roll(st, row)), rows + [row])
  {
    hide Newest, Roll, Promote;
    ViewedSizes(st, rows);
    RolledRows(st, rows, row);
    if |st.baseline| == 0 {
      RolledCold(st, row);
    } else if |st.current| == WINDOW {
      RolledFull(st, row);
    } else {
      RolledHalf(st, row);
    }
  }

  lemma {:induction false} FreshFrom(rows: seq<Sample>, n: nat, cutoff: int)
    requires n <= |rows|
    requires forall k :: 0 <= k < n ==> rows[k].ts <= cutoff
    requires forall k :: n <= k < |rows| ==> rows[k].ts > cutoff
    ensures Fresh(rows, cutoff) == rows[n..]
  {
    if n == 0 {
      FreshKeeps(rows, cutoff);
    } else {
      FreshFrom(rows[1..], n - 1, cutoff);
    }
  }

  lemma NewestOfSuffix(rows: seq<Sample>, cut: nat, n: nat)
    requires cut <= |rows| && n < |rows|
    ensures Newest(rows[cut..], n) ==
            if cut > |rows| - n then Newest(rows, n)[cut - (|rows| - n)..] else Newest(rows, n)
  {
  }

  lemma FreshNewest(rows: seq<Sample>, cutoff: int, n: nat)
    requires Chronological(rows)
    ensures Fresh(Newest(rows, n), cutoff) == Newest(Fresh(rows, cutoff), n)
  {
    FreshSuffix(rows, cutoff);
    hide Chronological, Fresh;
    var cut := |rows| - |Fresh(rows, cutoff)|;
    if |rows| > n {
      FreshOfNewest(rows, cut, n, cutoff);
      NewestOfSuffix(rows, cut, n);
    }
  }

  lemma FreshOfNewest(rows: seq<Sample>, cut: nat, n: nat, cutoff: int)
    requires cut <= |rows| && n < |rows|
    requires forall k :: 0 <= k < cut ==> rows[k].ts <= cutoff
    requires forall k :: cut <= k < |rows| ==> rows[k].ts > cutoff
    ensures Fresh(Newest(rows, n), cutoff) == Newest(rows, n)[if cut > |rows| - n then cut - (|rows| - n) else 0..]
  {
    hide Fresh;
    var newest := Newest(rows, n);
    assert forall k :: 0 <= k < n ==> newest[k] == rows[|rows| - n + k];
    FreshFrom(newest, if cut > |rows| - n then cut - (|rows| - n) else 0, cutoff);
  }

  /** Pruning a viewed stream prunes what it views. */
  /** A baseline is the first 50 rows, once there are 50; pruning deals it out again so. */
  lemma PrunedBaseline(st: Stream, cutoff: int, held: bool)
    requires Chronological(st.Rows()) && st.current == st.Rows()[|st.baseline|..]
    requires |st.baseline| == if |st.Rows()| >= WINDOW then WINDOW else 0
    ensures var pruned := PruneWindows(st, cutoff, held);
            pruned.baseline == if |pruned.Rows()| >= WINDOW then pruned.Rows()[..WINDOW] else []
  {
    FreshKeeps(st.baseline, cutoff);
    FreshKeeps(st.current, cutoff);
    if !Shrinks(st, cutoff) && st.baseline != [] {
      IntactPrefix(st.baseline, st.current, cutoff);
    }
    hide Fresh, Chronological;
  }

  lemma PrunedQuiet(st: Stream, cutoff: int, held: bool)
    requires st.active.None?
    ensures PruneWindows(st, cutoff, held).active.None?
    ensures var pruned := PruneWindows(st, cutoff, held);
            && Trim(pruned).Rows() == pruned.Rows() && Trim(pruned).baseline == pruned.baseline
            && Trim(pruned).active.None?
  {
    hide Fresh;
  }

  lemma PruneViewed(st: Stream, history: seq<Sample>, c1: int, c2: int, held: bool)
    requires c1 <= c2 && Chronological(history)
    requires Viewed(st, Fresh(history, c1))
    ensures Viewed(Trim(PruneWindows(st, c2, held)), Fresh(history, c2))
  {
    hide Fresh, PruneWindows, Newest, Trim;
    var rows := Fresh(history, c1);
    FreshChronological(history, c1);
    FreshTwice(history, c1, c2);
    FreshNewest(rows, c2, BOTH);
    NewestChronological(rows, BOTH);
    hide Chronological;
    PruneRows(st, c2, held);
    ViewedSizes(st, rows);
    PrunedBaseline(st, c2, held);
    PrunedQuiet(st, c2, held);
  }

  lemma NewestChronological(rows: seq<Sample>, n: nat)
    requires Chronological(rows)
    ensures Chronological(Newest(rows, n))
  {
  }

  // ---------------------------------------------------------------- the state and its history

  /** How a state relates to the samples one stream has accepted so far. */
  ghost predicate Mirrors(s: State, history: seq<Sample>, sid: StreamId, cutoff: int, undisturbed: bool) {
    && Chronological(history)
    && (forall k :: 0 <= k < |history| ==>
          history[k].ts <= if sid in s.streams then s.streams[sid].last else cutoff)
    && (undisturbed && sid in s.streams ==> Viewed(s.streams[sid], Fresh(history, cutoff)))
  }

  lemma {:induction false} FreshNone(rows: seq<Sample>, cutoff: int)
    requires forall k :: 0 <= k < |rows| ==> rows[k].ts <= cutoff
    ensures Fresh(rows, cutoff) == []
  {
    if rows != [] {
      FreshNone(rows[1..], cutoff);
    }
  }

  lemma PruneMirrors(s: State, history: seq<Sample>, sid: StreamId, c1: int, c2: int, undisturbed: bool)
    requires Mirrors(s, history, sid, c1, undisturbed) && c1 <= c2
    ensures Mirrors(PruneAt(s, c2), history, sid, c2, undisturbed)
  {
    if sid in s.streams && s.streams[sid].last > c2 {
      var st := s.streams[sid];
      PruneKeepsLast(st, c2, s.incidents);
      if undisturbed {
        PruneViewed(st, history, c1, c2, st.active.Some? && Holds(s.incidents, st.active.value, c2));
      }
    }
  }

  lemma EvaluateUndisturbed(score: Score, incidents: seq<Incident>, sid: StreamId, st: Stream, e: Event)
    requires st.active.None? && Evaluate(score, incidents, sid, st, e).Ok?
    requires Evaluate(score, incidents, sid, st, e).value.stream.active.None?
    ensures Evaluate(score, incidents, sid, st, e).value.stream == st
  {
    hide StatsOf, Signals, MakeRoom;
  }

  lemma AcceptStreams(score: Score, s: State, e: Event)
    requires Accept(score, s, e).Ok?
    ensures var after := Accept(score, s, e).value;
            var rolled := Roll(Enter(s, e).value, SampleOf(e));
            && Enter(s, e).Ok?
            && Evaluate(score, s.incidents, StreamOf(e), rolled, e).Ok?
            && after.streams == s.streams[StreamOf(e) :=
                 Promote(Evaluate(score, s.incidents, StreamOf(e), rolled, e).value.stream)]
            && after.streams[StreamOf(e)].last == e.timestamp
  {
    hide Enter, StatsOf, Signals, Recovered, MakeRoom, Find;
  }

  lemma PromoteActive(st: Stream)
    ensures Promote(st).active == st.active
  {
  }

  /** Entering a stream does not disturb its view. */
  lemma EnteredViewed(s: State, e: Event, history: seq<Sample>, cutoff: int)
    requires Enter(s, e).Ok? && Mirrors(s, history, StreamOf(e), cutoff, true)
    ensures Viewed(Enter(s, e).value, Fresh(history, cutoff))
  {
    hide Fresh, Newest, Chronological;
    EnterSame(s, e);
    hide Enter;
    if StreamOf(e) !in s.streams {
      FreshNone(history, cutoff);
      assert Newest([], BOTH) == [] by {
        NewestNothing();
      }
    }
  }

  lemma NewestNothing()
    ensures Newest([], BOTH) == []
  {
  }

  lemma FreshMore(rows: seq<Sample>, row: Sample, cutoff: int)
    requires row.ts > cutoff
    ensures Fresh(rows + [row], cutoff) == Fresh(rows, cutoff) + [row]
  {
    FreshConcat(rows, [row], cutoff);
    assert [row][1..] == [];
  }

  lemma AcceptViewed(score: Score, s: State, e: Event, history: seq<Sample>, cutoff: int)
    requires Accept(score, s, e).Ok? && e.timestamp > cutoff
    requires Mirrors(s, history, StreamOf(e), cutoff, true)
    requires Accept(score, s, e).value.streams[StreamOf(e)].active.None?
    ensures Viewed(Accept(score, s, e).value.streams[StreamOf(e)], Fresh(history + [SampleOf(e)], cutoff))
  {
    hide Accept, Enter, Evaluate, Viewed, Fresh, Newest, Roll, Promote, Mirrors;
    var sid, row := StreamOf(e), SampleOf(e);
    AcceptStreams(score, s, e);
    var st := Enter(s, e).value;
    EnteredViewed(s, e, history, cutoff);
    FreshMore(history, row, cutoff);
    var evaluated := Evaluate(score, s.incidents, sid, Roll(st, row), e).value.stream;
    PromoteActive(evaluated);
    RolledQuiet(st, row, Fresh(history, cutoff));
    EvaluateUndisturbed(score, s.incidents, sid, Roll(st, row), e);
    RollViewed(st, Fresh(history, cutoff), row);
  }

  lemma RolledQuiet(st: Stream, row: Sample, rows: seq<Sample>)
    requires Viewed(st, rows)
    ensures Roll(st, row).active.None?
  {
  }

  lemma OwnMirrors(score: Score, s: State, e: Event, history: seq<Sample>, cutoff: int, undisturbed: bool)
    requires Accept(score, s, e).Ok? && e.timestamp > cutoff
    requires Mirrors(s, history, StreamOf(e), cutoff, undisturbed)
    ensures var after := Accept(score, s, e).value;
            Mirrors(after, history + [SampleOf(e)], StreamOf(e), cutoff,
                    undisturbed && StreamOf(e) !in DegradedStreams(after))
  {
    hide Evaluate, Roll, Promote, Viewed, Fresh, Chronological;
    AcceptStreams(score, s, e);
    EnterSame(s, e);
    var after := Accept(score, s, e).value;
    hide Accept, Enter;
    InOrderMore(history, SampleOf(e), if StreamOf(e) in s.streams then s.streams[StreamOf(e)].last else cutoff);
    if undisturbed && StreamOf(e) !in DegradedStreams(after) {
      AcceptViewed(score, s, e, history, cutoff);
    }
  }

  lemma InOrderMore(history: seq<Sample>, row: Sample, bound: int)
    requires Chronological(history) && bound <= row.ts
    requires forall k :: 0 <= k < |history| ==> history[k].ts <= bound
    ensures Chronological(history + [row])
    ensures forall k :: 0 <= k < |history + [row]| ==> (history + [row])[k].ts <= row.ts
  {
  }

  lemma AcceptMirrors(score: Score, s: State, e: Event, history: seq<Sample>, sid: StreamId, cutoff: int,
                      undisturbed: bool)
    requires Accept(score, s, e).Ok? && e.timestamp > cutoff
    requires Mirrors(s, history, sid, cutoff, undisturbed)
    ensures var after := Accept(score, s, e).value;
            Mirrors(after, history + (if StreamOf(e) == sid then [SampleOf(e)] else []), sid, cutoff,
                    undisturbed && sid !in DegradedStreams(after))
  {
    if StreamOf(e) == sid {
      hide Accept, Mirrors, DegradedStreams;
      OwnMirrors(score, s, e, history, cutoff, undisturbed);
    } else {
      AcceptStreams(score, s, e);
      hide Accept, Viewed, Fresh;
      assert history + [] == history;
    }
  }

  // ---------------------------------------------------------------- a batch

  /** The streams that are degraded after some event of a batch. */
  ghost function OpenedIn(score: Score, p: Progress, now: int, events: seq<Event>): set<StreamId> {
    if events == [] then {}
    else
      OpenedIn(score, p, now, events[..|events| - 1])
      + match Fold(score, p, now, events) case Ok(q) => DegradedStreams(q.state) case Err(_) => {}
  }

  lemma HistoryMore(events: seq<Event>, e: Event, sid: StreamId)
    ensures History(events + [e], sid) == History(events, sid) + (if StreamOf(e) == sid then [SampleOf(e)] else [])
  {
    assert (events + [e])[..|events|] == events;
  }

  lemma {:induction false} FoldMirrors(score: Score, s: State, now: int, events: seq<Event>, past: seq<Event>,
                                       sid: StreamId, undisturbed: bool)
    requires Mirrors(s, History(past, sid), sid, now - RETENTION, undisturbed)
    requires Fold(score, Progress(s, [], 0), now, events).Ok?
    ensures var q := Fold(score, Progress(s, [], 0), now, events).value;
            Mirrors(q.state, History(past + q.taken, sid), sid, now - RETENTION,
                    undisturbed && sid !in OpenedIn(score, Progress(s, [], 0), now, events))
  {
    hide Mirrors, Accept, DegradedStreams, History;
    var p := Progress(s, [], 0);
    if events == [] {
      assert past + [] == past;
    } else {
      var rest, e := events[..|events| - 1], events[|events| - 1];
      var touched := OpenedIn(score, p, now, rest);
      FoldMirrors(score, s, now, rest, past, sid, undisturbed);
      var before := Fold(score, p, now, rest).value;
      var after := Step(score, before, now, e).value;
      assert Fold(score, p, now, events).value == after;
      if e.id in before.state.dedup {
        MirrorsWeaker(after.state, History(past + after.taken, sid), sid, now - RETENTION,
                      undisturbed && sid !in touched, undisturbed && sid !in OpenedIn(score, p, now, events));
      } else {
        var flag := undisturbed && sid !in touched;
        AcceptMirrors(score, before.state, e, History(past + before.taken, sid), sid, now - RETENTION, flag);
        HistoryMore(past + before.taken, e, sid);
        assert past + after.taken == past + before.taken + [e];
        MirrorsWeaker(after.state, History(past + after.taken, sid), sid, now - RETENTION,
                      flag && sid !in DegradedStreams(after.state),
                      undisturbed && sid !in OpenedIn(score, p, now, events));
      }
    }
  }

  lemma MirrorsWeaker(s: State, history: seq<Sample>, sid: StreamId, cutoff: int, strong: bool, weak: bool)
    requires Mirrors(s, history, sid, cutoff, strong) && (weak ==> strong)
    ensures Mirrors(s, history, sid, cutoff, weak)
  {
  }

  // ---------------------------------------------------------------- a run

  /** The streams degraded after some event of one call; a refused call opens nothing. */
  ghost function OpenedBy(env: Setting, w: World, call: Call): set<StreamId> {
    if Ingest(env, Load(w, call.now), call.events, call.now).Err? then {}
    else
      OpenedIn(env.score, Progress(Prune(Load(w, call.now).state, call.now), [], 0), call.now, SortEvents(call.events))
  }

  /** The streams that were degraded after some event of an accepted call of a run. */
  ghost function EverOpened(env: Setting, created: int, calls: seq<Call>): set<StreamId> {
    if calls == [] then {}
    else
      EverOpened(env, created, calls[..|calls| - 1])
      + OpenedBy(env, Run(env, created, calls[..|calls| - 1]), calls[|calls| - 1])
  }

  /** The store's document mirrors the log as of its last write. */
  ghost predicate WorldMirrors(w: World, sid: StreamId, undisturbed: bool) {
    && w.expires - STORE_RETENTION <= w.clock
    && Mirrors(w.document.state, History(Logged(w.log), sid), sid, w.expires - STORE_RETENTION - RETENTION, undisturbed)
  }

  lemma {:induction false} HistorySources(events: seq<Event>, sid: StreamId, k: nat)
    requires k < |History(events, sid)|
    ensures exists j :: 0 <= j < |events| && SampleOf(events[j]) == History(events, sid)[k]
  {
    var rest := events[..|events| - 1];
    if k < |History(rest, sid)| {
      HistorySources(rest, sid, k);
      var j :| 0 <= j < |rest| && SampleOf(rest[j]) == History(rest, sid)[k];
      assert events[j] == rest[j];
    } else {
      assert SampleOf(events[|events| - 1]) == History(events, sid)[k];
    }
  }

  lemma LoadMirrors(w: World, sid: StreamId, now: int, undisturbed: bool)
    requires WorldMirrors(w, sid, undisturbed) && Outlived(w) && w.clock <= now
    ensures Mirrors(Prune(Load(w, now).state, now), History(Logged(w.log), sid), sid, now - RETENTION, undisturbed)
  {
    hide Viewed, Fresh;
    var history := History(Logged(w.log), sid);
    if w.expires > now {
      PruneMirrors(w.document.state, history, sid, w.expires - STORE_RETENTION - RETENTION, now - RETENTION,
                   undisturbed);
    } else {
      forall k | 0 <= k < |history|
        ensures history[k].ts <= now - RETENTION
      {
        HistorySources(Logged(w.log), sid, k);
      }
    }
  }

  lemma CloseMirrors(q: Progress, history: seq<Sample>, sid: StreamId, cutoff: int, undisturbed: bool)
    requires Mirrors(q.state, history, sid, cutoff, undisturbed)
    ensures Mirrors(Close(q), history, sid, cutoff, undisturbed)
  {
  }

  lemma ServeMirrors(env: Setting, w: World, call: Call, sid: StreamId, undisturbed: bool)
    requires WorldMirrors(w, sid, undisturbed) && Outlived(w) && w.clock <= call.now
    ensures WorldMirrors(Serve(env, w, call), sid, undisturbed && sid !in OpenedBy(env, w, call))
  {
    hide Mirrors, Outlived, Fold, Close, OpenedIn, History, Prune, SortEvents;
    var s, now, events := Prune(Load(w, call.now).state, call.now), call.now, SortEvents(call.events);
    var flag := undisturbed && sid !in OpenedIn(env.score, Progress(s, [], 0), now, events);
    LoadMirrors(w, sid, now, undisturbed);
    if Ingest(env, Load(w, now), call.events, now).Ok? {
      var q := Fold(env.score, Progress(s, [], 0), now, events).value;
      FoldMirrors(env.score, s, now, events, Logged(w.log), sid, undisturbed);
      CloseMirrors(q, History(Logged(w.log) + q.taken, sid), sid, now - RETENTION, flag);
      assert Logged(w.log + Entries(q.taken, now)) == Logged(w.log) + q.taken;
    } else {
      assert OpenedBy(env, w, call) == {};
    }
  }

  lemma {:induction false} RunMirrors(env: Setting, created: int, calls: seq<Call>, sid: StreamId)
    requires Steady(created, calls)
    ensures WorldMirrors(Run(env, created, calls), sid, sid !in EverOpened(env, created, calls))
  {
    hide Serve, WorldMirrors, Outlived, Sound, OpenedBy;
    if calls == [] {
      BeginMirrors(created, sid);
    } else {
      var rest := calls[..|calls| - 1];
      RunMirrors(env, created, rest, sid);
      RunSound(env, created, rest);
      RunClock(env, created, rest);
      SoundOutlived(Run(env, created, rest));
      ServeMirrors(env, Run(env, created, rest), calls[|calls| - 1], sid, sid !in EverOpened(env, created, rest));
    }
  }

  lemma BeginMirrors(created: int, sid: StreamId)
    ensures WorldMirrors(Begin(created), sid, true)
  {
  }

  /** The refinement: after any run, a reader at any later time sees a stream that never
      opened an incident as exactly the newest 100 unexpired accepted samples, split into
      baseline and observation window; a stream it does not see has no unexpired sample. */
  lemma WindowsRefineHistory(env: Setting, created: int, calls: seq<Call>, sid: StreamId, now: int)
    requires Steady(created, calls) && Run(env, created, calls).clock <= now
    requires sid !in EverOpened(env, created, calls)
    ensures var s := Prune(Load(Run(env, created, calls), now).state, now);
            var rows := Newest(Fresh(History(Logged(Run(env, created, calls).log), sid), now - RETENTION), 2 * WINDOW);
            if sid in s.streams then
              && s.streams[sid].baseline + s.streams[sid].current == rows
              && s.streams[sid].baseline == (if |rows| >= WINDOW then rows[..WINDOW] else [])
            else rows == []
  {
    hide Serve, Outlived, Sound, WorldMirrors, Prune, EverOpened, History;
    var w := Run(env, created, calls);
    RunMirrors(env, created, calls, sid);
    RunSound(env, created, calls);
    SoundOutlived(w);
    LoadMirrors(w, sid, now, true);
    if sid !in Prune(Load(w, now).state, now).streams {
      FreshNone(History(Logged(w.log), sid), now - RETENTION);
    }
  }
}
