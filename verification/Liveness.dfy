/** Recovery liveness over runs: once a stream's next 50 accepted events are successes
    within the recovery limits, the incident that was open is closed for good, whatever is
    accepted, refused, pruned, evicted or forgotten before or after.
 */
module Liveness {
  import opened Protocol
  import opened Numerics
  import opened Judgement
  import opened Tenant
  import opened Invariants
  import opened Pruning
  import opened Batches
  import opened Runs
  import opened ExactlyOnce
  import opened Reachable
  import opened TwoWindows
  import opened Provenance
  import opened Healing

  // ---------------------------------------------------------------- counting accepted events

  /** The accepted events of one stream, counted. */
  function CountFor(taken: seq<Event>, sid: StreamId): nat {
    if taken == [] then 0
    else CountFor(taken[..|taken| - 1], sid) + (if StreamOf(taken[|taken| - 1]) == sid then 1 else 0)
  }

  /** Every one of these events that belongs to the stream is a helpful success. */
  ghost predicate AllHelp(base: seq<Sample>, silent: set<Metric>, sid: StreamId, taken: seq<Event>) {
    forall k :: 0 <= k < |taken| && StreamOf(taken[k]) == sid ==> Helps(base, silent, taken[k])
  }

  /** The first 50 events of the stream among these are all helpful. */
  ghost predicate Eased(base: seq<Sample>, silent: set<Metric>, sid: StreamId, taken: seq<Event>) {
    exists m :: 0 <= m <= |taken| && AllHelp(base, silent, sid, taken[..m]) && CountFor(taken[..m], sid) >= WINDOW
  }

  lemma CountMore(taken: seq<Event>, e: Event, sid: StreamId)
    ensures CountFor(taken + [e], sid) == CountFor(taken, sid) + if StreamOf(e) == sid then 1 else 0
  {
    assert (taken + [e])[..|taken|] == taken;
  }

  lemma HelpMore(base: seq<Sample>, silent: set<Metric>, sid: StreamId, taken: seq<Event>, e: Event)
    requires AllHelp(base, silent, sid, taken + [e])
    ensures AllHelp(base, silent, sid, taken) && (StreamOf(e) == sid ==> Helps(base, silent, e))
  {
    hide Helps;
    assert forall k :: 0 <= k < |taken| ==> (taken + [e])[k] == taken[k];
    assert (taken + [e])[|taken|] == e;
  }

  /** One more event eases the incident only if it was eased before, or every event so far helps. */
  lemma EasedMore(base: seq<Sample>, silent: set<Metric>, sid: StreamId, taken: seq<Event>, e: Event)
    requires Eased(base, silent, sid, taken + [e])
    ensures Eased(base, silent, sid, taken)
            || (AllHelp(base, silent, sid, taken + [e]) && CountFor(taken + [e], sid) >= WINDOW)
  {
    hide AllHelp;
    var all := taken + [e];
    var m :| 0 <= m <= |all| && AllHelp(base, silent, sid, all[..m]) && CountFor(all[..m], sid) >= WINDOW;
    if m == |all| {
      assert all[..m] == all;
    } else {
      assert all[..m] == taken[..m];
    }
  }

  // ---------------------------------------------------------------- following one incident

  /** What the events accepted since some point say about an incident open at that point. */
  ghost predicate Tracked(when: Clock, s: State, base: seq<Sample>, silent: set<Metric>, id: IncidentId,
                          taken: seq<Event>, cutoff: int)
  {
    && Retired(when, s, id.onset, cutoff)
    && (AllHelp(base, silent, id.stream, taken) ==> Heals(s, base, silent, id, CountFor(taken, id.stream)))
    && (Eased(base, silent, id.stream, taken) ==> !IsOpen(s, id))
  }

  lemma AcceptTracked(score: Score, when: Clock, s: State, base: seq<Sample>, silent: set<Metric>, id: IncidentId,
                      taken: seq<Event>, e: Event, cutoff: int)
    requires Clears(score) && Inv(score, when, s) && Accept(score, s, e).Ok?
    requires e.timestamp == when(e.id) && e.id !in s.dedup && s.floor < e.timestamp && cutoff < e.timestamp
    requires Tracked(when, s, base, silent, id, taken, cutoff)
    ensures Tracked(when, Accept(score, s, e).value, base, silent, id, taken + [e], cutoff)
  {
    hide Clears, Inv, Accept, Retired, Heals, IsOpen, AllHelp, Eased, Helps;
    var after, sid := Accept(score, s, e).value, id.stream;
    RetiredAccept(score, when, s, e, id.onset, cutoff);
    CountMore(taken, e, sid);
    if AllHelp(base, silent, sid, taken + [e]) {
      HelpMore(base, silent, sid, taken, e);
      AcceptHeals(score, when, s, base, silent, e, id, CountFor(taken, sid), cutoff);
    }
    if Eased(base, silent, sid, taken + [e]) {
      EasedMore(base, silent, sid, taken, e);
      if Eased(base, silent, sid, taken) {
        AcceptKeepsClosed(score, when, s, e, id, cutoff);
      } else {
        FullWindowCloses(after, base, silent, id, CountFor(taken + [e], sid));
      }
    }
  }

  lemma StepTracked(score: Score, when: Clock, p: Progress, base: seq<Sample>, silent: set<Metric>, id: IncidentId,
                    past: seq<Event>, now: int, e: Event)
    requires Clears(score) && Inv(score, when, p.state) && e.timestamp == when(e.id)
    requires Tracked(when, p.state, base, silent, id, past + p.taken, now - RETENTION)
    requires Step(score, p, now, e).Ok?
    ensures var q := Step(score, p, now, e).value;
            Tracked(when, q.state, base, silent, id, past + q.taken, now - RETENTION)
  {
    hide Clears, Inv, Accept, Tracked;
    if e.id !in p.state.dedup {
      AcceptTracked(score, when, p.state, base, silent, id, past + p.taken, e, now - RETENTION);
      assert past + p.taken + [e] == past + (p.taken + [e]);
    }
  }

  lemma {:induction false} FoldTracked(score: Score, when: Clock, s: State, base: seq<Sample>, silent: set<Metric>,
                                       id: IncidentId, past: seq<Event>, now: int, events: seq<Event>)
    requires Clears(score) && Inv(score, when, s) && Timed(when, events)
    requires Tracked(when, s, base, silent, id, past, now - RETENTION)
    requires Fold(score, Progress(s, [], 0), now, events).Ok?
    ensures var q := Fold(score, Progress(s, [], 0), now, events).value;
            Tracked(when, q.state, base, silent, id, past + q.taken, now - RETENTION)
  {
    hide Clears, Inv, Step, Tracked;
    var p := Progress(s, [], 0);
    if events == [] {
      assert past + [] == past;
    } else {
      var n := |events| - 1;
      FoldTracked(score, when, s, base, silent, id, past, now, events[..n]);
      FoldInv(score, when, p, now, events[..n]);
      StepTracked(score, when, Fold(score, p, now, events[..n]).value, base, silent, id, past, now, events[n]);
    }
  }

  lemma PruneTracked(score: Score, when: Clock, s: State, base: seq<Sample>, silent: set<Metric>, id: IncidentId,
                     taken: seq<Event>, c1: int, c2: int)
    requires Inv(score, when, s) && c1 <= c2 && Tracked(when, s, base, silent, id, taken, c1)
    ensures Tracked(when, PruneAt(s, c2), base, silent, id, taken, c2)
  {
    hide Inv, PruneAt, Retired, Heals, IsOpen, AllHelp, Eased;
    PruneRetired(when, s, id.onset, c1, c2);
    if AllHelp(base, silent, id.stream, taken) {
      PruneHeals(score, when, s, base, silent, id, CountFor(taken, id.stream), c2);
    }
    if Eased(base, silent, id.stream, taken) {
      PruneKeepsClosed(score, when, s, id, c2);
    }
  }

  lemma CloseTracked(when: Clock, q: Progress, base: seq<Sample>, silent: set<Metric>, id: IncidentId,
                     taken: seq<Event>, cutoff: int)
    requires Tracked(when, q.state, base, silent, id, taken, cutoff)
    ensures Tracked(when, Close(q), base, silent, id, taken, cutoff)
  {
    CloseRetired(when, q, id.onset, cutoff);
    hide Retired, AllHelp, Eased, Evict, Recovering;
    if AllHelp(base, silent, id.stream, taken) {
      CloseHeals(q, base, silent, id, CountFor(taken, id.stream));
    }
  }

  lemma CloseHeals(q: Progress, base: seq<Sample>, silent: set<Metric>, id: IncidentId, n: nat)
    requires Heals(q.state, base, silent, id, n)
    ensures Heals(Close(q), base, silent, id, n)
  {
    hide Evict, Helpful, Muted, Unblamed;
    forall k | 0 <= k < |q.state.incidents| && q.state.incidents[k].id == id && q.state.incidents[k].status.Open?
      ensures Recovering(Close(q), base, silent, q.state.incidents[k], n)
    {
      assert Recovering(q.state, base, silent, q.state.incidents[k], n);
    }
  }

  // ---------------------------------------------------------------- over runs

  /** The events a run accepts in these calls, after those. */
  ghost function Since(env: Setting, created: int, past: seq<Call>, calls: seq<Call>): seq<Event> {
    if calls == [] then []
    else
      var n := |calls| - 1;
      var w := Run(env, created, past + calls[..n]);
      Since(env, created, past, calls[..n])
      + match Ingest(env, Load(w, calls[n].now), calls[n].events, calls[n].now)
        case Ok(done) => done.taken
        case Err(_) => []
  }

  lemma LastCall(past: seq<Call>, calls: seq<Call>)
    requires calls != []
    ensures var n := |calls| - 1;
            (past + calls)[..|past + calls| - 1] == past + calls[..n] && (past + calls)[|past + calls| - 1] == calls[n]
  {
  }

  /** They are what the log gained. */
  lemma {:induction false} SinceLog(env: Setting, created: int, past: seq<Call>, calls: seq<Call>)
    ensures Logged(Run(env, created, past + calls).log)
            == Logged(Run(env, created, past).log) + Since(env, created, past, calls)
  {
    hide Ingest;
    if calls == [] {
      assert past + calls == past;
    } else {
      var n := |calls| - 1;
      LastCall(past, calls);
      SinceLog(env, created, past, calls[..n]);
      var w := Run(env, created, past + calls[..n]);
      if Ingest(env, Load(w, calls[n].now), calls[n].events, calls[n].now).Ok? {
        var taken := Ingest(env, Load(w, calls[n].now), calls[n].events, calls[n].now).value.taken;
        assert Logged(w.log + Entries(taken, calls[n].now)) == Logged(w.log) + taken;
      }
    }
  }

  ghost predicate WorldTracked(when: Clock, w: World, base: seq<Sample>, silent: set<Metric>, id: IncidentId,
                               taken: seq<Event>) {
    && w.expires - STORE_RETENTION <= w.clock
    && when(id.onset) + STORE_RETENTION <= w.expires + FUTURE
    && Tracked(when, w.document.state, base, silent, id, taken, w.expires - STORE_RETENTION - RETENTION)
  }

  /** A forgotten tenant has no incident, and by then the onset is past retention. */
  lemma ForgottenTracked(when: Clock, base: seq<Sample>, silent: set<Metric>, id: IncidentId, taken: seq<Event>,
                         cutoff: int)
    requires when(id.onset) <= cutoff
    ensures Tracked(when, EMPTY, base, silent, id, taken, cutoff)
  {
  }

  lemma LoadTracked(env: Setting, when: Clock, w: World, base: seq<Sample>, silent: set<Metric>, id: IncidentId,
                    taken: seq<Event>, now: int)
    requires WorldTracked(when, w, base, silent, id, taken) && w.clock <= now && Inv(env.score, when, w.document.state)
    ensures Tracked(when, Prune(Load(w, now).state, now), base, silent, id, taken, now - RETENTION)
    ensures Inv(env.score, when, Prune(Load(w, now).state, now))
  {
    hide Inv, Tracked, PruneAt;
    EmptyHealthy(env.score, when);
    if w.expires > now {
      PruneTracked(env.score, when, w.document.state, base, silent, id, taken,
                   w.expires - STORE_RETENTION - RETENTION, now - RETENTION);
    } else {
      ForgottenTracked(when, base, silent, id, taken, now - RETENTION);
      PruneTracked(env.score, when, EMPTY, base, silent, id, taken, now - RETENTION, now - RETENTION);
    }
    PruneInv(env.score, when, Load(w, now).state, now);
  }

  lemma ServeTracked(env: Setting, when: Clock, w: World, call: Call, base: seq<Sample>, silent: set<Metric>,
                     id: IncidentId, taken: seq<Event>)
    requires Clears(env.score) && Inv(env.score, when, w.document.state) && Timed(when, call.events)
    requires WorldTracked(when, w, base, silent, id, taken) && w.clock <= call.now
    ensures var more := match Ingest(env, Load(w, call.now), call.events, call.now)
                        case Ok(done) => done.taken case Err(_) => [];
            WorldTracked(when, Serve(env, w, call), base, silent, id, taken + more)
  {
    hide Clears, Inv, Tracked, Fold, Close, PruneAt, SortEvents, Timed;
    var now, events := call.now, SortEvents(call.events);
    if Ingest(env, Load(w, now), call.events, now).Ok? {
      var s := Prune(Load(w, now).state, now);
      LoadTracked(env, when, w, base, silent, id, taken, now);
      SortTimed(when, call.events);
      FoldTracked(env.score, when, s, base, silent, id, taken, now, events);
      var q := Fold(env.score, Progress(s, [], 0), now, events).value;
      CloseTracked(when, q, base, silent, id, taken + q.taken, now - RETENTION);
    } else {
      assert taken + [] == taken;
    }
  }

  lemma {:induction false} RunTracked(env: Setting, when: Clock, created: int, past: seq<Call>, calls: seq<Call>,
                                      base: seq<Sample>, silent: set<Metric>, id: IncidentId)
    requires Clears(env.score) && TimedCalls(when, past + calls) && Steady(created, past + calls)
    requires WorldTracked(when, Run(env, created, past), base, silent, id, [])
    ensures WorldTracked(when, Run(env, created, past + calls), base, silent, id, Since(env, created, past, calls))
  {
    hide Clears, WorldTracked, Serve, Ingest, Inv, Timed;
    if calls == [] {
      assert past + calls == past;
    } else {
      var n := |calls| - 1;
      LastCall(past, calls);
      var before := past + calls[..n];
      assert forall k :: 0 <= k < |before| ==> before[k] == (past + calls)[k];
      RunTracked(env, when, created, past, calls[..n], base, silent, id);
      RunHealthy(env, when, created, before);
      RunClock(env, created, before);
      ServeTracked(env, when, Run(env, created, before), calls[n], base, silent, id,
                   Since(env, created, past, calls[..n]));
    }
  }

  // ---------------------------------------------------------------- where the following starts

  /** Silent metrics have no part in the incident, nor a value in its stream's window. */
  ghost predicate Silenced(s: State, k: nat, silent: set<Metric>)
    requires k < |s.incidents|
  {
    var inc := s.incidents[k];
    && inc.status.Open? && inc.streamId in s.streams
    && Unblamed(silent, inc.signals.Keys)
    && Muted(s.streams[inc.streamId].baseline, silent, s.streams[inc.streamId].current)
  }

  lemma StartTracked(score: Score, when: Clock, s: State, k: nat, silent: set<Metric>, cutoff: int)
    requires Inv(score, when, s) && k < |s.incidents| && Silenced(s, k, silent)
    ensures Tracked(when, s, s.streams[s.incidents[k].streamId].baseline, silent, s.incidents[k].id, [], cutoff)
    ensures s.incidents[k].id.stream == s.incidents[k].streamId
    ensures s.incidents[k].openedAt == when(s.incidents[k].id.onset)
  {
    hide Linked, Live, Cached, Muted, Unblamed;
    var inc := s.incidents[k];
    StreamOfOpen(score, when, s, k);
    assert Spent(when, s.dedup, s.floor, inc);
    forall j | 0 <= j < |s.incidents| && s.incidents[j].id == inc.id && s.incidents[j].status.Open?
      ensures Recovering(s, s.streams[inc.streamId].baseline, silent, s.incidents[j], 0)
    {
      IdsDistinct(score, when, s, j, k);
    }
  }

  /** An open incident was opened no later than the store's last write allowed. */
  lemma OpenedInTime(env: Setting, when: Clock, created: int, calls: seq<Call>, k: nat)
    requires TimedCalls(when, calls) && Steady(created, calls)
    requires k < |Run(env, created, calls).document.state.incidents|
    requires Run(env, created, calls).document.state.incidents[k].status.Open?
    ensures var w := Run(env, created, calls);
            w.document.state.incidents[k].openedAt + STORE_RETENTION <= w.expires + FUTURE
  {
    var w := Run(env, created, calls);
    var s := w.document.state;
    RunHealthy(env, when, created, calls);
    RunSourced(env, created, calls, w.clock);
    RunSound(env, created, calls);
    SoundOutlived(w);
    StreamOfOpen(env.score, when, s, k);
    hide Run, Inv, Sound, Prune, Load;
    var sid := s.incidents[k].streamId;
    NewestLogged(sid, s.streams[sid], w.log);
    var j :| 0 <= j < |w.log| && w.log[j].event.timestamp == s.streams[sid].last;
  }

  lemma NewestLogged(sid: StreamId, st: Stream, log: seq<Entry>)
    requires Live(sid, st) && Drawn(st.Rows(), Logged(log), sid)
    ensures exists j :: 0 <= j < |log| && log[j].event.timestamp == st.last
  {
    hide Shaped, Drawn, Within;
    var held := HeldEvents(st.Rows(), Logged(log), sid);
    var e := held[|held| - 1];
    assert SampleOf(e).ts == st.last;
    WithinMember(held, Logged(log), e);
    var j :| 0 <= j < |Logged(log)| && Logged(log)[j] == e;
    assert log[j].event.timestamp == st.last;
  }

  // ---------------------------------------------------------------- main results

  /** Recovery liveness. Take an incident open after some calls of a run. Once the first 50
      events of its stream accepted since are successes, carrying no value of the silent
      metrics and a value within the recovery limit of every other metric the frozen
      baseline can be compared on, the incident is not open in the stored state or in what
      any reader sees, then or ever after. */
  lemma HelpfulSuccessesClose(env: Setting, when: Clock, created: int, past: seq<Call>, calls: seq<Call>,
                              k: nat, silent: set<Metric>, now: int)
    requires Clears(env.score) && TimedCalls(when, past + calls) && Steady(created, past + calls)
    requires k < |Run(env, created, past).document.state.incidents|
    requires Silenced(Run(env, created, past).document.state, k, silent)
    requires var s := Run(env, created, past).document.state;
             Eased(s.streams[s.incidents[k].streamId].baseline, silent, s.incidents[k].streamId,
                   Since(env, created, past, calls))
    requires Run(env, created, past + calls).clock <= now
    ensures var id := Run(env, created, past).document.state.incidents[k].id;
            var w := Run(env, created, past + calls);
            && !IsOpen(w.document.state, id)
            && !IsOpen(Prune(Load(w, now).state, now), id)
  {
    hide Clears, Serve, Inv, Eased, Tracked, Since, Muted, Unblamed;
    var start, w := Run(env, created, past), Run(env, created, past + calls);
    var s := start.document.state;
    var base, id := s.streams[s.incidents[k].streamId].baseline, s.incidents[k].id;
    StartTrackedWorld(env, when, created, past, calls, k, silent);
    RunTracked(env, when, created, past, calls, base, silent, id);
    RunHealthy(env, when, created, past + calls);
    LoadTracked(env, when, w, base, silent, id, Since(env, created, past, calls), now);
    ClosedOnceEased(when, w.document.state, base, silent, id, Since(env, created, past, calls),
                    w.expires - STORE_RETENTION - RETENTION);
    ClosedOnceEased(when, Prune(Load(w, now).state, now), base, silent, id, Since(env, created, past, calls),
                    now - RETENTION);
  }

  lemma StartTrackedWorld(env: Setting, when: Clock, created: int, past: seq<Call>, calls: seq<Call>, k: nat,
                          silent: set<Metric>)
    requires TimedCalls(when, past + calls) && Steady(created, past + calls)
    requires k < |Run(env, created, past).document.state.incidents|
    requires Silenced(Run(env, created, past).document.state, k, silent)
    ensures var s := Run(env, created, past).document.state;
            && s.incidents[k].id.stream == s.incidents[k].streamId
            && WorldTracked(when, Run(env, created, past), s.streams[s.incidents[k].streamId].baseline, silent,
                            s.incidents[k].id, [])
  {
    hide Run, Inv, Tracked, Serve, Muted, Unblamed, Timed, WorldMirrors;
    var w := Run(env, created, past);
    assert forall j :: 0 <= j < |past| ==> past[j] == (past + calls)[j];
    RunHealthy(env, when, created, past);
    OpenedInTime(env, when, created, past, k);
    LastWrite(env, created, past);
    StartTracked(env.score, when, w.document.state, k, silent, w.expires - STORE_RETENTION - RETENTION);
  }

  lemma {:induction false} LastWrite(env: Setting, created: int, calls: seq<Call>)
    requires Steady(created, calls)
    ensures Run(env, created, calls).expires - STORE_RETENTION <= Run(env, created, calls).clock
  {
    hide Ingest;
    if calls != [] {
      LastWrite(env, created, calls[..|calls| - 1]);
      RunClock(env, created, calls[..|calls| - 1]);
    }
  }

  lemma ClosedOnceEased(when: Clock, s: State, base: seq<Sample>, silent: set<Metric>, id: IncidentId,
                        taken: seq<Event>, cutoff: int)
    requires Tracked(when, s, base, silent, id, taken, cutoff) && Eased(base, silent, id.stream, taken)
    ensures !IsOpen(s, id)
  {
  }

  const ALL_METRICS: set<Metric> := {Latency, Tokens, Retries}

  /** A failure-rate incident on windows without comparable measurements: 50 more successes
      without any close it. */
  lemma FiftySuccessesClose(env: Setting, when: Clock, created: int, past: seq<Call>, calls: seq<Call>, k: nat,
                            now: int)
    requires Clears(env.score) && TimedCalls(when, past + calls) && Steady(created, past + calls)
    requires k < |Run(env, created, past).document.state.incidents|
    requires Silenced(Run(env, created, past).document.state, k, ALL_METRICS)
    requires var s := Run(env, created, past).document.state;
             Eased(s.streams[s.incidents[k].streamId].baseline, ALL_METRICS, s.incidents[k].streamId,
                   Since(env, created, past, calls))
    requires Run(env, created, past + calls).clock <= now
    ensures var id := Run(env, created, past).document.state.incidents[k].id;
            !IsOpen(Run(env, created, past + calls).document.state, id)
            && !IsOpen(Prune(Load(Run(env, created, past + calls), now).state, now), id)
  {
    HelpfulSuccessesClose(env, when, created, past, calls, k, ALL_METRICS, now);
  }

  /** Any open incident, whatever signals it has gathered: 50 more successes whose value of
      every comparable metric is known and within its recovery limit close it. */
  lemma CalmSuccessesClose(env: Setting, when: Clock, created: int, past: seq<Call>, calls: seq<Call>, k: nat, now: int)
    requires Clears(env.score) && TimedCalls(when, past + calls) && Steady(created, past + calls)
    requires k < |Run(env, created, past).document.state.incidents|
    requires Run(env, created, past).document.state.incidents[k].status.Open?
    ensures var s := Run(env, created, past).document.state;
            && s.incidents[k].streamId in s.streams
            && (Run(env, created, past + calls).clock <= now
                && Eased(s.streams[s.incidents[k].streamId].baseline, {}, s.incidents[k].streamId,
                         Since(env, created, past, calls))
                ==> !IsOpen(Run(env, created, past + calls).document.state, s.incidents[k].id)
                    && !IsOpen(Prune(Load(Run(env, created, past + calls), now).state, now), s.incidents[k].id))
  {
    hide Clears, Run, Since, Eased, Inv, Timed, Prune, Load;
    var s := Run(env, created, past).document.state;
    OpenHasStream(env, when, created, past, calls, k);
    assert Silenced(s, k, {});
    if Run(env, created, past + calls).clock <= now
       && Eased(s.streams[s.incidents[k].streamId].baseline, {}, s.incidents[k].streamId,
                Since(env, created, past, calls)) {
      HelpfulSuccessesClose(env, when, created, past, calls, k, {}, now);
    }
  }

  lemma OpenHasStream(env: Setting, when: Clock, created: int, past: seq<Call>, calls: seq<Call>, k: nat)
    requires TimedCalls(when, past + calls)
    requires k < |Run(env, created, past).document.state.incidents|
    requires Run(env, created, past).document.state.incidents[k].status.Open?
    ensures var s := Run(env, created, past).document.state; s.incidents[k].streamId in s.streams
  {
    hide Run, Inv, Timed;
    assert forall j :: 0 <= j < |past| ==> past[j] == (past + calls)[j];
    RunHealthy(env, when, created, past);
    StreamOfOpen(env.score, when, Run(env, created, past).document.state, k);
  }

  /** On a cold start nothing is asked of the measurements: with an empty baseline any 50
      successes close the incident. */
  lemma ColdStartCloses(env: Setting, when: Clock, created: int, past: seq<Call>, calls: seq<Call>, k: nat, m: nat,
                        now: int)
    requires Clears(env.score) && TimedCalls(when, past + calls) && Steady(created, past + calls)
    requires k < |Run(env, created, past).document.state.incidents|
    requires Run(env, created, past).document.state.incidents[k].status.Open?
    requires var s := Run(env, created, past).document.state;
             s.incidents[k].streamId in s.streams ==> s.streams[s.incidents[k].streamId].baseline == []
    requires m <= |Since(env, created, past, calls)|
    requires var sid := Run(env, created, past).document.state.incidents[k].streamId;
             var first := Since(env, created, past, calls)[..m];
             CountFor(first, sid) >= WINDOW && forall e :: e in first && StreamOf(e) == sid ==> e.failure.None?
    requires Run(env, created, past + calls).clock <= now
    ensures var id := Run(env, created, past).document.state.incidents[k].id;
            !IsOpen(Run(env, created, past + calls).document.state, id)
            && !IsOpen(Prune(Load(Run(env, created, past + calls), now).state, now), id)
  {
    hide Clears, Run, Since, Inv, Timed, Prune, Load, CountFor;
    var s := Run(env, created, past).document.state;
    var sid, first := s.incidents[k].streamId, Since(env, created, past, calls)[..m];
    assert forall metric: Metric :: Known([], metric) == [];
    forall j | 0 <= j < |first| && StreamOf(first[j]) == sid
      ensures Helps([], {}, first[j])
    {
      assert first[j] in first;
    }
    assert AllHelp([], {}, sid, first);
    CalmSuccessesClose(env, when, created, past, calls, k, now);
  }
}
