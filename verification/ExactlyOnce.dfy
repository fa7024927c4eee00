/** No event is ever counted twice, across pruning, cache eviction with its replay floor,
    and the store forgetting a quiet tenant; and the daily quota holds over every run.
 */
module ExactlyOnce {
  import opened Protocol
  import opened Numerics
  import opened Tenant
  import opened Batches
  import opened Runs

  // ---------------------------------------------------------------- what a batch does to the cache

  lemma AcceptCache(score: Score, s: State, e: Event)
    requires Accept(score, s, e).Ok?
    ensures var after := Accept(score, s, e).value;
            && after.dedup == s.dedup[e.id := Seen(EventHash(e), e.timestamp)]
            && after.floor == s.floor && after.accepted == s.accepted && after.duplicates == s.duplicates
  {
    hide Enter, Evaluate, Roll, Promote;
  }

  /** What a partly folded batch has taken in, relative to the cache it started from. */
  ghost predicate TookFrom(dedup: map<EventId, Seen>, floor: int, now: int, q: Progress) {
    && q.state.floor == floor
    && (forall e :: e in dedup ==> e in q.state.dedup && q.state.dedup[e] == dedup[e])
    && (forall k :: 0 <= k < |q.taken| ==>
          var e := q.taken[k];
          && now - RETENTION < e.timestamp <= now + FUTURE
          && floor < e.timestamp
          && e.id !in dedup
          && e.id in q.state.dedup && q.state.dedup[e.id] == Seen(EventHash(e), e.timestamp))
    && (forall i, j :: 0 <= i < j < |q.taken| ==> q.taken[i].id != q.taken[j].id)
  }

  lemma TookMore(dedup: map<EventId, Seen>, floor: int, now: int, q: Progress, e: Event, state: State)
    requires TookFrom(dedup, floor, now, q)
    requires now - RETENTION < e.timestamp <= now + FUTURE && floor < e.timestamp && e.id !in q.state.dedup
    requires state.floor == floor && state.dedup == q.state.dedup[e.id := Seen(EventHash(e), e.timestamp)]
    ensures TookFrom(dedup, floor, now, q.(state := state, taken := q.taken + [e]))
  {
    var taken := q.taken + [e];
    forall k | 0 <= k < |q.taken|
      ensures taken[k].id != e.id
    {
      assert taken[k] == q.taken[k] && q.taken[k].id in q.state.dedup;
    }
  }

  lemma StepTook(score: Score, dedup: map<EventId, Seen>, floor: int, now: int, q: Progress, e: Event)
    requires TookFrom(dedup, floor, now, q) && Step(score, q, now, e).Ok?
    ensures TookFrom(dedup, floor, now, Step(score, q, now, e).value)
  {
    if e.id !in q.state.dedup {
      AcceptCache(score, q.state, e);
      FloorOf(dedup, floor, now, q);
      hide Accept, TookFrom;
      TookMore(dedup, floor, now, q, e, Accept(score, q.state, e).value);
    }
  }

  lemma FloorOf(dedup: map<EventId, Seen>, floor: int, now: int, q: Progress)
    requires TookFrom(dedup, floor, now, q)
    ensures q.state.floor == floor
  {
  }

  lemma {:induction false} FoldTook(score: Score, s: State, now: int, events: seq<Event>)
    requires Fold(score, Progress(s, [], 0), now, events).Ok?
    ensures var q := Fold(score, Progress(s, [], 0), now, events).value;
            && TookFrom(s.dedup, s.floor, now, q)
            && (forall k :: 0 <= k < |q.taken| ==> q.taken[k] in events)
            && q.state.accepted == s.accepted && q.state.duplicates == s.duplicates
            && |q.taken| + q.duplicates == |events|
  {
    hide TookFrom, Step;
    if events != [] {
      var rest, e := events[..|events| - 1], events[|events| - 1];
      FoldTook(score, s, now, rest);
      var q := Fold(score, Progress(s, [], 0), now, rest).value;
      StepTook(score, s.dedup, s.floor, now, q, e);
      StepCounts(score, q, now, e);
      assert forall x :: x in rest ==> x in events;
    } else {
      TookNothing(s, now);
    }
  }

  lemma TookNothing(s: State, now: int)
    ensures TookFrom(s.dedup, s.floor, now, Progress(s, [], 0))
  {
  }

  lemma StepCounts(score: Score, q: Progress, now: int, e: Event)
    requires Step(score, q, now, e).Ok?
    ensures var after := Step(score, q, now, e).value;
            && after.state.accepted == q.state.accepted && after.state.duplicates == q.state.duplicates
            && ((after.taken == q.taken + [e] && after.duplicates == q.duplicates)
                || (after.taken == q.taken && after.duplicates == q.duplicates + 1))
  {
    if e.id !in q.state.dedup {
      AcceptCache(score, q.state, e);
      hide Accept;
    }
  }

  // ---------------------------------------------------------------- the run invariant

  /** An accepted event is still cached, or at or below the floor, or past retention. */
  ghost predicate Remembered(dedup: map<EventId, Seen>, floor: int, now: int, e: Event) {
    || (e.id in dedup && dedup[e.id] == Seen(EventHash(e), e.timestamp))
    || e.timestamp <= floor
    || e.timestamp <= now - RETENTION
  }

  ghost predicate AllRemembered(log: seq<Entry>, s: State, now: int) {
    forall k :: 0 <= k < |log| ==> Remembered(s.dedup, s.floor, now, log[k].event)
  }

  ghost predicate OnlyOnce(log: seq<Entry>) {
    forall i, j :: 0 <= i < j < |log| ==>
      !(log[i].event.id == log[j].event.id && log[i].event.timestamp == log[j].event.timestamp)
  }

  /** The store keeps a document until everything it deduplicates has aged out. */
  ghost predicate Outlived(w: World) {
    forall k :: 0 <= k < |w.log| ==>
      && w.log[k].at <= w.clock
      && w.log[k].event.timestamp <= w.log[k].at + FUTURE
      && w.log[k].at + STORE_RETENTION <= w.expires
  }

  ghost predicate Sound(w: World) {
    && AllRemembered(w.log, w.document.state, w.clock)
    && Outlived(w)
    && OnlyOnce(w.log)
  }

  /** Whatever the store hands back, expired or not, still accounts for the whole log. */
  lemma LoadRemembers(w: World, now: int)
    requires AllRemembered(w.log, w.document.state, w.clock) && Outlived(w)
    requires w.clock <= now
    ensures AllRemembered(w.log, Prune(Load(w, now).state, now), now)
  {
    forall k | 0 <= k < |w.log|
      ensures Remembered(Prune(Load(w, now).state, now).dedup, Load(w, now).state.floor, now, w.log[k].event)
    {
      assert Remembered(w.document.state.dedup, w.document.state.floor, w.clock, w.log[k].event);
    }
  }

  /** A batch takes in nothing the log already holds. */
  lemma TakenIsNew(log: seq<Entry>, s: State, now: int, q: Progress, k: nat, j: nat)
    requires AllRemembered(log, s, now) && TookFrom(s.dedup, s.floor, now, q)
    requires k < |q.taken| && j < |log|
    ensures !(log[j].event.id == q.taken[k].id && log[j].event.timestamp == q.taken[k].timestamp)
  {
    assert Remembered(s.dedup, s.floor, now, log[j].event);
  }

  lemma CloseRemembers(log: seq<Entry>, s: State, now: int, q: Progress)
    requires AllRemembered(log, s, now) && TookFrom(s.dedup, s.floor, now, q)
    ensures AllRemembered(log + Entries(q.taken, now), Close(q), now)
  {
    hide Evict;
    var before := Cache(q.state.dedup, q.state.floor);
    EvictSound(before);
    var all := log + Entries(q.taken, now);
    forall k | 0 <= k < |all|
      ensures Remembered(Close(q).dedup, Close(q).floor, now, all[k].event)
    {
      assert Remembered(q.state.dedup, q.state.floor, now, all[k].event) by {
        if k < |log| {
          assert Remembered(s.dedup, s.floor, now, log[k].event);
        } else {
          assert all[k].event == q.taken[k - |log|];
        }
      }
    }
  }

  lemma LogStaysOnce(log: seq<Entry>, s: State, now: int, q: Progress)
    requires AllRemembered(log, s, now) && TookFrom(s.dedup, s.floor, now, q) && OnlyOnce(log)
    ensures OnlyOnce(log + Entries(q.taken, now))
  {
    var all := log + Entries(q.taken, now);
    forall i, j | 0 <= i < j < |all|
      ensures !(all[i].event.id == all[j].event.id && all[i].event.timestamp == all[j].event.timestamp)
    {
      if j >= |log| {
        assert all[j].event == q.taken[j - |log|];
        if i < |log| {
          TakenIsNew(log, s, now, q, j - |log|, i);
        } else {
          assert all[i].event == q.taken[i - |log|];
        }
      }
    }
  }

  /** The fold behind a successful call, and everything said about it above. */
  lemma ServedFold(env: Setting, doc: Document, events: seq<Event>, now: int) returns (q: Progress)
    requires Ingest(env, doc, events, now).Ok?
    ensures var done := Ingest(env, doc, events, now).value;
            && TookFrom(Prune(doc.state, now).dedup, doc.state.floor, now, q)
            && done.document.state == Close(q) && done.taken == q.taken
            && done.receipt == Receipt(|q.taken|, q.duplicates)
            && |q.taken| + q.duplicates == |events|
            && (forall k :: 0 <= k < |q.taken| ==> q.taken[k] in events)
  {
    hide Fold, Close, TookFrom;
    var s := Prune(doc.state, now);
    q := Fold(env.score, Progress(s, [], 0), now, SortEvents(events)).value;
    FoldTook(env.score, s, now, SortEvents(events));
    SortEventsSame(events);
    forall k | 0 <= k < |q.taken|
      ensures q.taken[k] in events
    {
      assert q.taken[k] in multiset(SortEvents(events));
    }
  }

  lemma ServeOutlived(env: Setting, w: World, call: Call)
    requires Outlived(w) && w.clock <= call.now
    ensures Outlived(Serve(env, w, call))
  {
    hide Ingest;
    if Ingest(env, Load(w, call.now), call.events, call.now).Ok? {
      var q := ServedFold(env, Load(w, call.now), call.events, call.now);
      var after := Serve(env, w, call);
      forall k | 0 <= k < |after.log|
        ensures after.log[k].at <= after.clock
        ensures after.log[k].event.timestamp <= after.log[k].at + FUTURE
        ensures after.log[k].at + STORE_RETENTION <= after.expires
      {
        if k >= |w.log| {
          assert after.log[k] == Entry(q.taken[k - |w.log|], call.now);
        } else {
          assert after.log[k] == w.log[k];
        }
      }
    }
  }

  lemma ServeSound(env: Setting, w: World, call: Call)
    requires Sound(w) && w.clock <= call.now
    ensures Sound(Serve(env, w, call))
  {
    hide Ingest, Close, TookFrom, Outlived, OnlyOnce, Prune;
    ServeOutlived(env, w, call);
    if Ingest(env, Load(w, call.now), call.events, call.now).Ok? {
      var s := Prune(Load(w, call.now).state, call.now);
      var q := ServedFold(env, Load(w, call.now), call.events, call.now);
      LoadRemembers(w, call.now);
      PruneFloor(Load(w, call.now).state, call.now);
      CloseRemembers(w.log, s, call.now, q);
      LogStaysOnce(w.log, s, call.now, q);
    } else {
      assert AllRemembered(w.log, w.document.state, call.now);
    }
  }

  lemma PruneFloor(s: State, now: int)
    ensures Prune(s, now).floor == s.floor
  {
  }

  lemma {:induction false} RunSound(env: Setting, created: int, calls: seq<Call>)
    requires Steady(created, calls)
    ensures Sound(Run(env, created, calls))
  {
    hide Serve, Sound;
    if calls != [] {
      RunSound(env, created, calls[..|calls| - 1]);
      RunClock(env, created, calls[..|calls| - 1]);
      ServeSound(env, Run(env, created, calls[..|calls| - 1]), calls[|calls| - 1]);
    } else {
      BeginSound(created);
    }
  }

  lemma BeginSound(created: int)
    ensures Sound(Begin(created))
  {
  }

  // ---------------------------------------------------------------- main results

  /** Exactly once: over any run with a nondecreasing clock, no (id, timestamp) pair is
      accepted twice. */
  lemma AcceptedOnce(env: Setting, created: int, calls: seq<Call>)
    requires Steady(created, calls)
    ensures OnlyOnce(Run(env, created, calls).log)
  {
    RunSound(env, created, calls);
  }

  /** Replaying accepted events, at any later time and in any combination, is refused or
      reported entirely as duplicates. */
  lemma ReplayAcceptsNothing(env: Setting, created: int, calls: seq<Call>, events: seq<Event>, now: int)
    requires Steady(created, calls)
    requires Run(env, created, calls).clock <= now
    requires forall e :: e in events ==> exists k :: 0 <= k < |Run(env, created, calls).log|
                                                     && Run(env, created, calls).log[k].event == e
    ensures var r := Ingest(env, Load(Run(env, created, calls), now), events, now);
            r.Ok? ==> r.value.receipt == Receipt(0, |events|) && r.value.taken == []
  {
    hide Ingest, Prune, Run;
    var w := Run(env, created, calls);
    RunSound(env, created, calls);
    if Ingest(env, Load(w, now), events, now).Ok? {
      var s := Prune(Load(w, now).state, now);
      var q := ServedFold(env, Load(w, now), events, now);
      LoadRemembers(w, now);
      PruneFloor(Load(w, now).state, now);
      if q.taken != [] {
        assert q.taken[0] in events;
        var j :| 0 <= j < |w.log| && w.log[j].event == q.taken[0];
        TakenIsNew(w.log, s, now, q, 0, j);
      }
    }
  }

  // ---------------------------------------------------------------- the daily quota

  function OnDay(log: seq<Entry>, day: int): nat {
    if log == [] then 0
    else OnDay(log[..|log| - 1], day) + (if log[|log| - 1].at / DAY == day then 1 else 0)
  }

  lemma {:induction false} OnDayMore(log: seq<Entry>, taken: seq<Event>, now: int, day: int)
    ensures OnDay(log + Entries(taken, now), day) == OnDay(log, day) + if now / DAY == day then |taken| else 0
  {
    var all := log + Entries(taken, now);
    if taken == [] {
      assert all == log;
    } else {
      var fewer := taken[..|taken| - 1];
      OnDayMore(log, fewer, now, day);
      assert all[..|all| - 1] == log + Entries(fewer, now);
    }
  }

  lemma {:induction false} OnDayNone(log: seq<Entry>, day: int)
    requires forall k :: 0 <= k < |log| ==> log[k].at / DAY != day
    ensures OnDay(log, day) == 0
  {
    if log != [] {
      OnDayNone(log[..|log| - 1], day);
    }
  }

  ghost predicate Metered(env: Setting, w: World) {
    && (forall day :: OnDay(w.log, day) <= env.daily)
    && (match w.document.usage
        case None => w.log == []
        case Some(u) =>
          && OnDay(w.log, u.day) == u.events
          && u.day <= w.clock / DAY
          && forall k :: 0 <= k < |w.log| ==> w.log[k].at / DAY <= u.day)
  }

  /** The counter a call starts from is the day's true count, even after the store has
      forgotten the document. */
  lemma UsedToday(env: Setting, w: World, now: int)
    requires Metered(env, w) && Outlived(w) && w.clock <= now
    ensures var usage := Load(w, now).usage;
            OnDay(w.log, now / DAY) == if usage.Some? && usage.value.day == now / DAY then usage.value.events else 0
  {
    if w.expires <= now {
      OnDayNone(w.log, now / DAY);
    } else if w.document.usage.Some? && w.document.usage.value.day < now / DAY {
      OnDayNone(w.log, now / DAY);
    }
  }

  lemma ServeMetered(env: Setting, w: World, call: Call)
    requires Metered(env, w) && Outlived(w) && w.clock <= call.now
    ensures Metered(env, Serve(env, w, call))
  {
    hide Process;
    UsedToday(env, w, call.now);
    if Ingest(env, Load(w, call.now), call.events, call.now).Ok? {
      var done := Ingest(env, Load(w, call.now), call.events, call.now).value;
      var q := ServedFold(env, Load(w, call.now), call.events, call.now);
      hide Ingest, Outlived, Load;
      forall day: int
        ensures OnDay(w.log + Entries(done.taken, call.now), day)
                == OnDay(w.log, day) + if call.now / DAY == day then |done.taken| else 0
      {
        OnDayMore(w.log, done.taken, call.now, day);
      }
    }
  }

  lemma {:induction false} RunMetered(env: Setting, created: int, calls: seq<Call>)
    requires Steady(created, calls)
    ensures Metered(env, Run(env, created, calls))
  {
    hide Serve, Metered, Sound;
    if calls != [] {
      var before := Run(env, created, calls[..|calls| - 1]);
      RunMetered(env, created, calls[..|calls| - 1]);
      RunClock(env, created, calls[..|calls| - 1]);
      RunSound(env, created, calls[..|calls| - 1]);
      SoundOutlived(before);
      ServeMetered(env, before, calls[|calls| - 1]);
    } else {
      BeginMetered(env, created);
    }
  }

  lemma BeginMetered(env: Setting, created: int)
    ensures Metered(env, Begin(created))
  {
  }

  lemma SoundOutlived(w: World)
    requires Sound(w)
    ensures Outlived(w)
  {
  }

  /** No day of any run accepts more events than the quota. */
  lemma DailyQuotaHolds(env: Setting, created: int, calls: seq<Call>, day: int)
    requires Steady(created, calls)
    ensures OnDay(Run(env, created, calls).log, day) <= env.daily
  {
    RunMetered(env, created, calls);
  }
}
