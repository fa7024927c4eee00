/** Which calls are accepted, and which refusal every other call gets: the exact verdict on
    a batch, read off the stored state and the batch alone.
 */
module Admission {
  import opened Wrappers
  import opened Collections
  import opened Protocol
  import opened Numerics
  import opened Judgement
  import opened Tenant
  import opened Pruning
  import opened Batches
  import opened BatchShape
  import opened Runs
  import opened ExactlyOnce
  import opened Invariants
  import opened Reachable
  import Engine

  // ---------------------------------------------------------------- the stored state at call time

  /** The id is cached and has not aged out. */
  predicate Recalled(s: State, now: int, id: EventId) {
    id in s.dedup && s.dedup[id].ts > now - 604800
  }

  /** The stream has not aged out. */
  predicate Stands(s: State, now: int, sid: StreamId) {
    sid in s.streams && s.streams[sid].last > now - 604800
  }

  // ---------------------------------------------------------------- one event of a batch in order

  /** The event has been seen: cached, or earlier in the batch. */
  predicate Repeats(s: State, now: int, batch: seq<Event>, i: nat)
    requires i < |batch|
  {
    Recalled(s, now, batch[i].id) || exists j :: 0 <= j < i && batch[j].id == batch[i].id
  }

  /** What was seen under the id was another event. */
  predicate Conflicts(s: State, now: int, batch: seq<Event>, i: nat)
    requires i < |batch|
  {
    if Recalled(s, now, batch[i].id) then s.dedup[batch[i].id].digest != EventHash(batch[i])
    else exists j :: 0 <= j < i && batch[j].id == batch[i].id && batch[j] != batch[i]
  }

  /** The streams there are once the first i events are in. */
  ghost function Present(s: State, now: int, batch: seq<Event>, i: nat): set<StreamId>
    requires i <= |batch|
  {
    (set sid | sid in s.streams && Stands(s, now, sid))
    + set j | 0 <= j < i && !Repeats(s, now, batch, j) :: StreamHash(batch[j].dimensions)
  }

  /** The first events of a batch that count as new, in order. */
  ghost function News(s: State, now: int, batch: seq<Event>, i: nat): (news: seq<Event>)
    requires i <= |batch|
    ensures |news| <= i
  {
    if i == 0 then []
    else News(s, now, batch, i - 1) + if Repeats(s, now, batch, i - 1) then [] else [batch[i - 1]]
  }

  /** The streams as a call with just the first i events leaves them. */
  ghost function StreamsAfter(score: Score, s: State, now: int, batch: seq<Event>, i: nat): map<StreamId, Stream>
    requires i <= |batch|
  {
    if i == 0 then Prune(s, now).streams
    else
      match Process(score, UNGUARDED, s, batch[..i], now)
      case Ok(done) => done.state.streams
      case Err(_) => map[]
  }

  /** The labels a stream's rows still use. */
  ghost function InUse(st: Stream): set<VersionId> {
    set k | 0 <= k < |st.Rows()| && st.Rows()[k].version in st.versions :: st.Rows()[k].version
  }

  /** The event would give a stream a ninth label. */
  ghost predicate Crowds(streams: map<StreamId, Stream>, e: Event) {
    && StreamHash(e.dimensions) in streams
    && var used := InUse(streams[StreamHash(e.dimensions)]);
       VersionHash(e.labels) !in used && |used| >= 8
  }

  /** Why the i-th event of a batch is refused when those before it were not. */
  ghost function Offence(score: Score, s: State, now: int, batch: seq<Event>, i: nat): Option<Error>
    requires i < |batch|
  {
    var e := batch[i];
    if e.timestamp <= now - 604800 then Some(EventExpired)
    else if e.timestamp > now + 300 then Some(EventInFuture)
    else if Repeats(s, now, batch, i) then
      if Conflicts(s, now, batch, i) then Some(EventIdConflict) else None
    else if e.timestamp <= s.floor then Some(StaleReplay)
    else NoPlace(score, s, now, batch, i)
  }

  /** Why an event that counts as new finds no place in a stream. */
  ghost function NoPlace(score: Score, s: State, now: int, batch: seq<Event>, i: nat): Option<Error>
    requires i < |batch|
  {
    var e := batch[i];
    var sid := StreamHash(e.dimensions);
    if sid !in Present(s, now, batch, i) && |Present(s, now, batch, i)| >= 16 then Some(StreamLimitExceeded)
    else if Stands(s, now, sid) && e.timestamp < s.streams[sid].last then Some(LateEvent)
    else if Crowds(StreamsAfter(score, s, now, batch, i), e) then Some(VersionLimitExceeded)
    else None
  }

  ghost predicate CleanTo(score: Score, s: State, now: int, batch: seq<Event>, i: nat)
    requires i <= |batch|
  {
    forall j :: 0 <= j < i ==> Offence(score, s, now, batch, j).None?
  }

  // ---------------------------------------------------------------- what a clean prefix leaves

  /** The cache holds exactly what has been seen, under its own digest. */
  ghost predicate CacheAt(s: State, now: int, batch: seq<Event>, i: nat, dedup: map<EventId, Seen>)
    requires i <= |batch|
  {
    && (forall id :: Recalled(s, now, id) ==> id in dedup && dedup[id] == s.dedup[id])
    && (forall j :: 0 <= j < i ==> batch[j].id in dedup && dedup[batch[j].id].digest == EventHash(batch[j]))
    && (forall id :: id in dedup && !Recalled(s, now, id) ==> exists j :: 0 <= j < i && batch[j].id == id)
  }

  /** A stream last saw its newest event of the batch, or what it had seen before. */
  ghost predicate LastAt(s: State, now: int, batch: seq<Event>, i: nat, sid: StreamId, st: Stream)
    requires i <= |batch|
  {
    || (Stands(s, now, sid) && st.last == s.streams[sid].last)
    || ((Stands(s, now, sid) ==> s.streams[sid].last <= st.last)
        && exists j :: 0 <= j < i && batch[j].timestamp == st.last)
  }

  ghost predicate At(s: State, now: int, batch: seq<Event>, i: nat, p: Progress)
    requires i <= |batch|
  {
    && p.taken == News(s, now, batch, i) && p.duplicates == i - |p.taken|
    && p.state.floor == s.floor
    && CacheAt(s, now, batch, i, p.state.dedup)
    && p.state.streams.Keys == Present(s, now, batch, i)
    && (forall sid :: sid in p.state.streams ==> LastAt(s, now, batch, i, sid, p.state.streams[sid]))
  }

  lemma StartAt(s: State, now: int, batch: seq<Event>)
    ensures At(s, now, batch, 0, Progress(Prune(s, now), [], 0))
  {
    hide PruneIncidents, PruneStream;
    var streams := Prune(s, now).streams;
    forall sid | sid in streams
      ensures LastAt(s, now, batch, 0, sid, streams[sid])
    {
      PruneKeepsLast(s.streams[sid], now - RETENTION, s.incidents);
    }
    hide LastAt;
    assert CacheAt(s, now, batch, 0, Prune(s, now).dedup);
    hide CacheAt;
    assert streams.Keys == Present(s, now, batch, 0);
  }

  // ---------------------------------------------------------------- one step

  lemma SeenBefore(s: State, now: int, batch: seq<Event>, i: nat, dedup: map<EventId, Seen>)
    requires i < |batch| && CacheAt(s, now, batch, i, dedup)
    ensures batch[i].id in dedup <==> Repeats(s, now, batch, i)
    ensures batch[i].id in dedup ==>
              (dedup[batch[i].id].digest != EventHash(batch[i]) <==> Conflicts(s, now, batch, i))
  {
  }

  lemma LateHere(s: State, now: int, batch: seq<Event>, i: nat, sid: StreamId, st: Stream)
    requires InKeyOrder(batch) && i < |batch| && LastAt(s, now, batch, i, sid, st)
    ensures batch[i].timestamp < st.last <==> Stands(s, now, sid) && batch[i].timestamp < s.streams[sid].last
  {
    forall j | 0 <= j < i
      ensures batch[j].timestamp <= batch[i].timestamp
    {
      assert !KeyBelow(batch[i], batch[j]);
    }
  }

  /** What keeps an unseen event out of the streams there are. */
  ghost function Barred(streams: map<StreamId, Stream>, e: Event): Option<Error> {
    var sid := StreamHash(e.dimensions);
    if sid !in streams && |streams| >= 16 then Some(StreamLimitExceeded)
    else if sid in streams && e.timestamp < streams[sid].last then Some(LateEvent)
    else if Crowds(streams, e) then Some(VersionLimitExceeded)
    else None
  }

  lemma EnterVerdict(s: State, e: Event)
    ensures match Barred(s.streams, e)
            case Some(error) => Enter(s, e) == Err(error)
            case None => Enter(s, e).Ok?
  {
    var st := if StreamOf(e) in s.streams then s.streams[StreamOf(e)] else NewStream(e);
    assert Trim(st).versions.Keys == InUse(st);
    assert |Trim(st).versions| == |Trim(st).versions.Keys|;
  }

  lemma AcceptVerdict(score: Score, s: State, e: Event)
    ensures match Barred(s.streams, e)
            case Some(error) => Accept(score, s, e) == Err(error)
            case None => Accept(score, s, e).Ok? || Accept(score, s, e) == Err(PythonException)
  {
    hide Enter, Roll, Signals, Recovered, MakeRoom, StatsOf, Promote, Barred;
    EnterVerdict(s, e);
  }

  lemma BarredHere(score: Score, s: State, now: int, batch: seq<Event>, i: nat, streams: map<StreamId, Stream>)
    requires InKeyOrder(batch) && i < |batch|
    requires streams.Keys == Present(s, now, batch, i) && streams == StreamsAfter(score, s, now, batch, i)
    requires forall sid :: sid in streams ==> LastAt(s, now, batch, i, sid, streams[sid])
    ensures Barred(streams, batch[i]) == NoPlace(score, s, now, batch, i)
  {
    hide StreamsAfter, Repeats;
    var sid := StreamHash(batch[i].dimensions);
    assert Stands(s, now, sid) ==> sid in streams;
    assert |streams| == |streams.Keys|;
    hide Present, Crowds;
    if sid in streams {
      LateHere(s, now, batch, i, sid, streams[sid]);
    }
    hide InKeyOrder, LastAt;
  }

  lemma StepVerdict(score: Score, s: State, now: int, batch: seq<Event>, i: nat, p: Progress)
    requires InKeyOrder(batch) && i < |batch| && At(s, now, batch, i, p)
    requires p.state.streams == StreamsAfter(score, s, now, batch, i)
    ensures match Offence(score, s, now, batch, i)
            case Some(error) => Step(score, p, now, batch[i]) == Err(error)
            case None => Step(score, p, now, batch[i]).Ok? || Step(score, p, now, batch[i]) == Err(PythonException)
  {
    hide CacheAt, LastAt, Repeats, Conflicts, NoPlace, Present, StreamsAfter, Accept, Barred, InKeyOrder, News;
    BarredHere(score, s, now, batch, i, p.state.streams);
    AcceptVerdict(score, p.state, batch[i]);
    SeenBefore(s, now, batch, i, p.state.dedup);
    assert p.state.floor == s.floor;
    hide At;
  }

  /** An acceptance, taken apart. */
  lemma AcceptParts(score: Score, s: State, e: Event)
    requires Accept(score, s, e).Ok?
    ensures Enter(s, e).Ok?
    ensures var rolled := Roll(Enter(s, e).value, SampleOf(e));
            var evaluated := Evaluate(score, s.incidents, StreamOf(e), rolled, e);
            && evaluated.Ok?
            && Accept(score, s, e).value.incidents == evaluated.value.incidents
            && Accept(score, s, e).value.streams
               == s.streams[StreamHash(e.dimensions) := Promote(evaluated.value.stream)]
  {
    hide Enter, Roll, Evaluate, Promote, SampleOf;
  }

  /** What accepting does to the streams, but for the accepted one's windows. */
  lemma AcceptStreams(score: Score, s: State, e: Event)
    requires Accept(score, s, e).Ok?
    ensures var after, sid := Accept(score, s, e).value, StreamHash(e.dimensions);
            && after.streams.Keys == s.streams.Keys + {sid}
            && after.streams[sid].last == e.timestamp
            && (forall id :: id in s.streams && id != sid ==> after.streams[id] == s.streams[id])
            && (sid in s.streams ==> s.streams[sid].last <= e.timestamp)
  {
    AcceptParts(score, s, e);
    hide Accept;
    EnterSame(s, e);
    hide Enter, Evaluate;
    var rolled := Roll(Enter(s, e).value, SampleOf(e));
    assert rolled.last == e.timestamp;
    hide Roll;
    EvaluateLast(score, s.incidents, StreamOf(e), rolled, e);
  }

  lemma EvaluateLast(score: Score, incidents: seq<Incident>, sid: StreamId, st: Stream, e: Event)
    requires Evaluate(score, incidents, sid, st, e).Ok?
    ensures Evaluate(score, incidents, sid, st, e).value.stream.last == st.last
  {
    hide Evaluate, Newest;
    EvaluateWindows(score, incidents, sid, st, e);
  }

  lemma LastMore(s: State, now: int, batch: seq<Event>, i: nat, before: map<StreamId, Stream>,
                 after: map<StreamId, Stream>)
    requires i < |batch| && !Repeats(s, now, batch, i)
    requires before.Keys == Present(s, now, batch, i)
    requires forall sid :: sid in before ==> LastAt(s, now, batch, i, sid, before[sid])
    requires var sid := StreamHash(batch[i].dimensions);
             && after.Keys == before.Keys + {sid} && after[sid].last == batch[i].timestamp
             && (forall id :: id in before && id != sid ==> after[id] == before[id])
             && (sid in before ==> before[sid].last <= batch[i].timestamp)
    ensures forall sid :: sid in after ==> LastAt(s, now, batch, i + 1, sid, after[sid])
  {
    hide Repeats;
    var own := StreamHash(batch[i].dimensions);
    assert Stands(s, now, own) ==> own in before;
    hide Present, Stands;
    forall sid | sid in after
      ensures LastAt(s, now, batch, i + 1, sid, after[sid])
    {
      if sid == own {
        assert batch[i].timestamp == after[sid].last;
      }
    }
  }

  lemma RepeatsHere(s: State, now: int, batch: seq<Event>, i: nat, dedup: map<EventId, Seen>)
    requires i < |batch| && CacheAt(s, now, batch, i, dedup)
    requires Repeats(s, now, batch, i) && !Conflicts(s, now, batch, i)
    ensures CacheAt(s, now, batch, i + 1, dedup)
  {
    SeenBefore(s, now, batch, i, dedup);
  }

  lemma CachedHere(s: State, now: int, batch: seq<Event>, i: nat, dedup: map<EventId, Seen>)
    requires i < |batch| && CacheAt(s, now, batch, i, dedup) && !Repeats(s, now, batch, i)
    ensures CacheAt(s, now, batch, i + 1, dedup[batch[i].id := Seen(EventHash(batch[i]), batch[i].timestamp)])
  {
    SeenBefore(s, now, batch, i, dedup);
  }

  lemma PresentMore(s: State, now: int, batch: seq<Event>, i: nat)
    requires i < |batch|
    ensures Present(s, now, batch, i + 1)
            == Present(s, now, batch, i)
               + if Repeats(s, now, batch, i) then {} else {StreamHash(batch[i].dimensions)}
  {
    hide Repeats, Stands;
  }

  lemma StepRepeats(s: State, now: int, batch: seq<Event>, i: nat, p: Progress)
    requires i < |batch| && At(s, now, batch, i, p) && Repeats(s, now, batch, i) && !Conflicts(s, now, batch, i)
    ensures At(s, now, batch, i + 1, p.(duplicates := p.duplicates + 1))
  {
    PresentMore(s, now, batch, i);
    RepeatsHere(s, now, batch, i, p.state.dedup);
    LastKeeps(s, now, batch, i, p.state.streams);
    hide Present, CacheAt, LastAt, Repeats, Conflicts;
  }

  lemma AcceptedAt(s: State, now: int, batch: seq<Event>, i: nat, p: Progress, next: State)
    requires i < |batch| && At(s, now, batch, i, p) && !Repeats(s, now, batch, i)
    requires var e := batch[i];
             var sid := StreamHash(e.dimensions);
             && next.floor == p.state.floor && next.dedup == p.state.dedup[e.id := Seen(EventHash(e), e.timestamp)]
             && next.streams.Keys == p.state.streams.Keys + {sid} && next.streams[sid].last == e.timestamp
             && (forall id :: id in p.state.streams && id != sid ==> next.streams[id] == p.state.streams[id])
             && (sid in p.state.streams ==> p.state.streams[sid].last <= e.timestamp)
    ensures At(s, now, batch, i + 1, p.(state := next, taken := p.taken + [batch[i]]))
  {
    PresentMore(s, now, batch, i);
    CachedHere(s, now, batch, i, p.state.dedup);
    LastMore(s, now, batch, i, p.state.streams, next.streams);
    hide Present, CacheAt, LastAt, Repeats;
  }

  lemma StepAccepts(score: Score, s: State, now: int, batch: seq<Event>, i: nat, p: Progress)
    requires i < |batch| && At(s, now, batch, i, p) && !Repeats(s, now, batch, i)
    requires Accept(score, p.state, batch[i]).Ok?
    ensures At(s, now, batch, i + 1,
               p.(state := Accept(score, p.state, batch[i]).value, taken := p.taken + [batch[i]]))
  {
    AcceptStreams(score, p.state, batch[i]);
    AcceptCache(score, p.state, batch[i]);
    hide Accept, At, Repeats;
    AcceptedAt(s, now, batch, i, p, Accept(score, p.state, batch[i]).value);
  }

  /** A step that succeeds counts a duplicate or accepts. */
  lemma StepForms(score: Score, p: Progress, now: int, e: Event)
    requires Step(score, p, now, e).Ok?
    ensures var q := Step(score, p, now, e).value;
            if e.id in p.state.dedup then
              p.state.dedup[e.id].digest == EventHash(e) && q == p.(duplicates := p.duplicates + 1)
            else
              var accepted := Accept(score, p.state, e);
              accepted.Ok? && q == p.(state := accepted.value, taken := p.taken + [e])
  {
    hide Accept;
  }

  /** A step without an offence brings the batch one event further. */
  lemma StepAt(score: Score, s: State, now: int, batch: seq<Event>, i: nat, p: Progress)
    requires InKeyOrder(batch) && i < |batch| && At(s, now, batch, i, p)
    requires p.state.streams == StreamsAfter(score, s, now, batch, i)
    requires Offence(score, s, now, batch, i).None? && Step(score, p, now, batch[i]).Ok?
    ensures At(s, now, batch, i + 1, Step(score, p, now, batch[i]).value)
  {
    SeenBefore(s, now, batch, i, p.state.dedup);
    StepForms(score, p, now, batch[i]);
    hide At, Present, CacheAt, LastAt, Offence, StreamsAfter, InKeyOrder, Accept, Repeats, Conflicts, Step;
    if Repeats(s, now, batch, i) {
      StepRepeats(s, now, batch, i, p);
    } else {
      StepAccepts(score, s, now, batch, i, p);
    }
  }

  lemma LastKeeps(s: State, now: int, batch: seq<Event>, i: nat, streams: map<StreamId, Stream>)
    requires i < |batch| && forall sid :: sid in streams ==> LastAt(s, now, batch, i, sid, streams[sid])
    ensures forall sid :: sid in streams ==> LastAt(s, now, batch, i + 1, sid, streams[sid])
  {
  }

  // ---------------------------------------------------------------- a whole batch

  lemma PrefixOrder(batch: seq<Event>, i: nat)
    requires InKeyOrder(batch) && i <= |batch|
    ensures SortEvents(batch[..i]) == batch[..i]
  {
    assert forall k :: 0 <= k < i ==> batch[..i][k] == batch[k];
    SortOrdered(batch[..i]);
  }

  /** The fold of a prefix is what a call with just that prefix runs. */
  lemma PrefixCall(score: Score, s: State, now: int, batch: seq<Event>, i: nat)
    requires InKeyOrder(batch) && i <= |batch| <= MAX_BATCH
    requires Fold(score, Progress(Prune(s, now), [], 0), now, batch[..i]).Ok?
    ensures StreamsAfter(score, s, now, batch, i)
            == Fold(score, Progress(Prune(s, now), [], 0), now, batch[..i]).value.state.streams
  {
    PrefixOrder(batch, i);
    if i == 0 {
      assert batch[..0] == [];
    } else {
      hide Fold, Evict, Prune, InKeyOrder, SortEvents;
    }
  }

  lemma {:induction false} FoldAt(score: Score, s: State, now: int, batch: seq<Event>, i: nat)
    requires InKeyOrder(batch) && i <= |batch| <= MAX_BATCH && CleanTo(score, s, now, batch, i)
    ensures var r := Fold(score, Progress(Prune(s, now), [], 0), now, batch[..i]);
            if r.Ok? then At(s, now, batch, i, r.value) else r == Err(PythonException)
  {
    var start := Progress(Prune(s, now), [], 0);
    if i == 0 {
      StartAt(s, now, batch);
      assert batch[..0] == [];
    } else {
      assert CleanTo(score, s, now, batch, i - 1);
      assert batch[..i][..i - 1] == batch[..i - 1] && batch[..i][i - 1] == batch[i - 1];
      FoldAt(score, s, now, batch, i - 1);
      var r := Fold(score, start, now, batch[..i - 1]);
      assert Offence(score, s, now, batch, i - 1).None?;
      if r.Ok? {
        PrefixCall(score, s, now, batch, i - 1);
        hide Fold, Step, Prune, At, CleanTo, Offence, InKeyOrder;
        StepVerdict(score, s, now, batch, i - 1, r.value);
        if Step(score, r.value, now, batch[i - 1]).Ok? {
          StepAt(score, s, now, batch, i - 1, r.value);
        }
        FoldLast(score, start, now, batch[..i]);
      }
    }
  }

  lemma FoldLast(score: Score, p: Progress, now: int, events: seq<Event>)
    requires events != []
    ensures var before := Fold(score, p, now, events[..|events| - 1]);
            Fold(score, p, now, events)
            == if before.Ok? then Step(score, before.value, now, events[|events| - 1]) else before
  {
    hide Step;
  }

  lemma FoldOffends(score: Score, s: State, now: int, batch: seq<Event>, i: nat)
    requires InKeyOrder(batch) && i < |batch| <= MAX_BATCH && CleanTo(score, s, now, batch, i)
    requires Offence(score, s, now, batch, i).Some?
    ensures Fold(score, Progress(Prune(s, now), [], 0), now, batch)
            in {Err(Offence(score, s, now, batch, i).value), Err(PythonException)}
  {
    var start := Progress(Prune(s, now), [], 0);
    hide Step, Prune, Offence, CleanTo, InKeyOrder, Fold, At;
    FoldAt(score, s, now, batch, i);
    assert batch[..i + 1][..i] == batch[..i] && batch[..i + 1][i] == batch[i];
    var r := Fold(score, start, now, batch[..i]);
    if r.Ok? {
      PrefixCall(score, s, now, batch, i);
      StepVerdict(score, s, now, batch, i, r.value);
    }
    FoldLast(score, start, now, batch[..i + 1]);
    Engine.FoldStops(score, start, now, batch, i, Fold(score, start, now, batch[..i + 1]).error);
  }

  /** The first refusal among the events from the i-th on. */
  ghost function FirstOffence(score: Score, s: State, now: int, batch: seq<Event>, i: nat): Option<Error>
    requires i <= |batch|
    decreases |batch| - i
  {
    if i == |batch| then None
    else if Offence(score, s, now, batch, i).Some? then Offence(score, s, now, batch, i)
    else FirstOffence(score, s, now, batch, i + 1)
  }

  lemma {:induction false} OffenceFound(score: Score, s: State, now: int, batch: seq<Event>, i: nat) returns (j: nat)
    requires i <= |batch| && CleanTo(score, s, now, batch, i)
    ensures i <= j <= |batch| && CleanTo(score, s, now, batch, j)
    ensures if j == |batch| then FirstOffence(score, s, now, batch, i).None?
            else Offence(score, s, now, batch, j).Some?
                 && FirstOffence(score, s, now, batch, i) == Offence(score, s, now, batch, j)
    decreases |batch| - i
  {
    hide Offence;
    j := i;
    if i < |batch| && Offence(score, s, now, batch, i).None? {
      j := OffenceFound(score, s, now, batch, i + 1);
    }
  }

  /** Every event not seen before is taken and counted, every other one counted as a duplicate. */
  ghost predicate TakesNews(s: State, now: int, batch: seq<Event>, done: Processed) {
    var news := News(s, now, batch, |batch|);
    && done.taken == news && done.receipt == Receipt(|news|, |batch| - |news|)
    && done.state.accepted == s.accepted + |news|
    && done.state.duplicates == s.duplicates + |batch| - |news|
  }

  /** The verdict on a call: too many events or none; the first offence in time order; or
      success, with every event taken that was not seen before. */
  ghost predicate Judged(score: Score, fits: State -> bool, s: State, events: seq<Event>, now: int,
                         r: Result<Processed, Error>)
  {
    var batch := SortEvents(events);
    if !(1 <= |events| <= 100) then r == Err(BatchSizeExceeded)
    else
      match FirstOffence(score, s, now, batch, 0)
      case Some(error) => r == Err(error)
      case None =>
        match r
        case Ok(done) => TakesNews(s, now, batch, done) && fits(done.state)
        case Err(error) =>
          var whole := Process(score, UNGUARDED, s, events, now);
          error == StateCapacityExceeded && whole.Ok? && !fits(whole.value.state)
  }

  lemma VerdictOffends(score: Score, fits: State -> bool, s: State, events: seq<Event>, now: int, j: nat)
    requires 1 <= |events| <= 100
    requires var batch := SortEvents(events); InKeyOrder(batch) && j < |batch| <= 100
    requires var batch := SortEvents(events);
             CleanTo(score, s, now, batch, j) && Offence(score, s, now, batch, j).Some?
    ensures Process(score, fits, s, events, now)
            in {Err(Offence(score, s, now, SortEvents(events), j).value), Err(PythonException)}
  {
    hide SortEvents, InKeyOrder, Prune, Fold, Offence, Close, CleanTo;
    FoldOffends(score, s, now, SortEvents(events), j);
  }

  lemma VerdictClean(score: Score, fits: State -> bool, s: State, events: seq<Event>, now: int)
    requires 1 <= |events| <= 100
    requires var batch := SortEvents(events); InKeyOrder(batch) && |batch| <= 100
    requires CleanTo(score, s, now, SortEvents(events), |SortEvents(events)|)
    ensures var r, whole := Process(score, fits, s, events, now), Process(score, UNGUARDED, s, events, now);
            || r == Err(PythonException)
            || (whole.Ok? && TakesNews(s, now, SortEvents(events), whole.value)
                && r == if fits(whole.value.state) then whole else Err(StateCapacityExceeded))
  {
    hide SortEvents, InKeyOrder, Prune, Fold, Offence, At, Close, CleanTo, TakesNews;
    var batch := SortEvents(events);
    FoldAt(score, s, now, batch, |batch|);
    assert batch[..|batch|] == batch;
    if Fold(score, Progress(Prune(s, now), [], 0), now, batch).Ok? {
      ClosedTakes(score, s, now, batch);
    }
  }

  lemma ClosedTakes(score: Score, s: State, now: int, batch: seq<Event>)
    requires var r := Fold(score, Progress(Prune(s, now), [], 0), now, batch);
             r.Ok? && At(s, now, batch, |batch|, r.value)
    ensures var p := Fold(score, Progress(Prune(s, now), [], 0), now, batch).value;
            TakesNews(s, now, batch, Processed(Close(p), Receipt(|p.taken|, p.duplicates), p.taken))
  {
    hide Fold, Prune, At, Evict, News;
    AtNews(s, now, batch, Fold(score, Progress(Prune(s, now), [], 0), now, batch).value);
    FoldTotals(score, s, now, batch);
  }

  lemma Verdict(score: Score, fits: State -> bool, s: State, events: seq<Event>, now: int)
    ensures var r := Process(score, fits, s, events, now);
            r == Err(PythonException) || Judged(score, fits, s, events, now, r)
  {
    if 1 <= |events| <= 100 {
      SortInOrder(events);
      SortEventsSame(events);
      hide Process, SortEvents, FirstOffence, Offence, TakesNews, InKeyOrder;
      var batch := SortEvents(events);
      var j := OffenceFound(score, s, now, batch, 0);
      if j < |batch| {
        VerdictOffends(score, fits, s, events, now, j);
      } else {
        VerdictClean(score, fits, s, events, now);
      }
    }
  }

  lemma FoldTotals(score: Score, s: State, now: int, batch: seq<Event>)
    ensures var r := Fold(score, Progress(Prune(s, now), [], 0), now, batch);
            r.Ok? ==> r.value.state.accepted == s.accepted && r.value.state.duplicates == s.duplicates
  {
    hide Fold, TookFrom;
    if Fold(score, Progress(Prune(s, now), [], 0), now, batch).Ok? {
      FoldTook(score, Prune(s, now), now, batch);
    }
    hide PruneStream, PruneIncidents;
  }

  lemma AtNews(s: State, now: int, batch: seq<Event>, p: Progress)
    requires At(s, now, batch, |batch|, p)
    ensures p.taken == News(s, now, batch, |batch|) && p.duplicates == |batch| - |p.taken|
  {
  }

  // ---------------------------------------------------------------- calls that must succeed

  /** An event a call may bring: in time, not late, its id unseen and above the floor. */
  predicate Timely(s: State, now: int, e: Event) {
    && now - 604800 < e.timestamp <= now + 300
    && !Recalled(s, now, e.id) && s.floor < e.timestamp
    && (Stands(s, now, StreamHash(e.dimensions)) ==> s.streams[StreamHash(e.dimensions)].last <= e.timestamp)
  }

  ghost function StreamsOf(events: seq<Event>): set<StreamId> {
    set k | 0 <= k < |events| :: StreamHash(events[k].dimensions)
  }

  /** The labels a batch brings to a stream. */
  ghost function Brings(events: seq<Event>, sid: StreamId): set<VersionId> {
    set k | 0 <= k < |events| && StreamHash(events[k].dimensions) == sid :: VersionHash(events[k].labels)
  }

  ghost function Holding(streams: map<StreamId, Stream>, sid: StreamId): set<VersionId> {
    if sid in streams then InUse(streams[sid]) else {}
  }

  ghost predicate Roomy(s: State, now: int, events: seq<Event>) {
    && |(set sid | sid in s.streams && Stands(s, now, sid)) + StreamsOf(events)| <= 16
    && forall sid :: sid in StreamsOf(events) ==> |Holding(Prune(s, now).streams, sid) + Brings(events, sid)| <= 8
  }

  ghost predicate Unrepeated(events: seq<Event>) {
    forall i, j :: 0 <= i < j < |events| ==> events[i].id != events[j].id
  }

  lemma BringsMore(events: seq<Event>, sid: StreamId)
    requires events != []
    ensures var rest, e := events[..|events| - 1], events[|events| - 1];
            Brings(events, sid)
            == Brings(rest, sid) + if StreamHash(e.dimensions) == sid then {VersionHash(e.labels)} else {}
  {
  }

  /** Rows are only ever those a stream had and those the batch brings. */
  lemma {:induction false} FoldLabels(score: Score, p: Progress, now: int, events: seq<Event>, sid: StreamId)
    requires Fold(score, p, now, events).Ok?
    ensures Holding(Fold(score, p, now, events).value.state.streams, sid)
            <= Holding(p.state.streams, sid) + Brings(events, sid)
  {
    hide Step, Fold, Brings, Holding;
    if events != [] {
      var rest := events[..|events| - 1];
      FoldLast(score, p, now, events);
      FoldLabels(score, p, now, rest, sid);
      BringsMore(events, sid);
      StepLabels(score, Fold(score, p, now, rest).value, now, events[|events| - 1], sid);
    } else {
      FoldNothing(score, p, now);
    }
  }

  lemma FoldNothing(score: Score, p: Progress, now: int)
    ensures Fold(score, p, now, []) == Ok(p)
  {
  }

  lemma StepLabels(score: Score, p: Progress, now: int, e: Event, sid: StreamId)
    requires Step(score, p, now, e).Ok?
    ensures Holding(Step(score, p, now, e).value.state.streams, sid)
            <= Holding(p.state.streams, sid)
               + if StreamHash(e.dimensions) == sid then {VersionHash(e.labels)} else {}
  {
    hide Accept, InUse;
    if e.id !in p.state.dedup {
      AcceptStreams(score, p.state, e);
      if StreamHash(e.dimensions) == sid {
        AcceptLabels(score, p.state, e);
      }
    }
  }

  lemma AcceptLabels(score: Score, s: State, e: Event)
    requires Accept(score, s, e).Ok?
    ensures var sid := StreamHash(e.dimensions);
            && sid in Accept(score, s, e).value.streams
            && InUse(Accept(score, s, e).value.streams[sid])
               <= Holding(s.streams, sid) + {VersionHash(e.labels)}
  {
    hide Enter, Roll, InUse, Evaluate, Promote, Holding;
    var entered := Enter(s, e).value;
    var rolled := Roll(entered, SampleOf(e));
    EnterLabels(s, e);
    RollLabels(entered, SampleOf(e));
    EvaluateLabels(score, s.incidents, StreamOf(e), rolled, e);
    PromoteLabels(Evaluate(score, s.incidents, StreamOf(e), rolled, e).value.stream);
    assert SampleOf(e).version == VersionHash(e.labels);
  }

  lemma EvaluateLabels(score: Score, incidents: seq<Incident>, sid: StreamId, st: Stream, e: Event)
    requires Evaluate(score, incidents, sid, st, e).Ok?
    ensures InUse(Evaluate(score, incidents, sid, st, e).value.stream) <= InUse(st)
  {
    hide Evaluate, InUse;
    EvaluateWindows(score, incidents, sid, st, e);
    FewerLabels(st, Evaluate(score, incidents, sid, st, e).value.stream);
  }

  lemma PromoteLabels(st: Stream)
    ensures InUse(Promote(st)) <= InUse(st)
  {
    hide InUse;
    FewerLabels(st, Promote(st));
  }

  lemma EnterLabels(s: State, e: Event)
    requires Enter(s, e).Ok?
    ensures InUse(Enter(s, e).value)
            <= Holding(s.streams, StreamHash(e.dimensions)) + {VersionHash(e.labels)}
  {
    var before := if StreamOf(e) in s.streams then s.streams[StreamOf(e)] else NewStream(e);
    assert Enter(s, e).value.Rows() == before.Rows();
  }

  lemma RollLabels(st: Stream, row: Sample)
    ensures InUse(Roll(st, row)) <= InUse(st) + {row.version}
  {
    forall k | 0 <= k < |Roll(st, row).Rows()|
      ensures Roll(st, row).Rows()[k] in st.Rows() || Roll(st, row).Rows()[k] == row
    {
    }
  }

  lemma FewerLabels(before: Stream, after: Stream)
    requires before.versions == after.versions
    requires forall k :: 0 <= k < |after.Rows()| ==> after.Rows()[k] in before.Rows()
    ensures InUse(after) <= InUse(before)
  {
  }

  /** A timely event of a roomy batch commits no offence. */
  lemma TimelyClean(score: Score, s: State, now: int, batch: seq<Event>, i: nat)
    requires InKeyOrder(batch) && i < |batch| <= MAX_BATCH
    requires Unrepeated(batch) && Roomy(s, now, batch) && forall k :: 0 <= k < |batch| ==> Timely(s, now, batch[k])
    requires CleanTo(score, s, now, batch, i)
    requires Fold(score, Progress(Prune(s, now), [], 0), now, batch[..i]) != Err(PythonException)
    ensures Offence(score, s, now, batch, i).None?
  {
    hide InKeyOrder, Fold, Prune, CleanTo, Crowds, StreamsAfter, Present;
    assert Timely(s, now, batch[i]);
    assert !Repeats(s, now, batch, i);
    PresentFits(s, now, batch, i);
    FoldAt(score, s, now, batch, i);
    PrefixCall(score, s, now, batch, i);
    hide Repeats, Roomy;
    NoCrowd(score, s, now, batch, i);
  }

  lemma PresentFits(s: State, now: int, batch: seq<Event>, i: nat)
    requires i < |batch| && Roomy(s, now, batch)
    ensures StreamHash(batch[i].dimensions) in Present(s, now, batch, i) || |Present(s, now, batch, i)| < 16
  {
    var sid := StreamHash(batch[i].dimensions);
    var all := (set sid | sid in s.streams && Stands(s, now, sid)) + StreamsOf(batch);
    hide Repeats, Stands;
    assert Present(s, now, batch, i) + {sid} <= all;
    SubsetSize(Present(s, now, batch, i) + {sid}, all);
  }

  lemma BringsUpTo(batch: seq<Event>, i: nat)
    requires i < |batch|
    ensures var sid := StreamHash(batch[i].dimensions);
            Brings(batch[..i], sid) + {VersionHash(batch[i].labels)} <= Brings(batch, sid)
  {
  }

  lemma RoomyAt(s: State, now: int, batch: seq<Event>, i: nat)
    requires i < |batch| && Roomy(s, now, batch)
    ensures var sid := StreamHash(batch[i].dimensions);
            |Holding(Prune(s, now).streams, sid) + Brings(batch, sid)| <= 8
  {
    hide Holding, Prune, Brings;
    assert StreamHash(batch[i].dimensions) in StreamsOf(batch);
  }

  lemma NoCrowd(score: Score, s: State, now: int, batch: seq<Event>, i: nat)
    requires i < |batch| && Roomy(s, now, batch)
    requires var r := Fold(score, Progress(Prune(s, now), [], 0), now, batch[..i]);
             r.Ok? && StreamsAfter(score, s, now, batch, i) == r.value.state.streams
    ensures !Crowds(StreamsAfter(score, s, now, batch, i), batch[i])
  {
    hide Fold, Prune, StreamsAfter, InUse, Brings, Roomy;
    var sid, version := StreamHash(batch[i].dimensions), VersionHash(batch[i].labels);
    FoldLabels(score, Progress(Prune(s, now), [], 0), now, batch[..i], sid);
    BringsUpTo(batch, i);
    RoomyAt(s, now, batch, i);
    var used := Holding(StreamsAfter(score, s, now, batch, i), sid);
    var all := Holding(Prune(s, now).streams, sid) + Brings(batch, sid);
    hide Holding;
    if version !in used {
      assert used + {version} <= all;
      SubsetSize(used + {version}, all);
    }
  }

  lemma {:induction false} TimelyAll(score: Score, s: State, now: int, batch: seq<Event>, i: nat)
    requires InKeyOrder(batch) && i <= |batch| <= MAX_BATCH
    requires Unrepeated(batch) && Roomy(s, now, batch) && forall k :: 0 <= k < |batch| ==> Timely(s, now, batch[k])
    requires Fold(score, Progress(Prune(s, now), [], 0), now, batch) != Err(PythonException)
    ensures CleanTo(score, s, now, batch, i)
  {
    hide InKeyOrder, Fold, Prune, Offence, Unrepeated, Roomy, Timely;
    if i > 0 {
      var start := Progress(Prune(s, now), [], 0);
      TimelyAll(score, s, now, batch, i - 1);
      if Fold(score, start, now, batch[..i - 1]) == Err(PythonException) {
        if i == 1 {
          assert batch[..0] == [];
          FoldNothing(score, start, now);
        } else {
          Engine.FoldStops(score, start, now, batch, i - 2, PythonException);
        }
      }
      TimelyClean(score, s, now, batch, i - 1);
    }
  }

  lemma {:induction false} AllNews(s: State, now: int, batch: seq<Event>, i: nat)
    requires i <= |batch| && Unrepeated(batch) && forall k :: 0 <= k < |batch| ==> !Recalled(s, now, batch[k].id)
    ensures News(s, now, batch, i) == batch[..i]
  {
    if i > 0 {
      AllNews(s, now, batch, i - 1);
      assert batch[..i] == batch[..i - 1] + [batch[i - 1]];
    }
  }

  lemma {:induction false} InsertUnrepeated(e: Event, events: seq<Event>)
    requires Unrepeated(events) && forall k :: 0 <= k < |events| ==> events[k].id != e.id
    ensures Unrepeated(InsertEvent(e, events))
  {
    if events != [] && KeyBelow(events[0], e) {
      var rest := InsertEvent(e, events[1..]);
      InsertUnrepeated(e, events[1..]);
      InsertEventSame(e, events[1..]);
      forall k | 0 <= k < |rest|
        ensures rest[k].id != events[0].id
      {
        assert rest[k] in multiset(events[1..]) + multiset{e};
        assert rest[k] == e || rest[k] in events[1..];
      }
    }
  }

  lemma {:induction false} SortUnrepeated(events: seq<Event>)
    requires Unrepeated(events)
    ensures Unrepeated(SortEvents(events))
  {
    if events != [] {
      var rest := SortEvents(events[1..]);
      SortUnrepeated(events[1..]);
      SortEventsSame(events[1..]);
      forall k | 0 <= k < |rest|
        ensures rest[k].id != events[0].id
      {
        assert rest[k] in multiset(events[1..]);
        assert rest[k] in events[1..];
      }
      InsertUnrepeated(events[0], rest);
    }
  }

  lemma SortMembers(events: seq<Event>)
    ensures forall e :: e in SortEvents(events) <==> e in events
  {
    SortEventsSame(events);
    hide SortEvents;
    forall e: Event
      ensures e in SortEvents(events) <==> e in events
    {
      assert e in multiset(SortEvents(events)) <==> e in multiset(events);
    }
  }

  lemma SameBrings(a: seq<Event>, b: seq<Event>, sid: StreamId)
    requires forall e :: e in a <==> e in b
    ensures Brings(a, sid) <= Brings(b, sid)
  {
    forall k | 0 <= k < |a|
      ensures exists j :: 0 <= j < |b| && b[j] == a[k]
    {
      assert a[k] in b;
    }
  }

  lemma SameStreams(a: seq<Event>, b: seq<Event>)
    requires forall e :: e in a <==> e in b
    ensures StreamsOf(a) <= StreamsOf(b)
  {
    forall k | 0 <= k < |a|
      ensures exists j :: 0 <= j < |b| && b[j] == a[k]
    {
      assert a[k] in b;
    }
  }

  lemma SortRoomy(s: State, now: int, events: seq<Event>)
    requires Roomy(s, now, events)
    ensures Roomy(s, now, SortEvents(events))
  {
    SortMembers(events);
    var batch := SortEvents(events);
    hide SortEvents, Prune, Holding, Brings, StreamsOf, Stands;
    SameStreams(events, batch);
    SameStreams(batch, events);
    assert StreamsOf(batch) == StreamsOf(events);
    forall sid | sid in StreamsOf(batch)
      ensures |Holding(Prune(s, now).streams, sid) + Brings(batch, sid)| <= 8
    {
      SameBrings(events, batch, sid);
      SameBrings(batch, events, sid);
      assert Brings(batch, sid) == Brings(events, sid);
    }
  }

  lemma TimelyInOrder(score: Score, s: State, batch: seq<Event>, now: int)
    requires InKeyOrder(batch) && |batch| <= MAX_BATCH && Unrepeated(batch) && Roomy(s, now, batch)
    requires forall k :: 0 <= k < |batch| ==> Timely(s, now, batch[k])
    ensures var r := Fold(score, Progress(Prune(s, now), [], 0), now, batch);
            r == Err(PythonException) || (r.Ok? && r.value.taken == batch && r.value.duplicates == 0)
  {
    hide InKeyOrder, Prune, Fold, Offence, Unrepeated, Roomy, At, CleanTo, Timely, News;
    if Fold(score, Progress(Prune(s, now), [], 0), now, batch) != Err(PythonException) {
      TimelyAll(score, s, now, batch, |batch|);
      FoldAt(score, s, now, batch, |batch|);
      assert batch[..|batch|] == batch;
      AtNews(s, now, batch, Fold(score, Progress(Prune(s, now), [], 0), now, batch).value);
      TimelyNews(s, now, batch);
    }
  }

  lemma SortTimely(s: State, now: int, events: seq<Event>)
    requires forall k :: 0 <= k < |events| ==> Timely(s, now, events[k])
    ensures forall k :: 0 <= k < |SortEvents(events)| ==> Timely(s, now, SortEvents(events)[k])
  {
    SortMembers(events);
    var batch := SortEvents(events);
    hide SortEvents, Timely;
    forall k | 0 <= k < |batch|
      ensures Timely(s, now, batch[k])
    {
      assert batch[k] in events;
    }
  }

  /** A batch of timely events with their own ids and room for them is taken whole, unless the
      state it leads to is too large. */
  lemma TimelyAccepted(score: Score, fits: State -> bool, s: State, events: seq<Event>, now: int)
    requires 1 <= |events| <= 100 && Unrepeated(events) && Roomy(s, now, events)
    requires forall k :: 0 <= k < |events| ==> Timely(s, now, events[k])
    ensures var r, whole := Process(score, fits, s, events, now), Process(score, UNGUARDED, s, events, now);
            || whole == Err(PythonException)
            || (&& whole.Ok? && multiset(whole.value.taken) == multiset(events)
                && whole.value.receipt == Receipt(|events|, 0)
                && r == if fits(whole.value.state) then whole else Err(StateCapacityExceeded))
  {
    hide SortEvents, InKeyOrder, Prune, Fold, Unrepeated, Roomy, Evict, Timely;
    SortInOrder(events);
    SortEventsSame(events);
    SortUnrepeated(events);
    SortRoomy(s, now, events);
    SortTimely(s, now, events);
    TimelyInOrder(score, s, SortEvents(events), now);
  }

  lemma TimelyNews(s: State, now: int, batch: seq<Event>)
    requires Unrepeated(batch) && forall k :: 0 <= k < |batch| ==> Timely(s, now, batch[k])
    ensures News(s, now, batch, |batch|) == batch
  {
    assert forall k :: 0 <= k < |batch| ==> Timely(s, now, batch[k]);
    AllNews(s, now, batch, |batch|);
    assert batch[..|batch|] == batch;
  }

  lemma FirstAccepted(score: Score, e: Event)
    ensures var labels := map[VersionHash(e.labels) := e.labels];
            var st := Stream(e.dimensions, [], [SampleOf(e)], labels, None, e.timestamp);
            Accept(score, EMPTY, e)
            == Ok(State(map[StreamHash(e.dimensions) := st],
                        map[e.id := Seen(EventHash(e), e.timestamp)], [], 0, 0, 0))
  {
    var st := Stream(e.dimensions, [], [], map[VersionHash(e.labels) := e.labels], None, e.timestamp);
    assert Trim(NewStream(e)).versions == map[];
    assert Enter(EMPTY, e) == Ok(st);
    hide Enter;
    var rolled := st.(current := [SampleOf(e)]);
    assert Roll(st, SampleOf(e)) == rolled;
    assert Signals(score, [], [SampleOf(e)]) == map[] by {
      hide StatsOf;
    }
    hide Roll, Signals, SampleOf;
    assert Evaluate(score, [], StreamOf(e), rolled, e) == Ok(Evaluated([], rolled));
    hide Evaluate;
  }

  /** The first event of a new tenant: what is stored, and what is answered. */
  lemma FirstEvent(score: Score, e: Event, now: int)
    requires now - 604800 < e.timestamp <= now + 300 && 0 < e.timestamp
    ensures var labels := map[VersionHash(e.labels) := e.labels];
            var st := Stream(e.dimensions, [], [SampleOf(e)], labels, None, e.timestamp);
            Process(score, UNGUARDED, EMPTY, [e], now)
            == Ok(Processed(State(map[StreamHash(e.dimensions) := st],
                                  map[e.id := Seen(EventHash(e), e.timestamp)], [], 0, 1, 0),
                            Receipt(1, 0), [e]))
  {
    assert Prune(EMPTY, now) == EMPTY;
    assert SortEvents([e]) == [e];
    FirstAccepted(score, e);
    hide Prune, Accept;
    var start := Progress(EMPTY, [], 0);
    assert [e][..0] == [];
    FoldNothing(score, start, now);
    FoldLast(score, start, now, [e]);
    assert [] + [e] == [e];
    assert Step(score, start, now, e) == Ok(Progress(Accept(score, EMPTY, e).value, [e], 0));
    hide Fold, Step;
  }

  // ---------------------------------------------------------------- calls of a run

  /** What the events already accepted on this day leave of the quota is enough. */
  ghost predicate WithinQuota(env: Setting, doc: Document, now: int, accepted: nat) {
    var today := doc.usage.Some? && doc.usage.value.day == now / 86400;
    (if today then doc.usage.value.events else 0) + accepted <= env.daily
  }

  /** The verdict on any call after any run: as judged, and then the day's quota. */
  lemma CallVerdict(env: Setting, when: Clock, created: int, calls: seq<Call>, call: Call)
    returns (r: Result<Processed, Error>)
    requires TimedCalls(when, calls) && Timed(when, call.events)
    ensures var doc := Load(Run(env, created, calls), call.now);
            && Judged(env.score, env.fits, doc.state, call.events, call.now, r)
            && match Ingest(env, doc, call.events, call.now)
               case Ok(done) =>
                 && r.Ok? && WithinQuota(env, doc, call.now, r.value.receipt.accepted)
                 && done.document.state == r.value.state && done.receipt == r.value.receipt
                 && done.taken == r.value.taken
               case Err(Detection(error)) => r == Err(error)
               case Err(DailyQuota) => r.Ok? && !WithinQuota(env, doc, call.now, r.value.receipt.accepted)
  {
    hide Judged, Process, Run, Timed;
    var doc := Load(Run(env, created, calls), call.now);
    LoadHealthy(env, when, created, calls, call.now);
    hide Inv;
    ProcessInv(env.score, when, env.fits, doc.state, call.events, call.now);
    Verdict(env.score, env.fits, doc.state, call.events, call.now);
    r := Process(env.score, env.fits, doc.state, call.events, call.now);
  }
}
