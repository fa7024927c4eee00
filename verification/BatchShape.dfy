/** How a set of events is batched does not matter: the order inside a batch never does,
    and without cache overflow neither does where a batch is cut.
 */
module BatchShape {
  import opened Wrappers
  import opened Protocol
  import opened Numerics
  import opened Judgement
  import opened Tenant
  import opened Invariants
  import opened Pruning
  import opened Batches
  import opened ExactlyOnce

  // ---------------------------------------------------------------- sorting

  ghost predicate InKeyOrder(events: seq<Event>) {
    forall i, j :: 0 <= i < j < |events| ==> !KeyBelow(events[j], events[i])
  }

  lemma HeadFirst(e: Event, events: seq<Event>)
    requires InKeyOrder(events)
    requires forall x :: x in multiset(events) ==> !KeyBelow(x, e)
    ensures InKeyOrder([e] + events)
  {
    forall k | 0 <= k < |events|
      ensures !KeyBelow(events[k], e)
    {
      assert events[k] in multiset(events);
    }
  }

  lemma {:induction false} InsertInOrder(e: Event, events: seq<Event>)
    requires InKeyOrder(events)
    ensures InKeyOrder(InsertEvent(e, events))
  {
    if events == [] || !KeyBelow(events[0], e) {
      forall x | x in multiset(events)
        ensures !KeyBelow(x, e)
      {
        var k :| 0 <= k < |events| && events[k] == x;
      }
      HeadFirst(e, events);
    } else {
      InsertInOrder(e, events[1..]);
      InsertEventSame(e, events[1..]);
      forall x | x in multiset(InsertEvent(e, events[1..]))
        ensures !KeyBelow(x, events[0])
      {
        if x != e {
          assert x in events[1..];
          var k :| 0 <= k < |events[1..]| && events[1..][k] == x;
          assert events[k + 1] == x;
        }
      }
      HeadFirst(events[0], InsertEvent(e, events[1..]));
    }
  }

  lemma {:induction false} SortInOrder(events: seq<Event>)
    ensures InKeyOrder(SortEvents(events))
  {
    if events != [] {
      SortInOrder(events[1..]);
      InsertInOrder(events[0], SortEvents(events[1..]));
    }
  }

  /** A batch is taken oldest first, ties by id. */
  lemma BatchOrder(events: seq<Event>)
    ensures var batch := SortEvents(events);
            && multiset(batch) == multiset(events)
            && forall i, j :: 0 <= i < j < |batch| ==>
                 || batch[i].timestamp < batch[j].timestamp
                 || (batch[i].timestamp == batch[j].timestamp && batch[i].id <= batch[j].id)
  {
    SortEventsSame(events);
    SortInOrder(events);
    hide SortEvents;
  }

  /** A batch already in order is left alone. */
  lemma {:induction false} SortOrdered(events: seq<Event>)
    requires InKeyOrder(events)
    ensures SortEvents(events) == events
  {
    if events != [] {
      assert InKeyOrder(events[1..]);
      SortOrdered(events[1..]);
      assert |events| > 1 ==> events[1..][0] == events[1] && !KeyBelow(events[1], events[0]);
    }
  }

  /** Different events have different keys. */
  ghost predicate Unambiguous(events: multiset<Event>) {
    forall x, y :: x in events && y in events && x.id == y.id && x.timestamp == y.timestamp ==> x == y
  }

  lemma SameHead(a: seq<Event>, b: seq<Event>)
    requires InKeyOrder(a) && InKeyOrder(b) && multiset(a) == multiset(b) && a != []
    requires Unambiguous(multiset(a))
    ensures b != [] && a[0] == b[0]
  {
    assert a[0] in multiset(b);
    var i :| 0 <= i < |b| && b[i] == a[0];
    assert b[0] in multiset(a);
    var j :| 0 <= j < |a| && a[j] == b[0];
    assert !KeyBelow(b[0], a[0]) && !KeyBelow(a[0], b[0]);
  }

  lemma TailFacts(a: seq<Event>)
    requires a != [] && InKeyOrder(a) && Unambiguous(multiset(a))
    ensures InKeyOrder(a[1..]) && Unambiguous(multiset(a[1..]))
    ensures multiset(a[1..]) == multiset(a) - multiset{a[0]}
  {
    assert a == [a[0]] + a[1..];
    assert forall x :: x in multiset(a[1..]) ==> x in multiset(a);
    assert forall k :: 0 <= k < |a[1..]| ==> a[1..][k] == a[k + 1];
  }

  lemma {:induction false} OrderUnique(a: seq<Event>, b: seq<Event>)
    requires InKeyOrder(a) && InKeyOrder(b) && multiset(a) == multiset(b)
    requires Unambiguous(multiset(a))
    ensures a == b
  {
    hide InKeyOrder, Unambiguous;
    if a == [] {
      assert |multiset(b)| == 0;
    } else {
      SameHead(a, b);
      TailFacts(a);
      TailFacts(b);
      OrderUnique(a[1..], b[1..]);
      assert a == [a[0]] + a[1..] && b == [b[0]] + b[1..];
    }
  }

  // ---------------------------------------------------------------- permuting a batch

  /** After a successful fold the cache holds the digest of every event of the batch. */
  lemma {:induction false} FoldCaches(score: Score, p: Progress, now: int, events: seq<Event>)
    requires Fold(score, p, now, events).Ok?
    ensures var q := Fold(score, p, now, events).value;
            && (forall k :: 0 <= k < |events| ==>
                  events[k].id in q.state.dedup && q.state.dedup[events[k].id].digest == EventHash(events[k]))
            && (forall e :: e in p.state.dedup ==> e in q.state.dedup && q.state.dedup[e] == p.state.dedup[e])
  {
    hide Accept;
    if events != [] {
      var rest, e := events[..|events| - 1], events[|events| - 1];
      FoldCaches(score, p, now, rest);
      var before := Fold(score, p, now, rest).value;
      if e.id !in before.state.dedup {
        AcceptCache(score, before.state, e);
      }
    }
  }

  /** Two different events under one id can never be accepted together. */
  lemma ClashRejected(score: Score, p: Progress, now: int, events: seq<Event>)
    requires !Unambiguous(multiset(events))
    ensures Fold(score, p, now, events).Err?
  {
    var x, y :| x in multiset(events) && y in multiset(events) && x.id == y.id && x.timestamp == y.timestamp && x != y;
    var i :| 0 <= i < |events| && events[i] == x;
    var j :| 0 <= j < |events| && events[j] == y;
    if Fold(score, p, now, events).Ok? {
      FoldCaches(score, p, now, events);
    }
  }

  /** Permuting a batch gives the same state and counts, or a rejection both times. */
  lemma OrderIrrelevant(score: Score, fits: State -> bool, s: State, a: seq<Event>, b: seq<Event>, now: int)
    requires multiset(a) == multiset(b)
    ensures var ra, rb := Process(score, fits, s, a, now), Process(score, fits, s, b, now);
            ra == rb || (ra.Err? && rb.Err?)
  {
    hide Fold, Close, Prune;
    var p := Progress(Prune(s, now), [], 0);
    assert |a| == |multiset(a)| == |multiset(b)| == |b|;
    SortEventsSame(a);
    SortEventsSame(b);
    if Unambiguous(multiset(a)) {
      SortInOrder(a);
      SortInOrder(b);
      OrderUnique(SortEvents(a), SortEvents(b));
    } else {
      ClashRejected(score, p, now, SortEvents(a));
      ClashRejected(score, p, now, SortEvents(b));
    }
  }

  // ---------------------------------------------------------------- cutting a batch

  /** A state without its unused version labels. */
  function TrimAll(s: State): State {
    s.(streams := map sid | sid in s.streams :: Trim(s.streams[sid]))
  }

  /** The part of a state that decides what happens next. */
  function Core(s: State): State {
    TrimAll(s).(accepted := 0, duplicates := 0)
  }

  lemma TrimTwice(st: Stream)
    ensures Trim(Trim(st)) == Trim(st)
  {
    assert Trim(st).Rows() == st.Rows();
  }

  lemma EnterTrimmed(s: State, t: State, e: Event)
    requires Core(s) == Core(t)
    ensures Enter(s, e) == Enter(t, e)
  {
    var sid := StreamOf(e);
    assert s.streams.Keys == Core(s).streams.Keys == Core(t).streams.Keys == t.streams.Keys;
    assert |s.streams| == |s.streams.Keys| && |t.streams| == |t.streams.Keys|;
    if sid in s.streams {
      assert Trim(s.streams[sid]) == Core(s).streams[sid] == Core(t).streams[sid] == Trim(t.streams[sid]);
      assert s.streams[sid].last == Trim(s.streams[sid]).last;
      assert t.streams[sid].last == Trim(t.streams[sid]).last;
    }
  }

  lemma CoreInsert(s: State, sid: StreamId, st: Stream)
    ensures Core(s.(streams := s.streams[sid := st])) == Core(s).(streams := Core(s).streams[sid := Trim(st)])
  {
  }

  /** Accepting an event does not depend on unused labels. */
  lemma AcceptTrimmed(score: Score, s: State, t: State, e: Event)
    requires Core(s) == Core(t)
    ensures match (Accept(score, s, e), Accept(score, t, e))
            case (Ok(s'), Ok(t')) => Core(s') == Core(t')
            case (Err(a), Err(b)) => a == b
            case _ => false
  {
    hide Enter, Evaluate, Roll, Promote, Trim;
    EnterTrimmed(s, t, e);
    assert s.incidents == Core(s).incidents == t.incidents;
    assert s.dedup == Core(s).dedup == t.dedup;
    if Accept(score, s, e).Ok? {
      var st := Accept(score, s, e).value.streams[StreamOf(e)];
      CoreInsert(s, StreamOf(e), st);
      CoreInsert(t, StreamOf(e), st);
    }
  }

  ghost predicate SameProgress(p: Progress, q: Progress) {
    Core(p.state) == Core(q.state) && p.taken == q.taken && p.duplicates == q.duplicates
  }

  ghost predicate SameOutcome(a: Result<Progress, Error>, b: Result<Progress, Error>) {
    match (a, b)
    case (Ok(p), Ok(q)) => SameProgress(p, q)
    case (Err(x), Err(y)) => x == y
    case _ => false
  }

  lemma StepTrimmed(score: Score, p: Progress, q: Progress, now: int, e: Event)
    requires SameProgress(p, q)
    ensures SameOutcome(Step(score, p, now, e), Step(score, q, now, e))
  {
    hide Accept;
    assert p.state.dedup == Core(p.state).dedup == Core(q.state).dedup == q.state.dedup;
    assert p.state.floor == Core(p.state).floor == Core(q.state).floor == q.state.floor;
    hide Core;
    AcceptTrimmed(score, p.state, q.state, e);
  }

  lemma {:induction false} FoldTrimmed(score: Score, p: Progress, q: Progress, now: int, events: seq<Event>)
    requires SameProgress(p, q)
    ensures SameOutcome(Fold(score, p, now, events), Fold(score, q, now, events))
  {
    hide SameProgress, Step;
    if events != [] {
      var rest := events[..|events| - 1];
      FoldTrimmed(score, p, q, now, rest);
      if Fold(score, p, now, rest).Ok? {
        StepTrimmed(score, Fold(score, p, now, rest).value, Fold(score, q, now, rest).value, now, events[|events| - 1]);
      }
    }
  }

  lemma {:induction false} FoldAppend(score: Score, p: Progress, now: int, a: seq<Event>, b: seq<Event>)
    ensures Fold(score, p, now, a + b) ==
            match Fold(score, p, now, a) case Ok(q) => Fold(score, q, now, b) case Err(e) => Err(e)
  {
    if b == [] {
      assert a + b == a;
    } else {
      FoldAppend(score, p, now, a, b[..|b| - 1]);
      assert (a + b)[..|a + b| - 1] == a + b[..|b| - 1];
    }
  }

  function Later(p: Progress, taken: seq<Event>, duplicates: nat): Progress {
    Progress(p.state, taken + p.taken, duplicates + p.duplicates)
  }

  /** The counts of a fold do not influence it. */
  lemma {:induction false} FoldCounts(score: Score, s: State, now: int, events: seq<Event>, taken: seq<Event>,
                                      duplicates: nat)
    ensures Fold(score, Progress(s, taken, duplicates), now, events) ==
            match Fold(score, Progress(s, [], 0), now, events)
            case Ok(q) => Ok(Later(q, taken, duplicates))
            case Err(e) => Err(e)
  {
    hide Accept;
    if events == [] {
      assert taken + [] == taken;
    } else {
      var rest, e := events[..|events| - 1], events[|events| - 1];
      FoldCounts(score, s, now, rest, taken, duplicates);
      if Fold(score, Progress(s, [], 0), now, rest).Ok? {
        var q := Fold(score, Progress(s, [], 0), now, rest).value;
        assert taken + (q.taken + [e]) == (taken + q.taken) + [e];
      }
    }
  }

  // ---------------------------------------------------------------- nothing to prune inside a call

  ghost predicate RowsAfter(rows: seq<Sample>, cutoff: int) {
    forall k :: 0 <= k < |rows| ==> rows[k].ts > cutoff
  }

  /** Nothing in the state has expired. */
  ghost predicate AllFresh(s: State, cutoff: int) {
    && (forall sid :: sid in s.streams ==> s.streams[sid].last > cutoff && RowsAfter(s.streams[sid].Rows(), cutoff))
    && (forall e :: e in s.dedup ==> s.dedup[e].ts > cutoff)
    && (forall k :: 0 <= k < |s.incidents| ==> s.incidents[k].openedAt > cutoff)
  }

  lemma FreshAfter(rows: seq<Sample>, cutoff: int)
    ensures RowsAfter(Fresh(rows, cutoff), cutoff)
  {
    forall k | 0 <= k < |Fresh(rows, cutoff)|
      ensures Fresh(rows, cutoff)[k].ts > cutoff
    {
      FreshMember(rows, cutoff, k);
    }
  }

  lemma PrunedFresh(s: State, cutoff: int)
    ensures AllFresh(PruneAt(s, cutoff), cutoff)
  {
    var after := PruneAt(s, cutoff);
    forall k | 0 <= k < |after.incidents|
      ensures after.incidents[k].openedAt > cutoff
    {
      var inc := PrunedFrom(s.incidents, s.streams, cutoff, k);
      OpenedAtKept(inc, s.streams, cutoff);
    }
    forall sid | sid in after.streams
      ensures after.streams[sid].last > cutoff && RowsAfter(after.streams[sid].Rows(), cutoff)
    {
      var st := s.streams[sid];
      var held := st.active.Some? && Holds(s.incidents, st.active.value, cutoff);
      PruneKeepsLast(st, cutoff, s.incidents);
      PruneRows(st, cutoff, held);
      FreshAfter(st.Rows(), cutoff);
      assert after.streams[sid].Rows() == PruneWindows(st, cutoff, held).Rows();
    }
  }

  lemma WithoutAfter(rows: seq<Sample>, k: nat, cutoff: int)
    requires k < |rows| && RowsAfter(rows, cutoff)
    ensures RowsAfter(Without(rows, k), cutoff)
  {
    assert forall i :: 0 <= i < |Without(rows, k)| ==> Without(rows, k)[i] == rows[if i < k then i else i + 1];
  }

  lemma RollAfter(st: Stream, row: Sample, cutoff: int)
    requires |st.baseline| in {0, WINDOW} && |st.current| <= WINDOW
    requires RowsAfter(st.Rows(), cutoff) && row.ts > cutoff
    ensures RowsAfter(Roll(st, row).Rows(), cutoff)
  {
    RollRows(st, row);
    var all := st.Rows() + [row];
    assert RowsAfter(all, cutoff);
    hide RowsAfter, Roll;
    if |st.current| == WINDOW {
      WithoutAfter(all, if st.active.None? then 0 else |st.baseline|, cutoff);
    }
  }

  lemma EvaluateAfter(score: Score, incidents: seq<Incident>, sid: StreamId, st: Stream, e: Event, cutoff: int)
    requires Evaluate(score, incidents, sid, st, e).Ok?
    requires RowsAfter(st.Rows(), cutoff)
    ensures RowsAfter(Promote(Evaluate(score, incidents, sid, st, e).value.stream).Rows(), cutoff)
  {
    EvaluateWindows(score, incidents, sid, st, e);
    var after := Evaluate(score, incidents, sid, st, e).value.stream;
    hide Evaluate;
    assert Promote(after).Rows() == after.Rows();
    if after.(active := st.active) == st {
      assert after.Rows() == st.Rows();
    } else {
      assert forall k :: 0 <= k < |after.Rows()| ==> after.Rows()[k] == st.Rows()[|st.Rows()| - |after.Rows()| + k];
    }
  }

  lemma EnteredAfter(s: State, e: Event, cutoff: int)
    requires Enter(s, e).Ok? && AllFresh(s, cutoff)
    requires forall sid :: sid in s.streams ==> Live(sid, s.streams[sid])
    ensures RowsAfter(Enter(s, e).value.Rows(), cutoff)
    ensures |Enter(s, e).value.baseline| in {0, WINDOW} && |Enter(s, e).value.current| <= WINDOW
  {
    EnterSame(s, e);
    hide Enter, Orderly, Registry;
    var before := if StreamOf(e) in s.streams then s.streams[StreamOf(e)] else NewStream(e);
    assert Enter(s, e).value.Rows() == before.Rows();
  }

  lemma AcceptFresh(score: Score, s: State, e: Event, cutoff: int)
    requires Accept(score, s, e).Ok? && AllFresh(s, cutoff) && e.timestamp > cutoff
    requires forall sid :: sid in s.streams ==> Live(sid, s.streams[sid])
    ensures AllFresh(Accept(score, s, e).value, cutoff)
  {
    hide Enter, Evaluate, Roll, Promote, Live, RowsAfter;
    var sid, after := StreamOf(e), Accept(score, s, e).value;
    var rolled := Roll(Enter(s, e).value, SampleOf(e));
    EnteredAfter(s, e, cutoff);
    RollAfter(Enter(s, e).value, SampleOf(e), cutoff);
    AcceptCache(score, s, e);
    AcceptLast(score, s, e);
    EvaluateAfter(score, s.incidents, sid, rolled, e, cutoff);
    forall k | 0 <= k < |after.incidents|
      ensures after.incidents[k].openedAt > cutoff
    {
      EvaluateIdentity(score, s.incidents, sid, rolled, e, after.incidents[k]);
    }
  }

  lemma AcceptLast(score: Score, s: State, e: Event)
    requires Accept(score, s, e).Ok?
    ensures Accept(score, s, e).value.streams[StreamOf(e)].last == e.timestamp
  {
    hide Enter, StatsOf, Signals, Recovered, MakeRoom, Find;
  }

  lemma AllLive(score: Score, when: Clock, s: State)
    requires Inv(score, when, s)
    ensures forall sid :: sid in s.streams ==> Live(sid, s.streams[sid])
  {
  }

  lemma {:induction false} FoldFresh(score: Score, when: Clock, p: Progress, now: int, events: seq<Event>)
    requires Inv(score, when, p.state) && Timed(when, events)
    requires AllFresh(p.state, now - RETENTION)
    requires Fold(score, p, now, events).Ok?
    ensures AllFresh(Fold(score, p, now, events).value.state, now - RETENTION)
  {
    hide AllFresh, Accept, Inv, Live;
    if events != [] {
      var rest, e := events[..|events| - 1], events[|events| - 1];
      FoldFresh(score, when, p, now, rest);
      FoldInv(score, when, p, now, rest);
      var before := Fold(score, p, now, rest).value;
      if e.id !in before.state.dedup {
        AllLive(score, when, before.state);
        AcceptFresh(score, before.state, e, now - RETENTION);
      }
    }
  }

  /** Pruning a state with nothing expired only drops unused labels. */
  lemma PruneFresh(score: Score, s: State, cutoff: int)
    requires AllFresh(s, cutoff) && Linked(score, s.streams, s.incidents)
    ensures PruneAt(s, cutoff) == TrimAll(s)
  {
    forall sid | sid in s.streams
      ensures PruneStream(s.streams[sid], cutoff, s.incidents) == Trim(s.streams[sid])
      ensures !Shrinks(s.streams[sid], cutoff)
    {
      var st := s.streams[sid];
      assert forall k :: 0 <= k < |st.baseline| ==> st.baseline[k] == st.Rows()[k];
      assert forall k :: 0 <= k < |st.current| ==> st.current[k] == st.Rows()[|st.baseline| + k];
      FreshKeeps(st.baseline, cutoff);
      FreshKeeps(st.current, cutoff);
      assert Recorded(s.incidents, sid, st);
    }
    hide PruneStream, Linked, RowsAfter, Shrinks;
    NoneLapse(s.incidents, s.streams, cutoff);
    assert PruneAt(s, cutoff).dedup == s.dedup;
  }

  lemma {:induction false} AllRecent(incidents: seq<Incident>, cutoff: int)
    requires forall k :: 0 <= k < |incidents| ==> incidents[k].openedAt > cutoff
    ensures Recent(incidents, cutoff) == incidents
  {
    if incidents != [] {
      AllRecent(incidents[1..], cutoff);
    }
  }

  lemma NoneLapse(incidents: seq<Incident>, streams: map<StreamId, Stream>, cutoff: int)
    requires forall sid :: sid in streams ==> !Shrinks(streams[sid], cutoff)
    requires forall k :: 0 <= k < |incidents| ==> incidents[k].openedAt > cutoff
    ensures PruneIncidents(incidents, streams, cutoff) == incidents
  {
    hide Shrinks, Find, Recent;
    AllRecent(incidents, cutoff);
  }

  // ---------------------------------------------------------------- the cut

  /** No prefix of the batch overflows the duplicate cache. */
  ghost predicate NoOverflow(score: Score, s: State, events: seq<Event>, now: int) {
    forall k :: 0 <= k <= |events| ==>
      var r := Fold(score, Progress(Prune(s, now), [], 0), now, events[..k]);
      r.Ok? ==> |r.value.state.dedup| <= MAX_DEDUP
  }

  function Charged(p: Progress): State {
    p.state.(accepted := p.state.accepted + |p.taken|, duplicates := p.state.duplicates + p.duplicates)
  }

  lemma CloseSmall(p: Progress)
    requires |p.state.dedup| <= MAX_DEDUP
    ensures Close(p) == Charged(p)
  {
  }

  /** No size guard at all. */
  const UNGUARDED: State -> bool := _ => true

  /** The size guard only ever adds its own refusal. */
  lemma GuardOnlyRefuses(score: Score, fits: State -> bool, s: State, events: seq<Event>, now: int)
    ensures var r := Process(score, fits, s, events, now);
            r == Err(StateCapacityExceeded) || r == Process(score, UNGUARDED, s, events, now)
  {
    hide Fold, Close, Prune;
  }

  lemma ProcessSmall(score: Score, s: State, events: seq<Event>, now: int)
    requires 1 <= |events| <= MAX_BATCH && InKeyOrder(events)
    requires var r := Fold(score, Progress(Prune(s, now), [], 0), now, events);
             r.Ok? ==> |r.value.state.dedup| <= MAX_DEDUP
    ensures Process(score, UNGUARDED, s, events, now) ==
            match Fold(score, Progress(Prune(s, now), [], 0), now, events)
            case Ok(p) => Ok(Processed(Charged(p), Receipt(|p.taken|, p.duplicates), p.taken))
            case Err(e) => Err(e)
  {
    hide Fold, Close, Prune;
    SortOrdered(events);
    var r := Fold(score, Progress(Prune(s, now), [], 0), now, events);
    if r.Ok? {
      CloseSmall(r.value);
    }
  }

  /** Everything the two-call run ends with, against the one-call run. */
  ghost predicate Agree(whole: Result<Processed, Error>, first: Processed, second: Result<Processed, Error>) {
    match (whole, second)
    case (Ok(w), Ok(t)) =>
      && TrimAll(w.state) == TrimAll(t.state)
      && w.receipt == Receipt(first.receipt.accepted + t.receipt.accepted,
                              first.receipt.duplicates + t.receipt.duplicates)
      && w.taken == first.taken + t.taken
    case (Err(a), Err(b)) => a == b
    case _ => false
  }

  /** The second call's starting point is the first fold's end, minus unused labels. */
  lemma SecondStart(score: Score, when: Clock, s: State, now: int, a: seq<Event>)
    requires Inv(score, when, s) && Timed(when, a)
    requires Fold(score, Progress(Prune(s, now), [], 0), now, a).Ok?
    ensures var q := Fold(score, Progress(Prune(s, now), [], 0), now, a).value;
            && Prune(Charged(q), now) == TrimAll(Charged(q))
            && Inv(score, when, Charged(q))
  {
    hide Inv, AllFresh, Linked, Fold;
    var p := Progress(Prune(s, now), [], 0);
    PruneInv(score, when, s, now);
    PrunedFresh(s, now - RETENTION);
    FoldInv(score, when, p, now, a);
    FoldFresh(score, when, p, now, a);
    var q := Fold(score, p, now, a).value;
    ChargedSame(score, when, q, now - RETENTION);
    PruneFresh(score, Charged(q), now - RETENTION);
  }

  lemma ChargedSame(score: Score, when: Clock, q: Progress, cutoff: int)
    requires Inv(score, when, q.state) && AllFresh(q.state, cutoff)
    ensures Inv(score, when, Charged(q)) && AllFresh(Charged(q), cutoff)
    ensures Linked(score, Charged(q).streams, Charged(q).incidents)
  {
    hide Linked, Live, Spent, Cached, RowsAfter;
  }

  /** Without the guard, a cut makes no difference. */
  lemma CutUnguarded(score: Score, when: Clock, s: State, a: seq<Event>, b: seq<Event>, now: int)
    requires Inv(score, when, s) && Timed(when, a + b)
    requires a != [] && b != [] && |a + b| <= MAX_BATCH && InKeyOrder(a + b)
    requires NoOverflow(score, s, a + b, now)
    ensures var first := Process(score, UNGUARDED, s, a, now);
            if first.Err? then Process(score, UNGUARDED, s, a + b, now) == first
            else Agree(Process(score, UNGUARDED, s, a + b, now), first.value,
                       Process(score, UNGUARDED, first.value.state, b, now))
  {
    hide Inv, Fold, Process, InKeyOrder, TrimAll, Prune;
    var p := Progress(Prune(s, now), [], 0);
    CutOrder(when, a, b);
    FoldAppend(score, p, now, a, b);
    assert (a + b)[..|a|] == a && (a + b)[..|a + b|] == a + b;
    ProcessSmall(score, s, a, now);
    ProcessSmall(score, s, a + b, now);
    if Fold(score, p, now, a).Ok? {
      var q := Fold(score, p, now, a).value;
      SecondStart(score, when, s, now, a);
      SecondFold(score, q, now, b);
      var whole, second := Fold(score, q, now, b), Fold(score, Progress(TrimAll(Charged(q)), [], 0), now, b);
      if whole.Ok? {
        CoreCharged(whole.value);
        CoreCharged(second.value);
        hide Core;
        CoreTotals(Charged(whole.value), Charged(second.value));
      }
      ProcessSmall(score, Charged(q), b, now);
    }
  }

  /** Some call of these was refused for the size of its state. */
  ghost predicate Oversized(whole: Result<Processed, Error>, first: Result<Processed, Error>,
                            second: Result<Processed, Error>) {
    Err(StateCapacityExceeded) in {whole, first, second}
  }

  /** Cutting an ordered batch anywhere into two calls at the same instant changes nothing:
      both ways succeed or both are refused with the same error, and on success windows,
      incidents, cache, floor, totals and counts agree, up to unused version labels. Only
      the size guard, which sees different states, can make a difference, by refusing. */
  lemma CutIrrelevant(score: Score, when: Clock, fits: State -> bool, s: State, a: seq<Event>, b: seq<Event>, now: int)
    requires Inv(score, when, s) && Timed(when, a + b)
    requires a != [] && b != [] && |a + b| <= MAX_BATCH && InKeyOrder(a + b)
    requires NoOverflow(score, s, a + b, now)
    ensures var whole, first := Process(score, fits, s, a + b, now), Process(score, fits, s, a, now);
            if first.Err? then whole == first || Oversized(whole, first, first)
            else
              var second := Process(score, fits, first.value.state, b, now);
              Agree(whole, first.value, second) || Oversized(whole, first, second)
  {
    hide Process, Inv, NoOverflow, InKeyOrder, Timed, Agree;
    CutUnguarded(score, when, s, a, b, now);
    GuardOnlyRefuses(score, fits, s, a + b, now);
    GuardOnlyRefuses(score, fits, s, a, now);
    var first := Process(score, fits, s, a, now);
    if first.Ok? {
      GuardOnlyRefuses(score, fits, first.value.state, b, now);
    }
  }

  lemma CutOrder(when: Clock, a: seq<Event>, b: seq<Event>)
    requires InKeyOrder(a + b) && Timed(when, a + b)
    ensures InKeyOrder(a) && InKeyOrder(b) && Timed(when, a) && Timed(when, b)
  {
    var all := a + b;
    assert forall k :: 0 <= k < |a| ==> a[k] == all[k];
    assert forall k :: 0 <= k < |b| ==> b[k] == all[|a| + k];
  }

  lemma CoreTwice(q: Progress)
    ensures Core(TrimAll(Charged(q))) == Core(q.state)
  {
    var once := TrimAll(Charged(q));
    forall sid | sid in q.state.streams
      ensures Trim(once.streams[sid]) == Trim(q.state.streams[sid])
    {
      TrimTwice(q.state.streams[sid]);
    }
    hide Trim;
    assert TrimAll(once).streams == TrimAll(q.state).streams;
  }

  /** Folding the second half from the saved state is folding on from the first half. */
  lemma SecondFold(score: Score, q: Progress, now: int, b: seq<Event>)
    ensures match (Fold(score, q, now, b), Fold(score, Progress(TrimAll(Charged(q)), [], 0), now, b))
            case (Ok(w), Ok(t)) =>
              && w.taken == q.taken + t.taken && w.duplicates == q.duplicates + t.duplicates
              && Core(w.state) == Core(t.state)
              && w.state.accepted == q.state.accepted && w.state.duplicates == q.state.duplicates
              && t.state.accepted == Charged(q).accepted && t.state.duplicates == Charged(q).duplicates
            case (Err(x), Err(y)) => x == y
            case _ => false
  {
    hide Core, TookFrom, Step;
    var direct, saved := Progress(q.state, [], 0), Progress(TrimAll(Charged(q)), [], 0);
    FoldCounts(score, q.state, now, b, q.taken, q.duplicates);
    CoreTwice(q);
    FoldTrimmed(score, direct, saved, now, b);
    hide Fold, TrimAll;
    if Fold(score, direct, now, b).Ok? {
      FoldTook(score, q.state, now, b);
      FoldTook(score, TrimAll(Charged(q)), now, b);
      TrimAllTotals(Charged(q));
    }
  }

  lemma TrimAllTotals(s: State)
    ensures TrimAll(s).accepted == s.accepted && TrimAll(s).duplicates == s.duplicates
  {
  }

  /** States with the same core and the same totals differ only in unused labels. */
  lemma CoreTotals(s: State, t: State)
    requires Core(s) == Core(t) && s.accepted == t.accepted && s.duplicates == t.duplicates
    ensures TrimAll(s) == TrimAll(t)
  {
    TrimAllTotals(s);
    TrimAllTotals(t);
    hide TrimAll;
    assert TrimAll(s) == Core(s).(accepted := s.accepted, duplicates := s.duplicates);
    assert TrimAll(t) == Core(t).(accepted := t.accepted, duplicates := t.duplicates);
  }

  lemma CoreCharged(p: Progress)
    ensures Core(Charged(p)) == Core(p.state)
    ensures Core(p.state).dedup == p.state.dedup
  {
  }
}
