/** Where retained samples come from: in every reachable state a stream's rows are, in
    order, the samples of distinct accepted events of that stream, well labelled and
    well shaped. No rule about event ids is needed.
 */
module Provenance {
  import opened Protocol
  import opened Numerics
  import opened Judgement
  import opened Tenant
  import opened Invariants
  import opened Pruning
  import opened Batches
  import opened Runs
  import opened TwoWindows

  /** These rows are, in order, samples of different events of the stream among these. */
  ghost predicate Drawn(rows: seq<Sample>, events: seq<Event>, sid: StreamId)
    decreases |events|
  {
    rows == [] ||
    (events != [] &&
     var r, n := |rows| - 1, |events| - 1;
     || (StreamOf(events[n]) == sid && SampleOf(events[n]) == rows[r] && Drawn(rows[..r], events[..n], sid))
     || Drawn(rows, events[..n], sid))
  }

  /** An order-preserving selection. */
  ghost predicate Within(part: seq<Event>, events: seq<Event>)
    decreases |events|
  {
    part == [] ||
    (events != [] &&
     var p, n := |part| - 1, |events| - 1;
     (events[n] == part[p] && Within(part[..p], events[..n])) || Within(part, events[..n]))
  }

  lemma WithinNext(part: seq<Event>, events: seq<Event>, e: Event)
    requires Within(part, events)
    ensures Within(part + [e], events + [e]) && Within(part, events + [e])
  {
    assert (part + [e])[..|part|] == part && (events + [e])[..|events|] == events;
  }

  /** The last event is the last row's, or no row's. */
  lemma DrawnCases(rows: seq<Sample>, events: seq<Event>, sid: StreamId) returns (taken: bool)
    requires Drawn(rows, events, sid) && rows != []
    ensures events != []
    ensures var r, n := |rows| - 1, |events| - 1;
            if taken
            then StreamOf(events[n]) == sid && SampleOf(events[n]) == rows[r] && Drawn(rows[..r], events[..n], sid)
            else Drawn(rows, events[..n], sid)
  {
    taken := !Drawn(rows, events[..|events| - 1], sid);
  }

  /** The events behind drawn rows. */
  lemma {:induction false} HeldEvents(rows: seq<Sample>, events: seq<Event>, sid: StreamId) returns (held: seq<Event>)
    requires Drawn(rows, events, sid)
    ensures Within(held, events) && |held| == |rows|
    ensures forall k :: 0 <= k < |rows| ==> SampleOf(held[k]) == rows[k] && StreamOf(held[k]) == sid
    decreases |events|
  {
    if rows == [] {
      held := [];
    } else {
      hide Drawn, SampleOf;
      var taken := DrawnCases(rows, events, sid);
      var r, n := |rows| - 1, |events| - 1;
      assert events[..n] + [events[n]] == events;
      held := HeldEvents(if taken then rows[..r] else rows, events[..n], sid);
      hide Within;
      WithinNext(held, events[..n], events[n]);
      if taken {
        held := held + [events[n]];
      }
    }
  }

  lemma {:induction false} WithinMember(part: seq<Event>, events: seq<Event>, e: Event)
    requires Within(part, events) && e in part
    ensures e in events
    decreases |events|
  {
    var n := |events| - 1;
    assert part == part[..|part| - 1] + [part[|part| - 1]];
    if Within(part, events[..n]) {
      WithinMember(part, events[..n], e);
    } else if e in part[..|part| - 1] {
      WithinMember(part[..|part| - 1], events[..n], e);
    }
  }

  // ---------------------------------------------------------------- what keeps rows drawn

  lemma {:induction false} DrawnMore(rows: seq<Sample>, events: seq<Event>, more: seq<Event>, sid: StreamId)
    requires Drawn(rows, events, sid)
    ensures Drawn(rows, events + more, sid)
    decreases |more|
  {
    if more == [] {
      assert events + more == events;
    } else {
      assert (events + more)[..|events + more| - 1] == events + more[..|more| - 1];
      DrawnMore(rows, events, more[..|more| - 1], sid);
    }
  }

  lemma DrawnNext(rows: seq<Sample>, events: seq<Event>, e: Event)
    requires Drawn(rows, events, StreamOf(e))
    ensures Drawn(rows + [SampleOf(e)], events + [e], StreamOf(e))
  {
    assert (rows + [SampleOf(e)])[..|rows|] == rows && (events + [e])[..|events|] == events;
  }

  lemma {:induction false} DrawnInit(rows: seq<Sample>, events: seq<Event>, sid: StreamId)
    requires Drawn(rows, events, sid) && rows != []
    ensures Drawn(rows[..|rows| - 1], events, sid)
    decreases |events|
  {
    var r, n := |rows| - 1, |events| - 1;
    if Drawn(rows, events[..n], sid) {
      DrawnInit(rows, events[..n], sid);
    }
  }

  lemma {:induction false} DrawnWithout(rows: seq<Sample>, k: nat, events: seq<Event>, sid: StreamId)
    requires Drawn(rows, events, sid) && k < |rows|
    ensures Drawn(Without(rows, k), events, sid)
    decreases |events|
  {
    var r, n := |rows| - 1, |events| - 1;
    if k == r {
      DrawnInit(rows, events, sid);
      assert Without(rows, k) == rows[..r];
    } else if Drawn(rows, events[..n], sid) {
      DrawnWithout(rows, k, events[..n], sid);
    } else {
      DrawnWithout(rows[..r], k, events[..n], sid);
      assert Without(rows, k)[..r - 1] == Without(rows[..r], k);
    }
  }

  lemma DrawnTail(rows: seq<Sample>, events: seq<Event>, sid: StreamId)
    requires Drawn(rows, events, sid) && rows != []
    ensures Drawn(rows[1..], events, sid)
  {
    DrawnWithout(rows, 0, events, sid);
    hide Drawn;
    assert Without(rows, 0) == rows[1..];
  }

  lemma DropOneMore(rows: seq<Sample>, n: nat)
    requires n < |rows|
    ensures rows[n..] != [] && rows[n..][1..] == rows[n + 1..]
  {
  }

  lemma {:induction false} DrawnSuffix(rows: seq<Sample>, n: nat, events: seq<Event>, sid: StreamId)
    requires Drawn(rows, events, sid) && n <= |rows|
    ensures Drawn(rows[n..], events, sid)
    decreases n
  {
    hide Drawn;
    if n == 0 {
      assert rows[0..] == rows;
    } else {
      DrawnSuffix(rows, n - 1, events, sid);
      DropOneMore(rows, n - 1);
      DrawnTail(rows[n - 1..], events, sid);
    }
  }

  lemma FreshLast(rows: seq<Sample>, cutoff: int)
    requires rows != []
    ensures var r := |rows| - 1;
            Fresh(rows, cutoff) == Fresh(rows[..r], cutoff) + (if rows[r].ts > cutoff then [rows[r]] else [])
  {
    var r := |rows| - 1;
    assert rows == rows[..r] + [rows[r]] && [rows[r]][1..] == [];
    FreshConcat(rows[..r], [rows[r]], cutoff);
  }

  lemma {:induction false} DrawnFresh(rows: seq<Sample>, events: seq<Event>, sid: StreamId, cutoff: int)
    requires Drawn(rows, events, sid)
    ensures Drawn(Fresh(rows, cutoff), events, sid)
    decreases |events|
  {
    if rows == [] {
      assert Fresh(rows, cutoff) == [];
    } else {
      hide Drawn, Fresh, SampleOf;
      var taken := DrawnCases(rows, events, sid);
      var r, n := |rows| - 1, |events| - 1;
      assert events[..n] + [events[n]] == events;
      DrawnFresh(if taken then rows[..r] else rows, events[..n], sid, cutoff);
      FreshLast(rows, cutoff);
      var kept := Fresh(rows[..r], cutoff);
      if taken && rows[r].ts > cutoff {
        DrawnNext(kept, events[..n], events[n]);
      } else {
        assert kept + [] == kept;
        DrawnMore(Fresh(rows, cutoff), events[..n], [events[n]], sid);
      }
    }
  }

  // ---------------------------------------------------------------- one stream

  lemma SuffixAppend<T>(x: seq<T>, k: nat, y: seq<T>)
    requires k <= |x|
    ensures (x + y)[k..] == x[k..] + y
  {
  }

  lemma RolledSuffix(st: Stream, row: Sample)
    requires |st.current| == WINDOW && st.active.None? && st.baseline != []
    ensures var all, rows := st.Rows() + [row], Roll(st, row).Rows();
            |rows| <= |all| && rows == all[|all| - |rows|..]
  {
    var grown, rest := st.baseline + [st.current[0]], st.current[1..] + [row];
    var k := if |grown| <= WINDOW then 0 else |grown| - WINDOW;
    assert st.Rows() + [row] == grown + rest;
    assert Newest(grown, WINDOW) == grown[k..];
    assert Roll(st, row).Rows() == Newest(grown, WINDOW) + rest;
    hide Newest;
    SuffixAppend(grown, k, rest);
  }

  lemma RollDrawn(st: Stream, e: Event, events: seq<Event>)
    requires Drawn(st.Rows(), events, StreamOf(e))
    ensures Drawn(Roll(st, SampleOf(e)).Rows(), events + [e], StreamOf(e))
  {
    var row, sid := SampleOf(e), StreamOf(e);
    var all, rolled := st.Rows() + [row], Roll(st, row);
    DrawnNext(st.Rows(), events, e);
    hide Drawn;
    if |st.current| != WINDOW {
      assert rolled.Rows() == all;
    } else if st.active.None? && st.baseline != [] {
      var cut := |all| - |rolled.Rows()|;
      RolledSuffix(st, row);
      DrawnSuffix(all, cut, events + [e], sid);
    } else {
      assert rolled.Rows() == Without(all, |st.baseline|);
      DrawnWithout(all, |st.baseline|, events + [e], sid);
    }
  }

  lemma EvaluateDrawn(score: Score, incidents: seq<Incident>, sid: StreamId, st: Stream, e: Event, events: seq<Event>)
    requires Drawn(st.Rows(), events, sid) && Evaluate(score, incidents, sid, st, e).Ok?
    ensures Drawn(Promote(Evaluate(score, incidents, sid, st, e).value.stream).Rows(), events, sid)
  {
    hide Drawn;
    EvaluateWindows(score, incidents, sid, st, e);
    var after := Evaluate(score, incidents, sid, st, e).value.stream;
    hide Evaluate;
    assert Promote(after).Rows() == after.Rows();
    if after.(active := st.active) == st {
      assert after.Rows() == st.Rows();
    } else {
      var n := |st.Rows()| - |after.Rows()|;
      assert after.Rows() == st.Rows()[n..];
      DrawnSuffix(st.Rows(), n, events, sid);
    }
  }

  // ---------------------------------------------------------------- whole states

  /** A stored stream is well shaped, and its rows are samples of these events. */
  ghost predicate Sourced(s: State, events: seq<Event>) {
    forall sid :: sid in s.streams ==> Live(sid, s.streams[sid]) && Drawn(s.streams[sid].Rows(), events, sid)
  }

  lemma PruneSourced(s: State, events: seq<Event>, cutoff: int)
    requires Sourced(s, events)
    ensures Sourced(PruneAt(s, cutoff), events)
  {
    hide Live, Drawn;
    forall sid | sid in PruneAt(s, cutoff).streams
      ensures Live(sid, PruneAt(s, cutoff).streams[sid]) && Drawn(PruneAt(s, cutoff).streams[sid].Rows(), events, sid)
    {
      var st := s.streams[sid];
      var held := st.active.Some? && Holds(s.incidents, st.active.value, cutoff);
      PruneShape(sid, st, cutoff, held);
      PruneRows(st, cutoff, held);
      DrawnFresh(st.Rows(), events, sid, cutoff);
      assert Trim(PruneWindows(st, cutoff, held)).Rows() == PruneWindows(st, cutoff, held).Rows();
    }
  }

  lemma EnterDrawn(s: State, e: Event, events: seq<Event>)
    requires Sourced(s, events) && Enter(s, e).Ok?
    ensures Drawn(Enter(s, e).value.Rows(), events, StreamOf(e))
  {
    hide Live;
    EnterSame(s, e);
    hide Enter, Drawn;
    assert Enter(s, e).value.Rows()
      == (if StreamOf(e) in s.streams then s.streams[StreamOf(e)] else NewStream(e)).Rows();
    NothingDrawn(events, StreamOf(e));
  }

  lemma NothingDrawn(events: seq<Event>, sid: StreamId)
    ensures Drawn([], events, sid)
  {
  }

  lemma AcceptLive(score: Score, s: State, e: Event)
    requires forall sid :: sid in s.streams ==> Live(sid, s.streams[sid])
    requires Accept(score, s, e).Ok?
    ensures Live(StreamOf(e), Accept(score, s, e).value.streams[StreamOf(e)])
  {
    hide Shaped, Evaluate, Enter;
    EnterShape(s, e);
    AcceptStreams(score, s, e);
    var sid, entered := StreamOf(e), Enter(s, e).value;
    hide Live, Roll;
    RollShape(sid, entered, SampleOf(e));
    EvaluateLive(score, s.incidents, sid, Roll(entered, SampleOf(e)), e);
    PromoteShape(sid, Evaluate(score, s.incidents, sid, Roll(entered, SampleOf(e)), e).value.stream);
  }

  lemma AcceptSourced(score: Score, s: State, e: Event, events: seq<Event>)
    requires Sourced(s, events) && Accept(score, s, e).Ok?
    ensures Sourced(Accept(score, s, e).value, events + [e])
  {
    hide Live, Drawn, Evaluate, Enter, Roll, Promote;
    var after, sid := Accept(score, s, e).value, StreamOf(e);
    AcceptLive(score, s, e);
    AcceptStreams(score, s, e);
    EnterDrawn(s, e, events);
    RollDrawn(Enter(s, e).value, e, events);
    EvaluateDrawn(score, s.incidents, sid, Roll(Enter(s, e).value, SampleOf(e)), e, events + [e]);
    hide Accept;
    forall id | id in after.streams
      ensures Live(id, after.streams[id]) && Drawn(after.streams[id].Rows(), events + [e], id)
    {
      if id != sid {
        DrawnMore(s.streams[id].Rows(), events, [e], id);
      }
    }
  }

  lemma {:induction false} FoldSourced(score: Score, s: State, now: int, events: seq<Event>, past: seq<Event>)
    requires Sourced(s, past) && Fold(score, Progress(s, [], 0), now, events).Ok?
    ensures var q := Fold(score, Progress(s, [], 0), now, events).value; Sourced(q.state, past + q.taken)
  {
    hide Sourced, Accept;
    var p := Progress(s, [], 0);
    if events == [] {
      assert past + [] == past;
    } else {
      var n := |events| - 1;
      FoldSourced(score, s, now, events[..n], past);
      var before := Fold(score, p, now, events[..n]).value;
      if events[n].id !in before.state.dedup {
        AcceptSourced(score, before.state, events[n], past + before.taken);
        assert past + (before.taken + [events[n]]) == past + before.taken + [events[n]];
      }
    }
  }

  lemma CloseSourced(q: Progress, events: seq<Event>)
    requires Sourced(q.state, events)
    ensures Sourced(Close(q), events)
  {
    hide Live, Drawn;
  }

  // ---------------------------------------------------------------- runs

  lemma ServeSourced(env: Setting, w: World, call: Call)
    requires Sourced(w.document.state, Logged(w.log))
    ensures Sourced(Serve(env, w, call).document.state, Logged(Serve(env, w, call).log))
  {
    hide Sourced, Fold, Close, PruneAt, SortEvents;
    var now, events := call.now, SortEvents(call.events);
    if Ingest(env, Load(w, now), call.events, now).Ok? {
      var s := Prune(Load(w, now).state, now);
      LoadSourced(w, now);
      PruneSourced(Load(w, now).state, Logged(w.log), now - RETENTION);
      FoldSourced(env.score, s, now, events, Logged(w.log));
      var q := Fold(env.score, Progress(s, [], 0), now, events).value;
      CloseSourced(q, Logged(w.log) + q.taken);
      assert Logged(w.log + Entries(q.taken, now)) == Logged(w.log) + q.taken;
    }
  }

  lemma LoadSourced(w: World, now: int)
    requires Sourced(w.document.state, Logged(w.log))
    ensures Sourced(Load(w, now).state, Logged(w.log))
  {
  }

  /** Every row of every stream a store or a reader ever sees is the sample of its own event
      of the log. */
  lemma {:induction false} RunSourced(env: Setting, created: int, calls: seq<Call>, now: int)
    ensures var w := Run(env, created, calls);
            && Sourced(w.document.state, Logged(w.log))
            && Sourced(Prune(Load(w, now).state, now), Logged(w.log))
  {
    hide Serve, PruneAt, Logged;
    if calls != [] {
      RunSourced(env, created, calls[..|calls| - 1], now);
      ServeSourced(env, Run(env, created, calls[..|calls| - 1]), calls[|calls| - 1]);
    }
    hide Sourced;
    LoadSourced(Run(env, created, calls), now);
    PruneSourced(Load(Run(env, created, calls), now).state, Logged(Run(env, created, calls).log), now - RETENTION);
  }
}
