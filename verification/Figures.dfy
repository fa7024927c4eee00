/** What every figure of a report counts, over the streams and records a reader sees. */
module Figures {
  import opened Wrappers
  import opened Collections
  import opened Protocol
  import opened Numerics
  import opened Judgement
  import opened Intervals
  import opened Rules
  import opened Tenant
  import opened Reachable
  import opened Runs
  import Reports

  type Cell = (StreamId, nat)

  /** The streams of the report's scope. */
  ghost function Scope(streams: map<StreamId, Stream>, synthetic: bool): set<StreamId> {
    set sid | sid in streams && streams[sid].dimensions.synthetic == synthetic
  }

  /** Their rows, each named by its stream and its place there. */
  ghost function BaselineRows(streams: map<StreamId, Stream>, synthetic: bool): set<Cell> {
    set sid, k: nat | sid in Scope(streams, synthetic) && k < |streams[sid].baseline| :: (sid, k)
  }

  ghost function CurrentRows(streams: map<StreamId, Stream>, synthetic: bool): set<Cell> {
    set sid, k: nat | sid in Scope(streams, synthetic) && k < |streams[sid].current| :: (sid, k)
  }

  ghost function FailedBaselineRows(streams: map<StreamId, Stream>, synthetic: bool): set<Cell> {
    set cell | cell in BaselineRows(streams, synthetic) && streams[cell.0].baseline[cell.1].failure.Some?
  }

  ghost function FailedCurrentRows(streams: map<StreamId, Stream>, synthetic: bool): set<Cell> {
    set cell | cell in CurrentRows(streams, synthetic) && streams[cell.0].current[cell.1].failure.Some?
  }

  /** The records with this status, of the scope, whose stream is still there. */
  ghost function Records(s: State, synthetic: bool, status: Status): set<nat> {
    set k: nat | && k < |s.incidents| && s.incidents[k].status == status
                 && s.incidents[k].synthetic == synthetic && s.incidents[k].streamId in Scope(s.streams, synthetic)
  }

  ghost predicate Reported(r: Reports.Report, s: State, synthetic: bool) {
    && r.synthetic == synthetic
    && r.streamCount == |Scope(s.streams, synthetic)|
    && r.baselineSamples == |BaselineRows(s.streams, synthetic)|
    && r.baselineFailures == |FailedBaselineRows(s.streams, synthetic)|
    && r.currentSamples == |CurrentRows(s.streams, synthetic)|
    && r.currentFailures == |FailedCurrentRows(s.streams, synthetic)|
    && r.openIncidents == |Records(s, synthetic, Open)|
    && r.resolvedIncidents == |Records(s, synthetic, Resolved)|
    && r.expiredIncidents == |Records(s, synthetic, Lapsed)|
  }

  // ---------------------------------------------------------------- rows of distinct streams

  ghost function Cells(ids: set<StreamId>, places: StreamId -> set<nat>): set<Cell> {
    set sid, k | sid in ids && k in places(sid) :: (sid, k)
  }

  ghost function Line(sid: StreamId, ks: set<nat>): set<Cell> {
    set k | k in ks :: (sid, k)
  }

  lemma {:induction false} LineSize(sid: StreamId, ks: set<nat>)
    ensures |Line(sid, ks)| == |ks|
  {
    if ks != {} {
      var k :| k in ks;
      LineSize(sid, ks - {k});
      assert Line(sid, ks) == Line(sid, ks - {k}) + {(sid, k)};
    }
  }

  lemma CellsMore(ids: set<StreamId>, sid: StreamId, places: StreamId -> set<nat>)
    requires sid !in ids
    ensures |Cells(ids + {sid}, places)| == |Cells(ids, places)| + |places(sid)|
  {
    LineSize(sid, places(sid));
    assert Cells(ids + {sid}, places) == Cells(ids, places) + Line(sid, places(sid));
    assert Cells(ids, places) !! Line(sid, places(sid));
  }

  lemma {:induction false} TotalCells(views: seq<Reports.StreamView>, f: Reports.StreamView -> nat,
                                      places: StreamId -> set<nat>)
    requires Reports.DistinctViews(views)
    requires forall k :: 0 <= k < |views| ==> f(views[k]) == |places(views[k].streamId)|
    ensures Reports.Total(views, f) == |Cells(Reports.Ids(views), places)|
  {
    if views == [] {
      assert Cells(Reports.Ids(views), places) == {};
    } else {
      var n := |views| - 1;
      assert forall k :: 0 <= k < n ==> views[..n][k] == views[k];
      TotalCells(views[..n], f, places);
      assert Reports.Ids(views) == Reports.Ids(views[..n]) + {views[n].streamId};
      CellsMore(Reports.Ids(views[..n]), views[n].streamId, places);
    }
  }

  // ---------------------------------------------------------------- records

  ghost predicate Counts(inc: Incident, synthetic: bool, ids: set<StreamId>, status: Status) {
    inc.status == status && inc.synthetic == synthetic && inc.streamId in ids
  }

  lemma CountLast(incidents: seq<Incident>, inc: Incident, status: Status)
    ensures CountStatus(incidents + [inc], status)
            == CountStatus(incidents, status) + if inc.status == status then 1 else 0
  {
    assert (incidents + [inc])[..|incidents|] == incidents;
  }

  lemma {:induction false} CountRecords(incidents: seq<Incident>, synthetic: bool, ids: set<StreamId>, status: Status)
    ensures CountStatus(Reports.Selected(incidents, synthetic, ids), status)
            == |Where(incidents, (inc: Incident) => Counts(inc, synthetic, ids, status))|
  {
    var p := (inc: Incident) => Counts(inc, synthetic, ids, status);
    if incidents == [] {
      assert Where(incidents, p) == {};
    } else {
      var n := |incidents| - 1;
      assert incidents == incidents[..n] + [incidents[n]];
      CountRecords(incidents[..n], synthetic, ids, status);
      WhereMore(incidents[..n], incidents[n], p);
      Reports.SelectedLast(incidents, synthetic, ids);
      hide Where;
      var rest := Reports.Selected(incidents[..n], synthetic, ids);
      CountLast(rest, incidents[n], status);
      assert rest + [] == rest;
    }
  }

  // ---------------------------------------------------------------- the report

  lemma ChosenScope(score: Score, streams: map<StreamId, Stream>, order: seq<StreamId>, synthetic: bool)
    requires Reports.Lists(order, streams)
    ensures forall k :: 0 <= k < |order| ==> order[k] in streams
    ensures var chosen := Reports.Chosen(Reports.Views(score, streams, order), synthetic);
            && Reports.DistinctViews(chosen) && Reports.Ids(chosen) == Scope(streams, synthetic)
            && |chosen| == |Scope(streams, synthetic)|
            && forall k :: 0 <= k < |chosen| ==>
                 && chosen[k].streamId in streams
                 && chosen[k] == Reports.View(score, chosen[k].streamId, streams[chosen[k].streamId])
  {
    hide Reports.View, Reports.Views, Reports.Chosen;
    Reports.ViewsFacts(score, streams, order);
    var views := Reports.Views(score, streams, order);
    var chosen := Reports.Chosen(views, synthetic);
    Reports.ChosenFrom(views, synthetic);
    Reports.ChosenDistinct(views, synthetic);
    forall sid | sid in streams
      ensures Reports.View(score, sid, streams[sid]).streamId == sid
      ensures Reports.View(score, sid, streams[sid]).dimensions == streams[sid].dimensions
    {
      ViewFigures(score, sid, streams[sid]);
    }
    forall sid | sid in Scope(streams, synthetic)
      ensures sid in Reports.Ids(chosen)
    {
      assert Reports.View(score, sid, streams[sid]) in chosen;
    }
    forall k | 0 <= k < |chosen|
      ensures chosen[k].streamId in Scope(streams, synthetic)
      ensures chosen[k] == Reports.View(score, chosen[k].streamId, streams[chosen[k].streamId])
    {
      assert chosen[k] in views;
      assert chosen[k].dimensions.synthetic == synthetic;
    }
    IdsSize(chosen);
  }

  lemma {:induction false} IdsSize(views: seq<Reports.StreamView>)
    requires Reports.DistinctViews(views)
    ensures |Reports.Ids(views)| == |views|
  {
    if views != [] {
      var n := |views| - 1;
      assert forall k :: 0 <= k < n ==> views[..n][k] == views[k];
      IdsSize(views[..n]);
      assert Reports.Ids(views) == Reports.Ids(views[..n]) + {views[n].streamId};
    } else {
      assert Reports.Ids(views) == {};
    }
  }

  lemma ViewFigures(score: Score, sid: StreamId, st: Stream)
    ensures var v := Reports.View(score, sid, st);
            && v.streamId == sid && v.dimensions == st.dimensions
            && v.baseline.count == |st.baseline| && v.baseline.failures == Failed(st.baseline)
            && v.current.count == |st.current| && v.current.failures == Failed(st.current)
  {
    FailuresCounts(st.baseline);
    FailuresCounts(st.current);
    hide Failures, Failed, Round6, MetricStatsOf, Versions;
  }

  lemma RowFigures(score: Score, streams: map<StreamId, Stream>, order: seq<StreamId>, synthetic: bool)
    requires Reports.Lists(order, streams)
    requires forall k :: 0 <= k < |order| ==> order[k] in streams
    ensures var chosen := Reports.Chosen(Reports.Views(score, streams, order), synthetic);
            && Reports.Total(chosen, (v: Reports.StreamView) => v.baseline.count) == |BaselineRows(streams, synthetic)|
            && Reports.Total(chosen, (v: Reports.StreamView) => v.current.count) == |CurrentRows(streams, synthetic)|
  {
    hide Reports.View, Reports.Views, Reports.Chosen, Reports.DistinctViews, StatsOf;
    var chosen := Reports.Chosen(Reports.Views(score, streams, order), synthetic);
    ChosenScope(score, streams, order, synthetic);
    forall k | 0 <= k < |chosen|
      ensures chosen[k].baseline.count == |streams[chosen[k].streamId].baseline|
      ensures chosen[k].current.count == |streams[chosen[k].streamId].current|
    {
      ViewFigures(score, chosen[k].streamId, streams[chosen[k].streamId]);
    }
    var before := (sid: StreamId) => if sid in streams then First(|streams[sid].baseline|) else {};
    var after := (sid: StreamId) => if sid in streams then First(|streams[sid].current|) else {};
    TotalCells(chosen, (v: Reports.StreamView) => v.baseline.count, before);
    TotalCells(chosen, (v: Reports.StreamView) => v.current.count, after);
    assert Cells(Scope(streams, synthetic), before) == BaselineRows(streams, synthetic);
    assert Cells(Scope(streams, synthetic), after) == CurrentRows(streams, synthetic);
  }

  lemma FailureFigures(score: Score, streams: map<StreamId, Stream>, order: seq<StreamId>, synthetic: bool)
    requires Reports.Lists(order, streams)
    requires forall k :: 0 <= k < |order| ==> order[k] in streams
    ensures var chosen := Reports.Chosen(Reports.Views(score, streams, order), synthetic);
            && Reports.Total(chosen, (v: Reports.StreamView) => v.baseline.failures)
               == |FailedBaselineRows(streams, synthetic)|
            && Reports.Total(chosen, (v: Reports.StreamView) => v.current.failures)
               == |FailedCurrentRows(streams, synthetic)|
  {
    hide Reports.View, Reports.Views, Reports.Chosen, Reports.DistinctViews, StatsOf, Failed, Scope, FailedPlaces,
         FailedBaselineRows, FailedCurrentRows, Cells;
    var chosen := Reports.Chosen(Reports.Views(score, streams, order), synthetic);
    ChosenScope(score, streams, order, synthetic);
    forall k | 0 <= k < |chosen|
      ensures chosen[k].baseline.failures == Failed(streams[chosen[k].streamId].baseline)
      ensures chosen[k].current.failures == Failed(streams[chosen[k].streamId].current)
    {
      ViewFigures(score, chosen[k].streamId, streams[chosen[k].streamId]);
    }
    var before := (sid: StreamId) => if sid in streams then FailedPlaces(streams[sid].baseline) else {};
    var after := (sid: StreamId) => if sid in streams then FailedPlaces(streams[sid].current) else {};
    TotalCells(chosen, (v: Reports.StreamView) => v.baseline.failures, before);
    TotalCells(chosen, (v: Reports.StreamView) => v.current.failures, after);
    FailedCells(streams, synthetic, before, after);
  }

  lemma FailedCells(streams: map<StreamId, Stream>, synthetic: bool, before: StreamId -> set<nat>,
                    after: StreamId -> set<nat>)
    requires forall sid :: sid in streams ==> before(sid) == FailedPlaces(streams[sid].baseline)
    requires forall sid :: sid in streams ==> after(sid) == FailedPlaces(streams[sid].current)
    ensures Cells(Scope(streams, synthetic), before) == FailedBaselineRows(streams, synthetic)
    ensures Cells(Scope(streams, synthetic), after) == FailedCurrentRows(streams, synthetic)
  {
  }

  ghost function FailedPlaces(rows: seq<Sample>): (places: set<nat>)
    ensures |places| == Failed(rows)
  {
    Where(rows, (row: Sample) => row.failure.Some?)
  }

  lemma RecordFigures(s: State, synthetic: bool, status: Status)
    ensures CountStatus(Reports.Selected(s.incidents, synthetic, Scope(s.streams, synthetic)), status)
            == |Records(s, synthetic, status)|
  {
    var ids := Scope(s.streams, synthetic);
    CountRecords(s.incidents, synthetic, ids, status);
    assert Where(s.incidents, (inc: Incident) => Counts(inc, synthetic, ids, status)) == Records(s, synthetic, status);
  }

  /** Every figure of a report counts streams, rows or records of the state a reader sees. */
  lemma ReportCounts(score: Score, s: State, now: int, order: seq<StreamId>, synthetic: bool)
    requires Reports.Lists(order, Prune(s, now).streams)
    ensures forall k :: 0 <= k < |order| ==> order[k] in Prune(s, now).streams
    ensures Reported(Reports.ReportFrom(Reports.Summarize(score, s, now, order), synthetic), Prune(s, now), synthetic)
  {
    hide Prune, Reports.View, Reports.Views, Reports.Chosen, Reports.DistinctViews, Reports.Selected, Reports.Total,
         BaselineRows, CurrentRows, FailedBaselineRows, FailedCurrentRows, Records, Scope, CountStatus, Reports.Ids;
    var view := Prune(s, now);
    ChosenScope(score, view.streams, order, synthetic);
    RowFigures(score, view.streams, order, synthetic);
    FailureFigures(score, view.streams, order, synthetic);
    RecordFigures(view, synthetic, Open);
    RecordFigures(view, synthetic, Resolved);
    RecordFigures(view, synthetic, Lapsed);
  }

  // ---------------------------------------------------------------- the summary

  /** What a summary shows of a stream. */
  ghost predicate Shows(score: Score, sid: StreamId, st: Stream, v: Reports.StreamView) {
    && v.streamId == sid && v.dimensions == st.dimensions && v.active == st.active && v.versions == st.versions
    && Describes(score, st.baseline, v.baseline) && Describes(score, st.current, v.current)
    && (v.warmup <==> |st.baseline| < 50 || |st.current| < 50)
    && (v.status == Reports.IsDegraded <==> st.active.Some?)
    && (v.status == Reports.Warming <==> st.active.None? && v.warmup)
    && (v.status == Reports.Observed <==> st.active.None? && !v.warmup)
  }

  /** A summary shows every stream that has not aged out, each once. */
  lemma SummaryShows(score: Score, s: State, now: int, order: seq<StreamId>)
    requires Exact(score) && Reports.Lists(order, Prune(s, now).streams)
    ensures forall k :: 0 <= k < |order| ==> order[k] in Prune(s, now).streams
    ensures var view, summary := Prune(s, now), Reports.Summarize(score, s, now, order);
            && summary.accepted == s.accepted && summary.duplicates == s.duplicates
            && summary.incidents == view.incidents && |summary.streams| == |order|
            && forall k :: 0 <= k < |order| ==> Shows(score, order[k], view.streams[order[k]], summary.streams[k])
  {
    hide Describes, StatsOf, Shows, Reports.View, PruneStream, PruneIncidents;
    var view := Prune(s, now);
    forall k | 0 <= k < |order|
      ensures var st := view.streams[order[k]]; Shows(score, order[k], st, Reports.View(score, order[k], st))
    {
      ViewShows(score, order[k], view.streams[order[k]]);
    }
  }

  lemma ViewShows(score: Score, sid: StreamId, st: Stream)
    requires Exact(score)
    ensures Shows(score, sid, st, Reports.View(score, sid, st))
  {
    hide Describes, StatsOf, Exact;
    WindowDescribed(score, st.baseline);
    WindowDescribed(score, st.current);
  }
}
