/** The tenant summary, and the content-minimized report projected from it. Reports of
    reachable states always satisfy the report's own validators.
 */
module Reports {
  import opened Wrappers
  import opened Protocol
  import opened Numerics
  import opened Judgement
  import opened Tenant
  import opened Invariants
  import opened Pruning
  import opened Runs
  import opened Reachable
  import opened TwoWindows
  import opened Provenance

  // ---------------------------------------------------------------- the summary

  datatype ViewStatus = IsDegraded | Warming | Observed

  datatype StreamView = StreamView(
    streamId: StreamId,
    dimensions: Dimensions,
    status: ViewStatus,
    warmup: bool,
    baseline: Stats,
    current: Stats,
    active: Option<IncidentId>,
    versions: map<VersionId, Labels>)

  datatype Summary = Summary(accepted: nat, duplicates: nat, streams: seq<StreamView>, incidents: seq<Incident>)

  function View(score: Score, sid: StreamId, st: Stream): StreamView {
    var warmup := |st.baseline| < WINDOW || |st.current| < WINDOW;
    StreamView(sid, st.dimensions,
               if st.active.Some? then IsDegraded else if warmup then Warming else Observed,
               warmup, StatsOf(score, st.baseline), StatsOf(score, st.current), st.active, st.versions)
  }

  /** A listing of all keys without repetition, such as the sorted one. */
  ghost predicate Lists(order: seq<StreamId>, streams: map<StreamId, Stream>) {
    && (forall i, j :: 0 <= i < j < |order| ==> order[i] != order[j])
    && (forall sid :: sid in streams <==> sid in order)
  }

  function Views(score: Score, streams: map<StreamId, Stream>, order: seq<StreamId>): (views: seq<StreamView>)
    requires forall k :: 0 <= k < |order| ==> order[k] in streams
    ensures |views| == |order|
  {
    seq(|order|, k requires 0 <= k < |order| => View(score, order[k], streams[order[k]]))
  }

  function Summarize(score: Score, s: State, now: int, order: seq<StreamId>): Summary
    requires forall k :: 0 <= k < |order| ==> order[k] in Prune(s, now).streams
  {
    var view := Prune(s, now);
    Summary(view.accepted, view.duplicates, Views(score, view.streams, order), view.incidents)
  }

  /** What a reader sees does not depend on how often the state was pruned before. */
  lemma SummaryStable(score: Score, s: State, t1: int, t2: int, order: seq<StreamId>)
    requires Settled(score, s) && t1 <= t2
    requires forall k :: 0 <= k < |order| ==> order[k] in Prune(s, t2).streams
    ensures forall k :: 0 <= k < |order| ==> order[k] in Prune(Prune(s, t1), t2).streams
    ensures Summarize(score, Prune(s, t1), t2, order) == Summarize(score, s, t2, order)
  {
    hide Prune, Settled, Views;
    PruneComposes(score, s, t1, t2);
  }

  // ---------------------------------------------------------------- fingerprints

  const COMPONENT_FIELDS: set<string> :=
    {"provider", "model", "model_version", "framework", "framework_version", "sdk", "sdk_version", "tool",
     "tool_version"}

  datatype Fingerprint = FailureHash(operation: string, failure: string, labels: Labels)

  function Public(labels: Labels): Labels {
    map key | key in labels && key in COMPONENT_FIELDS :: labels[key]
  }

  function EventFingerprint(e: Event): Option<Fingerprint> {
    if e.failure.None? then None
    else Some(FailureHash(e.dimensions.operation, e.failure.value, Public(e.labels)))
  }

  /** The labels a fingerprint may depend on. */
  predicate IsComponent(key: string) {
    || key == "provider" || key == "model" || key == "model_version" || key == "framework"
    || key == "framework_version" || key == "sdk" || key == "sdk_version" || key == "tool" || key == "tool_version"
  }

  /** Two failures share a fingerprint exactly when they agree in operation, classification and
      every component label; nothing else of an event enters it. */
  lemma SameFingerprint(a: Event, b: Event)
    requires a.failure.Some? && b.failure.Some?
    ensures EventFingerprint(a) == EventFingerprint(b) <==>
              && a.dimensions.operation == b.dimensions.operation && a.failure == b.failure
              && (forall key :: IsComponent(key) ==> (key in a.labels <==> key in b.labels))
              && (forall key :: IsComponent(key) && key in a.labels && key in b.labels
                    ==> a.labels[key] == b.labels[key])
  {
    assert forall key :: key in COMPONENT_FIELDS <==> IsComponent(key);
    var x, y := Public(a.labels), Public(b.labels);
    if x == y {
      forall key | IsComponent(key)
        ensures key in a.labels <==> key in b.labels
        ensures key in a.labels ==> a.labels[key] == b.labels[key]
      {
        assert key in x <==> key in a.labels;
        assert key in y <==> key in b.labels;
        assert key in a.labels ==> x[key] == a.labels[key] && y[key] == b.labels[key];
      }
    }
  }

  /** The fingerprints of a window's failures, counted; a missing label set is a KeyError. */
  function Fingerprints(operation: string, rows: seq<Sample>, versions: map<VersionId, Labels>)
    : Result<multiset<Fingerprint>, Missing>
  {
    if rows == [] then Ok(multiset{})
    else
      var counts :- Fingerprints(operation, rows[..|rows| - 1], versions);
      var row := rows[|rows| - 1];
      if !row.Failed() then Ok(counts)
      else if row.version !in versions then Err(MissingValue)
      else Ok(counts + multiset{FailureHash(operation, row.failure.value, Public(versions[row.version]))})
  }

  function EventPrints(events: seq<Event>): multiset<Fingerprint> {
    if events == [] then multiset{}
    else
      EventPrints(events[..|events| - 1])
      + match EventFingerprint(events[|events| - 1]) case Some(f) => multiset{f} case None => multiset{}
  }

  /** A stream's fingerprints are exactly those of the events its window holds. */
  lemma {:induction false} FingerprintsMatch(operation: string, events: seq<Event>, rows: seq<Sample>,
                                             versions: map<VersionId, Labels>)
    requires |events| == |rows|
    requires forall k :: 0 <= k < |rows| ==>
               rows[k] == SampleOf(events[k]) && events[k].dimensions.operation == operation
    requires Labelled(rows, versions) && forall v :: v in versions ==> v == VersionHash(versions[v])
    ensures Fingerprints(operation, rows, versions) == Ok(EventPrints(events))
  {
    if rows != [] {
      var n := |rows| - 1;
      assert forall k :: 0 <= k < n ==> rows[..n][k] == rows[k] && events[..n][k] == events[k];
      FingerprintsMatch(operation, events[..n], rows[..n], versions);
      assert rows[n].version in versions && VersionHash(versions[rows[n].version]) == VersionHash(events[n].labels);
      assert rows[n].failure == events[n].failure;
      assert EventPrints(events[..n]) + multiset{} == EventPrints(events[..n]);
    }
  }

  /** After any run a reader's fingerprints of a stream never meet a missing label, and are
      those of the accepted events, each counted once, whose samples the window holds. */
  lemma FingerprintsCountEvents(env: Setting, created: int, calls: seq<Call>, now: int, sid: StreamId)
    returns (held: seq<Event>)
    requires sid in Prune(Load(Run(env, created, calls), now).state, now).streams
    ensures var w := Run(env, created, calls);
            var st := Prune(Load(w, now).state, now).streams[sid];
            && Within(held, Logged(w.log)) && |held| == |st.current|
            && (forall k :: 0 <= k < |held| ==> SampleOf(held[k]) == st.current[k] && StreamOf(held[k]) == sid)
            && Fingerprints(st.dimensions.operation, st.current, st.versions) == Ok(EventPrints(held))
  {
    hide Run, Prune, Load, Logged, Drawn, Within, Live, SampleOf, Fingerprints, EventPrints;
    var w := Run(env, created, calls);
    RunSourced(env, created, calls, now);
    held := StreamPrints(sid, Prune(Load(w, now).state, now).streams[sid], Logged(w.log));
  }

  lemma StreamPrints(sid: StreamId, st: Stream, events: seq<Event>) returns (held: seq<Event>)
    requires Live(sid, st) && Drawn(st.Rows(), events, sid)
    ensures Within(held, events) && |held| == |st.current|
    ensures forall k :: 0 <= k < |held| ==> SampleOf(held[k]) == st.current[k] && StreamOf(held[k]) == sid
    ensures Fingerprints(st.dimensions.operation, st.current, st.versions) == Ok(EventPrints(held))
  {
    hide Drawn, Within, SampleOf, Live, Fingerprints, EventPrints;
    DrawnSuffix(st.Rows(), |st.baseline|, events, sid);
    assert st.Rows()[|st.baseline|..] == st.current;
    held := HeldEvents(st.current, events, sid);
    CurrentLabelled(sid, st);
    hide Labelled;
    FingerprintsMatch(st.dimensions.operation, held, st.current, st.versions);
  }

  lemma CurrentLabelled(sid: StreamId, st: Stream)
    requires Live(sid, st)
    ensures sid == StreamHash(st.dimensions)
    ensures Labelled(st.current, st.versions) && forall v :: v in st.versions ==> v == VersionHash(st.versions[v])
  {
    hide Chronological;
    forall k | 0 <= k < |st.current|
      ensures st.current[k].version in st.versions
    {
      assert st.current[k] == st.Rows()[|st.baseline| + k];
    }
  }

  // ---------------------------------------------------------------- the report

  datatype Report = Report(
    synthetic: bool,
    streamCount: nat,
    baselineSamples: nat,
    baselineFailures: nat,
    currentSamples: nat,
    currentFailures: nat,
    openIncidents: nat,
    resolvedIncidents: nat,
    expiredIncidents: nat)

  /** The field bounds and model validators of WindowReport. */
  predicate Valid(r: Report) {
    && r.streamCount <= 16
    && r.baselineSamples <= 800 && r.baselineFailures <= 800
    && r.currentSamples <= 800 && r.currentFailures <= 800
    && r.openIncidents <= 32 && r.resolvedIncidents <= 32 && r.expiredIncidents <= 32
    && r.baselineFailures <= r.baselineSamples && r.currentFailures <= r.currentSamples
    && r.baselineSamples <= r.streamCount * 50 && r.currentSamples <= r.streamCount * 50
    && r.openIncidents + r.resolvedIncidents + r.expiredIncidents <= 32
  }

  function Chosen(views: seq<StreamView>, synthetic: bool): seq<StreamView> {
    if views == [] then []
    else
      Chosen(views[..|views| - 1], synthetic)
      + (if views[|views| - 1].dimensions.synthetic == synthetic then [views[|views| - 1]] else [])
  }

  function Ids(views: seq<StreamView>): set<StreamId> {
    set k | 0 <= k < |views| :: views[k].streamId
  }

  function Selected(incidents: seq<Incident>, synthetic: bool, ids: set<StreamId>): seq<Incident> {
    if incidents == [] then []
    else
      var inc := incidents[|incidents| - 1];
      Selected(incidents[..|incidents| - 1], synthetic, ids)
      + (if inc.synthetic == synthetic && inc.streamId in ids then [inc] else [])
  }

  function Total(views: seq<StreamView>, f: StreamView -> nat): nat {
    if views == [] then 0 else Total(views[..|views| - 1], f) + f(views[|views| - 1])
  }

  function ReportFrom(summary: Summary, synthetic: bool): Report {
    var streams := Chosen(summary.streams, synthetic);
    var incidents := Selected(summary.incidents, synthetic, Ids(streams));
    Report(synthetic, |streams|,
           Total(streams, (v: StreamView) => v.baseline.count), Total(streams, (v: StreamView) => v.baseline.failures),
           Total(streams, (v: StreamView) => v.current.count), Total(streams, (v: StreamView) => v.current.failures),
           CountStatus(incidents, Open), CountStatus(incidents, Resolved), CountStatus(incidents, Lapsed))
  }

  lemma {:induction false} TotalBound(views: seq<StreamView>, f: StreamView -> nat, bound: nat)
    requires forall k :: 0 <= k < |views| ==> f(views[k]) <= bound
    ensures Total(views, f) <= |views| * bound
  {
    if views != [] {
      TotalBound(views[..|views| - 1], f, bound);
      assert |views| * bound == (|views| - 1) * bound + bound;
    }
  }

  lemma {:induction false} TotalOrder(views: seq<StreamView>, f: StreamView -> nat, g: StreamView -> nat)
    requires forall k :: 0 <= k < |views| ==> f(views[k]) <= g(views[k])
    ensures Total(views, f) <= Total(views, g)
  {
    if views != [] {
      TotalOrder(views[..|views| - 1], f, g);
    }
  }

  lemma {:induction false} ChosenFrom(views: seq<StreamView>, synthetic: bool)
    ensures var chosen := Chosen(views, synthetic);
            && |chosen| <= |views|
            && (forall k :: 0 <= k < |chosen| ==> chosen[k] in views && chosen[k].dimensions.synthetic == synthetic)
            && (forall v :: v in views && v.dimensions.synthetic == synthetic ==> v in chosen)
  {
    if views != [] {
      var n := |views| - 1;
      ChosenFrom(views[..n], synthetic);
      assert views == views[..n] + [views[n]];
    }
  }

  lemma {:induction false} CountsFit(incidents: seq<Incident>)
    ensures CountStatus(incidents, Open) + CountStatus(incidents, Resolved) + CountStatus(incidents, Lapsed)
            == |incidents|
  {
    if incidents != [] {
      CountsFit(incidents[..|incidents| - 1]);
    }
  }

  lemma {:induction false} SelectedFrom(incidents: seq<Incident>, synthetic: bool, ids: set<StreamId>)
    ensures var chosen := Selected(incidents, synthetic, ids);
            && |chosen| <= |incidents|
            && (forall inc :: inc in chosen <==> inc in incidents && inc.synthetic == synthetic && inc.streamId in ids)
  {
    if incidents != [] {
      var n := |incidents| - 1;
      SelectedFrom(incidents[..n], synthetic, ids);
      assert incidents == incidents[..n] + [incidents[n]];
    }
  }

  lemma {:induction false} SelectedDistinct(incidents: seq<Incident>, synthetic: bool, ids: set<StreamId>)
    requires DistinctOpen(incidents)
    ensures DistinctOpen(Selected(incidents, synthetic, ids))
  {
    if incidents != [] {
      var n := |incidents| - 1;
      assert forall k :: 0 <= k < n ==> incidents[..n][k] == incidents[k];
      SelectedDistinct(incidents[..n], synthetic, ids);
      SelectedFrom(incidents[..n], synthetic, ids);
      var rest := Selected(incidents[..n], synthetic, ids);
      hide Selected;
      if incidents[n].status.Open? {
        forall k | 0 <= k < |rest| && rest[k].status.Open?
          ensures rest[k].streamId != incidents[n].streamId
        {
          assert rest[k] in rest;
          var j :| 0 <= j < n && incidents[j] == rest[k];
        }
      }
      AppendDistinct(rest, incidents[n]);
      assert rest + [] == rest;
      SelectedLast(incidents, synthetic, ids);
    }
  }

  lemma SelectedLast(incidents: seq<Incident>, synthetic: bool, ids: set<StreamId>)
    requires incidents != []
    ensures var n := |incidents| - 1;
            Selected(incidents, synthetic, ids) == Selected(incidents[..n], synthetic, ids)
              + if incidents[n].synthetic == synthetic && incidents[n].streamId in ids then [incidents[n]] else []
  {
  }

  lemma AppendDistinct(rest: seq<Incident>, inc: Incident)
    requires DistinctOpen(rest)
    requires inc.status.Open? ==>
               forall k :: 0 <= k < |rest| && rest[k].status.Open? ==> rest[k].streamId != inc.streamId
    ensures DistinctOpen(rest + [inc])
  {
  }

  // ---------------------------------------------------------------- the selected degraded streams

  function DegradedViews(views: seq<StreamView>): nat {
    if views == [] then 0
    else DegradedViews(views[..|views| - 1]) + (if views[|views| - 1].status == IsDegraded then 1 else 0)
  }

  function DegradedIds(views: seq<StreamView>): set<StreamId> {
    set k | 0 <= k < |views| && views[k].status == IsDegraded :: views[k].streamId
  }

  ghost predicate DistinctViews(views: seq<StreamView>) {
    forall i, j :: 0 <= i < j < |views| ==> views[i].streamId != views[j].streamId
  }

  lemma AppendView(rest: seq<StreamView>, v: StreamView)
    requires DistinctViews(rest) && forall k :: 0 <= k < |rest| ==> rest[k].streamId != v.streamId
    ensures DistinctViews(rest + [v])
  {
  }

  lemma {:induction false} ChosenDistinct(views: seq<StreamView>, synthetic: bool)
    requires DistinctViews(views)
    ensures DistinctViews(Chosen(views, synthetic))
  {
    if views != [] {
      var n := |views| - 1;
      var rest, v := Chosen(views[..n], synthetic), views[n];
      assert DistinctViews(views[..n]);
      ChosenDistinct(views[..n], synthetic);
      ChosenFrom(views[..n], synthetic);
      forall k | 0 <= k < |rest|
        ensures rest[k].streamId != v.streamId
      {
        assert rest[k] in views[..n];
        var j :| 0 <= j < n && views[j] == rest[k];
      }
      hide DistinctViews;
      AppendView(rest, v);
      assert rest + [] == rest;
    }
  }

  lemma DegradedIdsMore(views: seq<StreamView>, v: StreamView)
    ensures DegradedIds(views + [v]) == DegradedIds(views) + (if v.status == IsDegraded then {v.streamId} else {})
  {
    var all := views + [v];
    assert all[|views|] == v;
    forall sid | sid in DegradedIds(views)
      ensures sid in DegradedIds(all)
    {
      var k :| 0 <= k < |views| && views[k].status == IsDegraded && views[k].streamId == sid;
      assert all[k] == views[k];
    }
  }

  lemma {:induction false} DegradedSize(views: seq<StreamView>)
    requires DistinctViews(views)
    ensures DegradedViews(views) == |DegradedIds(views)|
  {
    if views != [] {
      var n := |views| - 1;
      assert forall k :: 0 <= k < n ==> views[..n][k] == views[k];
      DegradedSize(views[..n]);
      assert views == views[..n] + [views[n]];
      DegradedIdsMore(views[..n], views[n]);
    } else {
      assert DegradedIds(views) == {};
    }
  }

  // ---------------------------------------------------------------- main results

  lemma ViewId(score: Score, sid: StreamId, st: Stream)
    ensures View(score, sid, st).streamId == sid
  {
  }

  lemma ViewsFacts(score: Score, streams: map<StreamId, Stream>, order: seq<StreamId>)
    requires Lists(order, streams)
    ensures forall k :: 0 <= k < |order| ==> order[k] in streams
    ensures var views := Views(score, streams, order);
            && DistinctViews(views)
            && (forall k :: 0 <= k < |views| ==>
                  views[k].streamId in streams && views[k]
                    == View(score, views[k].streamId, streams[views[k].streamId]))
            && (forall sid :: sid in streams ==> View(score, sid, streams[sid]) in views)
  {
    hide View, StatsOf;
    var views := Views(score, streams, order);
    forall k | 0 <= k < |views|
      ensures views[k].streamId == order[k] && views[k] == View(score, order[k], streams[order[k]])
    {
      ViewId(score, order[k], streams[order[k]]);
    }
    forall sid | sid in streams
      ensures View(score, sid, streams[sid]) in views
    {
      var k :| 0 <= k < |order| && order[k] == sid;
      assert views[k] == View(score, sid, streams[sid]);
    }
  }

  lemma ChosenSizes(score: Score, streams: map<StreamId, Stream>, order: seq<StreamId>, synthetic: bool)
    requires Lists(order, streams) && |streams| <= MAX_STREAMS
    requires forall sid :: sid in streams ==> Live(sid, streams[sid])
    requires forall k :: 0 <= k < |order| ==> order[k] in streams
    ensures var chosen := Chosen(Views(score, streams, order), synthetic);
            && |chosen| <= MAX_STREAMS
            && forall k :: 0 <= k < |chosen| ==>
                 && chosen[k].baseline.failures <= chosen[k].baseline.count <= WINDOW
                 && chosen[k].current.failures <= chosen[k].current.count <= WINDOW
  {
    hide Live, Chosen, Views, View;
    var views := Views(score, streams, order);
    ViewsFacts(score, streams, order);
    ChosenFrom(views, synthetic);
    DistinctFit(order, streams.Keys);
    var chosen := Chosen(views, synthetic);
    forall k | 0 <= k < |chosen|
      ensures chosen[k].baseline.failures <= chosen[k].baseline.count <= WINDOW
      ensures chosen[k].current.failures <= chosen[k].current.count <= WINDOW
    {
      var j :| 0 <= j < |views| && views[j] == chosen[k];
      ViewSizes(score, views[j].streamId, streams[views[j].streamId]);
    }
  }

  lemma ViewSizes(score: Score, sid: StreamId, st: Stream)
    requires Live(sid, st)
    ensures var v := View(score, sid, st);
            && v.baseline.failures <= v.baseline.count <= WINDOW
            && v.current.failures <= v.current.count <= WINDOW
            && v.dimensions.synthetic == sid.dimensions.synthetic
            && (v.status == IsDegraded <==> st.active.Some?)
  {
    hide Round6, Orderly, Registry;
  }

  /** A report of a well-formed state passes every validator of the report. */
  lemma ReportValid(score: Score, when: Clock, s: State, order: seq<StreamId>, synthetic: bool)
    requires Inv(score, when, s) && Lists(order, s.streams)
    requires forall k :: 0 <= k < |order| ==> order[k] in s.streams
    ensures Valid(ReportFrom(Summary(s.accepted, s.duplicates, Views(score, s.streams, order), s.incidents), synthetic))
  {
    hide Linked, Live, Cached, Spent, Chosen, Selected, Views, CountStatus;
    var chosen := Chosen(Views(score, s.streams, order), synthetic);
    var incidents := Selected(s.incidents, synthetic, Ids(chosen));
    ChosenSizes(score, s.streams, order, synthetic);
    TotalBound(chosen, (v: StreamView) => v.baseline.count, WINDOW);
    TotalBound(chosen, (v: StreamView) => v.current.count, WINDOW);
    TotalOrder(chosen, (v: StreamView) => v.baseline.failures, (v: StreamView) => v.baseline.count);
    TotalOrder(chosen, (v: StreamView) => v.current.failures, (v: StreamView) => v.current.count);
    SelectedFrom(s.incidents, synthetic, Ids(chosen));
    CountsFit(incidents);
  }

  /** The report's open incidents are exactly its degraded streams. */
  lemma ReportCountsDegraded(score: Score, when: Clock, s: State, order: seq<StreamId>, synthetic: bool)
    requires Inv(score, when, s) && Lists(order, s.streams)
    requires forall k :: 0 <= k < |order| ==> order[k] in s.streams
    ensures var summary := Summary(s.accepted, s.duplicates, Views(score, s.streams, order), s.incidents);
            ReportFrom(summary, synthetic).openIncidents == DegradedViews(Chosen(summary.streams, synthetic))
  {
    hide Live, Cached, Linked, Spent, Chosen, Selected, Views, View, DistinctViews, DistinctOpen;
    var views := Views(score, s.streams, order);
    var chosen := Chosen(views, synthetic);
    var incidents := Selected(s.incidents, synthetic, Ids(chosen));
    ViewsFacts(score, s.streams, order);
    ChosenDistinct(views, synthetic);
    DegradedSize(chosen);
    Bijection(score, s);
    SelectedDistinct(s.incidents, synthetic, Ids(chosen));
    OpenCountIsSize(incidents);
    SameIds(score, when, s, order, synthetic);
  }

  lemma ChosenIds(score: Score, when: Clock, s: State, order: seq<StreamId>, synthetic: bool, sid: StreamId)
    requires Inv(score, when, s) && Lists(order, s.streams)
    requires forall k :: 0 <= k < |order| ==> order[k] in s.streams
    ensures var chosen := Chosen(Views(score, s.streams, order), synthetic);
            && (sid in Ids(chosen) <==> sid in s.streams && sid.dimensions.synthetic == synthetic)
            && (sid in DegradedIds(chosen) <==>
                  sid in s.streams && sid.dimensions.synthetic == synthetic && s.streams[sid].active.Some?)
  {
    hide Linked, Live, Cached, Spent, Chosen, Views, View;
    var views := Views(score, s.streams, order);
    var chosen := Chosen(views, synthetic);
    ViewsFacts(score, s.streams, order);
    ChosenFrom(views, synthetic);
    if sid in s.streams {
      ViewId(score, sid, s.streams[sid]);
      ViewSizes(score, sid, s.streams[sid]);
      var v := View(score, sid, s.streams[sid]);
      if sid.dimensions.synthetic == synthetic {
        assert v in chosen;
        var k :| 0 <= k < |chosen| && chosen[k] == v;
      }
    }
    forall k | 0 <= k < |chosen| && chosen[k].streamId == sid
      ensures sid in s.streams && chosen[k] == View(score, sid, s.streams[sid]) && sid.dimensions.synthetic == synthetic
    {
      var j :| 0 <= j < |views| && views[j] == chosen[k];
      ViewSizes(score, sid, s.streams[sid]);
    }
  }

  lemma OpenIsDegraded(score: Score, when: Clock, s: State, order: seq<StreamId>, synthetic: bool, sid: StreamId)
    requires Inv(score, when, s) && Lists(order, s.streams)
    requires forall k :: 0 <= k < |order| ==> order[k] in s.streams
    requires var chosen := Chosen(Views(score, s.streams, order), synthetic);
             sid in OpenIds(Selected(s.incidents, synthetic, Ids(chosen)))
    ensures sid in DegradedIds(Chosen(Views(score, s.streams, order), synthetic))
  {
    hide Linked, Live, Cached, Chosen, Views, Selected, Ids, DegradedIds;
    var chosen := Chosen(Views(score, s.streams, order), synthetic);
    var incidents := Selected(s.incidents, synthetic, Ids(chosen));
    SelectedFrom(s.incidents, synthetic, Ids(chosen));
    ChosenIds(score, when, s, order, synthetic, sid);
    Bijection(score, s);
    var k :| 0 <= k < |incidents| && incidents[k].status.Open? && incidents[k].streamId == sid;
    assert incidents[k] in s.incidents;
  }

  lemma DegradedIsOpen(score: Score, when: Clock, s: State, order: seq<StreamId>, synthetic: bool, sid: StreamId)
    requires Inv(score, when, s) && Lists(order, s.streams)
    requires forall k :: 0 <= k < |order| ==> order[k] in s.streams
    requires sid in DegradedIds(Chosen(Views(score, s.streams, order), synthetic))
    ensures var chosen := Chosen(Views(score, s.streams, order), synthetic);
            sid in OpenIds(Selected(s.incidents, synthetic, Ids(chosen)))
  {
    hide Linked, Live, Cached, Chosen, Views, Selected, Ids, DegradedIds;
    var chosen := Chosen(Views(score, s.streams, order), synthetic);
    var incidents := Selected(s.incidents, synthetic, Ids(chosen));
    SelectedFrom(s.incidents, synthetic, Ids(chosen));
    ChosenIds(score, when, s, order, synthetic, sid);
    Bijection(score, s);
    assert sid in OpenIds(s.incidents);
    var k :| 0 <= k < |s.incidents| && s.incidents[k].status.Open? && s.incidents[k].streamId == sid;
    assert Spent(when, s.dedup, s.floor, s.incidents[k]);
    assert s.incidents[k] in incidents;
  }

  lemma SameIds(score: Score, when: Clock, s: State, order: seq<StreamId>, synthetic: bool)
    requires Inv(score, when, s) && Lists(order, s.streams)
    requires forall k :: 0 <= k < |order| ==> order[k] in s.streams
    ensures var chosen := Chosen(Views(score, s.streams, order), synthetic);
            OpenIds(Selected(s.incidents, synthetic, Ids(chosen))) == DegradedIds(chosen)
  {
    hide Inv, Chosen, Views, Selected, Ids, DegradedIds, OpenIds;
    var chosen := Chosen(Views(score, s.streams, order), synthetic);
    var incidents := Selected(s.incidents, synthetic, Ids(chosen));
    forall sid: StreamId
      ensures sid in OpenIds(incidents) <==> sid in DegradedIds(chosen)
    {
      if sid in OpenIds(incidents) {
        OpenIsDegraded(score, when, s, order, synthetic, sid);
      }
      if sid in DegradedIds(chosen) {
        DegradedIsOpen(score, when, s, order, synthetic, sid);
      }
    }
  }

  /** After any run, for either scope and at any reading time, the report projected from the
      summary is valid and its open count is the number of selected degraded streams. */
  lemma ReportsAlwaysValid(env: Setting, when: Clock, created: int, calls: seq<Call>, now: int,
                           order: seq<StreamId>, synthetic: bool)
    requires TimedCalls(when, calls)
    requires Lists(order, Prune(Load(Run(env, created, calls), now).state, now).streams)
    ensures forall k :: 0 <= k < |order| ==> order[k] in Prune(Load(Run(env, created, calls), now).state, now).streams
    ensures var summary := Summarize(env.score, Load(Run(env, created, calls), now).state, now, order);
            var report := ReportFrom(summary, synthetic);
            && Valid(report)
            && report.openIncidents == DegradedViews(Chosen(summary.streams, synthetic))
  {
    hide Inv, Run, Prune, ReportFrom, Valid, Views;
    var s := Load(Run(env, created, calls), now).state;
    LoadHealthy(env, when, created, calls, now);
    PruneInv(env.score, when, s, now);
    ReportValid(env.score, when, Prune(s, now), order, synthetic);
    ReportCountsDegraded(env.score, when, Prune(s, now), order, synthetic);
  }
}
