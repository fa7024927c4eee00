/** Whole runs of the ingestion endpoint against the store: load, process, meter, save.

    One reading of the clock serves each transaction. A refused call leaves the stored
    document as it was.
 */
module Runs {
  import opened Wrappers
  import opened Protocol
  import opened Numerics
  import opened Tenant
  import Accounts

  const DAY := 86400

  /** The store forgets a document this long after its last write. */
  const STORE_RETENTION := Accounts.RETENTION

  /** What is fixed over a run: arithmetic, size guard and the daily quota. */
  datatype Setting = Setting(score: Score, fits: State -> bool, daily: nat)

  datatype Usage = Usage(day: int, events: nat)

  datatype Document = Document(state: State, usage: Option<Usage>)

  const BLANK := Document(EMPTY, None)

  datatype Refusal = Detection(error: Error) | DailyQuota

  datatype Ingested = Ingested(document: Document, receipt: Receipt, taken: seq<Event>)

  /** The transaction callback of POST /v1/events. */
  ghost function Ingest(env: Setting, doc: Document, events: seq<Event>, now: int): Result<Ingested, Refusal> {
    var today := now / DAY;
    var used := if doc.usage.Some? && doc.usage.value.day == today then doc.usage.value.events else 0;
    match Process(env.score, env.fits, doc.state, events, now)
    case Err(error) => Err(Detection(error))
    case Ok(done) =>
      if used + done.receipt.accepted > env.daily then Err(DailyQuota)
      else
        var usage := Usage(today, used + done.receipt.accepted);
        Ok(Ingested(Document(done.state, Some(usage)), done.receipt, done.taken))
  }

  datatype Call = Call(events: seq<Event>, now: int)

  datatype Entry = Entry(event: Event, at: int)

  /** The stored document, when it expires, the last clock reading, and every event ever
      accepted with the time it was accepted. */
  datatype World = World(document: Document, expires: int, clock: int, log: seq<Entry>)

  function Begin(created: int): World {
    World(BLANK, created + STORE_RETENTION, created, [])
  }

  function Load(w: World, now: int): Document {
    if w.expires > now then w.document else BLANK
  }

  function Entries(taken: seq<Event>, at: int): (entries: seq<Entry>)
    ensures |entries| == |taken|
    ensures forall k :: 0 <= k < |taken| ==> entries[k] == Entry(taken[k], at)
  {
    seq(|taken|, k requires 0 <= k < |taken| => Entry(taken[k], at))
  }

  ghost function Serve(env: Setting, w: World, call: Call): World {
    match Ingest(env, Load(w, call.now), call.events, call.now)
    case Err(_) => w.(clock := call.now)
    case Ok(done) =>
      World(done.document, call.now + STORE_RETENTION, call.now, w.log + Entries(done.taken, call.now))
  }

  ghost function Run(env: Setting, created: int, calls: seq<Call>): World {
    if calls == [] then Begin(created)
    else Serve(env, Run(env, created, calls[..|calls| - 1]), calls[|calls| - 1])
  }

  /** The clock never runs backwards. */
  ghost predicate Steady(created: int, calls: seq<Call>) {
    && (forall k :: 0 <= k < |calls| ==> created <= calls[k].now)
    && (forall i, j :: 0 <= i < j < |calls| ==> calls[i].now <= calls[j].now)
  }

  lemma {:induction false} RunClock(env: Setting, created: int, calls: seq<Call>)
    requires Steady(created, calls)
    ensures Run(env, created, calls).clock == if calls == [] then created else calls[|calls| - 1].now
  {
    hide Ingest;
    if calls != [] {
      RunClock(env, created, calls[..|calls| - 1]);
    }
  }
}
