/** The transaction callback behind POST /v1/events, as it runs: fold the batch into a copy
    of the stored state, then meter the day's accepted events.
 */
module Endpoint {
  import opened Wrappers
  import opened Protocol
  import opened Tenant
  import opened Pruning
  import opened Runs
  import opened Reachable
  import Engine

  method Update(env: Setting, doc: Document, events: seq<Event>, now: int) returns (r: Result<Ingested, Refusal>)
    requires Owned(doc.state)
    ensures r == Ingest(env, doc, events, now)
  {
    hide Process;
    var today := now / DAY;
    var used := 0;
    if doc.usage.Some? && doc.usage.value.day == today {
      used := doc.usage.value.events;
    }
    var processed := Engine.ProcessEvents(env.score, env.fits, doc.state, events, now);
    if processed.Err? {
      return Err(Detection(processed.error));
    }
    var done := processed.value;
    if used + done.receipt.accepted > env.daily {
      return Err(DailyQuota);
    }
    var usage := Usage(today, used + done.receipt.accepted);
    return Ok(Ingested(Document(done.state, Some(usage)), done.receipt, done.taken));
  }

  /** Every document any run hands the callback is one it accepts. */
  lemma LoadedOwned(env: Setting, created: int, calls: seq<Call>, now: int)
    ensures Owned(Load(Run(env, created, calls), now).state)
  {
    RunNamed(env, created, calls, now);
  }
}
