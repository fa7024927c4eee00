/** The service end to end: the ingestion calls answered by a store, interleaved with any
    other operations, are a run, so what holds of runs holds of what callers were told.
 */
module Service {
  import opened Wrappers
  import opened Protocol
  import opened Tenant
  import opened Runs
  import opened ExactlyOnce
  import Batches
  import Delivery
  import A = Accounts

  type Operation = A.Timed<Document, Receipt>
  type Answer = A.Reply<Document, Receipt>

  function Loaded(stored: Option<Document>): Document {
    match stored case Some(doc) => doc case None => BLANK
  }

  /** What the endpoint asks the store to do with the tenant's state. */
  ghost function Callback(env: Setting, events: seq<Event>, now: int, stored: Option<Document>)
    : Option<(Document, Receipt)>
  {
    match Ingest(env, Loaded(stored), events, now)
    case Ok(done) => Some((done.document, done.receipt))
    case Err(_) => None
  }

  ghost predicate Ingests(env: Setting, t: A.TenantId, op: Operation, events: seq<Event>) {
    op.op.Transact? && op.op.tenant == t ==>
      forall stored: Option<Document> :: op.op.callback(stored) == Callback(env, events, op.now, stored)
  }

  function Latest(created: int, ops: seq<Operation>): int {
    if ops == [] then created else ops[|ops| - 1].now
  }

  /** The tenant is only ever transacted on by the endpoint, each time with its batch and one
      reading of the clock, and is not deleted. Everything else is arbitrary. */
  ghost predicate Serving(env: Setting, t: A.TenantId, created: int, ops: seq<Operation>, batches: seq<seq<Event>>) {
    |batches| == |ops|
    && forall k :: 0 <= k < |ops| ==>
         && Ingests(env, t, ops[k], batches[k])
         && !(ops[k].op.Delete? && ops[k].op.tenant == t)
         && Latest(created, ops[..k]) <= ops[k].now
  }

  /** Accepted events, as the receipts of the tenant's calls report them. */
  function Reported(t: A.TenantId, op: Operation, reply: Answer): nat {
    if op.op.Transact? && op.op.tenant == t && reply.Result? then reply.result.accepted else 0
  }

  function Accepted(t: A.TenantId, ops: seq<Operation>, replies: seq<Answer>): nat
    requires |replies| == |ops|
  {
    if ops == [] then 0
    else
      var n := |ops| - 1;
      Accepted(t, ops[..n], replies[..n]) + Reported(t, ops[n], replies[n])
  }

  /** From this time on, the store hands back what the run's store would. */
  ghost predicate Stored(accounts: A.Accounts<Document>, t: A.TenantId, w: World, at: int) {
    t in accounts
    && forall now :: at <= now ==> Loaded(A.StateOf(A.Forget(accounts, now)[t])) == Load(w, now)
  }

  /** The store's own size limit is the wider one. */
  ghost predicate Roomy(env: Setting, small: Document -> bool) {
    forall doc: Document :: env.fits(doc.state) ==> small(doc)
  }

  lemma ForgottenStays(accounts: A.Accounts<Document>, t: A.TenantId, w: World, at: int, now: int)
    requires Stored(accounts, t, w, at) && at <= now
    ensures Stored(A.Forget(accounts, now), t, w, now)
  {
    forall later | now <= later
      ensures Loaded(A.StateOf(A.Forget(A.Forget(accounts, now), later)[t])) == Load(w, later)
    {
      assert A.StateOf(A.Forget(A.Forget(accounts, now), later)[t]) == A.StateOf(A.Forget(accounts, later)[t]);
    }
  }

  /** An operation that leaves the tenant's state alone. */
  lemma UntouchedStays(before: A.Accounts<Document>, after: A.Accounts<Document>, t: A.TenantId, w: World, at: int)
    requires Stored(before, t, w, at) && t in after && after[t].saved == before[t].saved
    ensures Stored(after, t, w, at)
  {
    forall now | at <= now
      ensures Loaded(A.StateOf(A.Forget(after, now)[t])) == Load(w, now)
    {
      assert A.StateOf(A.Forget(after, now)[t]) == A.StateOf(A.Forget(before, now)[t]);
    }
  }

  lemma OthersUntouched(small: Document -> bool, before: A.Accounts<Document>, op: Operation, reply: Answer,
                        after: A.Accounts<Document>, t: A.TenantId)
    requires A.Behaves(small, before, op.op, op.now, reply, after) && t in before
    requires !(op.op.Delete? && op.op.tenant == t)
    requires op.op.Transact? && op.op.tenant == t ==> reply.TenantMissing? || reply.CallbackRaised?
    ensures t in after && after[t].saved == before[t].saved
  {
    hide A.Taken, A.Bound, A.Without, A.IsListing;
  }

  /** A served call leaves the store holding what the run's store holds. */
  lemma SavedStored(after: A.Accounts<Document>, t: A.TenantId, w: World, now: int)
    requires t in after && after[t].saved == Some(A.Saved(w.document, now + A.RETENTION))
    requires w.expires == now + A.RETENTION
    ensures Stored(after, t, w, now)
  {
  }

  lemma IngestFits(env: Setting, doc: Document, events: seq<Event>, now: int)
    requires Ingest(env, doc, events, now).Ok?
    ensures var done := Ingest(env, doc, events, now).value;
            env.fits(done.document.state) && done.receipt.accepted == |done.taken|
  {
    hide Fold, Close, Prune;
  }

  lemma TransactStored(env: Setting, small: Document -> bool, before: A.Accounts<Document>, op: Operation,
                       reply: Answer, after: A.Accounts<Document>, t: A.TenantId, w: World, events: seq<Event>)
    requires Roomy(env, small) && Stored(before, t, w, op.now) && Ingests(env, t, op, events)
    requires op.op.Transact? && op.op.tenant == t && !reply.TenantMissing?
    requires A.Behaves(small, A.Forget(before, op.now), op.op, op.now, reply, after)
    ensures Stored(after, t, Serve(env, w, Call(events, op.now)), op.now)
    ensures |Serve(env, w, Call(events, op.now)).log| == |w.log| + Reported(t, op, reply)
  {
    hide Ingest, A.Bound;
    var mid := A.Forget(before, op.now);
    ForgottenStays(before, t, w, op.now, op.now);
    var loaded := Load(w, op.now);
    assert Loaded(A.StateOf(mid[t])) == loaded;
    assert op.op.callback(A.StateOf(mid[t])) == Callback(env, events, op.now, A.StateOf(mid[t]));
    if Ingest(env, loaded, events, op.now).Err? {
      UntouchedStays(mid, after, t, w, op.now);
    } else {
      IngestFits(env, loaded, events, op.now);
      SavedStored(after, t, Serve(env, w, Call(events, op.now)), op.now);
    }
  }

  /** These calls, made with some of the batches, are the run behind a history. */
  ghost predicate Behind(env: Setting, t: A.TenantId, created: int, batches: seq<seq<Event>>, latest: int,
                         end: A.Accounts<Document>, accepted: nat, calls: seq<Call>)
  {
    && Steady(created, calls) && created <= latest && (calls == [] || calls[|calls| - 1].now <= latest)
    && (forall k :: 0 <= k < |calls| ==> calls[k].events in batches)
    && Stored(end, t, Run(env, created, calls), latest)
    && |Run(env, created, calls).log| == accepted
  }

  /** Behind any history that starts with a fresh tenant there is a run: the store ends up
      holding the run's document, and the receipts add up to the run's log. */
  lemma {:induction false} RunBehind(env: Setting, small: Document -> bool, t: A.TenantId, start: A.Accounts<Document>,
                                     ops: seq<Operation>, batches: seq<seq<Event>>, replies: seq<Answer>,
                                     end: A.Accounts<Document>, created: int) returns (calls: seq<Call>)
    requires Roomy(env, small) && Serving(env, t, created, ops, batches)
    requires A.Leads(small, start, ops, replies, end)
    requires t in start && start[t].saved.None?
    ensures |replies| == |ops|
    ensures Behind(env, t, created, batches, Latest(created, ops), end, Accepted(t, ops, replies), calls)
    decreases |ops|
  {
    hide Roomy, Ingests, A.Behaves, A.Forget, Serve, Stored, Reported;
    if ops == [] {
      FreshStored(start, t, created);
      calls := [];
    } else {
      hide Behind;
      var n := |ops| - 1;
      var mid := A.LeadsLast(small, start, ops, replies, end);
      hide A.Leads;
      ServingBefore(env, t, created, ops, batches);
      calls := RunBehind(env, small, t, start, ops[..n], batches[..n], replies[..n], mid, created);
      hide Serving;
      assert batches == batches[..n] + [batches[n]];
      calls := OneMore(env, small, t, created, batches[..n], batches[n], Latest(created, ops[..n]), mid,
                       Accepted(t, ops[..n], replies[..n]), calls, ops[n], replies[n], end);
    }
  }

  lemma OneMore(env: Setting, small: Document -> bool, t: A.TenantId, created: int, batches: seq<seq<Event>>,
                batch: seq<Event>, latest: int, mid: A.Accounts<Document>, accepted: nat, calls: seq<Call>,
                op: Operation, reply: Answer, end: A.Accounts<Document>) returns (more: seq<Call>)
    requires Roomy(env, small) && Behind(env, t, created, batches, latest, mid, accepted, calls)
    requires A.Behaves(small, A.Forget(mid, op.now), op.op, op.now, reply, end)
    requires Ingests(env, t, op, batch) && !(op.op.Delete? && op.op.tenant == t) && latest <= op.now
    ensures Behind(env, t, created, batches + [batch], op.now, end, accepted + Reported(t, op, reply), more)
  {
    hide Roomy, Ingests, A.Behaves, A.Forget, Serve, Stored, Reported;
    var w, call := Run(env, created, calls), Call(batch, op.now);
    if op.op.Transact? && op.op.tenant == t && !reply.TenantMissing? {
      StoredLater(mid, t, w, latest, op.now);
      TransactStored(env, small, mid, op, reply, end, t, w, batch);
      SteadyOn(created, calls, call);
      hide Steady;
      assert (calls + [call])[..|calls|] == calls;
      more := calls + [call];
    } else {
      hide Steady, Run;
      QuietStored(env, small, mid, op, reply, end, t, w, latest);
      more := calls;
    }
  }

  lemma FreshStored(start: A.Accounts<Document>, t: A.TenantId, created: int)
    requires t in start && start[t].saved.None?
    ensures Stored(start, t, Begin(created), created)
  {
  }

  lemma StoredLater(accounts: A.Accounts<Document>, t: A.TenantId, w: World, at: int, now: int)
    requires Stored(accounts, t, w, at) && at <= now
    ensures Stored(accounts, t, w, now)
  {
  }

  lemma ServingBefore(env: Setting, t: A.TenantId, created: int, ops: seq<Operation>, batches: seq<seq<Event>>)
    requires Serving(env, t, created, ops, batches) && ops != []
    ensures var n := |ops| - 1;
            && Serving(env, t, created, ops[..n], batches[..n])
            && Ingests(env, t, ops[n], batches[n]) && !(ops[n].op.Delete? && ops[n].op.tenant == t)
            && Latest(created, ops[..n]) <= ops[n].now
  {
    hide Ingests;
    var n := |ops| - 1;
    assert forall k :: 0 <= k < n ==> ops[..n][..k] == ops[..k];
  }

  lemma SteadyOn(created: int, calls: seq<Call>, call: Call)
    requires Steady(created, calls) && created <= call.now
    requires calls == [] || calls[|calls| - 1].now <= call.now
    ensures Steady(created, calls + [call])
  {
  }

  lemma QuietStored(env: Setting, small: Document -> bool, mid: A.Accounts<Document>, op: Operation, reply: Answer,
                    end: A.Accounts<Document>, t: A.TenantId, w: World, at: int)
    requires Stored(mid, t, w, at) && at <= op.now
    requires A.Behaves(small, A.Forget(mid, op.now), op.op, op.now, reply, end)
    requires !(op.op.Delete? && op.op.tenant == t)
    requires op.op.Transact? && op.op.tenant == t ==> reply.TenantMissing?
    ensures Stored(end, t, w, op.now) && Reported(t, op, reply) == 0
  {
    hide A.Behaves;
    ForgottenStays(mid, t, w, at, op.now);
    OthersUntouched(small, A.Forget(mid, op.now), op, reply, end, t);
    UntouchedStays(A.Forget(mid, op.now), end, t, w, op.now);
  }

  // ---------------------------------------------------------------- where a log comes from

  lemma {:induction false} LogFromCalls(env: Setting, created: int, calls: seq<Call>)
    ensures forall e :: e in Run(env, created, calls).log ==> exists k :: 0 <= k < |calls| && e.event in calls[k].events
  {
    if calls != [] {
      var n := |calls| - 1;
      var before, call := Run(env, created, calls[..n]), calls[n];
      LogFromCalls(env, created, calls[..n]);
      ServeLog(env, before, call);
      hide Serve;
      forall e | e in Run(env, created, calls).log
        ensures exists k :: 0 <= k < |calls| && e.event in calls[k].events
      {
        if e in before.log {
          var k :| 0 <= k < n && e.event in calls[..n][k].events;
          assert e.event in calls[k].events;
        } else {
          assert e.event in calls[n].events;
        }
      }
    }
  }

  lemma ServeLog(env: Setting, w: World, call: Call)
    ensures forall e :: e in Serve(env, w, call).log ==> e in w.log || e.event in call.events
  {
    hide Ingest;
    if Ingest(env, Load(w, call.now), call.events, call.now).Ok? {
      var q := ServedFold(env, Load(w, call.now), call.events, call.now);
      hide TookFrom, Close;
    }
  }

  // ---------------------------------------------------------------- main result

  /** Whatever a store that meets the contract told the callers of one tenant, over any
      history of operations by anyone: the accepted counts in the receipts add up to a log of
      submitted events in which no (id, timestamp) pair appears twice. */
  lemma ReceiptsCountOnce(env: Setting, small: Document -> bool, t: A.TenantId, start: A.Accounts<Document>,
                          ops: seq<Operation>, batches: seq<seq<Event>>, replies: seq<Answer>,
                          end: A.Accounts<Document>, created: int) returns (log: seq<Entry>)
    requires Roomy(env, small) && Serving(env, t, created, ops, batches)
    requires A.Leads(small, start, ops, replies, end)
    requires t in start && start[t].saved.None?
    ensures |replies| == |ops| && Accepted(t, ops, replies) == |log|
    ensures OnlyOnce(log)
    ensures forall e :: e in log ==> exists k :: 0 <= k < |batches| && e.event in batches[k]
  {
    hide Roomy, Serving, A.Leads, Run, OnlyOnce, Stored, Steady, Accepted;
    var calls := RunBehind(env, small, t, start, ops, batches, replies, end, created);
    AcceptedOnce(env, created, calls);
    LogFromCalls(env, created, calls);
    log := Run(env, created, calls).log;
    forall e | e in log
      ensures exists k :: 0 <= k < |batches| && e.event in batches[k]
    {
      var k :| 0 <= k < |calls| && e.event in calls[k].events;
      var j :| 0 <= j < |batches| && batches[j] == calls[k].events;
    }
  }

  /** The receipt of a served call accounts for the whole batch, so the SDK counts the batch as
      sent. */
  lemma ReceiptMatches(env: Setting, doc: Document, events: seq<Event>, now: int)
    requires Ingest(env, doc, events, now).Ok?
    ensures var receipt := Ingest(env, doc, events, now).value.receipt;
            && receipt.accepted + receipt.duplicates == |events|
            && Delivery.Matches(Delivery.Acknowledgement(receipt.accepted, receipt.duplicates), |events|)
  {
    hide Fold, Prune, Evict, TookFrom;
    Batches.SortEventsSame(events);
    FoldTook(env.score, Prune(doc.state, now), now, SortEvents(events));
  }
}
