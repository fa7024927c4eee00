/** The two back ends, driven side by side, cannot be told apart. */
module StoreEquality {
  import opened Accounts
  import Tables
  import SqliteStore
  import FirestoreStore

  /** Any sequence of operations at nondecreasing times, interleaved in any way the callers
      like, is answered identically by the tables and by the documents, as the contract says. */
  method SideBySide<S(!new), R(==)>(sql: SqliteStore.Store<S, R>, docs: FirestoreStore.Store<S, R>,
                              ops: seq<Timed<S, R>>, began: int)
    returns (a: seq<Reply<S, R>>, b: seq<Reply<S, R>>)
    requires sql.Valid() && docs.Valid() && sql.small == docs.small
    requires sql.At(began) == docs.At(began)
    requires forall k :: 0 <= k < |ops| ==> began <= ops[k].now
    requires forall i, j :: 0 <= i < j < |ops| ==> ops[i].now <= ops[j].now
    modifies sql, docs
    ensures a == b && sql.Valid() && docs.Valid()
    ensures var ended := if ops == [] then began else ops[|ops| - 1].now;
            Leads(sql.small, old(sql.At(began)), ops, a, sql.At(ended)) && sql.At(ended) == docs.At(ended)
  {
    hide Leads, Behaves, Forget;
    a, b := [], [];
    ghost var start, clock := sql.At(began), began;
    LeadsNowhere<S, R>(sql.small, start);
    for i := 0 to |ops|
      invariant sql.Valid() && docs.Valid()
      invariant sql.At(clock) == docs.At(clock)
      invariant clock == if i == 0 then began else ops[i - 1].now
      invariant a == b && |a| == i
      invariant Leads(sql.small, start, ops[..i], a, sql.At(clock))
    {
      var op, now := ops[i].op, ops[i].now;
      Tables.ViewLater(sql.tenants, sql.apiKeys, sql.states, clock, now);
      Tables.ViewLater(FirestoreStore.TenantRows(docs.metas), FirestoreStore.Rows(docs.keyDocs), docs.stateDocs,
                       clock, now);
      Tables.SoundWellFormed(sql.tenants, sql.apiKeys, sql.states, now);
      ghost var mid, before := sql.At(clock), sql.At(now);
      var x := sql.Apply(op, now);
      var y := docs.Apply(op, now);
      Deterministic(sql.small, before, op, now, x, sql.At(now), y, docs.At(now));
      LeadsOn(sql.small, start, ops, i, a, mid, x, sql.At(now));
      a, b := a + [x], b + [y];
      clock := now;
    }
    assert ops[..|ops|] == ops;
  }
}
