/** The documents: one per tenant holding its key digests, one per key, one per state. Key
    membership is stored twice, and every transaction must keep both copies in step.
 */
module FirestoreStore {
  import opened Wrappers
  import opened Accounts
  import opened Tables

  datatype Metadata = Metadata(created: int, hashes: seq<KeyHash>)
  datatype KeyDocument = KeyDocument(tenant: TenantId, id: nat, scopes: seq<Scope>, active: bool, created: int)

  type TenantDocs = map<TenantId, Metadata>
  type KeyDocs = map<KeyHash, KeyDocument>

  // ---------------------------------------------------------------- documents as records

  function Rows(docs: KeyDocs): ApiKeys {
    map h | h in docs :: KeyRow(docs[h].tenant, docs[h].id, docs[h].scopes, docs[h].created)
  }

  function TenantRows(metas: TenantDocs): Tenants {
    map t | t in metas :: metas[t].created
  }

  ghost predicate NoRepeats(hashes: seq<KeyHash>) {
    forall i, j :: 0 <= i < j < |hashes| ==> hashes[i] != hashes[j]
  }

  /** The key documents match the tenants' lists exactly. */
  ghost predicate InStep(metas: TenantDocs, docs: KeyDocs) {
    && (forall t :: t in metas ==> NoRepeats(metas[t].hashes))
    && (forall t, h :: t in metas && h in metas[t].hashes ==> h in docs && docs[h].tenant == t && docs[h].active)
    && (forall h :: h in docs ==> docs[h].tenant in metas && h in metas[docs[h].tenant].hashes)
  }

  function HashSet(hashes: seq<KeyHash>): set<KeyHash> {
    set h | h in hashes
  }

  lemma {:induction false} HashCount(hashes: seq<KeyHash>)
    requires NoRepeats(hashes)
    ensures |HashSet(hashes)| == |hashes|
  {
    if hashes != [] {
      var n := |hashes| - 1;
      HashCount(hashes[..n]);
      assert hashes == hashes[..n] + [hashes[n]];
      assert HashSet(hashes) == HashSet(hashes[..n]) + {hashes[n]};
    } else {
      assert HashSet(hashes) == {};
    }
  }

  /** A tenant's list holds exactly the keys its records name. */
  lemma ListIsKeys(metas: TenantDocs, docs: KeyDocs, t: TenantId)
    requires InStep(metas, docs) && t in metas
    ensures KeysOf(Rows(docs), t).Keys == HashSet(metas[t].hashes)
    ensures |KeysOf(Rows(docs), t)| == |metas[t].hashes|
  {
    assert KeysOf(Rows(docs), t).Keys == HashSet(metas[t].hashes);
    HashCount(metas[t].hashes);
    assert |KeysOf(Rows(docs), t)| == |KeysOf(Rows(docs), t).Keys|;
  }

  function Listing(metas: TenantDocs, t: TenantId): seq<KeyHash> {
    if t in metas then metas[t].hashes else []
  }

  lemma BoundIsListed(metas: TenantDocs, docs: KeyDocs, t: TenantId, key: KeyHash)
    requires InStep(metas, docs)
    ensures key in Listing(metas, t) <==> HasKey(Rows(docs), t, Some(key))
  {
  }

  lemma RowsUpdate(docs: KeyDocs, k: KeyHash, doc: KeyDocument)
    ensures Rows(docs[k := doc]) == Rows(docs)[k := KeyRow(doc.tenant, doc.id, doc.scopes, doc.created)]
  {
  }

  lemma RowsRemove(docs: KeyDocs, gone: set<KeyHash>)
    ensures Rows(docs - gone) == Rows(docs) - gone
  {
  }

  // ---------------------------------------------------------------- keeping the copies in step

  lemma AddInStep(metas: TenantDocs, docs: KeyDocs, t: TenantId, k: KeyHash, doc: KeyDocument)
    requires InStep(metas, docs) && t in metas && k !in docs && doc.tenant == t && doc.active
    ensures InStep(metas[t := metas[t].(hashes := metas[t].hashes + [k])], docs[k := doc])
  {
    assert forall h :: h in metas[t].hashes + [k] <==> h in metas[t].hashes || h == k;
    assert k !in metas[t].hashes;
  }

  lemma CreateInStep(metas: TenantDocs, docs: KeyDocs, t: TenantId, k: KeyHash, doc: KeyDocument, now: int)
    requires InStep(metas, docs) && t !in metas && k !in docs && doc.tenant == t && doc.active
    ensures InStep(metas[t := Metadata(now, [k])], docs[k := doc])
  {
  }

  function Dropped(hashes: seq<KeyHash>, k: KeyHash): seq<KeyHash> {
    if hashes == [] then []
    else (if hashes[0] != k then [hashes[0]] else []) + Dropped(hashes[1..], k)
  }

  lemma {:induction false} DroppedFacts(hashes: seq<KeyHash>, k: KeyHash)
    ensures forall h :: h in Dropped(hashes, k) <==> h in hashes && h != k
    ensures NoRepeats(hashes) ==> NoRepeats(Dropped(hashes, k))
  {
    if hashes != [] {
      DroppedFacts(hashes[1..], k);
      assert hashes == [hashes[0]] + hashes[1..];
      if NoRepeats(hashes) {
        assert forall j :: 0 <= j < |hashes[1..]| ==> hashes[1..][j] == hashes[j + 1];
        assert hashes[0] !in hashes[1..];
      }
    }
  }

  /** What a tenant's list may lose together with its key document. */
  lemma ShortenInStep(metas: TenantDocs, docs: KeyDocs, t: TenantId, k: KeyHash, hashes: seq<KeyHash>)
    requires InStep(metas, docs) && t in metas && k in docs && docs[k].tenant == t
    requires NoRepeats(hashes) && forall h :: h in hashes <==> h in metas[t].hashes && h != k
    ensures InStep(metas[t := metas[t].(hashes := hashes)], docs - {k})
  {
    hide NoRepeats;
    var metas' := metas[t := metas[t].(hashes := hashes)];
    forall u, h | u in metas' && h in metas'[u].hashes
      ensures h in docs - {k} && docs[h].tenant == u && docs[h].active
    {
      assert h in metas[u].hashes;
    }
    forall h | h in docs - {k}
      ensures docs[h].tenant in metas' && h in metas'[docs[h].tenant].hashes
    {
      assert h in metas[docs[h].tenant].hashes;
    }
  }

  lemma RevokeInStep(metas: TenantDocs, docs: KeyDocs, t: TenantId, k: KeyHash)
    requires InStep(metas, docs) && t in metas && k in metas[t].hashes
    ensures InStep(metas[t := metas[t].(hashes := Dropped(metas[t].hashes, k))], docs - {k})
  {
    hide Dropped, NoRepeats;
    DroppedFacts(metas[t].hashes, k);
    assert docs[k].tenant == t;
    ShortenInStep(metas, docs, t, k, Dropped(metas[t].hashes, k));
  }

  lemma DeleteInStep(metas: TenantDocs, docs: KeyDocs, t: TenantId, gone: set<KeyHash>)
    requires InStep(metas, docs) && t in metas && gone == HashSet(metas[t].hashes)
    ensures InStep(metas - {t}, docs - gone)
  {
    hide NoRepeats;
    assert forall h :: h in gone ==> h in docs && docs[h].tenant == t;
    forall u, h | u in metas - {t} && h in metas[u].hashes
      ensures h in docs - gone
    {
      assert docs[h].tenant == u;
    }
    forall h | h in docs - gone
      ensures docs[h].tenant in metas - {t}
    {
      assert h in metas[docs[h].tenant].hashes;
    }
  }

  lemma DeleteRows(metas: TenantDocs, docs: KeyDocs, t: TenantId, gone: set<KeyHash>)
    requires InStep(metas, docs) && t in metas && gone == HashSet(metas[t].hashes)
    ensures Rows(docs - gone) == map h | h in Rows(docs) && Rows(docs)[h].tenant != t :: Rows(docs)[h]
  {
    forall h | h in docs
      ensures h in gone <==> docs[h].tenant == t
    {
      assert h in metas[docs[h].tenant].hashes;
      assert h in metas[t].hashes ==> docs[h].tenant == t;
    }
    hide InStep;
  }

  /** The first match in a tenant's list is the only one. */
  lemma OnlyMatch(metas: TenantDocs, docs: KeyDocs, t: TenantId, selector: Selector, k: KeyHash)
    requires InStep(metas, docs) && KeysSound(TenantRows(metas), Rows(docs))
    requires t in metas && k in metas[t].hashes && Matches(selector, k)
    ensures {k} == set h | h in Rows(docs) && Rows(docs)[h].tenant == t && Matches(selector, h)
  {
    hide KeysOf;
    forall h | h in Rows(docs) && Rows(docs)[h].tenant == t && Matches(selector, h)
      ensures h == k
    {
      assert Rows(docs)[k].tenant == t;
    }
  }

  function FirstMatch(hashes: seq<KeyHash>, selector: Selector): Option<KeyHash> {
    if hashes == [] then None
    else if Matches(selector, hashes[0]) then Some(hashes[0])
    else FirstMatch(hashes[1..], selector)
  }

  lemma {:induction false} FirstMatchFacts(hashes: seq<KeyHash>, selector: Selector)
    ensures match FirstMatch(hashes, selector)
            case Some(k) => k in hashes && Matches(selector, k)
            case None => forall h :: h in hashes ==> !Matches(selector, h)
  {
    if hashes != [] {
      FirstMatchFacts(hashes[1..], selector);
      assert hashes == [hashes[0]] + hashes[1..];
    }
  }

  lemma NoMatch(metas: TenantDocs, docs: KeyDocs, t: TenantId, selector: Selector)
    requires InStep(metas, docs)
    requires forall h :: h in Listing(metas, t) ==> !Matches(selector, h)
    ensures {} == set h | h in Rows(docs) && Rows(docs)[h].tenant == t && Matches(selector, h)
  {
  }

  // ---------------------------------------------------------------- whole transactions on documents

  /** The three parts of a valid store. */
  ghost predicate Consistent(metas: TenantDocs, docs: KeyDocs) {
    InStep(metas, docs) && KeysSound(TenantRows(metas), Rows(docs))
  }

  lemma MatchingKeys<S>(metas: TenantDocs, docs: KeyDocs, states: States<S>, t: TenantId, id: nat, now: int)
    requires Consistent(metas, docs) && t in metas
    ensures var keys := View(TenantRows(metas), Rows(docs), states, now)[t].keys;
            && |keys| == |metas[t].hashes|
            && ((exists i :: 0 <= i < |metas[t].hashes| && metas[t].hashes[i].id == id)
              <==> (exists j :: j in keys && j.id == id))
            && ((exists h :: h in Rows(docs) && Rows(docs)[h].tenant == t && Rows(docs)[h].id == id)
              <==> (exists j :: j in keys && j.id == id))
  {
    hide KeysOf, KeysSound, SavedAt, InStep, Rows;
    var keys, hashes := KeysOf(Rows(docs), t), metas[t].hashes;
    KeyRows(TenantRows(metas), Rows(docs), states, t, id, now);
    ListIsKeys(metas, docs, t);
    assert View(TenantRows(metas), Rows(docs), states, now)[t].keys == keys;
    assert forall j :: j in keys <==> j in hashes by {
      assert forall j :: j in keys <==> j in keys.Keys;
      assert forall j :: j in HashSet(hashes) <==> j in hashes;
    }
    assert forall i :: 0 <= i < |hashes| ==> hashes[i] in hashes;
  }

  lemma DocsCreate<S>(metas: TenantDocs, docs: KeyDocs, states: States<S>, t: TenantId, k: KeyHash, now: int)
    requires Consistent(metas, docs) && t !in metas && k !in docs
    ensures var metas' := metas[t := Metadata(now, [k])];
            var docs' := docs[k := KeyDocument(t, k.id, ALL_SCOPES, true, now)];
            && Consistent(metas', docs') && TenantRows(metas') == TenantRows(metas)[t := now]
            && View(TenantRows(metas'), Rows(docs'), states[t := StateRow(None, now + RETENTION)], now)
               == View(TenantRows(metas), Rows(docs), states, now)
                  [t := Account(map[k := KeyInfo(ALL_SCOPES, now)], None)]
  {
    hide KeysOf, KeysSound, SavedAt, InStep, View;
    var doc := KeyDocument(t, k.id, ALL_SCOPES, true, now);
    CreateInStep(metas, docs, t, k, doc, now);
    CreateView(TenantRows(metas), Rows(docs), states, t, k, now);
    CreateSound(TenantRows(metas), Rows(docs), t, k, now);
    RowsUpdate(docs, k, doc);
    assert TenantRows(metas[t := Metadata(now, [k])]) == TenantRows(metas)[t := now];
  }

  lemma DocsAdd<S>(metas: TenantDocs, docs: KeyDocs, states: States<S>, t: TenantId, k: KeyHash, scopes: seq<Scope>,
                   now: int)
    requires Consistent(metas, docs) && t in metas && k !in docs
    requires |View(TenantRows(metas), Rows(docs), states, now)[t].keys| < MAX_KEYS
    requires !exists h :: h in Rows(docs) && Rows(docs)[h].tenant == t && Rows(docs)[h].id == k.id
    ensures var before := View(TenantRows(metas), Rows(docs), states, now);
            var metas' := metas[t := metas[t].(hashes := metas[t].hashes + [k])];
            var docs' := docs[k := KeyDocument(t, k.id, scopes, true, now)];
            && Consistent(metas', docs') && TenantRows(metas') == TenantRows(metas)
            && View(TenantRows(metas'), Rows(docs'), states, now)
               == before[t := before[t].(keys := before[t].keys[k := KeyInfo(scopes, now)])]
  {
    hide KeysOf, KeysSound, SavedAt, InStep, View;
    var doc := KeyDocument(t, k.id, scopes, true, now);
    AddInStep(metas, docs, t, k, doc);
    RowsUpdate(docs, k, doc);
    AddView(TenantRows(metas), Rows(docs), states, t, k, scopes, now);
    AddSound(TenantRows(metas), Rows(docs), states, t, k, scopes, now);
    assert TenantRows(metas[t := metas[t].(hashes := metas[t].hashes + [k])]) == TenantRows(metas);
  }

  lemma DocsRevoke<S>(metas: TenantDocs, docs: KeyDocs, states: States<S>, t: TenantId, selector: Selector,
                      k: KeyHash, now: int)
    requires Consistent(metas, docs) && t in metas && k in metas[t].hashes && Matches(selector, k)
    ensures var before := View(TenantRows(metas), Rows(docs), states, now);
            var metas' := metas[t := metas[t].(hashes := Dropped(metas[t].hashes, k))];
            && Consistent(metas', docs - {k}) && TenantRows(metas') == TenantRows(metas)
            && t in before && (exists j :: j in before[t].keys && Matches(selector, j))
            && View(TenantRows(metas'), Rows(docs - {k}), states, now)
               == before[t := before[t].(keys := Without(before[t].keys, selector))]
  {
    hide KeysOf, KeysSound, InStep, Matches, Without, Rows;
    var tenants, rows := TenantRows(metas), Rows(docs);
    OnlyMatch(metas, docs, t, selector, k);
    DoomedKeys(tenants, rows, t, selector, {k});
    RevokeView(tenants, rows, states, t, selector, {k}, now);
    RemoveSound(tenants, rows, {k});
    RevokeInStep(metas, docs, t, k);
    RowsRemove(docs, {k});
    assert TenantRows(metas[t := metas[t].(hashes := Dropped(metas[t].hashes, k))]) == TenantRows(metas);
    hide View;
  }

  lemma DocsRevokeNone<S>(metas: TenantDocs, docs: KeyDocs, states: States<S>, t: TenantId, selector: Selector,
                          now: int)
    requires Consistent(metas, docs) && t in metas && forall h :: h in metas[t].hashes ==> !Matches(selector, h)
    ensures var before := View(TenantRows(metas), Rows(docs), states, now);
            && t in before && !(exists j :: j in before[t].keys && Matches(selector, j))
            && before == before[t := before[t].(keys := Without(before[t].keys, selector))]
  {
    hide KeysOf, KeysSound, InStep, Matches, Without, Rows;
    NoMatch(metas, docs, t, selector);
    DoomedKeys(TenantRows(metas), Rows(docs), t, selector, {});
    RevokeView(TenantRows(metas), Rows(docs), states, t, selector, {}, now);
    assert Rows(docs) - {} == Rows(docs);
  }

  lemma DocsDelete<S>(metas: TenantDocs, docs: KeyDocs, states: States<S>, t: TenantId, now: int)
    requires Consistent(metas, docs) && t in metas
    ensures var gone := HashSet(metas[t].hashes);
            && Consistent(metas - {t}, docs - gone) && TenantRows(metas - {t}) == TenantRows(metas) - {t}
            && View(TenantRows(metas - {t}), Rows(docs - gone), states - {t}, now)
               == View(TenantRows(metas), Rows(docs), states, now) - {t}
  {
    hide KeysOf, KeysSound, SavedAt, InStep, View;
    var gone := HashSet(metas[t].hashes);
    DeleteInStep(metas, docs, t, gone);
    DeleteRows(metas, docs, t, gone);
    DeleteView(TenantRows(metas), Rows(docs), states, t, now);
    assert TenantRows(metas - {t}) == TenantRows(metas) - {t};
  }

  // ---------------------------------------------------------------- the store

  class Store<S, R> {
    const small: S -> bool
    var metas: TenantDocs
    var keyDocs: KeyDocs
    var stateDocs: States<S>

    constructor (small: S -> bool)
      ensures Valid() && this.small == small
      ensures forall now :: At(now) == map[]
    {
      this.small := small;
      metas, keyDocs, stateDocs := map[], map[], map[];
    }

    /** The documents as accounts, at an instant. */
    ghost function At(now: int): Accounts<S>
      reads this
    {
      View(TenantRows(metas), Rows(keyDocs), stateDocs, now)
    }

    /** At most 16 keys with distinct identifiers, key documents matching the tenant lists,
        and no state without a tenant. */
    ghost predicate Valid()
      reads this
    {
      && Consistent(metas, keyDocs)
      && Owned(TenantRows(metas), stateDocs)
    }

    method Create(t: TenantId, k: KeyHash, now: int) returns (reply: Reply<S, R>)
      requires Valid()
      modifies this
      ensures Valid() && Creates(old(At(now)), t, k, now, reply, At(now))
    {
      hide KeysOf, KeysSound, Taken, SavedAt, InStep, View;
      SoundWellFormed(TenantRows(metas), Rows(keyDocs), stateDocs, now);
      ViewTenants(TenantRows(metas), Rows(keyDocs), stateDocs, now);
      if t in metas {
        return TenantExists;
      }
      if k in keyDocs {
        return KeyConflict;
      }
      DocsCreate(metas, keyDocs, stateDocs, t, k, now);
      metas := metas[t := Metadata(now, [k])];
      keyDocs := keyDocs[k := KeyDocument(t, k.id, ALL_SCOPES, true, now)];
      stateDocs := stateDocs[t := StateRow(None, now + RETENTION)];
      return Done;
    }

    method Authenticate(k: KeyHash, now: int) returns (reply: Reply<S, R>)
      requires Valid()
      ensures Identifies(At(now), k, reply)
    {
      hide KeysSound;
      SoundWellFormed(TenantRows(metas), Rows(keyDocs), stateDocs, now);
      SoundKeys(TenantRows(metas), Rows(keyDocs));
      if k !in keyDocs {
        return Known(None);
      }
      var doc := keyDocs[k];
      if doc.tenant !in metas {
        return Known(None);
      }
      if k !in metas[doc.tenant].hashes || !doc.active {
        return Known(None);
      }
      assert k in At(now)[doc.tenant].keys && Rows(keyDocs)[k].id == k.id;
      return Known(Some(Principal(doc.tenant, doc.id, doc.scopes, doc.created)));
    }

    /** metadata and _require_key together: the tenant exists and lists the bound key. */
    method Require(t: TenantId, bound: Option<KeyHash>, now: int) returns (ok: bool)
      requires Valid()
      ensures ok == (t in At(now) && Bound(At(now), t, bound))
    {
      SoundWellFormed(TenantRows(metas), Rows(keyDocs), stateDocs, now);
      hide KeysSound, KeysOf, Bound, InStep;
      if t !in metas {
        return false;
      }
      if bound.Some? {
        BoundIsListed(metas, keyDocs, t, bound.value);
      }
      return bound.None? || bound.value in metas[t].hashes;
    }

    method Add(t: TenantId, k: KeyHash, scopes: seq<Scope>, bound: Option<KeyHash>, now: int)
      returns (reply: Reply<S, R>)
      requires Valid()
      modifies this
      ensures Valid() && Adds(old(At(now)), t, k, scopes, bound, now, reply, At(now))
    {
      hide KeysSound, KeysOf, Taken, Bound, InStep, View, Adds;
      SoundWellFormed(TenantRows(metas), Rows(keyDocs), stateDocs, now);
      ViewTenants(TenantRows(metas), Rows(keyDocs), stateDocs, now);
      AddsCases<S, R>(At(now), t, k, scopes, bound, now);
      var ok := Require(t, bound, now);
      if !ok {
        return TenantMissing;
      }
      var hashes := metas[t].hashes;
      MatchingKeys(metas, keyDocs, stateDocs, t, k.id, now);
      if |hashes| >= MAX_KEYS {
        return StorageLimit;
      }
      if k in keyDocs || (exists i :: 0 <= i < |hashes| && hashes[i].id == k.id) {
        return KeyConflict;
      }
      DocsAdd(metas, keyDocs, stateDocs, t, k, scopes, now);
      metas := metas[t := metas[t].(hashes := hashes + [k])];
      keyDocs := keyDocs[k := KeyDocument(t, k.id, scopes, true, now)];
      return Done;
    }

    method Revoke(t: TenantId, selector: Selector, bound: Option<KeyHash>, now: int) returns (reply: Reply<S, R>)
      requires Valid()
      modifies this
      ensures Valid() && Revokes(old(At(now)), t, selector, bound, reply, At(now))
    {
      hide KeysOf, KeysSound, Taken, Bound, View, Without, Matches, InStep, Rows;
      SoundWellFormed(TenantRows(metas), Rows(keyDocs), stateDocs, now);
      ViewTenants(TenantRows(metas), Rows(keyDocs), stateDocs, now);
      if t !in metas && bound.None? {
        assert HasKey(Rows(keyDocs), t, bound);
        return Flag(false);
      }
      var ok := Require(t, bound, now);
      if !ok {
        MissingIsUnbound(t, bound, now);
        return TenantMissing;
      }
      var found := FirstMatch(metas[t].hashes, selector);
      FirstMatchFacts(metas[t].hashes, selector);
      if found.None? {
        DocsRevokeNone(metas, keyDocs, stateDocs, t, selector, now);
        return Flag(false);
      }
      var k := found.value;
      DocsRevoke(metas, keyDocs, stateDocs, t, selector, k, now);
      metas := metas[t := metas[t].(hashes := Dropped(metas[t].hashes, k))];
      keyDocs := keyDocs - {k};
      return Flag(true);
    }

    lemma MissingIsUnbound(t: TenantId, bound: Option<KeyHash>, now: int)
      requires Valid() && !(t in At(now) && Bound(At(now), t, bound))
      requires t in metas || bound.Some?
      ensures !Bound(At(now), t, bound)
    {
      hide KeysSound, InStep;
    }

    method ListKeys(t: TenantId, bound: Option<KeyHash>, now: int) returns (reply: Reply<S, R>)
      requires Valid()
      ensures Lists(At(now), t, bound, reply)
    {
      hide KeysOf, KeysSound, Taken, Bound, InStep, View, Listed;
      SoundWellFormed(TenantRows(metas), Rows(keyDocs), stateDocs, now);
      ViewTenants(TenantRows(metas), Rows(keyDocs), stateDocs, now);
      if t !in metas && bound.None? {
        NoneIsListing();
        return Keys([]);
      }
      var ok := Require(t, bound, now);
      if !ok {
        MissingIsUnbound(t, bound, now);
        return TenantMissing;
      }
      var hashes := metas[t].hashes;
      var records: seq<KeyView> := [];
      HashesListed(t);
      ghost var rows := Rows(keyDocs);
      assert HashSet(hashes[..0]) == {};
      NothingListed(rows, t);
      for i := 0 to |hashes|
        invariant Listed(rows, t, HashSet(hashes[..i]), records)
      {
        var h := hashes[i];
        HashStep(hashes, i);
        ListOne(TenantRows(metas), rows, t, HashSet(hashes[..i]), records, h);
        if h in keyDocs && keyDocs[h].tenant == t {
          records := PlaceView(records, KeyView(keyDocs[h].id, keyDocs[h].scopes, keyDocs[h].created));
        }
      }
      assert hashes[..|hashes|] == hashes;
      AllListed(TenantRows(metas), rows, stateDocs, t, records, now);
      return Keys(records);
    }

    lemma HashesListed(t: TenantId)
      requires Valid() && t in metas
      ensures NoRepeats(metas[t].hashes)
      ensures forall i :: 0 <= i < |metas[t].hashes| ==>
                metas[t].hashes[i] in keyDocs && keyDocs[metas[t].hashes[i]].tenant == t
      ensures HashSet(metas[t].hashes) == set h | h in Rows(keyDocs) && Rows(keyDocs)[h].tenant == t
    {
      hide KeysSound;
    }

    method Transact(t: TenantId, callback: Callback<S, R>, bound: Option<KeyHash>, now: int)
      returns (reply: Reply<S, R>)
      requires Valid()
      modifies this
      ensures Valid() && Transacts(small, old(At(now)), t, callback, bound, now, reply, At(now))
    {
      hide KeysSound, Taken, Bound, KeysOf, InStep;
      var ok := Require(t, bound, now);
      if !ok {
        return TenantMissing;
      }
      var state := if t in stateDocs && stateDocs[t].expires > now then stateDocs[t].value else None;
      assert state == StateOf(At(now)[t]);
      var outcome := callback(state);
      if outcome.None? {
        return CallbackRaised;
      }
      var (value, result) := outcome.value;
      if !small(value) {
        return StorageLimit;
      }
      SaveView(TenantRows(metas), Rows(keyDocs), stateDocs, t, value, now + RETENTION, now);
      stateDocs := stateDocs[t := StateRow(Some(value), now + RETENTION)];
      return Result(result);
    }

    method Read(t: TenantId, bound: Option<KeyHash>, now: int) returns (reply: Reply<S, R>)
      requires Valid()
      modifies this
      ensures Valid() && At(now) == old(At(now)) && Reads(At(now), t, bound, reply)
    {
      hide KeysSound, Taken, KeysOf, InStep;
      if t !in metas && bound.None? {
        return State(None);
      }
      var ok := Require(t, bound, now);
      if !ok {
        return TenantMissing;
      }
      var state := if t in stateDocs && stateDocs[t].expires > now then stateDocs[t].value else None;
      assert state == StateOf(At(now)[t]);
      if t in stateDocs && stateDocs[t].expires <= now {
        ExpiredView(TenantRows(metas), Rows(keyDocs), stateDocs, {t}, now, now);
        stateDocs := stateDocs - {t};
      }
      return State(Some(state));
    }

    method Delete(t: TenantId, bound: Option<KeyHash>, now: int) returns (reply: Reply<S, R>)
      requires Valid()
      modifies this
      ensures Valid() && Deletes(old(At(now)), t, bound, reply, At(now))
    {
      hide KeysSound, Taken, Bound, InStep, Rows, View;
      SoundWellFormed(TenantRows(metas), Rows(keyDocs), stateDocs, now);
      ViewTenants(TenantRows(metas), Rows(keyDocs), stateDocs, now);
      if t !in metas && bound.None? {
        assert HasKey(Rows(keyDocs), t, bound);
        assert At(now) - {t} == At(now);
        return Flag(false);
      }
      var ok := Require(t, bound, now);
      if !ok {
        MissingIsUnbound(t, bound, now);
        return TenantMissing;
      }
      var gone := HashSet(metas[t].hashes);
      DocsDelete(metas, keyDocs, stateDocs, t, now);
      keyDocs := keyDocs - gone;
      stateDocs := stateDocs - {t};
      metas := metas - {t};
      return Flag(true);
    }

    method Apply(op: Op<S, R>, now: int) returns (reply: Reply<S, R>)
      requires Valid()
      modifies this
      ensures Valid() && Behaves(small, old(At(now)), op, now, reply, At(now))
    {
      hide Creates, Identifies, Adds, Revokes, Lists, Transacts, Reads, Deletes;
      hide Consistent, Owned, View, TenantRows, Rows;
      match op {
        case Create(t, k) => reply := Create(t, k, now);
        case Authenticate(k) => reply := Authenticate(k, now);
        case Add(t, k, scopes, bound) => reply := Add(t, k, scopes, bound, now);
        case Revoke(t, selector, bound) => reply := Revoke(t, selector, bound, now);
        case ListKeys(t, bound) => reply := ListKeys(t, bound, now);
        case Transact(t, callback, bound) => reply := Transact(t, callback, bound, now);
        case Read(t, bound) => reply := Read(t, bound, now);
        case Delete(t, bound) => reply := Delete(t, bound, now);
      }
    }
  }

  lemma NoneIsListing()
    ensures IsListing([], map[])
  {
    assert Elements([]) == {} && ViewSet(map[]) == {};
  }

  lemma NothingListed(keys: ApiKeys, t: TenantId)
    ensures Listed(keys, t, {}, [])
  {
  }

  lemma HashStep(hashes: seq<KeyHash>, i: nat)
    requires NoRepeats(hashes) && i < |hashes|
    ensures hashes[i] !in HashSet(hashes[..i])
    ensures HashSet(hashes[..i + 1]) == HashSet(hashes[..i]) + {hashes[i]}
  {
    assert hashes[..i + 1] == hashes[..i] + [hashes[i]];
  }
}
