/** The SQL tables: tenants, api_keys and tenant_states, with their primary keys, the
    UNIQUE(tenant_id, key_id) index and cascading deletes. One method per operation, each
    a single transaction, each proved to meet the contract in `Accounts`.
 */
module SqliteStore {
  import opened Wrappers
  import opened Accounts
  import opened Tables

  class Store<S, R> {
    const small: S -> bool
    var tenants: Tenants
    var apiKeys: ApiKeys
    var states: States<S>

    constructor (small: S -> bool)
      ensures Valid() && this.small == small
      ensures forall now :: At(now) == map[]
    {
      this.small := small;
      tenants, apiKeys, states := map[], map[], map[];
    }

    /** The tables as accounts, at an instant. */
    ghost function At(now: int): Accounts<S>
      reads this
    {
      View(tenants, apiKeys, states, now)
    }

    ghost predicate Valid()
      reads this
    {
      KeysSound(tenants, apiKeys) && Owned(tenants, states)
    }

    method Create(t: TenantId, k: KeyHash, now: int) returns (reply: Reply<S, R>)
      requires Valid()
      modifies this
      ensures Valid() && Creates(old(At(now)), t, k, now, reply, At(now))
    {
      hide KeysOf, KeysSound, Taken, SavedAt;
      SoundWellFormed(tenants, apiKeys, states, now);
      if t in tenants {
        return TenantExists;
      }
      if k in apiKeys {
        return KeyConflict;
      }
      CreateView(tenants, apiKeys, states, t, k, now);
      CreateSound(tenants, apiKeys, t, k, now);
      tenants := tenants[t := now];
      apiKeys := apiKeys[k := KeyRow(t, k.id, ALL_SCOPES, now)];
      states := states[t := StateRow(None, now + RETENTION)];
      return Done;
    }

    method Authenticate(k: KeyHash, now: int) returns (reply: Reply<S, R>)
      requires Valid()
      ensures Identifies(At(now), k, reply)
    {
      SoundWellFormed(tenants, apiKeys, states, now);
      if k !in apiKeys {
        return Known(None);
      }
      var row := apiKeys[k];
      assert k in At(now)[row.tenant].keys;
      return Known(Some(Principal(row.tenant, row.id, row.scopes, row.created)));
    }

    method Add(t: TenantId, k: KeyHash, scopes: seq<Scope>, bound: Option<KeyHash>, now: int)
      returns (reply: Reply<S, R>)
      requires Valid()
      modifies this
      ensures Valid() && Adds(old(At(now)), t, k, scopes, bound, now, reply, At(now))
    {
      hide KeysSound, KeysOf, Taken, Bound, SavedAt;
      SoundWellFormed(tenants, apiKeys, states, now);
      if t !in tenants {
        return TenantMissing;
      }
      if !HasKey(apiKeys, t, bound) {
        return TenantMissing;
      }
      KeyRows(tenants, apiKeys, states, t, k.id, now);
      var mine := set h | h in apiKeys && apiKeys[h].tenant == t;
      if |mine| >= MAX_KEYS {
        return StorageLimit;
      }
      // The two constraints of the table: the primary key and UNIQUE(tenant_id, key_id).
      if k in apiKeys || (exists h :: h in apiKeys && apiKeys[h].tenant == t && apiKeys[h].id == k.id) {
        return KeyConflict;
      }
      AddView(tenants, apiKeys, states, t, k, scopes, now);
      AddSound(tenants, apiKeys, states, t, k, scopes, now);
      apiKeys := apiKeys[k := KeyRow(t, k.id, scopes, now)];
      return Done;
    }

    method Revoke(t: TenantId, selector: Selector, bound: Option<KeyHash>, now: int) returns (reply: Reply<S, R>)
      requires Valid()
      modifies this
      ensures Valid() && Revokes(old(At(now)), t, selector, bound, reply, At(now))
    {
      hide KeysOf, KeysSound, Taken, Bound, View, Without, Matches;
      SoundWellFormed(tenants, apiKeys, states, now);
      ViewTenants(tenants, apiKeys, states, now);
      if !HasKey(apiKeys, t, bound) {
        return TenantMissing;
      }
      var doomed := set h | h in apiKeys && apiKeys[h].tenant == t && Matches(selector, h);
      RemoveSound(tenants, apiKeys, doomed);
      DoomedKeys(tenants, apiKeys, t, selector, doomed);
      if t !in tenants {
        return Flag(false);
      }
      RevokeView(tenants, apiKeys, states, t, selector, doomed, now);
      apiKeys := apiKeys - doomed;
      return Flag(doomed != {});
    }

    /** SELECT .. WHERE tenant_id ORDER BY created_at, key_id. */
    method ListKeys(t: TenantId, bound: Option<KeyHash>, now: int) returns (reply: Reply<S, R>)
      requires Valid()
      ensures Lists(At(now), t, bound, reply)
    {
      hide KeysSound, KeysOf, Taken, Bound, SavedAt;
      SoundWellFormed(tenants, apiKeys, states, now);
      if !HasKey(apiKeys, t, bound) {
        return TenantMissing;
      }
      var left := set h | h in apiKeys && apiKeys[h].tenant == t;
      ghost var all := left;
      NoneListed(tenants, apiKeys, t);
      var views: seq<KeyView> := [];
      while left != {}
        invariant left <= all
        invariant Listed(apiKeys, t, all - left, views)
        decreases |left|
      {
        var h :| h in left;
        ListOne(tenants, apiKeys, t, all - left, views, h);
        assert (all - left) + {h} == all - (left - {h});
        views := PlaceView(views, RowView(apiKeys, h));
        left := left - {h};
      }
      assert all - left == all;
      AllListed(tenants, apiKeys, states, t, views, now);
      return Keys(views);
    }

    method Transact(t: TenantId, callback: Callback<S, R>, bound: Option<KeyHash>, now: int)
      returns (reply: Reply<S, R>)
      requires Valid()
      modifies this
      ensures Valid() && Transacts(small, old(At(now)), t, callback, bound, now, reply, At(now))
    {
      hide KeysSound, Taken, Bound, KeysOf;
      SoundWellFormed(tenants, apiKeys, states, now);
      if t !in tenants {
        return TenantMissing;
      }
      if !HasKey(apiKeys, t, bound) {
        return TenantMissing;
      }
      var state := if t in states && states[t].expires > now then states[t].value else None;
      assert state == StateOf(At(now)[t]);
      var outcome := callback(state);
      if outcome.None? {
        return CallbackRaised;
      }
      var (value, result) := outcome.value;
      if !small(value) {
        return StorageLimit;
      }
      SaveView(tenants, apiKeys, states, t, value, now + RETENTION, now);
      states := states[t := StateRow(Some(value), now + RETENTION)];
      return Result(result);
    }

    /** Reading an expired state deletes its row. */
    method Read(t: TenantId, bound: Option<KeyHash>, now: int) returns (reply: Reply<S, R>)
      requires Valid()
      modifies this
      ensures Valid() && At(now) == old(At(now)) && Reads(At(now), t, bound, reply)
    {
      hide KeysSound, Taken, Bound, KeysOf;
      SoundWellFormed(tenants, apiKeys, states, now);
      if !HasKey(apiKeys, t, bound) {
        return TenantMissing;
      }
      if t !in tenants {
        return State(None);
      }
      if t !in states {
        return State(Some(None));
      }
      if states[t].expires <= now {
        ExpiredView(tenants, apiKeys, states, {t}, now, now);
        states := states - {t};
        return State(Some(None));
      }
      return State(Some(states[t].value));
    }

    /** Deleting a tenant cascades to its keys and state. */
    method Delete(t: TenantId, bound: Option<KeyHash>, now: int) returns (reply: Reply<S, R>)
      requires Valid()
      modifies this
      ensures Valid() && Deletes(old(At(now)), t, bound, reply, At(now))
    {
      hide KeysSound, Taken, Bound, KeysOf, SavedAt;
      SoundWellFormed(tenants, apiKeys, states, now);
      if !HasKey(apiKeys, t, bound) {
        return TenantMissing;
      }
      DeleteView(tenants, apiKeys, states, t, now);
      var existed := t in tenants;
      apiKeys := map h | h in apiKeys && apiKeys[h].tenant != t :: apiKeys[h];
      tenants, states := tenants - {t}, states - {t};
      return Flag(existed);
    }

    /** Physical maintenance on any of the expired rows: no caller can tell, now or later. */
    method PurgeExpired(gone: set<TenantId>, now: int)
      requires Valid() && forall t :: t in gone ==> t in states && states[t].expires <= now
      modifies this`states
      ensures Valid() && forall later :: now <= later ==> At(later) == old(At(later))
    {
      hide KeysSound, KeysOf;
      forall later | now <= later
        ensures View(tenants, apiKeys, states - gone, later) == View(tenants, apiKeys, states, later)
      {
        ExpiredView(tenants, apiKeys, states, gone, now, later);
      }
      states := states - gone;
    }

    method Apply(op: Op<S, R>, now: int) returns (reply: Reply<S, R>)
      requires Valid()
      modifies this
      ensures Valid() && Behaves(small, old(At(now)), op, now, reply, At(now))
    {
      hide Creates, Identifies, Adds, Revokes, Lists, Transacts, Reads, Deletes;
      hide KeysSound, Owned, View;
      match op {
        case Create(t, k) => reply := Create(t, k, now);
        case Authenticate(k) => reply := Authenticate(k, now);
        case Add(t, k, scopes, bound) => reply := Add(t, k, scopes, bound, now);
        case Revoke(t, selector, bound) => reply := Revoke(t, selector, bound, now);
        case ListKeys(t, bound) => reply := ListKeys(t, bound, now);
        case Transact(t, callback, bound) => reply := Transact(t, callback, bound, now);
        case Read(t, bound) => reply := Read(t, bound, now);
        case Delete(t, bound) => reply := Delete(t, bound, now);
      }
    }
  }
}
