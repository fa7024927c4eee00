/** Stored records as accounts: keys by digest, states by tenant. The SQL tables are this
    outright, and the documents are this once their redundant key lists are set aside, so
    the effect of each operation on the contract's view is worked out here, once.
 */
module Tables {
  import opened Wrappers
  import opened Collections
  import opened Accounts

  datatype KeyRow = KeyRow(tenant: TenantId, id: nat, scopes: seq<Scope>, created: int)

  /** A stored state; None stands for the empty object a tenant is created with. */
  datatype StateRow<S> = StateRow(value: Option<S>, expires: int)

  type Tenants = map<TenantId, int>
  type ApiKeys = map<KeyHash, KeyRow>
  type States<S> = map<TenantId, StateRow<S>>

  // ---------------------------------------------------------------- tables as accounts

  function KeysOf(keys: ApiKeys, t: TenantId): map<KeyHash, KeyInfo> {
    map h | h in keys && keys[h].tenant == t :: KeyInfo(keys[h].scopes, keys[h].created)
  }

  function SavedAt<S>(states: States<S>, t: TenantId, now: int): Option<Saved<S>> {
    if t in states && states[t].expires > now && states[t].value.Some?
    then Some(Saved(states[t].value.value, states[t].expires)) else None
  }

  function View<S>(tenants: Tenants, keys: ApiKeys, states: States<S>, now: int): Accounts<S> {
    map t | t in tenants :: Account(KeysOf(keys, t), SavedAt(states, t, now))
  }

  /** What the schema enforces on keys, and the bound the code keeps. */
  ghost predicate KeysSound(tenants: Tenants, keys: ApiKeys) {
    && (forall h :: h in keys ==> keys[h].tenant in tenants && keys[h].id == h.id)
    && (forall g, h :: g in keys && h in keys && keys[g].tenant == keys[h].tenant && g.id == h.id ==> g == h)
    && (forall t :: t in tenants ==> |KeysOf(keys, t)| <= MAX_KEYS)
  }

  ghost predicate Owned<S>(tenants: Tenants, states: States<S>) {
    forall t :: t in states ==> t in tenants
  }

  predicate HasKey(keys: ApiKeys, t: TenantId, bound: Option<KeyHash>) {
    bound.None? || (bound.value in keys && keys[bound.value].tenant == t)
  }

  lemma SoundWellFormed<S>(tenants: Tenants, keys: ApiKeys, states: States<S>, now: int)
    requires KeysSound(tenants, keys)
    ensures WellFormed(View(tenants, keys, states, now))
    ensures forall k :: Taken(View(tenants, keys, states, now), k) <==> k in keys
    ensures forall t, bound :: Bound(View(tenants, keys, states, now), t, bound) <==> HasKey(keys, t, bound)
  {
    forall k
      ensures Taken(View(tenants, keys, states, now), k) <==> k in keys
    {
      if k in keys {
        assert k in View(tenants, keys, states, now)[keys[k].tenant].keys;
      }
    }
  }

  lemma ViewTenants<S>(tenants: Tenants, keys: ApiKeys, states: States<S>, now: int)
    ensures forall t :: t in View(tenants, keys, states, now) <==> t in tenants
  {
  }

  lemma ViewLater<S>(tenants: Tenants, keys: ApiKeys, states: States<S>, now: int, later: int)
    requires now <= later
    ensures View(tenants, keys, states, later) == Forget(View(tenants, keys, states, now), later)
  {
    hide KeysOf;
  }

  lemma InsertedKey(keys: ApiKeys, k: KeyHash, row: KeyRow, t: TenantId)
    requires k !in keys
    ensures KeysOf(keys[k := row], t) ==
            if t == row.tenant then KeysOf(keys, t)[k := KeyInfo(row.scopes, row.created)] else KeysOf(keys, t)
    ensures k !in KeysOf(keys, t)
  {
  }

  lemma SoundKeys(tenants: Tenants, keys: ApiKeys)
    requires KeysSound(tenants, keys)
    ensures forall h :: h in keys ==> keys[h].tenant in tenants && keys[h].id == h.id
    ensures forall t :: t in tenants ==> |KeysOf(keys, t)| <= MAX_KEYS
  {
  }

  lemma InsertSize(keys: ApiKeys, k: KeyHash, row: KeyRow, t: TenantId)
    requires k !in keys
    ensures |KeysOf(keys[k := row], t)| == |KeysOf(keys, t)| + if t == row.tenant then 1 else 0
  {
    InsertedKey(keys, k, row, t);
    if t == row.tenant {
      var before, after := KeysOf(keys, t), KeysOf(keys[k := row], t);
      hide KeysOf;
      assert after.Keys == before.Keys + {k};
      assert |after| == |after.Keys| && |before| == |before.Keys|;
    }
  }

  /** Adding a key keeps every tenant's keys within the bound when its own tenant has room. */
  lemma InsertWithin(keys: ApiKeys, k: KeyHash, row: KeyRow, t: TenantId)
    requires k !in keys
    requires |KeysOf(keys, t)| <= if t == row.tenant then MAX_KEYS - 1 else MAX_KEYS
    ensures |KeysOf(keys[k := row], t)| <= MAX_KEYS
  {
    hide KeysOf;
    InsertSize(keys, k, row, t);
  }

  lemma NewTenantSound(tenants: Tenants, keys: ApiKeys, t: TenantId, created: int)
    requires KeysSound(tenants, keys) && t !in tenants
    ensures KeysOf(keys, t) == map[]
    ensures KeysSound(tenants[t := created], keys)
  {
  }

  lemma RemovedKeys(keys: ApiKeys, t: TenantId, selector: Selector, doomed: set<KeyHash>, u: TenantId)
    requires doomed == set h | h in keys && keys[h].tenant == t && Matches(selector, h)
    ensures KeysOf(keys - doomed, u) == if u == t then Without(KeysOf(keys, u), selector) else KeysOf(keys, u)
  {
  }

  lemma RemoveSound(tenants: Tenants, keys: ApiKeys, doomed: set<KeyHash>)
    requires KeysSound(tenants, keys)
    ensures KeysSound(tenants, keys - doomed)
  {
    forall t | t in tenants
      ensures |KeysOf(keys - doomed, t)| <= MAX_KEYS
    {
      SubsetSize(KeysOf(keys - doomed, t).Keys, KeysOf(keys, t).Keys);
      assert |KeysOf(keys - doomed, t)| == |KeysOf(keys - doomed, t).Keys|;
      assert |KeysOf(keys, t)| == |KeysOf(keys, t).Keys|;
    }
  }

  lemma DroppedTenant(tenants: Tenants, keys: ApiKeys, t: TenantId, left: ApiKeys)
    requires KeysSound(tenants, keys)
    requires left == map h | h in keys && keys[h].tenant != t :: keys[h]
    ensures KeysSound(tenants - {t}, left)
    ensures forall u :: u != t ==> KeysOf(left, u) == KeysOf(keys, u)
  {
    forall u | u != t
      ensures KeysOf(left, u) == KeysOf(keys, u)
    {
    }
  }

  // ---------------------------------------------------------------- effects on the view

  /** Two databases that differ only in one tenant have views that differ only there. */
  lemma PutView<S>(tenants: Tenants, keys: ApiKeys, states: States<S>, t: TenantId,
                   tenants': Tenants, keys': ApiKeys, states': States<S>, now: int)
    requires tenants'.Keys == tenants.Keys + {t}
    requires forall u :: u != t ==> KeysOf(keys', u) == KeysOf(keys, u)
    requires forall u :: u != t ==> SavedAt(states', u, now) == SavedAt(states, u, now)
    ensures View(tenants', keys', states', now)
            == View(tenants, keys, states, now)[t := Account(KeysOf(keys', t), SavedAt(states', t, now))]
  {
    hide KeysOf, SavedAt;
  }

  lemma CreateSound(tenants: Tenants, keys: ApiKeys, t: TenantId, k: KeyHash, now: int)
    requires KeysSound(tenants, keys) && t !in tenants && k !in keys
    ensures KeysSound(tenants[t := now], keys[k := KeyRow(t, k.id, ALL_SCOPES, now)])
    ensures KeysOf(keys[k := KeyRow(t, k.id, ALL_SCOPES, now)], t) == map[k := KeyInfo(ALL_SCOPES, now)]
  {
    var row := KeyRow(t, k.id, ALL_SCOPES, now);
    NewTenantSound(tenants, keys, t, now);
    InsertedKey(keys, k, row, t);
    var bare: States<()> := map[];
    assert View(tenants[t := now], keys, bare, now)[t].keys == KeysOf(keys, t);
    hide KeysOf, KeysSound, View;
    AddSound(tenants[t := now], keys, bare, t, k, ALL_SCOPES, now);
  }

  lemma CreateView<S>(tenants: Tenants, keys: ApiKeys, states: States<S>, t: TenantId, k: KeyHash, now: int)
    requires KeysSound(tenants, keys) && t !in tenants && k !in keys
    ensures View(tenants[t := now], keys[k := KeyRow(t, k.id, ALL_SCOPES, now)],
                 states[t := StateRow(None, now + RETENTION)], now)
            == View(tenants, keys, states, now)[t := Account(map[k := KeyInfo(ALL_SCOPES, now)], None)]
  {
    hide KeysOf, KeysSound, View;
    var row, states' := KeyRow(t, k.id, ALL_SCOPES, now), states[t := StateRow(None, now + RETENTION)];
    CreateSound(tenants, keys, t, k, now);
    forall u: TenantId | u != t
      ensures KeysOf(keys[k := row], u) == KeysOf(keys, u)
      ensures SavedAt(states', u, now) == SavedAt(states, u, now)
    {
      InsertedKey(keys, k, row, u);
    }
    PutView(tenants, keys, states, t, tenants[t := now], keys[k := row], states', now);
  }

  lemma AddView<S>(tenants: Tenants, keys: ApiKeys, states: States<S>, t: TenantId, k: KeyHash, scopes: seq<Scope>,
                   now: int)
    requires t in tenants && k !in keys
    ensures var before := View(tenants, keys, states, now);
            View(tenants, keys[k := KeyRow(t, k.id, scopes, now)], states, now)
            == before[t := before[t].(keys := before[t].keys[k := KeyInfo(scopes, now)])]
  {
    var row := KeyRow(t, k.id, scopes, now);
    hide KeysOf, SavedAt;
    forall u
      ensures KeysOf(keys[k := row], u) == if u
              == t then KeysOf(keys, u)[k := KeyInfo(scopes, now)] else KeysOf(keys, u)
    {
      InsertedKey(keys, k, row, u);
    }
    PutView(tenants, keys, states, t, tenants, keys[k := row], states, now);
  }

  lemma DoomedKeys(tenants: Tenants, keys: ApiKeys, t: TenantId, selector: Selector, doomed: set<KeyHash>)
    requires KeysSound(tenants, keys)
    requires doomed == set h | h in keys && keys[h].tenant == t && Matches(selector, h)
    ensures t !in tenants ==> doomed == {}
    ensures doomed != {} <==> exists k :: k in KeysOf(keys, t) && Matches(selector, k)
  {
    assert forall k :: k in doomed <==> k in KeysOf(keys, t) && Matches(selector, k);
  }

  lemma RevokeView<S>(tenants: Tenants, keys: ApiKeys, states: States<S>, t: TenantId, selector: Selector,
                      doomed: set<KeyHash>, now: int)
    requires t in tenants
    requires doomed == set h | h in keys && keys[h].tenant == t && Matches(selector, h)
    ensures var before := View(tenants, keys, states, now);
            && View(tenants, keys - doomed, states, now)
              == before[t := before[t].(keys := Without(before[t].keys, selector))]
            && before[t].keys == KeysOf(keys, t)
  {
    hide KeysOf, SavedAt;
    forall u
      ensures KeysOf(keys - doomed, u) == if u == t then Without(KeysOf(keys, u), selector) else KeysOf(keys, u)
    {
      RemovedKeys(keys, t, selector, doomed, u);
    }
    PutView(tenants, keys, states, t, tenants, keys - doomed, states, now);
  }

  lemma SaveView<S>(tenants: Tenants, keys: ApiKeys, states: States<S>, t: TenantId, value: S, expires: int, now: int)
    requires t in tenants && now < expires
    ensures var before := View(tenants, keys, states, now);
            View(tenants, keys, states[t := StateRow(Some(value), expires)], now)
            == before[t := before[t].(saved := Some(Saved(value, expires)))]
  {
    hide KeysOf;
    PutView(tenants, keys, states, t, tenants, keys, states[t := StateRow(Some(value), expires)], now);
  }

  lemma DeleteView<S>(tenants: Tenants, keys: ApiKeys, states: States<S>, t: TenantId, now: int)
    requires KeysSound(tenants, keys)
    ensures var left := map h | h in keys && keys[h].tenant != t :: keys[h];
            && KeysSound(tenants - {t}, left)
            && View(tenants - {t}, left, states - {t}, now) == View(tenants, keys, states, now) - {t}
  {
    hide KeysOf, KeysSound, SavedAt;
    var left := map h | h in keys && keys[h].tenant != t :: keys[h];
    DroppedTenant(tenants, keys, t, left);
    forall u: TenantId | u != t
      ensures SavedAt(states - {t}, u, now) == SavedAt(states, u, now)
    {
      SavedElsewhere(states, t, u, now);
    }
  }

  lemma SavedElsewhere<S>(states: States<S>, t: TenantId, u: TenantId, now: int)
    requires u != t
    ensures SavedAt(states - {t}, u, now) == SavedAt(states, u, now)
  {
  }

  lemma ExpiredView<S>(tenants: Tenants, keys: ApiKeys, states: States<S>, gone: set<TenantId>, now: int, later: int)
    requires now <= later && forall t :: t in gone && t in states ==> states[t].expires <= now
    ensures View(tenants, keys, states - gone, later) == View(tenants, keys, states, later)
  {
    hide KeysOf;
  }

  // ---------------------------------------------------------------- ordering rows

  function PlaceView(views: seq<KeyView>, v: KeyView): seq<KeyView> {
    if views == [] || Before(v, views[0]) then [v] + views else [views[0]] + PlaceView(views[1..], v)
  }

  lemma {:induction false} PlaceHolds(views: seq<KeyView>, v: KeyView)
    ensures forall x :: x in PlaceView(views, v) <==> x == v || x in views
  {
    if views != [] && !Before(v, views[0]) {
      PlaceHolds(views[1..], v);
      assert views == [views[0]] + views[1..];
    }
  }

  lemma FirstBefore(views: seq<KeyView>, x: KeyView)
    requires Ordered(views) && views != [] && x in views[1..]
    ensures Before(views[0], x)
  {
    var j :| 0 <= j < |views[1..]| && views[1..][j] == x;
    assert views[j + 1] == x;
  }

  lemma PrependOrdered(v: KeyView, rest: seq<KeyView>)
    requires Ordered(rest) && forall x :: x in rest ==> Before(v, x)
    ensures Ordered([v] + rest)
  {
    assert forall k :: 0 <= k < |rest| ==> rest[k] in rest;
  }

  lemma {:induction false} PlaceOrdered(views: seq<KeyView>, v: KeyView)
    requires Ordered(views) && forall x :: x in views ==> x.id != v.id
    ensures Ordered(PlaceView(views, v)) && Elements(PlaceView(views, v)) == Elements(views) + {v}
  {
    PlaceHolds(views, v);
    if views == [] {
    } else if Before(v, views[0]) {
      forall x | x in views
        ensures Before(v, x)
      {
        if x != views[0] {
          assert views == [views[0]] + views[1..];
          FirstBefore(views, x);
        }
      }
      PrependOrdered(v, views);
    } else {
      var rest := PlaceView(views[1..], v);
      assert views == [views[0]] + views[1..];
      PlaceOrdered(views[1..], v);
      PlaceHolds(views[1..], v);
      hide PlaceView;
      forall x | x in rest
        ensures Before(views[0], x)
      {
        if x != v {
          FirstBefore(views, x);
        }
      }
      hide Ordered;
      PrependOrdered(views[0], rest);
    }
  }

  // ---------------------------------------------------------------- queries over keys

  lemma KeyRows<S>(tenants: Tenants, keys: ApiKeys, states: States<S>, t: TenantId, id: nat, now: int)
    requires KeysSound(tenants, keys) && t in tenants
    ensures var mine := set h | h in keys && keys[h].tenant == t;
            |View(tenants, keys, states, now)[t].keys| == |mine|
    ensures (exists h :: h in keys && keys[h].tenant == t && keys[h].id == id)
            <==> (exists j :: j in View(tenants, keys, states, now)[t].keys && j.id == id)
  {
    var mine := set h | h in keys && keys[h].tenant == t;
    assert mine == KeysOf(keys, t).Keys;
    assert |KeysOf(keys, t)| == |KeysOf(keys, t).Keys|;
    assert View(tenants, keys, states, now)[t].keys == KeysOf(keys, t);
    assert forall h :: h in KeysOf(keys, t) <==> h in mine;
    hide KeysOf, View, SavedAt;
  }

  lemma AddSound<S>(tenants: Tenants, keys: ApiKeys, states: States<S>, t: TenantId, k: KeyHash, scopes: seq<Scope>,
                    now: int)
    requires KeysSound(tenants, keys) && t in tenants && k !in keys
    requires |View(tenants, keys, states, now)[t].keys| < MAX_KEYS
    requires !exists h :: h in keys && keys[h].tenant == t && keys[h].id == k.id
    ensures KeysSound(tenants, keys[k := KeyRow(t, k.id, scopes, now)])
  {
    hide KeysOf, SavedAt;
    var row := KeyRow(t, k.id, scopes, now);
    forall u | u in tenants
      ensures |KeysOf(keys[k := row], u)| <= MAX_KEYS
    {
      InsertWithin(keys, k, row, u);
    }
  }

  function RowView(keys: ApiKeys, h: KeyHash): KeyView
    requires h in keys
  {
    KeyView(keys[h].id, keys[h].scopes, keys[h].created)
  }

  /** The rows of some keys of one tenant, in listing order. */
  ghost predicate Listed(keys: ApiKeys, t: TenantId, shown: set<KeyHash>, views: seq<KeyView>) {
    && (forall h :: h in shown ==> h in keys && keys[h].tenant == t)
    && Ordered(views)
    && (forall v :: v in views ==> exists h :: h in shown && v == RowView(keys, h))
    && (forall h :: h in shown ==> RowView(keys, h) in views)
  }

  lemma NoneListed(tenants: Tenants, keys: ApiKeys, t: TenantId)
    ensures var all := set h | h in keys && keys[h].tenant == t; Listed(keys, t, all - all, [])
  {
  }

  lemma ListOne(tenants: Tenants, keys: ApiKeys, t: TenantId, shown: set<KeyHash>, views: seq<KeyView>, h: KeyHash)
    requires KeysSound(tenants, keys) && Listed(keys, t, shown, views)
    requires h in keys && keys[h].tenant == t && h !in shown
    ensures Listed(keys, t, shown + {h}, PlaceView(views, RowView(keys, h)))
  {
    hide KeysSound, PlaceView, Ordered, Elements;
    var v := RowView(keys, h);
    ListedIds(tenants, keys, t, shown, views, h);
    PlaceOrdered(views, v);
    ElementsIn(views);
    ElementsIn(PlaceView(views, v));
  }

  lemma ListedIds(tenants: Tenants, keys: ApiKeys, t: TenantId, shown: set<KeyHash>, views: seq<KeyView>, h: KeyHash)
    requires KeysSound(tenants, keys) && Listed(keys, t, shown, views)
    requires h in keys && keys[h].tenant == t && h !in shown
    ensures forall x :: x in views ==> x.id != keys[h].id
  {
    hide Ordered, KeysOf;
    forall x | x in views
      ensures x.id != keys[h].id
    {
      var g :| g in shown && x == RowView(keys, g);
    }
  }

  lemma ElementsIn(views: seq<KeyView>)
    ensures forall x :: x in views <==> x in Elements(views)
  {
  }

  lemma AllListed<S>(tenants: Tenants, keys: ApiKeys, states: States<S>, t: TenantId, views: seq<KeyView>, now: int)
    requires KeysSound(tenants, keys)
    requires Listed(keys, t, (set h | h in keys && keys[h].tenant == t), views)
    ensures var accounts := View(tenants, keys, states, now);
            IsListing(views, if t in accounts then accounts[t].keys else map[])
  {
    var mine := KeysOf(keys, t);
    SoundKeys(tenants, keys);
    ListedSet(keys, t, views);
    if t !in tenants {
      NoRows(tenants, keys, t);
    }
    hide Listed, KeysOf, KeysSound, SavedAt;
  }

  lemma NoRows(tenants: Tenants, keys: ApiKeys, t: TenantId)
    requires KeysSound(tenants, keys) && t !in tenants
    ensures KeysOf(keys, t) == map[]
  {
  }

  lemma ListedSet(keys: ApiKeys, t: TenantId, views: seq<KeyView>)
    requires Listed(keys, t, (set h | h in keys && keys[h].tenant == t), views)
    requires forall h :: h in keys ==> keys[h].id == h.id
    ensures IsListing(views, KeysOf(keys, t))
  {
    hide Ordered;
    var mine := KeysOf(keys, t);
    var shown := set h | h in keys && keys[h].tenant == t;
    forall v
      ensures v in Elements(views) <==> v in ViewSet(mine)
    {
      if v in Elements(views) {
        var h :| h in shown && v == RowView(keys, h);
        assert v == ViewOf(h, mine[h]);
      }
      if v in ViewSet(mine) {
        var h :| h in mine && v == ViewOf(h, mine[h]);
        assert h in shown;
      }
    }
  }
}
