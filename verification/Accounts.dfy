/** The storage contract both back ends must meet: tenants with keys and one expiring
    state, and what each operation answers. Neither tables nor documents appear here.

    A key digest is split into its public 12-digit identifier and the rest, as numbers.
    Everything is seen at an instant: a state past its expiry does not exist.
 */
module Accounts {
  import opened Wrappers
  import opened Collections

  const MAX_KEYS := 16
  const RETENTION := 7 * 86400 + 5 * 60

  type TenantId = string

  datatype KeyHash = KeyHash(id: nat, rest: nat)

  /** Keys are revoked by full digest or by public identifier. */
  datatype Selector = ByHash(hash: KeyHash) | ById(id: nat)

  predicate Matches(selector: Selector, key: KeyHash) {
    match selector
    case ByHash(hash) => key == hash
    case ById(id) => key.id == id
  }

  datatype Scope = MayIngest | MayManage | MayRead

  datatype KeyInfo = KeyInfo(scopes: seq<Scope>, created: int)
  datatype KeyView = KeyView(id: nat, scopes: seq<Scope>, created: int)
  datatype Principal = Principal(tenant: TenantId, id: nat, scopes: seq<Scope>, created: int)

  datatype Saved<S> = Saved(value: S, expires: int)

  datatype Account<S> = Account(keys: map<KeyHash, KeyInfo>, saved: Option<Saved<S>>)

  type Accounts<S> = map<TenantId, Account<S>>

  /** A transaction callback: from the current state, or none, to a new one and a result;
      None is an exception. It must be a function: the store may run it more than once. */
  type Callback<!S, R> = Option<S> -> Option<(S, R)>

  datatype Op<!S, R> =
    | Create(tenant: TenantId, key: KeyHash)
    | Authenticate(key: KeyHash)
    | Add(tenant: TenantId, key: KeyHash, scopes: seq<Scope>, bound: Option<KeyHash>)
    | Revoke(tenant: TenantId, selector: Selector, bound: Option<KeyHash>)
    | ListKeys(tenant: TenantId, bound: Option<KeyHash>)
    | Transact(tenant: TenantId, callback: Callback<S, R>, bound: Option<KeyHash>)
    | Read(tenant: TenantId, bound: Option<KeyHash>)
    | Delete(tenant: TenantId, bound: Option<KeyHash>)

  datatype Reply<S, R> =
    | Done
    | Flag(value: bool)
    | Known(principal: Option<Principal>)
    | Keys(keys: seq<KeyView>)
    | Result(result: R)
    | State(state: Option<Option<S>>)   // None: no tenant; Some(None): no state
    | TenantMissing | TenantExists | KeyConflict | StorageLimit | CallbackRaised

  const ALL_SCOPES: seq<Scope> := [MayIngest, MayManage, MayRead]

  // ---------------------------------------------------------------- key listings

  predicate Before(a: KeyView, b: KeyView) {
    a.created < b.created || (a.created == b.created && a.id < b.id)
  }

  ghost predicate Ordered(views: seq<KeyView>) {
    forall i, j :: 0 <= i < j < |views| ==> Before(views[i], views[j])
  }

  function ViewOf(key: KeyHash, info: KeyInfo): KeyView {
    KeyView(key.id, info.scopes, info.created)
  }

  ghost function ViewSet(keys: map<KeyHash, KeyInfo>): set<KeyView> {
    set k | k in keys :: ViewOf(k, keys[k])
  }

  function Elements(views: seq<KeyView>): set<KeyView> {
    set v | v in views
  }

  ghost predicate IsListing(views: seq<KeyView>, keys: map<KeyHash, KeyInfo>) {
    Ordered(views) && Elements(views) == ViewSet(keys)
  }

  lemma {:induction false} ListingUnique(a: seq<KeyView>, b: seq<KeyView>)
    requires Ordered(a) && Ordered(b) && Elements(a) == Elements(b)
    ensures a == b
  {
    assert forall v :: v in a <==> v in Elements(a);
    assert forall v :: v in b <==> v in Elements(b);
    assert |b| > 0 ==> b[0] in b;
    if a != [] {
      assert a[0] in b;
      assert b[0] in a;
      SameFirst(a, b);
      TailSet(a);
      TailSet(b);
      ListingUnique(a[1..], b[1..]);
      assert a == [a[0]] + a[1..] && b == [b[0]] + b[1..];
    }
  }

  lemma SameFirst(a: seq<KeyView>, b: seq<KeyView>)
    requires Ordered(a) && Ordered(b) && a != [] && b != [] && a[0] in b && b[0] in a
    ensures a[0] == b[0]
  {
    var i :| 0 <= i < |b| && b[i] == a[0];
    var j :| 0 <= j < |a| && a[j] == b[0];
    assert i == 0 || Before(b[0], b[i]);
    assert j == 0 || Before(a[0], a[j]);
  }

  lemma TailSet(a: seq<KeyView>)
    requires Ordered(a) && a != []
    ensures Ordered(a[1..])
    ensures Elements(a[1..]) == Elements(a) - {a[0]}
  {
    assert a == [a[0]] + a[1..];
    forall v | v in a[1..]
      ensures v != a[0]
    {
      var k :| 0 <= k < |a[1..]| && a[1..][k] == v;
      assert Before(a[0], a[k + 1]);
    }
  }

  // ---------------------------------------------------------------- what each operation does

  /** A call may be bound to a key; the key must still belong to the tenant. */
  predicate Bound<S>(accounts: Accounts<S>, tenant: TenantId, bound: Option<KeyHash>) {
    bound.None? || (tenant in accounts && bound.value in accounts[tenant].keys)
  }

  predicate Taken<S>(accounts: Accounts<S>, key: KeyHash) {
    exists t :: t in accounts && key in accounts[t].keys
  }

  function Without(keys: map<KeyHash, KeyInfo>, selector: Selector): map<KeyHash, KeyInfo> {
    map k | k in keys && !Matches(selector, k) :: keys[k]
  }

  function StateOf<S>(account: Account<S>): Option<S> {
    match account.saved case Some(saved) => Some(saved.value) case None => None
  }

  ghost predicate Creates<S, R>(before: Accounts<S>, t: TenantId, k: KeyHash, now: int, reply: Reply<S, R>,
                                after: Accounts<S>) {
    if t in before then reply == TenantExists && after == before
    else if Taken(before, k) then reply == KeyConflict && after == before
    else
      && reply == Done
      && after == before[t := Account(map[k := KeyInfo([MayIngest, MayManage, MayRead], now)], None)]
  }

  ghost predicate Identifies<S, R>(before: Accounts<S>, k: KeyHash, reply: Reply<S, R>) {
    if Taken(before, k) then
      exists t :: t in before && k in before[t].keys
                  && reply == Known(Some(Principal(t, k.id, before[t].keys[k].scopes, before[t].keys[k].created)))
    else reply == Known(None)
  }

  ghost predicate Adds<S, R>(before: Accounts<S>, t: TenantId, k: KeyHash, scopes: seq<Scope>, bound: Option<KeyHash>,
                             now: int, reply: Reply<S, R>, after: Accounts<S>)
  {
    if t !in before || !Bound(before, t, bound) then reply == TenantMissing && after == before
    else if |before[t].keys| >= 16 then reply == StorageLimit && after == before
    else if Taken(before, k) || (exists j :: j in before[t].keys && j.id == k.id)
    then reply == KeyConflict && after == before
    else reply == Done && after == before[t := before[t].(keys := before[t].keys[k := KeyInfo(scopes, now)])]
  }

  ghost predicate Revokes<S, R>(before: Accounts<S>, t: TenantId, selector: Selector, bound: Option<KeyHash>,
                                reply: Reply<S, R>, after: Accounts<S>)
  {
    if !Bound(before, t, bound) then reply == TenantMissing && after == before
    else if t !in before then reply == Flag(false) && after == before
    else
      && reply == Flag(exists k :: k in before[t].keys && Matches(selector, k))
      && after == before[t := before[t].(keys := Without(before[t].keys, selector))]
  }

  ghost predicate Lists<S, R>(before: Accounts<S>, t: TenantId, bound: Option<KeyHash>, reply: Reply<S, R>) {
    if !Bound(before, t, bound) then reply == TenantMissing
    else reply.Keys? && IsListing(reply.keys, if t in before then before[t].keys else map[])
  }

  ghost predicate Transacts<S, R>(small: S -> bool, before: Accounts<S>, t: TenantId, callback: Callback<S, R>,
                                  bound: Option<KeyHash>, now: int, reply: Reply<S, R>, after: Accounts<S>)
  {
    if t !in before || !Bound(before, t, bound) then reply == TenantMissing && after == before
    else
      match callback(StateOf(before[t]))
      case None => reply == CallbackRaised && after == before
      case Some((value, result)) =>
        if !small(value) then reply == StorageLimit && after == before
        else reply == Result(result) && after == before[t := before[t].(saved := Some(Saved(value, now + 605100)))]
  }

  ghost predicate Reads<S, R>(before: Accounts<S>, t: TenantId, bound: Option<KeyHash>, reply: Reply<S, R>) {
    reply == (if !Bound(before, t, bound) then TenantMissing
              else if t !in before then State(None)
              else State(Some(StateOf(before[t]))))
  }

  ghost predicate Deletes<S, R>(before: Accounts<S>, t: TenantId, bound: Option<KeyHash>, reply: Reply<S, R>,
                                after: Accounts<S>) {
    if !Bound(before, t, bound) then reply == TenantMissing && after == before
    else reply == Flag(t in before) && after == before - {t}
  }

  /** The answer and the accounts afterwards are exactly these. `small` is the size limit. */
  ghost predicate Behaves<S, R>(small: S -> bool, before: Accounts<S>, op: Op<S, R>, now: int, reply: Reply<S, R>,
                                after: Accounts<S>) {
    match op
    case Create(t, k) => Creates(before, t, k, now, reply, after)
    case Authenticate(k) => after == before && Identifies(before, k, reply)
    case Add(t, k, scopes, bound) => Adds(before, t, k, scopes, bound, now, reply, after)
    case Revoke(t, selector, bound) => Revokes(before, t, selector, bound, reply, after)
    case ListKeys(t, bound) => after == before && Lists(before, t, bound, reply)
    case Transact(t, callback, bound) => Transacts(small, before, t, callback, bound, now, reply, after)
    case Read(t, bound) => after == before && Reads(before, t, bound, reply)
    case Delete(t, bound) => Deletes(before, t, bound, reply, after)
  }

  /** Accounts a store can hold: few keys with distinct public ids, no key in two tenants. */
  ghost predicate WellFormed<S>(accounts: Accounts<S>) {
    && (forall t :: t in accounts ==>
          && |accounts[t].keys| <= 16
          && forall j, k :: j in accounts[t].keys && k in accounts[t].keys && j.id == k.id ==> j == k)
    && (forall t, u, k :: t in accounts && u in accounts && k in accounts[t].keys && k in accounts[u].keys ==> t == u)
  }

  // ---------------------------------------------------------------- consequences

  /** Revoking takes exactly the key of that digest, or the keys of that public identifier. */
  lemma RevokesExactly<S, R>(before: Accounts<S>, t: TenantId, selector: Selector, bound: Option<KeyHash>,
                             reply: Reply<S, R>, after: Accounts<S>)
    requires Revokes(before, t, selector, bound, reply, after) && reply.Flag? && t in before
    ensures t in after && after[t].saved == before[t].saved
    ensures forall k :: k in after[t].keys <==> k in before[t].keys && selector !in {ByHash(k), ById(k.id)}
    ensures forall k :: k in after[t].keys ==> after[t].keys[k] == before[t].keys[k]
    ensures reply.value <==> exists k :: k in before[t].keys && selector in {ByHash(k), ById(k.id)}
    ensures forall u :: u != t ==> (u in after <==> u in before) && (u in before ==> after[u] == before[u])
  {
  }

  /** A listing names every key of the tenant once, oldest first, ties by public identifier. */
  lemma ListsExactly<S, R>(before: Accounts<S>, t: TenantId, bound: Option<KeyHash>, reply: Reply<S, R>)
    requires Lists(before, t, bound, reply) && reply.Keys? && t in before
    ensures forall v :: v in reply.keys <==>
              exists k :: k in before[t].keys
                          && v == KeyView(k.id, before[t].keys[k].scopes, before[t].keys[k].created)
    ensures forall i, j :: 0 <= i < j < |reply.keys| ==>
              || reply.keys[i].created < reply.keys[j].created
              || (reply.keys[i].created == reply.keys[j].created && reply.keys[i].id < reply.keys[j].id)
  {
    hide Bound;
    var keys := before[t].keys;
    forall v
      ensures v in reply.keys <==> exists k :: k in keys && v == KeyView(k.id, keys[k].scopes, keys[k].created)
    {
      assert v in reply.keys <==> v in Elements(reply.keys);
      assert v in ViewSet(keys) <==> exists k :: k in keys && v == ViewOf(k, keys[k]);
    }
  }

  lemma IdentifiesOnce<S, R>(before: Accounts<S>, k: KeyHash, r1: Reply<S, R>, r2: Reply<S, R>)
    requires WellFormed(before) && Identifies(before, k, r1) && Identifies(before, k, r2)
    ensures r1 == r2
  {
  }

  /** The four answers of adding a key, each with its guard. */
  lemma AddsCases<S, R>(before: Accounts<S>, t: TenantId, k: KeyHash, scopes: seq<Scope>, bound: Option<KeyHash>,
                        now: int)
    ensures !(t in before && Bound(before, t, bound)) ==>
              Adds<S, R>(before, t, k, scopes, bound, now, TenantMissing, before)
    ensures t in before && Bound(before, t, bound) ==>
              var clash := Taken(before, k) || exists j :: j in before[t].keys && j.id == k.id;
              if |before[t].keys| >= MAX_KEYS then Adds<S, R>(before, t, k, scopes, bound, now, StorageLimit, before)
              else if clash then Adds<S, R>(before, t, k, scopes, bound, now, KeyConflict, before)
              else Adds<S, R>(before, t, k, scopes, bound, now, Done,
                              before[t := before[t].(keys := before[t].keys[k := KeyInfo(scopes, now)])])
  {
    hide Taken, Bound;
  }

  lemma AddsOnce<S, R>(before: Accounts<S>, t: TenantId, k: KeyHash, scopes: seq<Scope>, bound: Option<KeyHash>,
                       now: int, r1: Reply<S, R>, a1: Accounts<S>, r2: Reply<S, R>, a2: Accounts<S>)
    requires Adds(before, t, k, scopes, bound, now, r1, a1) && Adds(before, t, k, scopes, bound, now, r2, a2)
    ensures r1 == r2 && a1 == a2
  {
    hide Taken, Bound;
  }

  lemma RevokesOnce<S, R>(before: Accounts<S>, t: TenantId, selector: Selector, bound: Option<KeyHash>,
                          r1: Reply<S, R>, a1: Accounts<S>, r2: Reply<S, R>, a2: Accounts<S>)
    requires Revokes(before, t, selector, bound, r1, a1) && Revokes(before, t, selector, bound, r2, a2)
    ensures r1 == r2 && a1 == a2
  {
    hide Bound, Without, Matches;
  }

  lemma ListsOnce<S, R>(before: Accounts<S>, t: TenantId, bound: Option<KeyHash>, r1: Reply<S, R>, r2: Reply<S, R>)
    requires Lists(before, t, bound, r1) && Lists(before, t, bound, r2)
    ensures r1 == r2
  {
    hide Bound, ViewSet, Elements, Ordered;
    if r1.Keys? && r2.Keys? {
      ListingUnique(r1.keys, r2.keys);
    }
  }

  lemma TransactsOnce<S, R>(small: S -> bool, before: Accounts<S>, t: TenantId, callback: Callback<S, R>,
                            bound: Option<KeyHash>, now: int,
                            r1: Reply<S, R>, a1: Accounts<S>, r2: Reply<S, R>, a2: Accounts<S>)
    requires Transacts(small, before, t, callback, bound, now, r1, a1)
    requires Transacts(small, before, t, callback, bound, now, r2, a2)
    ensures r1 == r2 && a1 == a2
  {
    hide Bound;
  }

  /** The contract leaves no freedom: answers and effects are determined. */
  lemma Deterministic<S, R>(small: S -> bool, before: Accounts<S>, op: Op<S, R>, now: int,
                            r1: Reply<S, R>, a1: Accounts<S>, r2: Reply<S, R>, a2: Accounts<S>)
    requires WellFormed(before)
    requires Behaves(small, before, op, now, r1, a1) && Behaves(small, before, op, now, r2, a2)
    ensures r1 == r2 && a1 == a2
  {
    hide WellFormed, Taken, Bound, Identifies, Adds, Revokes, Lists, Transacts;
    match op
    case Authenticate(k) => IdentifiesOnce(before, k, r1, r2);
    case Add(t, k, scopes, bound) => AddsOnce(before, t, k, scopes, bound, now, r1, a1, r2, a2);
    case Revoke(t, selector, bound) => RevokesOnce(before, t, selector, bound, r1, a1, r2, a2);
    case ListKeys(t, bound) => ListsOnce(before, t, bound, r1, r2);
    case Transact(t, callback, bound) => TransactsOnce(small, before, t, callback, bound, now, r1, a1, r2, a2);
    case _ =>
  }

  function BoundOf<S, R>(op: Op<S, R>): Option<KeyHash> {
    match op
    case Create(_, _) => None
    case Authenticate(_) => None
    case Add(_, _, _, bound) => bound
    case Revoke(_, _, bound) => bound
    case ListKeys(_, bound) => bound
    case Transact(_, _, bound) => bound
    case Read(_, bound) => bound
    case Delete(_, bound) => bound
  }

  /** An operation bound to a key takes effect, or answers anything but TenantMissing, only
      if that key authenticates to that tenant at that moment. */
  lemma BoundNeedsKey<S, R>(small: S -> bool, before: Accounts<S>, op: Op<S, R>, now: int,
                            reply: Reply<S, R>, after: Accounts<S>, who: Reply<S, R>)
    requires WellFormed(before) && BoundOf(op).Some?
    requires Behaves(small, before, op, now, reply, after)
    requires Behaves<S, R>(small, before, Authenticate(BoundOf(op).value), now, who, before)
    requires after != before || reply != TenantMissing
    ensures who.Known? && who.principal.Some? && who.principal.value.tenant == op.tenant
  {
  }

  // ---------------------------------------------------------------- sequences of operations

  datatype Timed<!S, R> = Timed(op: Op<S, R>, now: int)

  /** What has expired by `now` is gone. */
  function Forget<S>(accounts: Accounts<S>, now: int): Accounts<S> {
    map t | t in accounts ::
      match accounts[t].saved
      case Some(saved) => if saved.expires > now then accounts[t] else accounts[t].(saved := None)
      case None => accounts[t]
  }

  /** The contract allows these answers to these operations, from one set of accounts to another. */
  ghost predicate Leads<S(!new), R>(small: S -> bool, start: Accounts<S>, ops: seq<Timed<S, R>>,
                                    replies: seq<Reply<S, R>>, end: Accounts<S>)
    decreases |ops|
  {
    var n := |ops| - 1;
    |replies| == |ops|
    && if ops == [] then end == start
       else exists mid: Accounts<S> ::
              && Leads(small, start, ops[..n], replies[..n], mid)
              && Behaves(small, Forget(mid, ops[n].now), ops[n].op, ops[n].now, replies[n], end)
  }

  lemma LeadsOn<S(!new), R>(small: S -> bool, start: Accounts<S>, ops: seq<Timed<S, R>>, i: nat,
                            replies: seq<Reply<S, R>>, mid: Accounts<S>, reply: Reply<S, R>, end: Accounts<S>)
    requires i < |ops| && Leads(small, start, ops[..i], replies, mid)
    requires Behaves(small, Forget(mid, ops[i].now), ops[i].op, ops[i].now, reply, end)
    ensures Leads(small, start, ops[..i + 1], replies + [reply], end)
  {
    hide Behaves, Forget;
    assert |replies| == i by {
      assert |ops[..i]| == i;
    }
    assert ops[..i + 1][..i] == ops[..i] && (replies + [reply])[..i] == replies;
  }

  /** Replacing one tenant's keys by few keys with distinct ids that no other tenant has. */
  lemma PutWellFormed<S>(accounts: Accounts<S>, t: TenantId, account: Account<S>)
    requires WellFormed(accounts)
    requires |account.keys| <= MAX_KEYS
    requires forall j, k :: j in account.keys && k in account.keys && j.id == k.id ==> j == k
    requires forall u, k :: u in accounts && u != t && k in accounts[u].keys ==> k !in account.keys
    ensures WellFormed(accounts[t := account])
  {
  }

  lemma NotTaken<S>(accounts: Accounts<S>, key: KeyHash)
    requires !Taken(accounts, key)
    ensures forall u :: u in accounts ==> key !in accounts[u].keys
  {
  }

  lemma BehavesWellFormed<S, R>(small: S -> bool, before: Accounts<S>, op: Op<S, R>, now: int, reply: Reply<S, R>,
                                after: Accounts<S>)
    requires WellFormed(before) && Behaves(small, before, op, now, reply, after)
    ensures WellFormed(after)
  {
    if after == before {
      return;
    }
    match op
    case Create(t, k) =>
      NotTaken(before, k);
      PutWellFormed(before, t, Account(map[k := KeyInfo(ALL_SCOPES, now)], None));
    case Add(t, k, scopes, bound) =>
      var keys := before[t].keys[k := KeyInfo(scopes, now)];
      NotTaken(before, k);
      assert keys.Keys == before[t].keys.Keys + {k};
      assert |keys| == |keys.Keys|;
      PutWellFormed(before, t, before[t].(keys := keys));
    case Revoke(t, selector, bound) =>
      FewerKeys(before[t].keys, selector);
      PutWellFormed(before, t, before[t].(keys := Without(before[t].keys, selector)));
    case Transact(t, callback, bound) =>
      PutWellFormed(before, t, after[t]);
    case Delete(t, bound) =>
      RemoveWellFormed(before, t);
    case _ =>
  }

  lemma RemoveWellFormed<S>(accounts: Accounts<S>, t: TenantId)
    requires WellFormed(accounts)
    ensures WellFormed(accounts - {t})
  {
  }

  lemma FewerKeys(keys: map<KeyHash, KeyInfo>, selector: Selector)
    ensures |Without(keys, selector)| <= |keys|
  {
    SubsetSize(Without(keys, selector).Keys, keys.Keys);
  }

  lemma ForgetWellFormed<S>(accounts: Accounts<S>, now: int)
    requires WellFormed(accounts)
    ensures WellFormed(Forget(accounts, now))
  {
    var later := Forget(accounts, now);
    assert forall t :: t in later ==> later[t].keys == accounts[t].keys;
  }

  lemma LeadsNowhere<S(!new), R>(small: S -> bool, start: Accounts<S>)
    ensures Leads<S, R>(small, start, [], [], start)
  {
  }

  lemma LeadsLast<S(!new), R>(small: S -> bool, start: Accounts<S>, ops: seq<Timed<S, R>>,
                              replies: seq<Reply<S, R>>, end: Accounts<S>) returns (mid: Accounts<S>)
    requires Leads(small, start, ops, replies, end) && ops != []
    ensures |replies| == |ops|
    ensures var n := |ops| - 1;
            && Leads(small, start, ops[..n], replies[..n], mid)
            && Behaves(small, Forget(mid, ops[n].now), ops[n].op, ops[n].now, replies[n], end)
  {
    hide Behaves, Forget;
    var n := |ops| - 1;
    mid :| Leads(small, start, ops[..n], replies[..n], mid)
           && Behaves(small, Forget(mid, ops[n].now), ops[n].op, ops[n].now, replies[n], end);
  }

  /** Any two stores that meet the contract give the same answers to the same operations,
      and end up the same. */
  lemma {:induction false} SameAnswers<S(!new), R>(small: S -> bool, start: Accounts<S>, ops: seq<Timed<S, R>>,
                                             a: seq<Reply<S, R>>, x: Accounts<S>, b: seq<Reply<S, R>>, y: Accounts<S>)
    requires WellFormed(start)
    requires Leads(small, start, ops, a, x) && Leads(small, start, ops, b, y)
    ensures a == b && x == y && WellFormed(x)
    decreases |ops|
  {
    hide Behaves, WellFormed, Forget;
    if ops != [] {
      var n := |ops| - 1;
      var p := LeadsLast(small, start, ops, a, x);
      var q := LeadsLast(small, start, ops, b, y);
      hide Leads;
      SameAnswers(small, start, ops[..n], a[..n], p, b[..n], q);
      ForgetWellFormed(p, ops[n].now);
      Deterministic(small, Forget(p, ops[n].now), ops[n].op, ops[n].now, a[n], x, b[n], y);
      BehavesWellFormed(small, Forget(p, ops[n].now), ops[n].op, ops[n].now, a[n], x);
      assert a == a[..n] + [a[n]] && b == b[..n] + [b[n]];
    }
  }
}
