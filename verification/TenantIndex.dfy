/**
 The tenant registry's cache: tenants by id, by slug and by domain. The three maps are meant to agree;
 `set` adds keys for a tenant and never removes those of the version it replaces.
 */
module TenantIndex {
  import opened Text
  import opened Wrappers

  /** Absent and empty slugs and primary domains are alike; a missing list of custom domains is empty. */
  datatype Tenant = Tenant(id: string, slug: string, primaryDomain: string, customDomains: seq<string>)

  datatype Index = Index(byId: map<string, Tenant>, bySlug: map<string, Tenant>, byDomain: map<string, Tenant>)

  const EMPTY := Index(map[], map[], map[])

  function SlugKeys(t: Tenant): seq<string> {
    if t.slug == "" then [] else [t.slug]
  }

  /** The keys `set` writes to the domain map, in order; a custom domain may be empty. */
  function DomainKeys(t: Tenant): seq<string> {
    (if t.primaryDomain == "" then [] else [Lower(t.primaryDomain)])
    + seq(|t.customDomains|, i requires 0 <= i < |t.customDomains| => Lower(t.customDomains[i]))
  }

  function PutAll(m: map<string, Tenant>, keys: seq<string>, t: Tenant): (r: map<string, Tenant>)
    ensures forall k :: k in r <==> k in m || k in keys
    ensures forall k :: k in r ==> r[k] == if k in keys then t else m[k]
    decreases |keys|
  {
    if keys == [] then m else PutAll(m, keys[..|keys| - 1], t)[keys[|keys| - 1] := t]
  }

  function RemoveAll(m: map<string, Tenant>, keys: seq<string>): (r: map<string, Tenant>)
    ensures forall k :: k in r <==> k in m && k !in keys
    ensures forall k :: k in r ==> r[k] == m[k]
    decreases |keys|
  {
    if keys == [] then m else RemoveAll(m, keys[..|keys| - 1]) - {keys[|keys| - 1]}
  }

  lemma PutOne(m: map<string, Tenant>, keys: seq<string>, n: nat, t: Tenant)
    requires n < |keys|
    ensures PutAll(m, keys[..n + 1], t) == PutAll(m, keys[..n], t)[keys[n] := t]
  {
    assert keys[..n + 1][..n] == keys[..n];
  }

  lemma RemoveOne(m: map<string, Tenant>, keys: seq<string>, n: nat)
    requires n < |keys|
    ensures RemoveAll(m, keys[..n + 1]) == RemoveAll(m, keys[..n]) - {keys[n]}
  {
    assert keys[..n + 1][..n] == keys[..n];
  }

  function Put(ix: Index, t: Tenant): Index {
    Index(ix.byId[t.id := t], PutAll(ix.bySlug, SlugKeys(t), t), PutAll(ix.byDomain, DomainKeys(t), t))
  }

  function Remove(ix: Index, id: string): Index {
    if id !in ix.byId then ix
    else
      var t := ix.byId[id];
      Index(ix.byId - {id}, RemoveAll(ix.bySlug, SlugKeys(t)), RemoveAll(ix.byDomain, DomainKeys(t)))
  }

  function PutEach(ix: Index, ts: seq<Tenant>): Index
    decreases |ts|
  {
    if ts == [] then ix else Put(PutEach(ix, ts[..|ts| - 1]), ts[|ts| - 1])
  }

  function Find(m: map<string, Tenant>, key: string): Option<Tenant> {
    if key in m then Some(m[key]) else None
  }

  function BySlug(ix: Index, slug: string): Option<Tenant> {
    Find(ix.bySlug, slug)
  }

  function ByDomain(ix: Index, domain: string): Option<Tenant> {
    if domain == "" then None else Find(ix.byDomain, Lower(domain))
  }

  // ---------------------------------------------------------------- the cache and the registry

  class TenantCache {
    var tenantsById: map<string, Tenant>
    var tenantsBySlug: map<string, Tenant>
    var tenantsByDomain: map<string, Tenant>

    function View(): Index
      reads this
    {
      Index(tenantsById, tenantsBySlug, tenantsByDomain)
    }

    constructor ()
      ensures View() == EMPTY
    {
      tenantsById, tenantsBySlug, tenantsByDomain := map[], map[], map[];
    }

    method Set(tenant: Tenant)
      modifies this
      ensures View() == Put(old(View()), tenant)
    {
      tenantsById := tenantsById[tenant.id := tenant];
      if tenant.slug != "" {
        tenantsBySlug := tenantsBySlug[tenant.slug := tenant];
      }
      IndexDomains(tenant);
    }

    method IndexDomains(tenant: Tenant)
      modifies this`tenantsByDomain
      ensures tenantsByDomain == PutAll(old(tenantsByDomain), DomainKeys(tenant), tenant)
    {
      if tenant.primaryDomain != "" {
        tenantsByDomain := tenantsByDomain[Lower(tenant.primaryDomain) := tenant];
      }
      ghost var first := if tenant.primaryDomain == "" then 0 else 1;
      ghost var keys := DomainKeys(tenant);
      var i := 0;
      while i < |tenant.customDomains|
        invariant 0 <= i <= |tenant.customDomains|
        invariant tenantsByDomain == PutAll(old(tenantsByDomain), keys[..first + i], tenant)
      {
        PutOne(old(tenantsByDomain), keys, first + i, tenant);
        tenantsByDomain := tenantsByDomain[Lower(tenant.customDomains[i]) := tenant];
        i := i + 1;
      }
      assert keys[..first + i] == keys;
    }

    method Get(id: string) returns (r: Option<Tenant>)
      ensures r == Find(tenantsById, id)
    {
      r := if id in tenantsById then Some(tenantsById[id]) else None;
    }

    method GetByDomain(domain: string) returns (r: Option<Tenant>)
      ensures r == ByDomain(View(), domain)
    {
      if domain == "" {
        return None;
      }
      r := if Lower(domain) in tenantsByDomain then Some(tenantsByDomain[Lower(domain)]) else None;
    }

    method Delete(id: string)
      modifies this
      ensures View() == Remove(old(View()), id)
    {
      if id !in tenantsById {
        return;
      }
      var tenant := tenantsById[id];
      tenantsById := tenantsById - {id};
      if tenant.slug != "" {
        tenantsBySlug := tenantsBySlug - {tenant.slug};
      }
      UnindexDomains(tenant);
    }

    method UnindexDomains(tenant: Tenant)
      modifies this`tenantsByDomain
      ensures tenantsByDomain == RemoveAll(old(tenantsByDomain), DomainKeys(tenant))
    {
      if tenant.primaryDomain != "" {
        tenantsByDomain := tenantsByDomain - {Lower(tenant.primaryDomain)};
      }
      ghost var first := if tenant.primaryDomain == "" then 0 else 1;
      ghost var keys := DomainKeys(tenant);
      var i := 0;
      while i < |tenant.customDomains|
        invariant 0 <= i <= |tenant.customDomains|
        invariant tenantsByDomain == RemoveAll(old(tenantsByDomain), keys[..first + i])
      {
        RemoveOne(old(tenantsByDomain), keys, first + i);
        tenantsByDomain := tenantsByDomain - {Lower(tenant.customDomains[i])};
        i := i + 1;
      }
      assert keys[..first + i] == keys;
    }

    method Clear()
      modifies this
      ensures View() == EMPTY
    {
      tenantsById, tenantsBySlug, tenantsByDomain := map[], map[], map[];
    }
  }

  function Valids(ts: seq<Tenant>, valid: Tenant -> bool): seq<Tenant>
    decreases |ts|
  {
    if ts == [] then []
    else Valids(ts[..|ts| - 1], valid) + if valid(ts[|ts| - 1]) then [ts[|ts| - 1]] else []
  }

  /** The registry writes a tenant file per save; `disk` holds those files by tenant. */
  datatype State = State(index: Index, disk: map<string, Tenant>)

  datatype Event = Save(tenant: Tenant) | Drop(id: string) | Reload(configs: seq<Tenant>)

  /** `configs` is what the loader reads from the files, in directory order. */
  function Step(s: State, e: Event, valid: Tenant -> bool): State {
    match e
    case Save(t) => if valid(t) then State(Put(s.index, t), s.disk[t.id := t]) else s
    case Drop(id) => if id in s.index.byId then State(Remove(s.index, id), s.disk - {id}) else s
    case Reload(configs) => s.(index := PutEach(EMPTY, Valids(configs, valid)))
  }

  function Run(s: State, events: seq<Event>, valid: Tenant -> bool): State
    decreases |events|
  {
    if events == [] then s else Run(Step(s, events[0], valid), events[1..], valid)
  }

  class TenantRegistry {
    const cache: TenantCache
    const valid: Tenant -> bool
    var disk: map<string, Tenant>

    function View(): State
      reads this, cache
    {
      State(cache.View(), disk)
    }

    constructor (valid: Tenant -> bool)
      ensures this.valid == valid && fresh(cache) && View() == State(EMPTY, map[])
    {
      cache := new TenantCache();
      this.valid := valid;
      disk := map[];
    }

    method ReloadAll(configs: seq<Tenant>)
      modifies cache
      ensures View() == Step(old(View()), Reload(configs), valid)
    {
      cache.Clear();
      var i := 0;
      while i < |configs|
        invariant 0 <= i <= |configs|
        invariant cache.View() == PutEach(EMPTY, Valids(configs[..i], valid)) && disk == old(disk)
      {
        ghost var vs := Valids(configs[..i], valid);
        assert configs[..i + 1][..i] == configs[..i];
        assert Valids(configs[..i + 1], valid) == vs + if valid(configs[i]) then [configs[i]] else [];
        if valid(configs[i]) {
          assert (vs + [configs[i]])[..|vs|] == vs;
          cache.Set(configs[i]);
        } else {
          assert vs + [] == vs;
        }
        i := i + 1;
      }
      assert configs[..|configs|] == configs;
    }

    /** False when the configuration is refused, with nothing changed. */
    method SaveTenant(config: Tenant) returns (ok: bool)
      modifies this, cache
      ensures ok == valid(config) && View() == Step(old(View()), Save(config), valid)
    {
      ok := valid(config);
      if ok {
        disk := disk[config.id := config];
        cache.Set(config);
      }
    }

    method DeleteTenant(id: string) returns (ok: bool)
      modifies this, cache
      ensures ok == (id in old(cache.tenantsById)) && View() == Step(old(View()), Drop(id), valid)
    {
      var found := cache.Get(id);
      ok := found.Some?;
      if ok {
        disk := disk - {id};
        cache.Delete(id);
      }
    }
  }

  // ---------------------------------------------------------------- what a save makes findable

  /** The domain, in any case, is the primary or a custom one of the tenant. */
  predicate HasDomain(t: Tenant, domain: string) {
    || (t.primaryDomain != "" && Lower(domain) == Lower(t.primaryDomain))
    || exists i :: 0 <= i < |t.customDomains| && Lower(domain) == Lower(t.customDomains[i])
  }

  lemma DomainKeysIff(t: Tenant, domain: string)
    ensures Lower(domain) in DomainKeys(t) <==> HasDomain(t, domain)
  {
    var keys := DomainKeys(t);
    var first := if t.primaryDomain == "" then 0 else 1;
    assert forall i :: 0 <= i < |t.customDomains| ==> keys[first + i] == Lower(t.customDomains[i]);
    if Lower(domain) in keys {
      var j :| 0 <= j < |keys| && keys[j] == Lower(domain);
      assert j >= first ==> keys[j] == Lower(t.customDomains[j - first]);
    }
    if t.primaryDomain != "" {
      assert keys[0] == Lower(t.primaryDomain);
    }
  }

  /**
   After a save a lookup by id, by slug or by domain finds the tenant when it has that id, slug or
   domain, and what it found before otherwise.
   */
  lemma LookupsAfterSet(ix: Index, t: Tenant, key: string)
    ensures var n := Put(ix, t);
            && Find(n.byId, key) == (if key == t.id then Some(t) else Find(ix.byId, key))
            && BySlug(n, key) == (if key != "" && key == t.slug then Some(t) else BySlug(ix, key))
            && ByDomain(n, key) == (if key != "" && HasDomain(t, key) then Some(t) else ByDomain(ix, key))
  {
    DomainKeysIff(t, key);
  }

  /** After a delete a lookup finds nothing under the id, the slug and the domains of the stored tenant. */
  lemma LookupsAfterDelete(ix: Index, id: string, key: string)
    requires id in ix.byId
    ensures var n, t := Remove(ix, id), ix.byId[id];
            && Find(n.byId, key) == (if key == id then None else Find(ix.byId, key))
            && BySlug(n, key) == (if key != "" && key == t.slug then None else BySlug(ix, key))
            && ByDomain(n, key) == (if key != "" && HasDomain(t, key) then None else ByDomain(ix, key))
  {
    DomainKeysIff(ix.byId[id], key);
  }

  // ---------------------------------------------------------------- agreement

  predicate Stored(ix: Index, t: Tenant) {
    t.id in ix.byId && ix.byId[t.id] == t
  }

  /** Looking up by slug or by domain finds a tenant exactly when it is stored under its id and has that key. */
  ghost predicate Agree(ix: Index) {
    && (forall s, t :: BySlug(ix, s) == Some(t) <==> Stored(ix, t) && s in SlugKeys(t))
    && (forall d, t :: ByDomain(ix, d) == Some(t) <==> Stored(ix, t) && d != "" && Lower(d) in DomainKeys(t))
  }

  /** One map agrees with the stored tenants; the empty key is never looked up. */
  ghost predicate Matches(m: map<string, Tenant>, byId: map<string, Tenant>, keys: Tenant -> seq<string>) {
    && (forall k :: k in m && k != "" ==> m[k].id in byId && byId[m[k].id] == m[k] && k in keys(m[k]))
    && (forall id, k :: id in byId && k in keys(byId[id]) && k != "" ==> k in m && m[k] == byId[id])
  }

  /** What holds of every cache, agreeing or not. */
  ghost predicate Indexed(ix: Index) {
    && (forall id :: id in ix.byId ==> ix.byId[id].id == id)
    && "" !in ix.bySlug
    && (forall k :: k in ix.byDomain ==> Lower(k) == k)
  }

  lemma LowerTwice(s: string)
    ensures Lower(Lower(s)) == Lower(s)
  {
  }

  lemma DomainKeysLower(t: Tenant)
    ensures forall k :: k in DomainKeys(t) ==> Lower(k) == k
  {
    forall k | k in DomainKeys(t) ensures Lower(k) == k {
      var i :| 0 <= i < |DomainKeys(t)| && DomainKeys(t)[i] == k;
      LowerTwice(if t.primaryDomain == "" then t.customDomains[i]
                 else if i == 0 then t.primaryDomain else t.customDomains[i - 1]);
    }
  }

  /** Agreement of the lookups is agreement of both maps. */
  lemma AgreeIffMatches(ix: Index)
    requires Indexed(ix)
    ensures Agree(ix) <==> Matches(ix.bySlug, ix.byId, SlugKeys) && Matches(ix.byDomain, ix.byId, DomainKeys)
  {
    if Agree(ix) {
      SlugsMatch(ix);
      DomainsMatch(ix);
    }
    if Matches(ix.bySlug, ix.byId, SlugKeys) && Matches(ix.byDomain, ix.byId, DomainKeys) {
      MatchesFinds(ix.bySlug, ix, SlugKeys);
      MatchesFinds(ix.byDomain, ix, DomainKeys);
      assert forall s, t :: Stored(ix, t) && s in SlugKeys(t) ==> s != "";
      assert forall d :: Lower(d) == "" <==> d == "";
    }
  }

  lemma MatchesFinds(m: map<string, Tenant>, ix: Index, keys: Tenant -> seq<string>)
    requires Matches(m, ix.byId, keys) && Indexed(ix)
    ensures forall k, t :: k != "" ==> (Find(m, k) == Some(t) <==> Stored(ix, t) && k in keys(t))
  {
  }

  lemma SlugsMatch(ix: Index)
    requires Indexed(ix) && Agree(ix)
    ensures Matches(ix.bySlug, ix.byId, SlugKeys)
  {
    forall k | k in ix.bySlug ensures Stored(ix, ix.bySlug[k]) && k in SlugKeys(ix.bySlug[k]) {
      assert BySlug(ix, k) == Some(ix.bySlug[k]);
    }
    forall id, k | id in ix.byId && k in SlugKeys(ix.byId[id]) ensures k in ix.bySlug && ix.bySlug[k] == ix.byId[id] {
      assert BySlug(ix, k) == Some(ix.byId[id]);
    }
  }

  lemma DomainsMatch(ix: Index)
    requires Indexed(ix) && Agree(ix)
    ensures Matches(ix.byDomain, ix.byId, DomainKeys)
  {
    forall k | k in ix.byDomain && k != "" ensures Stored(ix, ix.byDomain[k]) && k in DomainKeys(ix.byDomain[k]) {
      FoundDomainStored(ix, k);
    }
    forall id, k | id in ix.byId && k in DomainKeys(ix.byId[id]) && k != ""
      ensures Find(ix.byDomain, k) == Some(ix.byId[id])
    {
      StoredDomainFinds(ix, id, k);
    }
  }

  lemma FoundDomainStored(ix: Index, k: string)
    requires Indexed(ix) && Agree(ix) && k in ix.byDomain && k != ""
    ensures Stored(ix, ix.byDomain[k]) && k in DomainKeys(ix.byDomain[k])
  {
    DomainFinds(ix, k, ix.byDomain[k]);
  }

  lemma StoredDomainFinds(ix: Index, id: string, k: string)
    requires Indexed(ix) && Agree(ix) && id in ix.byId && k in DomainKeys(ix.byId[id]) && k != ""
    ensures Find(ix.byDomain, k) == Some(ix.byId[id])
  {
    DomainKeysLower(ix.byId[id]);
    DomainFinds(ix, k, ix.byId[id]);
  }

  lemma DomainFinds(ix: Index, k: string, t: Tenant)
    requires Agree(ix) && k != "" && Lower(k) == k
    ensures Find(ix.byDomain, k) == Some(t) <==> Stored(ix, t) && k in DomainKeys(t)
  {
    assert ByDomain(ix, k) == Find(ix.byDomain, k);
  }

  lemma PutStaysIndexed(ix: Index, t: Tenant)
    requires Indexed(ix)
    ensures Indexed(Put(ix, t))
  {
    DomainKeysLower(t);
  }

  // ---------------------------------------------------------------- set and delete

  /** No key of the version being replaced is dropped, and no key is another tenant's. */
  ghost predicate Extends(byId: map<string, Tenant>, t: Tenant, keys: Tenant -> seq<string>) {
    && (t.id in byId ==> forall k :: k in keys(byId[t.id]) && k != "" ==> k in keys(t))
    && (forall id, k :: id in byId && id != t.id && k in keys(byId[id]) && k != "" ==> k !in keys(t))
  }

  lemma PutOwner(m: map<string, Tenant>, byId: map<string, Tenant>, keys: Tenant -> seq<string>, t: Tenant, k: string)
    requires Matches(m, byId, keys) && Extends(byId, t, keys) && k in m && k != "" && k !in keys(t)
    requires forall id :: id in byId ==> byId[id].id == id
    ensures m[k].id != t.id && m[k].id in byId && byId[m[k].id] == m[k] && k in keys(m[k])
  {
    assert k in keys(m[k]);
  }

  lemma PutMatches(m: map<string, Tenant>, byId: map<string, Tenant>, keys: Tenant -> seq<string>, t: Tenant)
    requires Matches(m, byId, keys) && forall id :: id in byId ==> byId[id].id == id
    requires Extends(byId, t, keys)
    ensures Matches(PutAll(m, keys(t), t), byId[t.id := t], keys)
  {
    var n, ids := PutAll(m, keys(t), t), byId[t.id := t];
    forall k | k in n && k != "" ensures n[k].id in ids && ids[n[k].id] == n[k] && k in keys(n[k]) {
      if k !in keys(t) {
        PutOwner(m, byId, keys, t, k);
      }
    }
  }

  lemma PutMatchesOnlyIf(m: map<string, Tenant>, byId: map<string, Tenant>, keys: Tenant -> seq<string>, t: Tenant)
    requires Matches(m, byId, keys) && forall id :: id in byId ==> byId[id].id == id
    requires Matches(PutAll(m, keys(t), t), byId[t.id := t], keys)
    ensures Extends(byId, t, keys)
  {
    var n, ids := PutAll(m, keys(t), t), byId[t.id := t];
    if t.id in byId {
      forall k | k in keys(byId[t.id]) && k != "" ensures k in keys(t) {
        assert k in m && m[k] == byId[t.id];
        assert k in n;
      }
    }
    forall id, k | id in byId && id != t.id && k in keys(byId[id]) && k != "" ensures k !in keys(t) {
      assert id in ids && ids[id] == byId[id];
      assert k in n && n[k] == byId[id] && byId[id].id == id;
    }
  }

  lemma PutMatchesIff(m: map<string, Tenant>, byId: map<string, Tenant>, keys: Tenant -> seq<string>, t: Tenant)
    requires Matches(m, byId, keys) && forall id :: id in byId ==> byId[id].id == id
    ensures Matches(PutAll(m, keys(t), t), byId[t.id := t], keys) <==> Extends(byId, t, keys)
  {
    if Extends(byId, t, keys) {
      PutMatches(m, byId, keys, t);
    }
    if Matches(PutAll(m, keys(t), t), byId[t.id := t], keys) {
      PutMatchesOnlyIf(m, byId, keys, t);
    }
  }

  /** Saving a tenant keeps the maps in agreement exactly when it only adds keys, and none that is taken. */
  lemma SetKeepsAgreementIff(ix: Index, t: Tenant)
    requires Indexed(ix) && Agree(ix)
    ensures Agree(Put(ix, t)) <==> Extends(ix.byId, t, SlugKeys) && Extends(ix.byId, t, DomainKeys)
  {
    AgreeIffMatches(ix);
    PutStaysIndexed(ix, t);
    AgreeIffMatches(Put(ix, t));
    PutMatchesIff(ix.bySlug, ix.byId, SlugKeys, t);
    PutMatchesIff(ix.byDomain, ix.byId, DomainKeys, t);
  }

  lemma RemoveMatches(m: map<string, Tenant>, byId: map<string, Tenant>, keys: Tenant -> seq<string>, id: string)
    requires Matches(m, byId, keys) && id in byId && forall i :: i in byId ==> byId[i].id == i
    ensures Matches(RemoveAll(m, keys(byId[id])), byId - {id}, keys)
  {
    var n, ids := RemoveAll(m, keys(byId[id])), byId - {id};
    forall i, k | i in ids && k in keys(ids[i]) && k != "" ensures k in n && n[k] == ids[i] {
      assert k in m && m[k] == byId[i];
    }
  }

  /** Deleting always keeps agreement: afterwards nothing finds the tenant. */
  lemma DeleteKeepsAgreement(ix: Index, id: string)
    requires Indexed(ix) && Agree(ix)
    ensures Indexed(Remove(ix, id)) && Agree(Remove(ix, id))
    ensures forall key :: BySlug(Remove(ix, id), key).Some? ==> BySlug(Remove(ix, id), key).value.id != id
    ensures forall key :: ByDomain(Remove(ix, id), key).Some? ==> ByDomain(Remove(ix, id), key).value.id != id
  {
    AgreeIffMatches(ix);
    AgreeIffMatches(Remove(ix, id));
    if id in ix.byId {
      RemoveMatches(ix.bySlug, ix.byId, SlugKeys, id);
      RemoveMatches(ix.byDomain, ix.byId, DomainKeys, id);
    }
    var r := Remove(ix, id);
    forall key | BySlug(r, key).Some? ensures BySlug(r, key).value.id != id {
      assert Stored(r, BySlug(r, key).value);
    }
    forall key | ByDomain(r, key).Some? ensures ByDomain(r, key).value.id != id {
      assert Stored(r, ByDomain(r, key).value);
    }
  }

  // ---------------------------------------------------------------- reload

  function ById(ts: seq<Tenant>): map<string, Tenant>
    decreases |ts|
  {
    if ts == [] then map[] else ById(ts[..|ts| - 1])[ts[|ts| - 1].id := ts[|ts| - 1]]
  }

  lemma {:induction false} PutEachById(ts: seq<Tenant>)
    ensures PutEach(EMPTY, ts).byId == ById(ts) && Indexed(PutEach(EMPTY, ts))
    decreases |ts|
  {
    if ts == [] {
    } else {
      PutEachById(ts[..|ts| - 1]);
      PutStaysIndexed(PutEach(EMPTY, ts[..|ts| - 1]), ts[|ts| - 1]);
    }
  }

  ghost predicate DistinctIds(ts: seq<Tenant>) {
    forall i, j :: 0 <= i < j < |ts| ==> ts[i].id != ts[j].id
  }

  ghost predicate Apart(a: Tenant, b: Tenant, keys: Tenant -> seq<string>) {
    forall k :: k in keys(a) && k != "" ==> k !in keys(b)
  }

  ghost predicate Disjoint(a: Tenant, b: Tenant) {
    Apart(a, b, SlugKeys) && Apart(a, b, DomainKeys)
  }

  ghost predicate PairwiseDisjoint(ts: seq<Tenant>) {
    forall i, j :: 0 <= i < j < |ts| ==> Disjoint(ts[i], ts[j])
  }

  lemma {:induction false} ByIdOfDistinct(ts: seq<Tenant>)
    requires DistinctIds(ts)
    ensures forall i :: 0 <= i < |ts| ==> ts[i].id in ById(ts) && ById(ts)[ts[i].id] == ts[i]
    ensures forall id :: id in ById(ts) ==> ById(ts)[id] in ts && ById(ts)[id].id == id
    decreases |ts|
  {
    if ts == [] {
    } else {
      ByIdOfDistinct(ts[..|ts| - 1]);
    }
  }

  /** The next of several tenants with distinct ids extends the ones before exactly when it shares no key with them. */
  lemma ExtendsIffDisjoint(ts: seq<Tenant>, t: Tenant)
    requires DistinctIds(ts + [t])
    ensures Extends(ById(ts), t, SlugKeys) && Extends(ById(ts), t, DomainKeys)
       <==> forall i :: 0 <= i < |ts| ==> Disjoint(ts[i], t)
  {
    ExtendsIffApart(ts, t, SlugKeys);
    ExtendsIffApart(ts, t, DomainKeys);
  }

  lemma ExtendsIffApart(ts: seq<Tenant>, t: Tenant, keys: Tenant -> seq<string>)
    requires DistinctIds(ts + [t])
    ensures Extends(ById(ts), t, keys) <==> forall i :: 0 <= i < |ts| ==> Apart(ts[i], t, keys)
  {
    var all := ts + [t];
    assert all[|ts|] == t;
    forall i, j | 0 <= i < j < |ts| ensures ts[i].id != ts[j].id {
      assert all[i] == ts[i] && all[j] == ts[j];
    }
    forall i | 0 <= i < |ts| ensures ts[i].id != t.id {
      assert all[i] == ts[i];
    }
    ByIdOfDistinct(ts);
    if Extends(ById(ts), t, keys) {
      forall i | 0 <= i < |ts| ensures Apart(ts[i], t, keys) {
        assert ById(ts)[ts[i].id] == ts[i];
      }
    }
    if forall i :: 0 <= i < |ts| ==> Apart(ts[i], t, keys) {
      forall id | id in ById(ts) ensures Apart(ById(ts)[id], t, keys) && id != t.id {
        var i :| 0 <= i < |ts| && ts[i] == ById(ts)[id];
      }
    }
  }

  lemma EmptyAgrees()
    ensures Indexed(EMPTY) && Agree(EMPTY)
  {
  }

  lemma OneTenantPerKey(m: map<string, Tenant>, byId: map<string, Tenant>, keys: Tenant -> seq<string>,
                        a: Tenant, b: Tenant)
    requires Matches(m, byId, keys)
    requires a.id in byId && byId[a.id] == a && b.id in byId && byId[b.id] == b && a != b
    ensures forall k :: k in keys(a) && k != "" ==> k !in keys(b)
  {
    forall k | k in keys(a) && k != "" ensures k !in keys(b) {
      assert m[k] == byId[a.id];
    }
  }

  /** While two stored tenants share a key the maps do not agree. */
  lemma AgreementIsDisjoint(ix: Index, a: Tenant, b: Tenant)
    requires Indexed(ix) && Agree(ix) && Stored(ix, a) && Stored(ix, b) && a.id != b.id
    ensures Disjoint(a, b)
  {
    AgreeIffMatches(ix);
    OneTenantPerKey(ix.bySlug, ix.byId, SlugKeys, a, b);
    OneTenantPerKey(ix.byDomain, ix.byId, DomainKeys, a, b);
  }

  lemma {:induction false} DistinctReloadIff(ts: seq<Tenant>)
    requires DistinctIds(ts)
    ensures Agree(PutEach(EMPTY, ts)) <==> PairwiseDisjoint(ts)
    decreases |ts|
  {
    if ts == [] {
      EmptyAgrees();
    } else {
      var front, t := ts[..|ts| - 1], ts[|ts| - 1];
      var ix := PutEach(EMPTY, front);
      assert front + [t] == ts;
      PutEachById(front);
      PutEachById(ts);
      if PairwiseDisjoint(front) {
        DistinctReloadIff(front);
        SetKeepsAgreementIff(ix, t);
        ExtendsIffDisjoint(front, t);
      } else {
        var i, j :| 0 <= i < j < |front| && !Disjoint(front[i], front[j]);
        ByIdOfDistinct(ts);
        assert front[i] == ts[i] && front[j] == ts[j];
        if Agree(PutEach(EMPTY, ts)) {
          AgreementIsDisjoint(PutEach(EMPTY, ts), ts[i], ts[j]);
        }
      }
    }
  }

  /**
   A reload forgets the cache: what it stores are exactly the valid configurations, and with distinct
   ids the maps then agree exactly when no two of them share a slug or a domain.
   */
  lemma ReloadAgreesIff(s: State, configs: seq<Tenant>, valid: Tenant -> bool)
    requires DistinctIds(configs)
    ensures var ix := Step(s, Reload(configs), valid).index;
            && (forall t :: Stored(ix, t) <==> t in configs && valid(t))
            && (Agree(ix) <==> PairwiseDisjoint(Valids(configs, valid)))
  {
    var vs := Valids(configs, valid);
    ValidsOf(configs, valid);
    PutEachById(vs);
    ByIdOfDistinct(vs);
    DistinctReloadIff(vs);
    forall t ensures Stored(PutEach(EMPTY, vs), t) <==> t in configs && valid(t) {
      if t in vs {
        var i :| 0 <= i < |vs| && vs[i] == t;
      }
    }
  }

  lemma {:induction false} ValidsOf(ts: seq<Tenant>, valid: Tenant -> bool)
    requires DistinctIds(ts)
    ensures forall t :: t in Valids(ts, valid) <==> t in ts && valid(t)
    ensures DistinctIds(Valids(ts, valid))
    decreases |ts|
  {
    if ts == [] {
    } else {
      var front, t := ts[..|ts| - 1], ts[|ts| - 1];
      var vs := Valids(front, valid);
      ValidsOf(front, valid);
      assert ts == front + [t];
      forall i | 0 <= i < |vs| ensures vs[i].id != t.id {
        assert vs[i] in front;
      }
    }
  }

  // ---------------------------------------------------------------- runs

  /** Each save only adds free keys, each reload reads distinct tenants without shared keys. */
  ghost predicate Guarded(s: State, events: seq<Event>, valid: Tenant -> bool)
    decreases |events|
  {
    events != [] ==>
      && (match events[0]
          case Save(t) => valid(t) ==> Extends(s.index.byId, t, SlugKeys) && Extends(s.index.byId, t, DomainKeys)
          case Drop(_) => true
          case Reload(configs) => PairwiseDisjoint(Valids(configs, valid)))
      && Guarded(Step(s, events[0], valid), events[1..], valid)
  }

  ghost predicate AgreesThroughout(s: State, events: seq<Event>, valid: Tenant -> bool)
    decreases |events|
  {
    Agree(s.index) && (events != [] ==> AgreesThroughout(Step(s, events[0], valid), events[1..], valid))
  }

  ghost predicate Listings(events: seq<Event>) {
    forall i :: 0 <= i < |events| && events[i].Reload? ==> DistinctIds(events[i].configs)
  }

  lemma StepStaysIndexed(s: State, e: Event, valid: Tenant -> bool)
    requires Indexed(s.index)
    ensures Indexed(Step(s, e, valid).index)
  {
    if e.Save? {
      PutStaysIndexed(s.index, e.tenant);
    } else if e.Reload? {
      PutEachById(Valids(e.configs, valid));
    }
  }

  /** Over every run: the lookups are right after every operation exactly when every save and reload is guarded. */
  lemma {:induction false} AgreementOverRunsIff(s: State, events: seq<Event>, valid: Tenant -> bool)
    requires Indexed(s.index) && Agree(s.index) && Listings(events)
    ensures AgreesThroughout(s, events, valid) <==> Guarded(s, events, valid)
    decreases |events|
  {
    if events == [] {
    } else {
      var e := events[0];
      var t := Step(s, e, valid);
      StepStaysIndexed(s, e, valid);
      if e.Save? {
        SetKeepsAgreementIff(s.index, e.tenant);
      } else if e.Drop? {
        DeleteKeepsAgreement(s.index, e.id);
      } else {
        ReloadAgreesIff(s, e.configs, valid);
      }
      if Agree(t.index) {
        AgreementOverRunsIff(t, events[1..], valid);
      }
    }
  }

  ghost predicate Lists(configs: seq<Tenant>, disk: map<string, Tenant>) {
    DistinctIds(configs) && forall t :: t in configs <==> t.id in disk && disk[t.id] == t
  }

  lemma {:induction false} DiskIsById(s: State, events: seq<Event>, valid: Tenant -> bool)
    requires s.index.byId == s.disk && forall id :: id in s.disk ==> s.disk[id].id == id && valid(s.disk[id])
    requires forall i :: 0 <= i < |events| ==> !events[i].Reload?
    ensures var t := Run(s, events, valid);
            t.index.byId == t.disk && forall id :: id in t.disk ==> t.disk[id].id == id && valid(t.disk[id])
    decreases |events|
  {
    if events == [] {
    } else {
      DiskIsById(Step(s, events[0], valid), events[1..], valid);
    }
  }

  /**
   However saves and deletes have left the maps, the tenants by id are those on disk, and a reload
   stores the same ones and heals the lookups, unless two stored tenants claim the same key.
   */
  lemma {:induction false} ReloadHeals(events: seq<Event>, configs: seq<Tenant>, valid: Tenant -> bool)
    requires forall i :: 0 <= i < |events| ==> !events[i].Reload?
    requires Lists(configs, Run(State(EMPTY, map[]), events, valid).disk)
    ensures var s := Run(State(EMPTY, map[]), events, valid);
            var r := Step(s, Reload(configs), valid);
            && (forall t :: Stored(r.index, t) <==> Stored(s.index, t))
            && (Agree(r.index) <==>
                  forall a, b :: Stored(s.index, a) && Stored(s.index, b) && a.id != b.id ==> Disjoint(a, b))
  {
    var s := Run(State(EMPTY, map[]), events, valid);
    DiskIsById(State(EMPTY, map[]), events, valid);
    ReloadAgreesIff(s, configs, valid);
    ValidsOf(configs, valid);
    PairwiseIffStored(Valids(configs, valid), s.index);
  }

  lemma PairwiseIffStored(ts: seq<Tenant>, ix: Index)
    requires DistinctIds(ts) && forall t :: t in ts <==> Stored(ix, t)
    ensures PairwiseDisjoint(ts) <==>
              forall a, b :: Stored(ix, a) && Stored(ix, b) && a.id != b.id ==> Disjoint(a, b)
  {
    if PairwiseDisjoint(ts) {
      forall a, b | Stored(ix, a) && Stored(ix, b) && a.id != b.id ensures Disjoint(a, b) {
        assert a in ts && b in ts;
        var i :| 0 <= i < |ts| && ts[i] == a;
        var j :| 0 <= j < |ts| && ts[j] == b;
        assert if i < j then Disjoint(ts[i], ts[j]) else Disjoint(ts[j], ts[i]);
      }
    }
    if forall a, b :: Stored(ix, a) && Stored(ix, b) && a.id != b.id ==> Disjoint(a, b) {
      forall i, j | 0 <= i < j < |ts| ensures Disjoint(ts[i], ts[j]) {
        assert ts[i] in ts && ts[j] in ts;
      }
    }
  }

  /** A renamed tenant is still found under its old slug, even after it has been deleted. */
  lemma OldSlugOutlivesTenant(id: string, first: string, renamed: string, valid: Tenant -> bool)
    requires first != "" && renamed != "" && first != renamed
    requires valid(Tenant(id, first, "", [])) && valid(Tenant(id, renamed, "", []))
    ensures var events := [Save(Tenant(id, first, "", [])), Save(Tenant(id, renamed, "", [])), Drop(id)];
            var s := Run(State(EMPTY, map[]), events, valid);
            s.index.byId == map[] && BySlug(s.index, first) == Some(Tenant(id, first, "", []))
  {
    var t, u := Tenant(id, first, "", []), Tenant(id, renamed, "", []);
    var events := [Save(t), Save(u), Drop(id)];
    assert events[1..] == [Save(u), Drop(id)] && events[1..][1..] == [Drop(id)] && events[1..][1..][1..] == [];
    var s1 := Step(State(EMPTY, map[]), Save(t), valid);
    var s2 := Step(s1, Save(u), valid);
    var s3 := Step(s2, Drop(id), valid);
    assert Run(s2, [Drop(id)], valid) == s3;
    assert s3.index.bySlug == map[first := t];
  }
}
