/**
 Layered policies of the service mesh: a merge that descends one level, and the resolution of the
 default, service and tenant layers into a policy.
 */
module PolicyMerge {
  import opened Wrappers

  datatype Json =
    | Null
    | Bool(value: bool)
    | Num(number: real)
    | NaN
    | Str(text: string)
    | List(items: seq<Json>)
    | Obj(fields: map<string, Json>)

  type Doc = map<string, Json>

  function Lookup(d: Doc, key: string): Option<Json> {
    if key in d then Some(d[key]) else None
  }

  function Decimal(n: nat): string {
    (if n < 10 then "" else Decimal(n / 10)) + ["0123456789"[n % 10]]
  }

  function ByIndex(items: seq<Json>): Doc
    decreases |items|
  {
    if items == [] then map[] else ByIndex(items[..|items| - 1])[Decimal(|items| - 1) := items[|items| - 1]]
  }

  /** What an object literal takes over from `...(x || {})`. */
  function Spread(x: Option<Json>): Doc {
    match x
    case Some(Obj(fields)) => fields
    case Some(List(items)) => ByIndex(items)
    case Some(Str(text)) => ByIndex(seq(|text|, i requires 0 <= i < |text| => Str([text[i]])))
    case _ => map[]
  }

  /** The value of a key after an override that may define it. */
  function Over(prior: Option<Json>, v: Option<Json>): Option<Json> {
    match v
    case Some(Obj(fields)) => Some(Obj(Spread(prior) + fields))
    case Some(leaf) => Some(leaf)
    case None => prior
  }

  /** `d` is `base` overridden by `layer` on the given keys. */
  ghost predicate IsMerge(d: Doc, base: Doc, layer: Doc, keys: set<string>) {
    forall k :: Lookup(d, k) == if k in keys then Over(Lookup(base, k), Lookup(layer, k)) else Lookup(base, k)
  }

  lemma SameLookups(a: Doc, b: Doc)
    requires forall k :: Lookup(a, k) == Lookup(b, k)
    ensures a == b
  {
    forall k ensures k in a <==> k in b {
      assert Lookup(a, k) == Lookup(b, k);
    }
    forall k | k in a ensures a[k] == b[k] {
      assert Lookup(a, k) == Lookup(b, k);
    }
  }

  ghost function MergeKeys(base: Doc, layer: Doc, keys: set<string>): (d: Doc)
    requires keys <= layer.Keys
    ensures IsMerge(d, base, layer, keys)
    decreases keys
  {
    if keys == {} then base
    else
      var k :| k in keys;
      MergeKeys(base, layer, keys - {k})[k := Over(Lookup(base, k), Lookup(layer, k)).value]
  }

  ghost function Merge(base: Doc, layer: Doc): (d: Doc)
    ensures forall k :: Lookup(d, k) == Over(Lookup(base, k), Lookup(layer, k))
  {
    MergeKeys(base, layer, layer.Keys)
  }

  ghost function MergeAll(base: Doc, layers: seq<Doc>): Doc
    decreases |layers|
  {
    if layers == [] then base else Merge(MergeAll(base, layers[..|layers| - 1]), layers[|layers| - 1])
  }

  /** The keys of a layer may be visited in any order. */
  method MergeLayer(base: Doc, layer: Doc) returns (merged: Doc)
    ensures merged == Merge(base, layer)
  {
    merged := base;
    var keys := layer.Keys;
    while keys != {}
      invariant keys <= layer.Keys
      invariant IsMerge(merged, base, layer, layer.Keys - keys)
      decreases |keys|
    {
      var key :| key in keys;
      var value := layer[key];
      assert Lookup(merged, key) == Lookup(base, key);
      if value.Obj? {
        merged := merged[key := Obj(Spread(Lookup(merged, key)) + value.fields)];
      } else {
        merged := merged[key := value];
      }
      keys := keys - {key};
    }
    SameLookups(merged, Merge(base, layer));
  }

  /** Missing overrides are skipped. */
  method MergePolicies(base: Doc, overrides: seq<Option<Doc>>) returns (merged: Doc)
    ensures merged == MergeAll(base, Present(overrides))
  {
    merged := base;
    var i := 0;
    while i < |overrides|
      invariant 0 <= i <= |overrides|
      invariant merged == MergeAll(base, Present(overrides[..i]))
    {
      ghost var before := Present(overrides[..i]);
      assert overrides[..i + 1][..i] == overrides[..i];
      if overrides[i].Some? {
        assert (before + [overrides[i].value])[..|before|] == before;
        merged := MergeLayer(merged, overrides[i].value);
      }
      i := i + 1;
    }
    assert overrides[..i] == overrides;
  }

  function Present(layers: seq<Option<Doc>>): seq<Doc>
    decreases |layers|
  {
    if layers == [] then []
    else
      var front, last := Present(layers[..|layers| - 1]), layers[|layers| - 1];
      if last.Some? then front + [last.value] else front
  }

  /** The layers that are there, in order. */
  lemma {:induction false} PresentKeepsOrder(a: seq<Option<Doc>>, b: seq<Option<Doc>>)
    ensures Present(a + b) == Present(a) + Present(b)
    ensures |a| == 1 ==> Present(a) == match a[0] case None => [] case Some(d) => [d]
    decreases |b|
  {
    if |a| == 1 {
      assert a[..0] == [];
    }
    if b == [] {
      assert a + b == a;
    } else {
      var last := b[|b| - 1];
      PresentKeepsOrder(a, b[..|b| - 1]);
      assert (a + b)[..|a + b| - 1] == a + b[..|b| - 1];
    }
  }

  // ---------------------------------------------------------------- lists and texts as blocks

  /** The number that a decimal notation stands for. */
  function Valued(s: string): nat
    decreases |s|
  {
    if s == "" || !('0' <= s[|s| - 1] <= '9') then 0
    else 10 * Valued(s[..|s| - 1]) + (s[|s| - 1] as int - '0' as int)
  }

  lemma {:induction false} DecimalIsValued(n: nat)
    ensures Valued(Decimal(n)) == n
    decreases n
  {
    var front := if n < 10 then "" else Decimal(n / 10);
    var d := Decimal(n);
    assert d == front + ["0123456789"[n % 10]];
    assert d[..|d| - 1] == front;
    if n >= 10 {
      DecimalIsValued(n / 10);
    }
  }

  lemma {:induction false} ByIndexAt(items: seq<Json>, i: nat)
    ensures Lookup(ByIndex(items), Decimal(i)) == if i < |items| then Some(items[i]) else None
    decreases |items|
  {
    if items == [] {
    } else {
      ByIndexAt(items[..|items| - 1], i);
      DecimalIsValued(i);
      DecimalIsValued(|items| - 1);
    }
  }

  /** A block over a list keeps the items that it does not set, under their numbers. */
  lemma BlockOverList(items: seq<Json>, fields: Doc, i: nat)
    ensures var r := Over(Some(List(items)), Some(Obj(fields)));
            && r.Some? && r.value.Obj?
            && Lookup(r.value.fields, Decimal(i))
               == if Decimal(i) in fields then Lookup(fields, Decimal(i))
                  else if i < |items| then Some(items[i]) else None
  {
    ByIndexAt(items, i);
  }

  /** A block over a text keeps its characters in the same way. */
  lemma BlockOverText(text: string, fields: Doc, i: nat)
    ensures var r := Over(Some(Str(text)), Some(Obj(fields)));
            && r.Some? && r.value.Obj?
            && Lookup(r.value.fields, Decimal(i))
               == if Decimal(i) in fields then Lookup(fields, Decimal(i))
                  else if i < |text| then Some(Str([text[i]])) else None
  {
    ByIndexAt(seq(|text|, i requires 0 <= i < |text| => Str([text[i]])), i);
  }

  // ---------------------------------------------------------------- which layer decides a field

  /** The value of the last layer that defines a key; the first document is the base. */
  function LastDefined(docs: seq<Doc>, key: string): Option<Json>
    decreases |docs|
  {
    if docs == [] then None
    else if key in docs[|docs| - 1] then Lookup(docs[|docs| - 1], key)
    else LastDefined(docs[..|docs| - 1], key)
  }

  /** The field of a block, from the last document that has it, but never from behind a leaf. */
  function LastField(docs: seq<Doc>, key: string, field: string): Option<Json>
    decreases |docs|
  {
    if docs == [] then None
    else
      var v := Lookup(docs[|docs| - 1], key);
      if v.None? || (v.value.Obj? && field !in v.value.fields) then LastField(docs[..|docs| - 1], key, field)
      else Lookup(Spread(v), field)
  }

  lemma OverField(prior: Option<Json>, v: Option<Json>, field: string)
    ensures Lookup(Spread(Over(prior, v)), field)
         == if v.None? || (v.value.Obj? && field !in v.value.fields) then Lookup(Spread(prior), field)
            else Lookup(Spread(v), field)
  {
  }

  /**
   For all layers: a key holds a leaf exactly when the last layer defining it says so, and then that
   leaf; otherwise it holds a block with each field as in the last layer that has it since the last leaf.
   */
  lemma {:induction false} MergedKey(base: Doc, layers: seq<Doc>, key: string, field: string)
    ensures var d, docs := MergeAll(base, layers), [base] + layers;
            var last := LastDefined(docs, key);
            && (last.None? || !last.value.Obj? ==> Lookup(d, key) == last)
            && (last.Some? && last.value.Obj? ==> Lookup(d, key).Some? && Lookup(d, key).value.Obj?)
            && Lookup(Spread(Lookup(d, key)), field) == LastField(docs, key, field)
    decreases |layers|
  {
    var docs := [base] + layers;
    if layers == [] {
      assert docs[..0] == [] && docs[0] == base;
    } else {
      var front, layer := layers[..|layers| - 1], layers[|layers| - 1];
      MergedKey(base, front, key, field);
      assert docs[..|docs| - 1] == [base] + front && docs[|docs| - 1] == layer;
      OverField(Lookup(MergeAll(base, front), key), Lookup(layer, key), field);
    }
  }

  /** Every document that defines the key has a block there. */
  ghost predicate AlwaysBlock(docs: seq<Doc>, key: string) {
    forall i :: 0 <= i < |docs| && key in docs[i] ==> docs[i][key].Obj?
  }

  /** The value of the last document that has this field in this block. */
  function LastWithField(docs: seq<Doc>, key: string, field: string): Option<Json>
    decreases |docs|
  {
    if docs == [] then None
    else
      var v := Lookup(docs[|docs| - 1], key);
      if v.Some? && v.value.Obj? && field in v.value.fields then Some(v.value.fields[field])
      else LastWithField(docs[..|docs| - 1], key, field)
  }

  /** Where a key is a block in all layers, the last layer that has a field decides it. */
  lemma LastLayerWins(base: Doc, layers: seq<Doc>, key: string, field: string)
    requires AlwaysBlock([base] + layers, key)
    ensures Lookup(Spread(Lookup(MergeAll(base, layers), key)), field) == LastWithField([base] + layers, key, field)
  {
    MergedKey(base, layers, key, field);
    BlocksHideNothing([base] + layers, key, field);
  }

  lemma {:induction false} BlocksHideNothing(docs: seq<Doc>, key: string, field: string)
    requires AlwaysBlock(docs, key)
    ensures LastField(docs, key, field) == LastWithField(docs, key, field)
    decreases |docs|
  {
    if docs == [] {
    } else {
      assert key in docs[|docs| - 1] ==> docs[|docs| - 1][key].Obj?;
      BlocksHideNothing(docs[..|docs| - 1], key, field);
    }
  }

  /** A leaf between two blocks hides the fields before it. */
  lemma LeafHidesFields(n: real)
    ensures var base: Doc := map["retry" := Obj(map["max_attempts" := Num(n)])];
            var layers: seq<Doc> := [map["retry" := Null], map["retry" := Obj(map[])]];
            && LastWithField([base] + layers, "retry", "max_attempts") == Some(Num(n))
            && Lookup(Spread(Lookup(MergeAll(base, layers), "retry")), "max_attempts") == None
  {
    var base: Doc := map["retry" := Obj(map["max_attempts" := Num(n)])];
    var layers: seq<Doc> := [map["retry" := Null], map["retry" := Obj(map[])]];
    var docs := [base] + layers;
    MergedKey(base, layers, "retry", "max_attempts");
    assert docs[..2] == [base, layers[0]] && docs[..2][..1] == [base];
    assert LastWithField([base], "retry", "max_attempts") == Some(Num(n));
    assert LastWithField(docs[..2], "retry", "max_attempts") == Some(Num(n));
    assert LastField(docs[..2], "retry", "max_attempts") == None;
  }

  // ---------------------------------------------------------------- algebra

  /** Merging a layer a second time changes nothing. */
  lemma MergeAbsorbsRepeats(a: Doc, b: Doc)
    ensures Merge(Merge(a, b), b) == Merge(a, b)
  {
    var ab := Merge(a, b);
    forall k ensures Lookup(Merge(ab, b), k) == Lookup(ab, k) {
      var v := Lookup(b, k);
      if v.Some? && v.value.Obj? {
        assert (Spread(Lookup(a, k)) + v.value.fields) + v.value.fields == Spread(Lookup(a, k)) + v.value.fields;
      }
    }
    SameLookups(Merge(ab, b), ab);
  }

  /** A leaf of `b` that a block of `c` replaces drops nothing of `a` that the two do not define themselves. */
  ghost predicate NothingDropped(a: Doc, b: Doc, c: Doc, k: string) {
    k in b && k in c && !b[k].Obj? && c[k].Obj? ==>
      Spread(Lookup(a, k)).Keys <= (Spread(Some(b[k])) + c[k].fields).Keys
  }

  lemma AssociativeAt(a: Doc, b: Doc, c: Doc, k: string)
    ensures Lookup(Merge(Merge(a, b), c), k) == Lookup(Merge(a, Merge(b, c)), k) <==> NothingDropped(a, b, c, k)
  {
    var x, y, z := Lookup(a, k), Lookup(b, k), Lookup(c, k);
    if z.Some? && z.value.Obj? {
      if y.None? {
        assert Spread(None) + z.value.fields == z.value.fields;
      } else if y.value.Obj? {
        BlockOverBlock(x, y.value.fields, z.value.fields);
      } else {
        BlockOverLeaf(x, y.value, z.value.fields);
      }
    }
  }

  lemma BlockOverBlock(x: Option<Json>, ys: Doc, zs: Doc)
    ensures Over(Over(x, Some(Obj(ys))), Some(Obj(zs))) == Over(x, Over(Some(Obj(ys)), Some(Obj(zs))))
  {
    assert (Spread(x) + ys) + zs == Spread(x) + (ys + zs);
  }

  lemma BlockOverLeaf(x: Option<Json>, y: Json, zs: Doc)
    requires !y.Obj?
    ensures Over(Over(x, Some(y)), Some(Obj(zs))) == Over(x, Over(Some(y), Some(Obj(zs))))
       <==> Spread(x).Keys <= (Spread(Some(y)) + zs).Keys
  {
    OverlayAbsorbed(Spread(x), Spread(Some(y)) + zs);
  }

  lemma OverlayAbsorbed(a: Doc, b: Doc)
    ensures a + b == b <==> a.Keys <= b.Keys
  {
    if a + b == b {
      forall k | k in a ensures k in b {
        assert k in a + b;
      }
    }
  }

  /** Merging is associative exactly when no block fields vanish behind a leaf of the middle layer. */
  lemma AssociativeIff(a: Doc, b: Doc, c: Doc)
    ensures Merge(Merge(a, b), c) == Merge(a, Merge(b, c)) <==> forall k :: NothingDropped(a, b, c, k)
  {
    forall k
      ensures Lookup(Merge(Merge(a, b), c), k) == Lookup(Merge(a, Merge(b, c)), k) <==> NothingDropped(a, b, c, k)
    {
      AssociativeAt(a, b, c, k);
    }
    if forall k :: NothingDropped(a, b, c, k) {
      SameLookups(Merge(Merge(a, b), c), Merge(a, Merge(b, c)));
    }
  }

  /** In particular on layers where every key always is a block or always is a leaf. */
  lemma AssociativeWhenConsistent(a: Doc, b: Doc, c: Doc)
    requires forall k :: k in b && k in c ==> (b[k].Obj? <==> c[k].Obj?)
    ensures Merge(Merge(a, b), c) == Merge(a, Merge(b, c))
  {
    AssociativeIff(a, b, c);
  }

  // ---------------------------------------------------------------- resolving

  const DEFAULT_POLICY: Doc := map[
    "timeouts" := Obj(map["connect_ms" := Num(1500.0), "read_ms" := Num(5000.0), "write_ms" := Num(5000.0),
                          "request_ms" := Num(8000.0)]),
    "retry" := Obj(map["type" := Str("exponential_backoff"), "max_attempts" := Num(3.0), "base_delay_ms" := Num(100.0),
                       "max_delay_ms" := Num(2000.0)]),
    "circuit_breaker" := Obj(map["failure_threshold" := Num(5.0), "recovery_timeout_ms" := Num(10000.0),
                                 "half_open_max_requests" := Num(2.0)]),
    "load_balancer" := Obj(map["strategy" := Str("round_robin")]),
    "security" := Obj(map["tls_required" := Bool(false), "allowed_sources" := List([])])]

  const SECTIONS: seq<string> := ["timeouts", "retry", "circuit_breaker", "load_balancer", "security"]

  const READ_LIMIT := 5000.0

  predicate Truthy(v: Json) {
    match v
    case Null => false
    case NaN => false
    case Bool(b) => b
    case Num(n) => n != 0.0
    case Str(s) => s != ""
    case List(_) => true
    case Obj(_) => true
  }

  function Capped(n: real): Json {
    Num(if n < READ_LIMIT then n else READ_LIMIT)
  }

  function CappedParse(n: Option<real>): Json {
    if n.None? then NaN else Capped(n.value)
  }

  /** `Math.min(v, 5000)`; `parse` is the conversion of texts and lists to numbers, absent when it gives NaN. */
  function Clamped(v: Option<Json>, parse: Json -> Option<real>): Json {
    match v
    case Some(Num(n)) => Capped(n)
    case Some(Null) => Num(0.0)
    case Some(Bool(b)) => Num(if b then 1.0 else 0.0)
    case Some(Str(_)) => CappedParse(parse(v.value))
    case Some(List(_)) => CappedParse(parse(v.value))
    case _ => NaN
  }

  /** The sections of a resolved policy; a falsy section becomes an empty block. */
  datatype Policy = Policy(timeouts: Json, retry: Json, circuitBreaker: Json, loadBalancer: Json, security: Json)

  function Section(d: Doc, key: string): Json {
    if key in d && Truthy(d[key]) then d[key] else Obj(map[])
  }

  function Sections(d: Doc): Policy {
    Policy(Section(d, "timeouts"), Section(d, "retry"), Section(d, "circuit_breaker"), Section(d, "load_balancer"),
           Section(d, "security"))
  }

  /** In development the read timeout is capped. A truthy text or number has no fields to assign: a TypeError. */
  function ForEnvironment(d: Doc, env: string, parse: Json -> Option<real>): Option<Doc> {
    if env != "development" || "timeouts" !in d || !Truthy(d["timeouts"]) || d["timeouts"].List? then Some(d)
    else if !d["timeouts"].Obj? then None
    else
      var fields := d["timeouts"].fields;
      Some(d["timeouts" := Obj(fields["read_ms" := Clamped(Lookup(fields, "read_ms"), parse)])])
  }

  ghost function Resolved(service: Doc, tenant: Doc, env: string, parse: Json -> Option<real>): Option<Policy> {
    var d := ForEnvironment(MergeAll(DEFAULT_POLICY, [service, tenant]), env, parse);
    if d.None? then None else Some(Sections(d.value))
  }

  predicate BlocksOnly(layer: Doc) {
    forall i :: 0 <= i < |SECTIONS| && SECTIONS[i] in layer ==> layer[SECTIONS[i]].Obj?
  }

  /** A field as a layer sets it, if it has the section as a block. */
  function Field(layer: Doc, key: string, field: string): Option<Json> {
    if key in layer && layer[key].Obj? then Lookup(layer[key].fields, field) else None
  }

  /** The tenant decides a field, else the service, else the default. */
  function Preferred(service: Doc, tenant: Doc, key: string, field: string): Option<Json> {
    if Field(tenant, key, field).Some? then Field(tenant, key, field)
    else if Field(service, key, field).Some? then Field(service, key, field)
    else Field(DEFAULT_POLICY, key, field)
  }

  ghost predicate IsPreferred(v: Json, service: Doc, tenant: Doc, key: string) {
    v.Obj? && forall f :: Lookup(v.fields, f) == Preferred(service, tenant, key, f)
  }

  /** Each field of a resolved policy is the preferred one; only in development a read timeout is at most 5000. */
  ghost predicate TenantThenService(p: Policy, service: Doc, tenant: Doc, env: string) {
    && IsPreferred(p.retry, service, tenant, "retry")
    && IsPreferred(p.circuitBreaker, service, tenant, "circuit_breaker")
    && IsPreferred(p.loadBalancer, service, tenant, "load_balancer")
    && IsPreferred(p.security, service, tenant, "security")
    && TimeoutsPreferred(p.timeouts, service, tenant, env)
  }

  ghost predicate TimeoutsPreferred(v: Json, service: Doc, tenant: Doc, env: string) {
    var read := Preferred(service, tenant, "timeouts", "read_ms");
    && v.Obj? && "read_ms" in v.fields && read.Some?
    && (forall f :: f != "read_ms" ==> Lookup(v.fields, f) == Preferred(service, tenant, "timeouts", f))
    && (env != "development" ==> v.fields["read_ms"] == read.value)
    && (env == "development" ==>
          match read.value
          case Num(n) => v.fields["read_ms"] == Num(if n < 5000.0 then n else 5000.0)
          case Null => v.fields["read_ms"] == Num(0.0)
          case Bool(b) => v.fields["read_ms"] == Num(if b then 1.0 else 0.0)
          case Obj(_) => v.fields["read_ms"] == NaN
          case NaN => v.fields["read_ms"] == NaN
          case _ => v.fields["read_ms"].NaN? || (v.fields["read_ms"].Num? && v.fields["read_ms"].number <= 5000.0))
  }

  method Resolve(service: Doc, tenant: Doc, env: string, parse: Json -> Option<real>) returns (policy: Option<Policy>)
    ensures policy == Resolved(service, tenant, env, parse)
    ensures BlocksOnly(service) && BlocksOnly(tenant) ==>
              policy.Some? && TenantThenService(policy.value, service, tenant, env)
  {
    if BlocksOnly(service) && BlocksOnly(tenant) {
      ResolvedFields(service, tenant, env, parse);
    }
    var overrides := [Some(service), Some(tenant)];
    assert overrides[..1] == [Some(service)] && overrides[..1][..0] == [];
    assert Present([Some(service)]) == [] + [service];
    assert Present(overrides) == [service] + [tenant];
    assert [service] + [tenant] == [service, tenant];
    var merged := MergePolicies(DEFAULT_POLICY, overrides);
    if env == "development" && "timeouts" in merged && Truthy(merged["timeouts"]) && !merged["timeouts"].List? {
      if !merged["timeouts"].Obj? {
        return None;
      }
      var fields := merged["timeouts"].fields;
      merged := merged["timeouts" := Obj(fields["read_ms" := Clamped(Lookup(fields, "read_ms"), parse)])];
    }
    policy := Some(Sections(merged));
  }

  /** A resolved policy as the service layer of another resolution. */
  function AsDoc(p: Policy): Doc {
    map["timeouts" := p.timeouts, "retry" := p.retry, "circuit_breaker" := p.circuitBreaker,
        "load_balancer" := p.loadBalancer, "security" := p.security]
  }

  lemma TwoLayers(base: Doc, a: Doc, b: Doc)
    ensures MergeAll(base, [a, b]) == Merge(Merge(base, a), b)
  {
    assert [a, b][..1] == [a] && [a][..0] == [];
    assert MergeAll(base, [a]) == Merge(MergeAll(base, []), a);
  }

  lemma TwoLayersAt(base: Doc, a: Doc, b: Doc, key: string)
    ensures Lookup(MergeAll(base, [a, b]), key) == Over(Over(Lookup(base, key), Lookup(a, key)), Lookup(b, key))
  {
    TwoLayers(base, a, b);
    var m := Merge(base, a);
    assert Lookup(m, key) == Over(Lookup(base, key), Lookup(a, key));
    assert Lookup(Merge(m, b), key) == Over(Lookup(m, key), Lookup(b, key));
  }

  function BlockField(block: Option<Json>, field: string): Option<Json> {
    if block.Some? && block.value.Obj? then Lookup(block.value.fields, field) else None
  }

  lemma OverBlocks(x: Option<Json>, y: Option<Json>, z: Option<Json>, field: string)
    requires x.Some? && x.value.Obj? && (y.Some? ==> y.value.Obj?) && (z.Some? ==> z.value.Obj?)
    ensures var r := Over(Over(x, y), z);
            && r.Some? && r.value.Obj?
            && Lookup(r.value.fields, field)
               == if BlockField(z, field).Some? then BlockField(z, field)
                  else if BlockField(y, field).Some? then BlockField(y, field) else BlockField(x, field)
  {
  }

  lemma BlockFields(service: Doc, tenant: Doc, key: string)
    requires key in DEFAULT_POLICY && DEFAULT_POLICY[key].Obj?
    requires (key in service ==> service[key].Obj?) && (key in tenant ==> tenant[key].Obj?)
    ensures var d := MergeAll(DEFAULT_POLICY, [service, tenant]);
            key in d && IsPreferred(d[key], service, tenant, key)
  {
    var x, y, z := Lookup(DEFAULT_POLICY, key), Lookup(service, key), Lookup(tenant, key);
    TwoLayersAt(DEFAULT_POLICY, service, tenant, key);
    OverBlocks(x, y, z, key);
    var v := Over(Over(x, y), z).value;
    forall f ensures Lookup(v.fields, f) == Preferred(service, tenant, key, f) {
      OverBlocks(x, y, z, f);
    }
  }

  lemma BlocksAt(layer: Doc, i: nat)
    requires BlocksOnly(layer) && i < |SECTIONS|
    ensures SECTIONS[i] in layer ==> layer[SECTIONS[i]].Obj?
  {
  }

  lemma SectionFields(service: Doc, tenant: Doc, i: nat)
    requires BlocksOnly(service) && BlocksOnly(tenant) && i < |SECTIONS|
    ensures var d := MergeAll(DEFAULT_POLICY, [service, tenant]);
            SECTIONS[i] in d && IsPreferred(d[SECTIONS[i]], service, tenant, SECTIONS[i])
  {
    BlocksAt(service, i);
    BlocksAt(tenant, i);
    BlockFields(service, tenant, SECTIONS[i]);
  }

  lemma DefaultReadTimeout(service: Doc, tenant: Doc)
    ensures Preferred(service, tenant, "timeouts", "read_ms").Some?
  {
  }

  /** What the environment and the sections make of a merged document whose sections are preferred blocks. */
  lemma EnvironmentFields(d: Doc, service: Doc, tenant: Doc, env: string, parse: Json -> Option<real>)
    requires "timeouts" in d && IsPreferred(d["timeouts"], service, tenant, "timeouts")
    ensures var e := ForEnvironment(d, env, parse);
            && e.Some? && (forall k :: k != "timeouts" ==> Lookup(e.value, k) == Lookup(d, k))
            && TimeoutsPreferred(Section(e.value, "timeouts"), service, tenant, env)
  {
    DefaultReadTimeout(service, tenant);
  }

  lemma SectionIs(d: Doc, e: Doc, service: Doc, tenant: Doc, key: string)
    requires key in d && IsPreferred(d[key], service, tenant, key) && Lookup(e, key) == Lookup(d, key)
    ensures IsPreferred(Section(e, key), service, tenant, key)
  {
  }

  lemma ResolvedFields(service: Doc, tenant: Doc, env: string, parse: Json -> Option<real>)
    requires BlocksOnly(service) && BlocksOnly(tenant)
    ensures var p := Resolved(service, tenant, env, parse);
            p.Some? && TenantThenService(p.value, service, tenant, env)
  {
    var d := MergeAll(DEFAULT_POLICY, [service, tenant]);
    assert SECTIONS[0] == "timeouts" && SECTIONS[1] == "retry" && SECTIONS[2] == "circuit_breaker";
    assert SECTIONS[3] == "load_balancer" && SECTIONS[4] == "security";
    SectionFields(service, tenant, 0);
    EnvironmentFields(d, service, tenant, env, parse);
    var e := ForEnvironment(d, env, parse).value;
    SectionFields(service, tenant, 1);
    SectionIs(d, e, service, tenant, "retry");
    SectionFields(service, tenant, 2);
    SectionIs(d, e, service, tenant, "circuit_breaker");
    SectionFields(service, tenant, 3);
    SectionIs(d, e, service, tenant, "load_balancer");
    SectionFields(service, tenant, 4);
    assert "security"[0] != "timeouts"[0];
    SectionIs(d, e, service, tenant, "security");
  }

  /** Without overrides, what every service gets. */
  lemma NoLayers(env: string, parse: Json -> Option<real>)
    ensures var p := Resolved(map[], map[], env, parse);
            && p.Some?
            && p.value.timeouts == Obj(map["connect_ms" := Num(1500.0), "read_ms" := Num(5000.0),
                                           "write_ms" := Num(5000.0), "request_ms" := Num(8000.0)])
            && p.value.retry == Obj(map["type" := Str("exponential_backoff"), "max_attempts" := Num(3.0),
                                        "base_delay_ms" := Num(100.0), "max_delay_ms" := Num(2000.0)])
            && p.value.circuitBreaker == Obj(map["failure_threshold" := Num(5.0), "recovery_timeout_ms" := Num(10000.0),
                                                 "half_open_max_requests" := Num(2.0)])
            && p.value.loadBalancer == Obj(map["strategy" := Str("round_robin")])
            && p.value.security == Obj(map["tls_required" := Bool(false), "allowed_sources" := List([])])
  {
    TwoLayers(DEFAULT_POLICY, map[], map[]);
    SameLookups(Merge(DEFAULT_POLICY, map[]), DEFAULT_POLICY);
    SameLookups(Merge(Merge(DEFAULT_POLICY, map[]), map[]), DEFAULT_POLICY);
    var read := DEFAULT_POLICY["timeouts"].fields;
    assert read["read_ms" := Num(5000.0)] == read;
  }

  /** A section that the tenant sets to something else than a block is that, or empty when it is falsy. */
  lemma TenantLeafWins(service: Doc, tenant: Doc, env: string, parse: Json -> Option<real>)
    requires Resolved(service, tenant, env, parse).Some?
    requires "retry" in tenant && !tenant["retry"].Obj?
    ensures var v, r := tenant["retry"], Resolved(service, tenant, env, parse).value.retry;
            r == if v in {Null, NaN, Bool(false), Num(0.0), Str("")} then Obj(map[]) else v
  {
    TwoLayersAt(DEFAULT_POLICY, service, tenant, "retry");
  }

  /** A section re-resolves to itself: it is a leaf, or its block has all the default fields. */
  predicate KeepsDefaults(v: Json, key: string)
    requires key in DEFAULT_POLICY
  {
    v.Obj? ==> Spread(Lookup(DEFAULT_POLICY, key)).Keys <= v.fields.Keys
  }

  lemma SectionAgain(d: Doc, service: Doc, key: string, v: Json)
    requires key in DEFAULT_POLICY && Lookup(service, key) == Some(v) && Truthy(v)
    requires d == MergeAll(DEFAULT_POLICY, [service, map[]])
    ensures key in d && Truthy(d[key])
    ensures Section(d, key) == v <==> KeepsDefaults(v, key)
    ensures v.Obj? ==> d[key] == Obj(Spread(Lookup(DEFAULT_POLICY, key)) + v.fields)
    ensures !v.Obj? ==> d[key] == v
  {
    TwoLayersAt(DEFAULT_POLICY, service, map[], key);
    if v.Obj? {
      OverlayAbsorbed(Spread(Lookup(DEFAULT_POLICY, key)), v.fields);
    }
  }

  predicate AllKeepDefaults(p: Policy) {
    && KeepsDefaults(p.timeouts, "timeouts")
    && KeepsDefaults(p.retry, "retry")
    && KeepsDefaults(p.circuitBreaker, "circuit_breaker")
    && KeepsDefaults(p.loadBalancer, "load_balancer")
    && KeepsDefaults(p.security, "security")
  }

  predicate AllTruthy(p: Policy) {
    Truthy(p.timeouts) && Truthy(p.retry) && Truthy(p.circuitBreaker) && Truthy(p.loadBalancer) && Truthy(p.security)
  }

  lemma AsDocLookups(p: Policy)
    ensures Lookup(AsDoc(p), "timeouts") == Some(p.timeouts) && Lookup(AsDoc(p), "retry") == Some(p.retry)
    ensures Lookup(AsDoc(p), "circuit_breaker") == Some(p.circuitBreaker)
    ensures Lookup(AsDoc(p), "load_balancer") == Some(p.loadBalancer)
    ensures Lookup(AsDoc(p), "security") == Some(p.security)
  {
    assert "timeouts"[0] != "security"[0];
  }

  /** What the environment made of the timeouts stays as it is when it is applied again. */
  predicate TimeoutsSettled(v: Json, env: string, parse: Json -> Option<real>) {
    env == "development" ==>
      || v.List?
      || (v.Obj? && (v.fields == map[]
                     || Lookup(v.fields, "read_ms") == Some(Clamped(Lookup(v.fields, "read_ms"), parse))))
  }

  lemma ClampedTwice(v: Option<Json>, parse: Json -> Option<real>)
    ensures Clamped(Some(Clamped(v, parse)), parse) == Clamped(v, parse)
    ensures Clamped(v, parse).Num? ==> Clamped(v, parse).number <= READ_LIMIT
  {
  }

  lemma ResolvedSections(service: Doc, tenant: Doc, env: string, parse: Json -> Option<real>)
    requires Resolved(service, tenant, env, parse).Some?
    ensures var p := Resolved(service, tenant, env, parse).value;
            AllTruthy(p) && TimeoutsSettled(p.timeouts, env, parse)
  {
    var d := MergeAll(DEFAULT_POLICY, [service, tenant]);
    if "timeouts" in d && d["timeouts"].Obj? {
      ClampedTwice(Lookup(d["timeouts"].fields, "read_ms"), parse);
    }
  }

  lemma TimeoutsAgain(v: Json, service: Doc, env: string, parse: Json -> Option<real>, d: Doc)
    requires Truthy(v) && TimeoutsSettled(v, env, parse) && Lookup(service, "timeouts") == Some(v)
    requires d == MergeAll(DEFAULT_POLICY, [service, map[]])
    ensures ForEnvironment(d, env, parse).Some?
    ensures Section(ForEnvironment(d, env, parse).value, "timeouts") == v <==> KeepsDefaults(v, "timeouts")
    ensures forall k :: k != "timeouts" ==> Lookup(ForEnvironment(d, env, parse).value, k) == Lookup(d, k)
  {
    SectionAgain(d, service, "timeouts", v);
    if v.Obj? {
      TimeoutsBlock(d, Spread(Lookup(DEFAULT_POLICY, "timeouts")), v.fields, env, parse);
    }
  }

  lemma TimeoutsBlock(d: Doc, defaults: Doc, fields: Doc, env: string, parse: Json -> Option<real>)
    requires "timeouts" in d && d["timeouts"] == Obj(defaults + fields) && "read_ms" in defaults
    requires TimeoutsSettled(Obj(fields), env, parse)
    ensures ForEnvironment(d, env, parse).Some?
    ensures Section(ForEnvironment(d, env, parse).value, "timeouts") == Obj(fields) <==> defaults.Keys <= fields.Keys
    ensures forall k :: k != "timeouts" ==> Lookup(ForEnvironment(d, env, parse).value, k) == Lookup(d, k)
  {
    if env == "development" {
      CappedAgain(defaults, fields, parse);
    } else {
      OverlayAbsorbed(defaults, fields);
    }
  }

  lemma CappedAgain(defaults: Doc, fields: Doc, parse: Json -> Option<real>)
    requires "read_ms" in defaults
    requires fields == map[] || Lookup(fields, "read_ms") == Some(Clamped(Lookup(fields, "read_ms"), parse))
    ensures var all := defaults + fields;
            all["read_ms" := Clamped(Lookup(all, "read_ms"), parse)] == fields <==> defaults.Keys <= fields.Keys
  {
    var all := defaults + fields;
    var capped := all["read_ms" := Clamped(Lookup(all, "read_ms"), parse)];
    if defaults.Keys <= fields.Keys {
      OverlayAbsorbed(defaults, fields);
      assert "read_ms" in fields;
      assert capped == fields;
    } else {
      var k :| k in defaults && k !in fields;
      assert k in capped;
    }
  }

  /**
   Resolving a resolved policy once more gives it back exactly when each of its sections is a leaf or
   still has all the default fields.
   */
  lemma ResolveAgainIff(service: Doc, tenant: Doc, env: string, parse: Json -> Option<real>)
    requires Resolved(service, tenant, env, parse).Some?
    ensures var p := Resolved(service, tenant, env, parse).value;
            Resolved(AsDoc(p), map[], env, parse) == Some(p) <==> AllKeepDefaults(p)
  {
    var p := Resolved(service, tenant, env, parse).value;
    var d := MergeAll(DEFAULT_POLICY, [AsDoc(p), map[]]);
    ResolvedSections(service, tenant, env, parse);
    AsDocLookups(p);
    TimeoutsAgain(p.timeouts, AsDoc(p), env, parse, d);
    var e := ForEnvironment(d, env, parse).value;
    OtherSectionAgain(d, e, AsDoc(p), "retry", p.retry);
    OtherSectionAgain(d, e, AsDoc(p), "circuit_breaker", p.circuitBreaker);
    OtherSectionAgain(d, e, AsDoc(p), "load_balancer", p.loadBalancer);
    assert "security"[0] != "timeouts"[0];
    OtherSectionAgain(d, e, AsDoc(p), "security", p.security);
  }

  lemma OtherSectionAgain(d: Doc, e: Doc, service: Doc, key: string, v: Json)
    requires key in DEFAULT_POLICY && Lookup(service, key) == Some(v) && Truthy(v)
    requires d == MergeAll(DEFAULT_POLICY, [service, map[]]) && Lookup(e, key) == Lookup(d, key)
    ensures Section(e, key) == v <==> KeepsDefaults(v, key)
  {
    SectionAgain(d, service, key, v);
  }

  lemma DefaultsSurvive(service: Doc, tenant: Doc, key: string)
    requires key in DEFAULT_POLICY && DEFAULT_POLICY[key].Obj?
    requires (key in service ==> service[key].Obj?) && (key in tenant ==> tenant[key].Obj?)
    ensures var d := MergeAll(DEFAULT_POLICY, [service, tenant]);
            key in d && d[key].Obj? && DEFAULT_POLICY[key].fields.Keys <= d[key].fields.Keys
  {
    TwoLayersAt(DEFAULT_POLICY, service, tenant, key);
    BlocksGrow(Lookup(DEFAULT_POLICY, key), Lookup(service, key), Lookup(tenant, key));
  }

  lemma BlocksGrow(x: Option<Json>, y: Option<Json>, z: Option<Json>)
    requires x.Some? && x.value.Obj? && (y.Some? ==> y.value.Obj?) && (z.Some? ==> z.value.Obj?)
    ensures var r := Over(Over(x, y), z);
            r.Some? && r.value.Obj? && x.value.fields.Keys <= r.value.fields.Keys
  {
  }

  /** So with blocks for all sections, resolution is idempotent, development clamp included. */
  lemma ResolveIsIdempotent(service: Doc, tenant: Doc, env: string, parse: Json -> Option<real>)
    requires BlocksOnly(service) && BlocksOnly(tenant)
    ensures var p := Resolved(service, tenant, env, parse);
            p.Some? && Resolved(AsDoc(p.value), map[], env, parse) == p
  {
    var d := MergeAll(DEFAULT_POLICY, [service, tenant]);
    forall i | 0 <= i < |SECTIONS| ensures HasDefaults(d, SECTIONS[i]) {
      DefaultsSurvive(service, tenant, SECTIONS[i]);
    }
    assert SECTIONS[0] == "timeouts";
    forall i | 0 <= i < |SECTIONS|
      ensures ForEnvironment(d, env, parse).Some?
      ensures KeepsDefaults(Section(ForEnvironment(d, env, parse).value, SECTIONS[i]), SECTIONS[i])
    {
      BlockResolves(d, SECTIONS[i], env, parse);
    }
    assert SECTIONS[1] == "retry" && SECTIONS[2] == "circuit_breaker" && SECTIONS[3] == "load_balancer";
    assert SECTIONS[4] == "security";
    ResolveAgainIff(service, tenant, env, parse);
  }

  /** A block of `d` with all the default fields stays one for the environment. */
  predicate HasDefaults(d: Doc, key: string) {
    && key in DEFAULT_POLICY && key in d && d[key].Obj? && DEFAULT_POLICY[key].Obj?
    && DEFAULT_POLICY[key].fields.Keys <= d[key].fields.Keys
  }

  lemma BlockResolves(d: Doc, key: string, env: string, parse: Json -> Option<real>)
    requires HasDefaults(d, "timeouts") && HasDefaults(d, key)
    ensures ForEnvironment(d, env, parse).Some?
    ensures KeepsDefaults(Section(ForEnvironment(d, env, parse).value, key), key)
  {
  }

  lemma NullSectionResolves(service: Doc, parse: Json -> Option<real>)
    requires Lookup(service, "retry") == Some(Null)
    ensures var p := Resolved(service, map[], "production", parse);
            p.Some? && p.value.retry == Obj(map[])
  {
    TwoLayersAt(DEFAULT_POLICY, service, map[], "retry");
    assert |"production"| != |"development"|;
  }

  /** A service that sets a section to null gets an empty block, and the defaults back on re-resolution. */
  lemma NullSectionIsNotStable(service: Doc, parse: Json -> Option<real>)
    requires Lookup(service, "retry") == Some(Null)
    ensures var p := Resolved(service, map[], "production", parse);
            && p.Some? && p.value.retry == Obj(map[])
            && Resolved(AsDoc(p.value), map[], "production", parse) != p
  {
    NullSectionResolves(service, parse);
    ResolveAgainIff(service, map[], "production", parse);
    assert !KeepsDefaults(Obj(map[]), "retry") by {
      assert "max_attempts" in Spread(Lookup(DEFAULT_POLICY, "retry"));
    }
  }
}
