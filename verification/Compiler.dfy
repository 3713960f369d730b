/**
 The snapshot compiler: configurations are validated, dependencies are resolved into a graph, and
 only a compilation without errors touches the published snapshot and its history.
 */
module Compiler {
  import opened Wrappers
  import opened Snapshots

  /** One loaded configuration; `valid` is the verdict of the schema validator and the resolvers. */
  datatype Service = Service(id: string, valid: bool, dependencies: seq<string>)

  datatype Graph = Graph(nodes: seq<string>, edges: seq<(string, string)>)

  const WHITELIST: set<string> := {
    "postgres", "redis", "memcached", "rabbitmq", "mysql",
    "minio", "elasticsearch", "kafka", "cassandra", "influxdb", "storage"}

  // ---------------------------------------------------------------- loading

  function PositionOf(services: seq<Service>, id: string): (k: nat)
    ensures k <= |services|
    ensures k < |services| ==> services[k].id == id
    ensures forall i :: 0 <= i < k ==> services[i].id != id
  {
    if services == [] || services[0].id == id then 0 else PositionOf(services[1..], id) + 1
  }

  /** `Map.set`: a repeated id keeps its place and takes the later configuration. */
  function AddConfig(services: seq<Service>, s: Service): seq<Service> {
    var k := PositionOf(services, s.id);
    if k < |services| then services[k := s] else services + [s]
  }

  function AddAll(services: seq<Service>, loaded: seq<Service>): seq<Service>
    decreases |loaded|
  {
    if loaded == [] then services else AddAll(AddConfig(services, loaded[0]), loaded[1..])
  }

  predicate DistinctIds(services: seq<Service>) {
    forall i, j :: 0 <= i < j < |services| ==> services[i].id != services[j].id
  }

  // ---------------------------------------------------------------- dependency resolution

  function Ids(services: seq<Service>): seq<string> {
    seq(|services|, i requires 0 <= i < |services| => services[i].id)
  }

  /** What the platform provides without a service of the mesh. */
  predicate Provided(dep: string) {
    || dep == "postgres" || dep == "redis" || dep == "memcached" || dep == "rabbitmq" || dep == "mysql"
    || dep == "minio" || dep == "elasticsearch" || dep == "kafka" || dep == "cassandra" || dep == "influxdb"
    || dep == "storage"
  }

  /** Each dependency is the id of one of the services or provided by the platform. */
  ghost predicate Satisfied(services: seq<Service>) {
    forall s, dep :: s in services && dep in s.dependencies ==>
      Provided(dep) || exists t :: t in services && t.id == dep
  }

  predicate Known(services: seq<Service>, dep: string) {
    dep in WHITELIST || dep in Ids(services)
  }

  function Include(nodes: seq<string>, dep: string): seq<string> {
    if dep in nodes then nodes else nodes + [dep]
  }

  /** The inner loop: the dependencies of one service; `None` where the source throws. */
  function Link(services: seq<Service>, id: string, deps: seq<string>, g: Graph): Option<Graph>
    decreases |deps|
  {
    if deps == [] then Some(g)
    else if !Known(services, deps[0]) then None
    else Link(services, id, deps[1..], Graph(Include(g.nodes, deps[0]), g.edges + [(id, deps[0])]))
  }

  /** The outer loop. */
  function LinkAll(services: seq<Service>, todo: seq<Service>, g: Graph): Option<Graph>
    decreases |todo|
  {
    if todo == [] then Some(g)
    else
      match Link(services, todo[0].id, todo[0].dependencies, g)
      case None => None
      case Some(h) => LinkAll(services, todo[1..], h)
  }

  /** The graph starts with the compiled services as its nodes. */
  function Resolve(services: seq<Service>): Option<Graph> {
    LinkAll(services, services, Graph(Ids(services), []))
  }

  /** `DependencyResolver.resolve`, nested loops over the services and their dependencies. */
  method ResolveDependencies(services: seq<Service>) returns (r: Option<Graph>)
    ensures r == Resolve(services)
    ensures r.Some? <==> Satisfied(services)
  {
    LinkAllSpec(services, services, Graph(Ids(services), []));
    ClosedIffSatisfied(services);
    var nodes, edges := Ids(services), [];
    var i := 0;
    while i < |services|
      invariant 0 <= i <= |services|
      invariant LinkAll(services, services[i..], Graph(nodes, edges)) == Resolve(services)
    {
      var s := services[i];
      ghost var g0 := Graph(nodes, edges);
      var j := 0;
      while j < |s.dependencies|
        invariant 0 <= j <= |s.dependencies|
        invariant Link(services, s.id, s.dependencies[j..], Graph(nodes, edges))
               == Link(services, s.id, s.dependencies, g0)
      {
        var dep := s.dependencies[j];
        if !Known(services, dep) {
          return None;
        }
        if dep !in nodes {
          nodes := nodes + [dep];
        }
        edges := edges + [(s.id, dep)];
        assert s.dependencies[j..][1..] == s.dependencies[j + 1..];
        j := j + 1;
      }
      assert services[i..][1..] == services[i + 1..];
      i := i + 1;
    }
    r := Some(Graph(nodes, edges));
  }

  /** The declared (service, dependency) pairs, in order. */
  function Pairs(id: string, deps: seq<string>): seq<(string, string)> {
    seq(|deps|, i requires 0 <= i < |deps| => (id, deps[i]))
  }

  function Declared(services: seq<Service>): seq<(string, string)>
    decreases |services|
  {
    if services == [] then [] else Pairs(services[0].id, services[0].dependencies) + Declared(services[1..])
  }

  predicate AllKnown(services: seq<Service>, deps: seq<string>) {
    forall d :: d in deps ==> Known(services, d)
  }

  /** Every declared dependency is a compiled service or whitelisted. */
  predicate Closed(services: seq<Service>, todo: seq<Service>) {
    forall s :: s in todo ==> AllKnown(services, s.dependencies)
  }

  lemma KnownIff(services: seq<Service>, dep: string)
    ensures Known(services, dep) <==> Provided(dep) || exists t :: t in services && t.id == dep
  {
    if dep in Ids(services) {
      var i :| 0 <= i < |services| && Ids(services)[i] == dep;
      assert services[i] in services;
    }
    if t :| t in services && t.id == dep {
      var i :| 0 <= i < |services| && services[i] == t;
      assert Ids(services)[i] == dep;
    }
  }

  lemma ClosedIffSatisfied(services: seq<Service>)
    ensures Closed(services, services) <==> Satisfied(services)
  {
    forall dep ensures Known(services, dep) <==> Provided(dep) || exists t :: t in services && t.id == dep {
      KnownIff(services, dep);
    }
  }

  ghost predicate NoDuplicates(xs: seq<string>) {
    forall i, j :: 0 <= i < j < |xs| ==> xs[i] != xs[j]
  }

  /** `h` extends `g` by the pairs `added`: edges in order, and as further nodes exactly their targets. */
  ghost predicate Extends(g: Graph, h: Graph, added: seq<(string, string)>) {
    && h.edges == g.edges + added
    && (forall x :: x in h.nodes <==> x in g.nodes || exists e :: e in added && e.1 == x)
    && g.nodes <= h.nodes
    && (NoDuplicates(g.nodes) ==> NoDuplicates(h.nodes))
  }

  lemma ExtendsTransitive(g: Graph, h: Graph, k: Graph, a: seq<(string, string)>, b: seq<(string, string)>)
    requires Extends(g, h, a) && Extends(h, k, b)
    ensures Extends(g, k, a + b)
  {
    assert k.edges == g.edges + (a + b);
    forall x ensures x in k.nodes <==> x in g.nodes || exists e :: e in a + b && e.1 == x {
      if e :| e in a && e.1 == x {
        assert e in a + b;
      }
      if e :| e in b && e.1 == x {
        assert e in a + b;
      }
    }
  }

  lemma LinkOne(id: string, dep: string, g: Graph)
    ensures Extends(g, Graph(Include(g.nodes, dep), g.edges + [(id, dep)]), [(id, dep)])
  {
    assert (id, dep) in [(id, dep)];
  }

  lemma {:induction false} LinkSpec(services: seq<Service>, id: string, deps: seq<string>, g: Graph)
    ensures var r := Link(services, id, deps, g);
            && (r.Some? <==> AllKnown(services, deps))
            && (r.Some? ==> Extends(g, r.value, Pairs(id, deps)))
    decreases |deps|
  {
    if deps == [] {
      assert Pairs(id, deps) == [] && g.edges + [] == g.edges;
    } else {
      var h := Graph(Include(g.nodes, deps[0]), g.edges + [(id, deps[0])]);
      LinkSpec(services, id, deps[1..], h);
      LinkOne(id, deps[0], g);
      assert forall d :: d in deps <==> d == deps[0] || d in deps[1..];
      assert Pairs(id, deps) == [(id, deps[0])] + Pairs(id, deps[1..]);
      if AllKnown(services, deps) {
        ExtendsTransitive(g, h, Link(services, id, deps[1..], h).value, [(id, deps[0])], Pairs(id, deps[1..]));
      }
    }
  }

  lemma {:induction false} LinkAllSpec(services: seq<Service>, todo: seq<Service>, g: Graph)
    ensures var r := LinkAll(services, todo, g);
            && (r.Some? <==> Closed(services, todo))
            && (r.Some? ==> Extends(g, r.value, Declared(todo)))
    decreases |todo|
  {
    if todo == [] {
      assert g.edges + [] == g.edges;
    } else {
      assert forall s :: s in todo <==> s == todo[0] || s in todo[1..];
      LinkSpec(services, todo[0].id, todo[0].dependencies, g);
      var r := Link(services, todo[0].id, todo[0].dependencies, g);
      if r.Some? {
        LinkAllSpec(services, todo[1..], r.value);
        var k := LinkAll(services, todo[1..], r.value);
        if k.Some? {
          ExtendsTransitive(g, r.value, k.value, Pairs(todo[0].id, todo[0].dependencies), Declared(todo[1..]));
        }
      }
    }
  }

  /**
   The dependency graph. Resolution succeeds exactly when every declared dependency is a compiled
   service or whitelisted; the graph then has no duplicate node, its edges are the declared pairs in
   order, and its nodes are the services and the dependencies, so both ends of every edge are nodes.
   */
  lemma ResolvedGraph(services: seq<Service>)
    requires DistinctIds(services)
    ensures var r := Resolve(services);
            && (r.Some? <==> Closed(services, services))
            && (r.Some? ==>
                  && NoDuplicates(r.value.nodes)
                  && r.value.edges == Declared(services)
                  && Ids(services) <= r.value.nodes
                  && (forall x :: x in r.value.nodes <==>
                        x in Ids(services) || exists e :: e in r.value.edges && e.1 == x)
                  && (forall e :: e in r.value.edges ==> e.0 in r.value.nodes && e.1 in r.value.nodes))
  {
    LinkAllSpec(services, services, Graph(Ids(services), []));
    DeclaredFromServices(services);
    if Resolve(services).Some? {
      assert [] + Declared(services) == Declared(services);
    }
  }

  lemma {:induction false} DeclaredFromServices(services: seq<Service>)
    ensures forall e :: e in Declared(services) ==> e.0 in Ids(services)
    decreases |services|
  {
    if services == [] {
    } else {
      DeclaredFromServices(services[1..]);
      assert Ids(services) == [services[0].id] + Ids(services[1..]);
    }
  }

  // ---------------------------------------------------------------- compilation

  predicate AllValid(services: seq<Service>) {
    forall s :: s in services ==> s.valid
  }

  /** The phases before anything is written; `None` is a reported error. */
  function Check(loaded: Option<seq<Service>>): Option<(seq<Service>, Graph)> {
    match loaded
    case None => None
    case Some(l) =>
      var services := AddAll([], l);
      if !AllValid(services) then None
      else
        match Resolve(services)
        case None => None
        case Some(g) => Some((services, g))
  }

  type Payload = (seq<Service>, Graph)

  /** A compilation that reports a loading, validation or dependency error writes nothing. */
  function CompileStep(d: Disk<Payload>, loaded: Option<seq<Service>>, stamp: nat, w: Writes): Result<Payload> {
    match Check(loaded)
    case None => Result(d, false)
    case Some(c) => Step(d, Snapshots.Compile(c, stamp, w))
  }

  class SnapshotCompiler {
    const store: SnapshotStore<Payload>

    constructor (store: SnapshotStore<Payload>)
      ensures this.store == store
    {
      this.store := store;
    }

    /** `loaded` is `None` when reading the registry throws; `w` says which writes go through. */
    method Compile(loaded: Option<seq<Service>>, stamp: nat, w: Writes) returns (success: bool)
      modifies store
      ensures Result(store.View(), success) == CompileStep(old(store.View()), loaded, stamp, w)
    {
      if loaded.None? {
        return false;
      }
      var services: seq<Service> := [];
      var i := 0;
      while i < |loaded.value|
        invariant 0 <= i <= |loaded.value|
        invariant AddAll(services, loaded.value[i..]) == AddAll([], loaded.value)
      {
        services := AddConfig(services, loaded.value[i]);
        assert loaded.value[i..][1..] == loaded.value[i + 1..];
        i := i + 1;
      }
      var errors := 0;
      i := 0;
      while i < |services|
        invariant 0 <= i <= |services|
        invariant errors == 0 <==> AllValid(services[..i])
      {
        assert services[..i + 1] == services[..i] + [services[i]];
        if !services[i].valid {
          assert services[i] in services[..i + 1];
          errors := errors + 1;
        }
        i := i + 1;
      }
      assert services[..i] == services;
      if errors > 0 {
        return false;
      }
      var graph := ResolveDependencies(services);
      if graph.None? {
        return false;
      }
      success := store.PublishCompiled((services, graph.value), stamp, w);
    }
  }

  lemma {:induction false} AddAllDistinct(services: seq<Service>, loaded: seq<Service>)
    requires DistinctIds(services)
    ensures DistinctIds(AddAll(services, loaded))
    decreases |loaded|
  {
    if loaded == [] {
    } else {
      AddAllDistinct(AddConfig(services, loaded[0]), loaded[1..]);
    }
  }

  lemma {:induction false} AddAllOfDistinct(services: seq<Service>, loaded: seq<Service>)
    requires DistinctIds(services + loaded)
    ensures AddAll(services, loaded) == services + loaded
    decreases |loaded|
  {
    if loaded == [] {
      assert services + loaded == services;
    } else {
      var s := loaded[0];
      assert (services + loaded)[|services|] == s;
      assert forall i :: 0 <= i < |services| ==> (services + loaded)[i] == services[i];
      assert PositionOf(services, s.id) == |services|;
      assert services + [s] + loaded[1..] == services + loaded;
      AddAllOfDistinct(services + [s], loaded[1..]);
    }
  }

  /** The configuration at `i` is the last one loaded under its id. */
  predicate LastOfId(loaded: seq<Service>, i: nat)
    requires i < |loaded|
  {
    forall j :: i < j < |loaded| ==> loaded[j].id != loaded[i].id
  }

  lemma AddConfigMember(services: seq<Service>, s: Service, x: Service)
    requires DistinctIds(services)
    ensures DistinctIds(AddConfig(services, s))
    ensures x in AddConfig(services, s) <==> x == s || (x in services && x.id != s.id)
  {
    var k := PositionOf(services, s.id);
    if k < |services| {
      if x in services && x.id != s.id {
        var i :| 0 <= i < |services| && services[i] == x;
        assert services[k := s][i] == x;
      }
      assert services[k := s][k] == s;
    }
  }

  lemma {:induction false} AddAllMember(services: seq<Service>, loaded: seq<Service>, x: Service)
    requires DistinctIds(services)
    ensures x in AddAll(services, loaded) <==>
              || (exists i :: 0 <= i < |loaded| && loaded[i] == x && LastOfId(loaded, i))
              || (x in services && forall j :: 0 <= j < |loaded| ==> loaded[j].id != x.id)
    decreases |loaded|
  {
    if loaded == [] {
    } else {
      var s, rest := loaded[0], loaded[1..];
      AddConfigMember(services, s, x);
      AddAllMember(AddConfig(services, s), rest, x);
      forall i | 0 <= i < |rest| ensures LastOfId(rest, i) <==> LastOfId(loaded, i + 1) {
        assert forall j :: i < j < |rest| ==> rest[j] == loaded[j + 1];
        assert forall j :: i + 1 < j < |loaded| ==> loaded[j] == rest[j - 1];
      }
      assert (forall j :: 0 <= j < |rest| ==> rest[j].id != s.id) <==> LastOfId(loaded, 0);
      if i :| 0 <= i < |rest| && rest[i] == x && LastOfId(rest, i) {
        assert loaded[i + 1] == x && LastOfId(loaded, i + 1);
      }
      if i :| 0 <= i < |loaded| && loaded[i] == x && LastOfId(loaded, i) {
        assert i > 0 ==> rest[i - 1] == x && LastOfId(rest, i - 1);
      }
    }
  }

  /** What is compiled: of each id the configuration loaded last. */
  lemma CompiledServices(loaded: seq<Service>, x: Service)
    requires Check(Some(loaded)).Some?
    ensures x in Check(Some(loaded)).value.0 <==>
              exists i :: 0 <= i < |loaded| && loaded[i] == x && forall j :: i < j < |loaded| ==> loaded[j].id != x.id
  {
    AddAllMember([], loaded, x);
    if i :| 0 <= i < |loaded| && loaded[i] == x && forall j :: i < j < |loaded| ==> loaded[j].id != x.id {
      assert LastOfId(loaded, i);
    }
  }

  /** Acceptance as a property of the set of configurations alone. */
  lemma AcceptedIff(loaded: seq<Service>)
    requires DistinctIds(loaded)
    ensures Check(Some(loaded)).Some? <==> AllValid(loaded) && Closed(loaded, loaded)
    ensures Check(Some(loaded)).Some? <==> (forall s :: s in loaded ==> s.valid) && Satisfied(loaded)
  {
    ClosedIffSatisfied(loaded);
    AddAllOfDistinct([], loaded);
    assert [] + loaded == loaded;
    ResolvedGraph(loaded);
  }

  /** With distinct ids, the order in which services are loaded never decides whether they compile. */
  lemma AcceptanceIgnoresOrder(a: seq<Service>, b: seq<Service>)
    requires DistinctIds(a) && DistinctIds(b) && forall s :: s in a <==> s in b
    ensures Check(Some(a)).Some? <==> Check(Some(b)).Some?
  {
    AcceptedIff(a);
    AcceptedIff(b);
    forall d ensures Known(a, d) <==> Known(b, d) {
      SameIds(a, b, d);
      SameIds(b, a, d);
    }
  }

  lemma SameIds(a: seq<Service>, b: seq<Service>, id: string)
    requires forall s :: s in a ==> s in b
    ensures id in Ids(a) ==> id in Ids(b)
  {
    if id in Ids(a) {
      var i :| 0 <= i < |a| && Ids(a)[i] == id;
      assert a[i] in b;
      var j :| 0 <= j < |b| && b[j] == a[i];
      assert Ids(b)[j] == id;
    }
  }

  lemma LaterWins(first: Service, second: Service)
    requires first.id == second.id
    ensures AddAll([], [first, second]) == [second]
  {
    assert AddConfig([], first) == [first];
    assert PositionOf([first], second.id) == 0;
    assert AddConfig([first], second) == [second];
    assert [first, second][1..] == [second] && [second][1..] == [];
    assert AddAll([first], [second]) == AddAll([second], []);
  }

  /** With a repeated id it does: the later configuration wins. */
  lemma RepeatedIdMakesOrderMatter()
    ensures var good, bad := Service("a", true, []), Service("a", false, []);
            Check(Some([bad, good])).Some? && Check(Some([good, bad])).None?
  {
    var good, bad := Service("a", true, []), Service("a", false, []);
    LaterWins(bad, good);
    LaterWins(good, bad);
    assert bad in [bad];
    ResolvedGraph([good]);
  }

  /**
   What a compilation whose writes go through publishes: the next build number, with a closed graph
   over distinct valid services.
   */
  lemma PublishedGraphIsClosed(d: Disk<Payload>, loaded: Option<seq<Service>>, stamp: nat)
    requires Consistent(d)
    ensures var c := Check(loaded);
            c.Some? ==>
              var e := CompileStep(d, loaded, stamp, ALL).disk;
              && Consistent(e)
              && e.live == Some(Compiled(d, c.value, stamp))
              && e.live.value.services == c
              && (d.live.None? ==> e.live.value.buildNumber == 1 && e.live.value.version == "1.0.0")
              && (d.live.Some? ==>
                    && e.live.value.buildNumber == d.live.value.buildNumber + 1
                    && e.live.value.version == if d.live.value.version == "" then "1.0.0" else d.live.value.version)
              && e.backups == d.backups[NextBuild(d) := e.live.value]
              && DistinctIds(c.value.0) && AllValid(c.value.0) && Satisfied(c.value.0)
              && c.value.1.edges == Declared(c.value.0)
  {
    var c := Check(loaded);
    if c.Some? {
      PublishTouchesOneEntry(d, Compiled(d, c.value, stamp));
      AddAllDistinct([], loaded.value);
      ResolvedGraph(c.value.0);
      ClosedIffSatisfied(c.value.0);
    }
  }

  /** Either success with everything published, or failure with live snapshot and history untouched. */
  ghost predicate PublishesOrNothing(d: Disk<Payload>, loaded: Option<seq<Service>>, stamp: nat, w: Writes) {
    var c, r := Check(loaded), CompileStep(d, loaded, stamp, w);
    (r.ok && c.Some? && r.disk == Publish(d, Compiled(d, c.value, stamp))) || (!r.ok && r.disk == d)
  }

  /**
   A compilation publishes all or nothing exactly when it finds an error, or the live write fails, or
   nothing after it does. Otherwise it reports a failure with the live snapshot replaced, or a
   success whose snapshot has no backup.
   */
  lemma CompileIsAtomicIff(d: Disk<Payload>, loaded: Option<seq<Service>>, stamp: nat, w: Writes)
    ensures PublishesOrNothing(d, loaded, stamp, w)
            <==> Check(loaded).None? || !w.live
                 || (w.manifest && w.notify && Recorded(d, Compiled(d, Check(loaded).value, stamp), w))
  {
    var c := Check(loaded);
    if c.Some? {
      PublishOrNothingIff(d, c.value, stamp, w);
    }
  }

  /**
   With a build number that is new to a consistent history and distinct ids: exactly when some
   configuration is invalid or names an unknown dependency, or the live write fails, or every write
   goes through.
   */
  lemma NewBuildIsAtomicIff(d: Disk<Payload>, loaded: seq<Service>, stamp: nat, w: Writes)
    requires Consistent(d) && NextBuild(d) !in d.backups && DistinctIds(loaded)
    ensures PublishesOrNothing(d, Some(loaded), stamp, w)
            <==> (exists s :: s in loaded && !s.valid) || !Satisfied(loaded) || !w.live || w == ALL
  {
    AcceptedIff(loaded);
    CompileIsAtomicIff(d, Some(loaded), stamp, w);
    FoundAt(d, NextBuild(d));
  }

  /** A manifest that cannot be written: the compilation fails, and the mesh serves its snapshot all the same. */
  lemma FailedCompileReplacesLive(d: Disk<Payload>, loaded: Option<seq<Service>>, stamp: nat, w: Writes)
    requires Check(loaded).Some? && w.live && !w.manifest
    ensures var r := CompileStep(d, loaded, stamp, w);
            !r.ok && r.disk.live == Some(Compiled(d, Check(loaded).value, stamp)) && r.disk.live != d.live
  {
  }
}
