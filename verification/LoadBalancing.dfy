/**
 The load balancer: the connection gauge, the health filter and the three selection strategies,
 with the round-robin index kept per service.
 */
module LoadBalancing {
  import opened Wrappers

  /** A missing weight is written 0 and counts as 1. */
  datatype Endpoint = Endpoint(url: string, weight: nat)

  datatype Target = Target(url: string, weight: nat)

  datatype Strategy = RoundRobin | LeastConnections | Weighted

  // ---------------------------------------------------------------- the connection gauge

  function Connections(gauge: map<string, nat>, e: string): nat {
    if e in gauge then gauge[e] else 0
  }

  function Incremented(gauge: map<string, nat>, e: string): map<string, nat> {
    gauge[e := Connections(gauge, e) + 1]
  }

  /** The decrement is skipped when the gauge is missing or zero. */
  function Decremented(gauge: map<string, nat>, e: string): map<string, nat> {
    if Connections(gauge, e) > 0 then gauge[e := gauge[e] - 1] else gauge
  }

  // ---------------------------------------------------------------- the pool

  predicate Healthy(e: Endpoint, statuses: map<string, string>) {
    !(e.url in statuses && statuses[e.url] == "Unhealthy")
  }

  function Filter(endpoints: seq<Endpoint>, statuses: map<string, string>): (r: seq<Endpoint>)
    ensures forall e :: e in r <==> e in endpoints && Healthy(e, statuses)
  {
    if endpoints == [] then []
    else (if Healthy(endpoints[0], statuses) then [endpoints[0]] else []) + Filter(endpoints[1..], statuses)
  }

  function Candidates(endpoints: seq<Endpoint>, statuses: map<string, string>): seq<Endpoint> {
    if Filter(endpoints, statuses) == [] then endpoints else Filter(endpoints, statuses)
  }

  function Pool(candidates: seq<Endpoint>): seq<Target> {
    seq(|candidates|, i requires 0 <= i < |candidates| =>
      Target(candidates[i].url, if candidates[i].weight == 0 then 1 else candidates[i].weight))
  }

  // ---------------------------------------------------------------- strategies

  /** The first target with the fewest connections. */
  ghost predicate IsLeastLoaded(pool: seq<Target>, gauge: map<string, nat>, k: nat) {
    && k < |pool|
    && (forall i :: 0 <= i < |pool| ==> Connections(gauge, pool[k].url) <= Connections(gauge, pool[i].url))
    && (forall i :: 0 <= i < k ==> Connections(gauge, pool[k].url) < Connections(gauge, pool[i].url))
  }

  function TotalWeight(pool: seq<Target>, n: nat): nat
    requires n <= |pool|
  {
    if n == 0 then 0 else TotalWeight(pool, n - 1) + pool[n - 1].weight
  }

  /** The share of the half-open range of draws that belongs to target `k`. */
  predicate InShare(pool: seq<Target>, k: nat, r: real)
    requires k < |pool|
  {
    (k == 0 || (TotalWeight(pool, k) as real) < r) && r <= TotalWeight(pool, k + 1) as real
  }

  lemma {:induction false} TotalGrows(pool: seq<Target>, i: nat, j: nat)
    requires i <= j <= |pool|
    ensures TotalWeight(pool, i) <= TotalWeight(pool, j)
    decreases j - i
  {
    if i < j {
      TotalGrows(pool, i, j - 1);
    }
  }

  /**
   The shares are consecutive intervals as long as the weights, and every draw below the total
   weight lies in exactly one of them.
   */
  lemma SharesPartition(pool: seq<Target>, r: real)
    requires |pool| > 0 && 0.0 <= r < TotalWeight(pool, |pool|) as real
    ensures forall k :: 0 <= k < |pool| ==> TotalWeight(pool, k + 1) - TotalWeight(pool, k) == pool[k].weight
    ensures exists k :: 0 <= k < |pool| && InShare(pool, k, r)
    ensures forall k, l :: 0 <= k < |pool| && 0 <= l < |pool| && InShare(pool, k, r) && InShare(pool, l, r) ==> k == l
  {
    var k := SomeShare(pool, |pool|, r);
    assert InShare(pool, k, r);
    forall k, l | 0 <= k < l < |pool| ensures !(InShare(pool, k, r) && InShare(pool, l, r)) {
      TotalGrows(pool, k + 1, l);
    }
  }

  lemma {:induction false} SomeShare(pool: seq<Target>, n: nat, r: real) returns (k: nat)
    requires 0 < n <= |pool| && r <= TotalWeight(pool, n) as real
    ensures k < n && InShare(pool, k, r)
    decreases n
  {
    if n == 1 || TotalWeight(pool, n - 1) as real < r {
      k := n - 1;
    } else {
      k := SomeShare(pool, n - 1, r);
    }
  }

  /** A random number in [0, 1), scaled to the total weight. */
  function Drawn(draw: real, total: nat): real {
    draw * total as real
  }

  class LoadBalancer {
    var activeConnections: map<string, nat>
    var rrIndices: map<string, nat>

    constructor ()
      ensures activeConnections == map[] && rrIndices == map[]
    {
      activeConnections, rrIndices := map[], map[];
    }

    method IncrementConnections(endpoint: string)
      modifies this`activeConnections
      ensures activeConnections == Incremented(old(activeConnections), endpoint)
    {
      activeConnections := activeConnections[endpoint := Connections(activeConnections, endpoint) + 1];
    }

    method DecrementConnections(endpoint: string)
      modifies this`activeConnections
      ensures activeConnections == Decremented(old(activeConnections), endpoint)
    {
      if endpoint in activeConnections && activeConnections[endpoint] != 0 {
        activeConnections := activeConnections[endpoint := activeConnections[endpoint] - 1];
      }
    }

    method SelectLeastConnections(pool: seq<Target>) returns (k: nat)
      requires |pool| > 0
      ensures IsLeastLoaded(pool, activeConnections, k)
    {
      k := 0;
      var i := 0;
      var minConns: Option<nat> := None;
      while i < |pool|
        invariant 0 <= i <= |pool| && k < |pool|
        invariant minConns.None? ==> i == 0 && k == 0
        invariant minConns.Some? ==> k < i && minConns.value == Connections(activeConnections, pool[k].url)
        invariant minConns.Some? ==>
                    forall j :: 0 <= j < i ==> minConns.value <= Connections(activeConnections, pool[j].url)
        invariant minConns.Some? ==>
                    forall j :: 0 <= j < k ==> minConns.value < Connections(activeConnections, pool[j].url)
      {
        var conns := Connections(activeConnections, pool[i].url);
        if minConns.None? || conns < minConns.value {
          minConns := Some(conns);
          k := i;
        }
        i := i + 1;
      }
    }

    /** The countdown over the pool; the final fallback of the source is never reached. */
    method CountDown(pool: seq<Target>, start: real) returns (k: nat)
      requires |pool| > 0 && 0.0 <= start <= TotalWeight(pool, |pool|) as real
      ensures k < |pool| && InShare(pool, k, start)
    {
      var r := start;
      k := 0;
      while k < |pool|
        invariant 0 <= k <= |pool|
        invariant r == start - TotalWeight(pool, k) as real
        invariant k > 0 ==> r > 0.0
      {
        r := r - pool[k].weight as real;
        if r <= 0.0 {
          return;
        }
        k := k + 1;
      }
      assert false;
    }

    /** `draw` is the random number in [0, 1). */
    method SelectWeighted(pool: seq<Target>, draw: real) returns (k: nat)
      requires |pool| > 0 && 0.0 <= draw < 1.0
      ensures k < |pool| && InShare(pool, k, Drawn(draw, TotalWeight(pool, |pool|)))
    {
      var total := TotalWeight(pool, |pool|);
      var start := draw * total as real;
      DrawBelowTotal(draw, total as real, start);
      k := CountDown(pool, start);
    }

    method SelectRoundRobin(service: string, pool: seq<Target>) returns (k: nat)
      requires |pool| > 0
      modifies this`rrIndices
      ensures k == NextIndex(old(rrIndices), service) % |pool|
      ensures service !in old(rrIndices) ==> k == 0
      ensures rrIndices == old(rrIndices)[service := NextIndex(old(rrIndices), service) + 1]
    {
      if service !in rrIndices {
        rrIndices := rrIndices[service := 0];
      }
      k := rrIndices[service] % |pool|;
      rrIndices := rrIndices[service := rrIndices[service] + 1];
    }

    /**
     `selectEndpoint`: `None` where the source throws for an empty list. The pick is an unhealthy
     endpoint exactly when there is no healthy one, and only a round-robin pick from at least two
     targets moves the index of the service.
     */
    method SelectEndpoint(service: string, strategy: Strategy, endpoints: seq<Endpoint>,
                          statuses: map<string, string>, draw: real)
      returns (picked: Option<Endpoint>, k: nat)
      requires 0.0 <= draw < 1.0
      modifies this`rrIndices
      ensures picked.None? <==> endpoints == []
      ensures picked.Some? ==> picked.value in endpoints
      ensures picked.Some? ==>
                (!Healthy(picked.value, statuses) <==> forall e :: e in endpoints ==> !Healthy(e, statuses))
      ensures var c := Candidates(endpoints, statuses);
              picked.Some? ==>
                && k < |c| && picked.value == c[k]
                && (|c| > 1 ==> Chosen(strategy, Pool(c), activeConnections, old(rrIndices), service, draw, k))
                && (|c| > 1 ==> PickedBy(strategy, c, activeConnections, old(rrIndices), service, draw, k))
      ensures picked.Some? && (exists e :: e in endpoints && !(e.url in statuses && statuses[e.url] == "Unhealthy")) ==>
                !(picked.value.url in statuses && statuses[picked.value.url] == "Unhealthy")
      ensures rrIndices == if strategy == RoundRobin && |Candidates(endpoints, statuses)| > 1
                           then old(rrIndices)[service := NextIndex(old(rrIndices), service) + 1]
                           else old(rrIndices)
    {
      k := 0;
      if endpoints == [] {
        return None, k;
      }
      var healthyEndpoints := Filter(endpoints, statuses);
      if |healthyEndpoints| == 0 {
        healthyEndpoints := endpoints;
      }
      var pool := Pool(healthyEndpoints);
      if |pool| > 1 {
        k := Choose(strategy, service, pool, draw);
        ChosenIsPicked(strategy, healthyEndpoints, activeConnections, old(rrIndices), service, draw, k);
      }
      CandidatesHealth(endpoints, statuses, k);
      picked := Some(healthyEndpoints[k]);
    }

    /** The `switch` over the strategy. */
    method Choose(strategy: Strategy, service: string, pool: seq<Target>, draw: real) returns (k: nat)
      requires |pool| > 0 && 0.0 <= draw < 1.0
      modifies this`rrIndices
      ensures k < |pool| && Chosen(strategy, pool, activeConnections, old(rrIndices), service, draw, k)
      ensures rrIndices == if strategy == RoundRobin
                           then old(rrIndices)[service := NextIndex(old(rrIndices), service) + 1]
                           else old(rrIndices)
    {
      match strategy
      case LeastConnections => k := SelectLeastConnections(pool);
      case Weighted => k := SelectWeighted(pool, draw);
      case RoundRobin => k := SelectRoundRobin(service, pool);
    }
  }

  /** A candidate is unhealthy only when every endpoint is. */
  lemma CandidatesHealth(endpoints: seq<Endpoint>, statuses: map<string, string>, k: nat)
    requires k < |Candidates(endpoints, statuses)|
    ensures var e := Candidates(endpoints, statuses)[k];
            e in endpoints && (!Healthy(e, statuses) <==> forall x :: x in endpoints ==> !Healthy(x, statuses))
  {
  }

  /** Position `k` is what the strategy picks from a pool of at least two targets. */
  ghost predicate Chosen(strategy: Strategy, pool: seq<Target>, gauge: map<string, nat>, indices: map<string, nat>,
                         service: string, draw: real, k: nat)
    requires |pool| > 0
  {
    match strategy
    case RoundRobin => k == NextIndex(indices, service) % |pool|
    case LeastConnections => IsLeastLoaded(pool, gauge, k)
    case Weighted => k < |pool| && InShare(pool, k, Drawn(draw, TotalWeight(pool, |pool|)))
  }

  /** The weights of the first `n` endpoints, where a missing one counts as 1. */
  function WeightOf(es: seq<Endpoint>, n: nat): nat
    requires n <= |es|
  {
    if n == 0 then 0 else WeightOf(es, n - 1) + if es[n - 1].weight == 0 then 1 else es[n - 1].weight
  }

  /** The pick, in terms of the endpoints. */
  ghost predicate PickedBy(strategy: Strategy, es: seq<Endpoint>, gauge: map<string, nat>, indices: map<string, nat>,
                           service: string, draw: real, k: nat)
    requires |es| > 0
  {
    && k < |es|
    && match strategy
       case RoundRobin => k == (if service in indices then indices[service] else 0) % |es|
       case LeastConnections =>
         && (forall i :: 0 <= i < |es| ==> Connections(gauge, es[k].url) <= Connections(gauge, es[i].url))
         && (forall i :: 0 <= i < k ==> Connections(gauge, es[k].url) < Connections(gauge, es[i].url))
       case Weighted => InWeights(es, k, Drawn(draw, WeightOf(es, |es|)))
  }

  /** The draw falls to endpoint `k`, beyond the weights of those before it and within its own. */
  predicate InWeights(es: seq<Endpoint>, k: nat, r: real)
    requires k < |es|
  {
    (k == 0 || (WeightOf(es, k) as real) < r) && r <= WeightOf(es, k + 1) as real
  }

  lemma {:induction false} PoolWeight(es: seq<Endpoint>, n: nat)
    requires n <= |es|
    ensures TotalWeight(Pool(es), n) == WeightOf(es, n)
  {
    if n == 0 {
    } else {
      PoolWeight(es, n - 1);
    }
  }

  lemma WeightedIsPicked(es: seq<Endpoint>, r: real, k: nat)
    requires k < |es| && InShare(Pool(es), k, r)
    ensures InWeights(es, k, r)
  {
    PoolWeight(es, k);
    PoolWeight(es, k + 1);
  }

  lemma LeastIsPicked(es: seq<Endpoint>, gauge: map<string, nat>, k: nat)
    requires IsLeastLoaded(Pool(es), gauge, k)
    ensures k < |es|
    ensures forall i :: 0 <= i < |es| ==> Connections(gauge, es[k].url) <= Connections(gauge, es[i].url)
    ensures forall i :: 0 <= i < k ==> Connections(gauge, es[k].url) < Connections(gauge, es[i].url)
  {
    var pool := Pool(es);
    assert forall i :: 0 <= i < |es| ==> pool[i].url == es[i].url;
  }

  lemma ChosenIsPicked(strategy: Strategy, es: seq<Endpoint>, gauge: map<string, nat>, indices: map<string, nat>,
                       service: string, draw: real, k: nat)
    requires |es| > 0 && Chosen(strategy, Pool(es), gauge, indices, service, draw, k)
    ensures PickedBy(strategy, es, gauge, indices, service, draw, k)
  {
    match strategy
    case RoundRobin =>
    case LeastConnections => LeastIsPicked(es, gauge, k);
    case Weighted => WeightedDraw(es, draw, k);
  }

  lemma WeightedDraw(es: seq<Endpoint>, draw: real, k: nat)
    requires k < |es| && InShare(Pool(es), k, Drawn(draw, TotalWeight(Pool(es), |Pool(es)|)))
    ensures InWeights(es, k, Drawn(draw, WeightOf(es, |es|)))
  {
    PoolWeight(es, |es|);
    var total := TotalWeight(Pool(es), |es|);
    assert total == WeightOf(es, |es|);
    WeightedIsPicked(es, Drawn(draw, total), k);
  }

  /** The filter drops the unhealthy endpoints and keeps the order of the others. */
  lemma FilterKeepsOrder(e: Endpoint, rest: seq<Endpoint>, statuses: map<string, string>)
    ensures Filter([e] + rest, statuses)
         == (if e.url in statuses && statuses[e.url] == "Unhealthy" then [] else [e]) + Filter(rest, statuses)
  {
    assert ([e] + rest)[1..] == rest;
  }

  /** A draw lies beyond the weights `a` exactly when it is greater than their share of the total. */
  lemma DrawnShare(draw: real, total: nat, a: real)
    requires total > 0
    ensures a < Drawn(draw, total) <==> a / total as real < draw
  {
    var t := total as real;
    var q := a / t;
    assert q * t == a;
    assert draw * t - a == (draw - q) * t;
    if draw > q {
      ProductPositive(draw - q, t);
    } else {
      ProductNonNegative(q - draw, t);
      assert (draw - q) * t == -((q - draw) * t);
    }
  }

  lemma ProductPositive(x: real, y: real)
    requires x > 0.0 && y > 0.0
    ensures x * y > 0.0
  {
  }

  lemma DrawBelowTotal(draw: real, total: real, start: real)
    requires 0.0 <= draw < 1.0 && total >= 0.0 && start == draw * total
    ensures 0.0 <= start <= total
  {
    ProductNonNegative(draw, total);
    ProductNonNegative(1.0 - draw, total);
    assert total - draw * total == (1.0 - draw) * total;
  }

  lemma ProductNonNegative(x: real, y: real)
    requires x >= 0.0 && y >= 0.0
    ensures x * y >= 0.0
  {
  }

  // ---------------------------------------------------------------- round-robin fairness

  function NextIndex(indices: map<string, nat>, service: string): nat {
    if service in indices then indices[service] else 0
  }

  datatype Call = Call(service: string, size: nat)

  /** The positions picked for one service in a run of round-robin picks for any services. */
  function Picks(indices: map<string, nat>, calls: seq<Call>, service: string): seq<nat>
    requires forall c :: c in calls ==> c.size >= 2
    decreases |calls|
  {
    if calls == [] then []
    else
      var c := calls[0];
      assert c in calls;
      var i := NextIndex(indices, c.service);
      (if c.service == service then [i % c.size] else []) + Picks(indices[c.service := i + 1], calls[1..], service)
  }

  /** Consecutive positions from index `a` on, around a pool of size `n`. */
  predicate Rotates(xs: seq<nat>, a: nat, n: nat)
    requires n > 0
  {
    forall i :: 0 <= i < |xs| ==> xs[i] == (a + i) % n
  }

  /** Picks for other services never disturb the rotation of this one. */
  lemma {:induction false} PicksRotate(indices: map<string, nat>, calls: seq<Call>, service: string, n: nat)
    requires n >= 2
    requires forall c :: c in calls ==> c.size >= 2
    requires forall c :: c in calls && c.service == service ==> c.size == n
    ensures Rotates(Picks(indices, calls, service), NextIndex(indices, service), n)
    decreases |calls|
  {
    if calls == [] {
    } else {
      var c := calls[0];
      assert c in calls;
      var next := indices[c.service := NextIndex(indices, c.service) + 1];
      var a, rest := NextIndex(indices, service), Picks(next, calls[1..], service);
      PicksRotate(next, calls[1..], service, n);
      PicksHead(indices, calls, service);
      if c.service == service {
        assert Picks(indices, calls, service) == [a % n] + rest;
        assert NextIndex(next, service) == a + 1;
        RotateOn(a, rest, n);
      } else {
        assert Picks(indices, calls, service) == rest;
        assert NextIndex(next, service) == a;
      }
    }
  }

  lemma PicksHead(indices: map<string, nat>, calls: seq<Call>, service: string)
    requires calls != [] && calls[0].size >= 2 && forall c :: c in calls ==> c.size >= 2
    ensures var c := calls[0];
            var rest := Picks(indices[c.service := NextIndex(indices, c.service) + 1], calls[1..], service);
            Picks(indices, calls, service)
              == if c.service == service then [NextIndex(indices, c.service) % c.size] + rest else rest
  {
  }

  lemma RotateOn(a: nat, rest: seq<nat>, n: nat)
    requires n >= 2 && Rotates(rest, a + 1, n)
    ensures Rotates([a % n] + rest, a, n)
  {
    var p := [a % n] + rest;
    forall i | 0 <= i < |p| ensures p[i] == (a + i) % n {
      assert i > 0 ==> p[i] == rest[i - 1] == (a + 1 + (i - 1)) % n;
    }
  }

  function Occurrences(xs: seq<nat>, p: nat): nat
    decreases |xs|
  {
    if xs == [] then 0 else (if xs[0] == p then 1 else 0) + Occurrences(xs[1..], p)
  }

  /** How often position `p` comes up among `m` consecutive indices from `a` on. */
  function Turns(a: nat, m: nat, n: nat, p: nat): nat
    requires n > 0
    decreases m
  {
    if m == 0 then 0 else (if a % n == p then 1 else 0) + Turns(a + 1, m - 1, n, p)
  }

  lemma {:induction false} TurnsSplit(a: nat, m: nat, k: nat, n: nat, p: nat)
    requires n > 0
    ensures Turns(a, m + k, n, p) == Turns(a, m, n, p) + Turns(a + m, k, n, p)
    decreases m
  {
    if m == 0 {
    } else {
      TurnsSplit(a + 1, m - 1, k, n, p);
    }
  }

  lemma {:induction false} TurnsBelowSize(a: nat, m: nat, n: nat, p: nat)
    requires a + m <= n && p < n
    ensures n > 0 && Turns(a, m, n, p) == if a <= p < a + m then 1 else 0
    decreases m
  {
    if m == 0 {
    } else {
      TurnsBelowSize(a + 1, m - 1, n, p);
      assert a % n == a;
    }
  }

  /** One full round visits every position exactly once, wherever it starts. */
  lemma {:induction false} FullRound(a: nat, n: nat, p: nat)
    requires p < n
    ensures Turns(a, n, n, p) == 1
    decreases a
  {
    if a == 0 {
      TurnsBelowSize(0, n, n, p);
    } else {
      FullRound(a - 1, n, p);
      TurnsSplit(a - 1, 1, n - 1, n, p);
      TurnsSplit(a, n - 1, 1, n, p);
      WrapsAround(a - 1, n);
      assert Turns(a - 1, 1, n, p) == (if (a - 1) % n == p then 1 else 0) + Turns(a, 0, n, p);
      assert Turns(a + (n - 1), 1, n, p) == (if (a - 1 + n) % n == p then 1 else 0) + Turns(a + n, 0, n, p);
    }
  }

  lemma WrapsAround(x: nat, n: nat)
    requires n > 0
    ensures (x + n) % n == x % n
  {
    var q, r := x / n, x % n;
    assert x + n == (q + 1) * n + r;
    RemainderOf(q + 1, r, n);
  }

  lemma RemainderOf(q: nat, r: nat, n: nat)
    requires r < n
    ensures (q * n + r) % n == r
  {
    var x := q * n + r;
    var d := x / n - q;
    assert d * n == r - x % n;
  }

  lemma {:induction false} TurnsDiffer(a: nat, m: nat, n: nat, p: nat, q: nat)
    requires p < n && q < n
    ensures Turns(a, m, n, p) <= Turns(a, m, n, q) + 1
    decreases m
  {
    if m >= n {
      TurnsSplit(a, n, m - n, n, p);
      TurnsSplit(a, n, m - n, n, q);
      FullRound(a, n, p);
      FullRound(a, n, q);
      TurnsDiffer(a + n, m - n, n, p, q);
    } else {
      TurnsSplit(a, m, n - m, n, p);
      FullRound(a, n, p);
    }
  }

  lemma {:induction false} OccurrencesAreTurns(xs: seq<nat>, a: nat, n: nat, p: nat)
    requires n > 0 && forall i :: 0 <= i < |xs| ==> xs[i] == (a + i) % n
    ensures Occurrences(xs, p) == Turns(a, |xs|, n, p)
    decreases |xs|
  {
    if xs == [] {
    } else {
      forall i | 0 <= i < |xs[1..]| ensures xs[1..][i] == (a + 1 + i) % n {
        assert xs[1..][i] == xs[i + 1];
      }
      OccurrencesAreTurns(xs[1..], a + 1, n, p);
    }
  }

  /**
   Fairness. In every window of consecutive round-robin picks for a service with a pool of fixed
   size, interleaved with any picks for other services, no position is picked more than once more
   often than another.
   */
  lemma RoundRobinIsFair(indices: map<string, nat>, calls: seq<Call>, service: string, n: nat,
                         from: nat, to: nat, p: nat, q: nat)
    requires n >= 2 && p < n && q < n
    requires forall c :: c in calls ==> c.size >= 2
    requires forall c :: c in calls && c.service == service ==> c.size == n
    requires from <= to <= |Picks(indices, calls, service)|
    ensures var window := Picks(indices, calls, service)[from..to];
            Occurrences(window, p) <= Occurrences(window, q) + 1
  {
    PicksRotate(indices, calls, service, n);
    var window := Picks(indices, calls, service)[from..to];
    var a := NextIndex(indices, service) + from;
    forall i | 0 <= i < |window| ensures window[i] == (a + i) % n {
      assert window[i] == Picks(indices, calls, service)[from + i];
    }
    OccurrencesAreTurns(window, a, n, p);
    OccurrencesAreTurns(window, a, n, q);
    TurnsDiffer(a, to - from, n, p, q);
  }
}
