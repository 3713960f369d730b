/**
 The circuit breaker of the service mesh and the telemetry it feeds. `Breaker` is the state of one
 breaker, `Telemetry` the counters kept for its service; both change together on every event.
 */
module CircuitBreakers {
  import opened Wrappers

  datatype State = Closed | Open | HalfOpen

  /** Thresholds and timeout of a breaker; 0 stands for a missing value in a policy. */
  datatype Config = Config(failureThreshold: int, recoveryTimeoutMs: int, halfOpenMaxRequests: int)

  const DEFAULTS := Config(5, 10000, 2)

  function OrElse(x: int, default: int): int {
    if x == 0 then default else x
  }

  function Override(c: Config, base: Config): Config {
    Config(OrElse(c.failureThreshold, base.failureThreshold),
           OrElse(c.recoveryTimeoutMs, base.recoveryTimeoutMs),
           OrElse(c.halfOpenMaxRequests, base.halfOpenMaxRequests))
  }

  /** What the policy validator accepts. */
  predicate Acceptable(c: Config) {
    c.failureThreshold >= 0 && c.recoveryTimeoutMs >= 0 && c.halfOpenMaxRequests >= 0
  }

  predicate Positive(c: Config) {
    c.failureThreshold >= 1 && c.recoveryTimeoutMs >= 1 && c.halfOpenMaxRequests >= 1
  }

  datatype Breaker = Breaker(state: State, failureCount: nat, successCount: nat, lastTransition: int, config: Config)

  datatype Telemetry = Telemetry(
    code: Option<nat>,
    transitions: nat,
    trips: nat,
    halfOpenAttempts: nat,
    recoveryAttempts: nat,
    openTimestamp: int,
    recoveryTimes: seq<int>,
    failures: nat,
    successes: nat)

  const NO_TELEMETRY := Telemetry(None, 0, 0, 0, 0, 0, [], 0, 0)

  function Code(s: State): nat {
    match s
    case Closed => 0
    case HalfOpen => 1
    case Open => 2
  }

  /** `recordCircuitBreakerState`. A missing or zero open timestamp yields no recovery time. */
  function RecordState(t: Telemetry, s: State, now: int): Telemetry {
    var u := t.(code := Some(Code(s)), transitions := t.transitions + 1);
    if s == Open then u.(openTimestamp := now)
    else
      var v := if t.code == Some(2) && t.openTimestamp != 0
               then u.(recoveryTimes := u.recoveryTimes + [now - t.openTimestamp]) else u;
      if s == HalfOpen
      then v.(halfOpenAttempts := v.halfOpenAttempts + 1, recoveryAttempts := v.recoveryAttempts + 1)
      else v
  }

  datatype Pair = Pair(b: Breaker, t: Telemetry)

  function New(policy: Config, t: Telemetry, now: int): Pair {
    Pair(Breaker(Closed, 0, 0, now, Override(policy, DEFAULTS)), RecordState(t, Closed, now))
  }

  function TransitionTo(p: Pair, s: State, now: int): Pair {
    var t := RecordState(p.t, s, now);
    Pair(p.b.(state := s, lastTransition := now, successCount := 0,
              failureCount := if s == Closed then 0 else p.b.failureCount),
         if s == Open then t.(trips := t.trips + 1) else t)
  }

  datatype Event = Allow(now: int) | Success(now: int) | Failure(now: int) | Update(policy: Config)

  function CheckRecovery(p: Pair, now: int): Pair {
    if p.b.state == Open && now - p.b.lastTransition > p.b.config.recoveryTimeoutMs
    then TransitionTo(p, HalfOpen, now) else p
  }

  /** The answer of `allowRequest` once recovery has been checked. */
  predicate Admits(b: Breaker) {
    b.state == Closed || (b.state == HalfOpen && b.successCount < b.config.halfOpenMaxRequests)
  }

  function OnSuccess(p: Pair, now: int): Pair {
    var q := p.(t := p.t.(successes := p.t.successes + 1));
    match p.b.state
    case HalfOpen =>
      var r := q.(b := q.b.(successCount := q.b.successCount + 1));
      if r.b.successCount >= r.b.config.halfOpenMaxRequests then TransitionTo(r, Closed, now) else r
    case Closed => q.(b := q.b.(failureCount := 0))
    case Open => q
  }

  function OnFailure(p: Pair, now: int): Pair {
    var q := Pair(p.b.(failureCount := p.b.failureCount + 1), p.t.(failures := p.t.failures + 1));
    match p.b.state
    case Closed => if q.b.failureCount >= q.b.config.failureThreshold then TransitionTo(q, Open, now) else q
    case HalfOpen => TransitionTo(q, Open, now)
    case Open => q
  }

  function Step(p: Pair, e: Event): Pair {
    match e
    case Allow(now) => CheckRecovery(p, now)
    case Success(now) => OnSuccess(p, now)
    case Failure(now) => OnFailure(p, now)
    case Update(policy) => p.(b := p.b.(config := Override(policy, p.b.config)))
  }

  function Run(p: Pair, events: seq<Event>): Pair
    decreases |events|
  {
    if events == [] then p else Run(Step(p, events[0]), events[1..])
  }

  // ---------------------------------------------------------------- the objects

  class TelemetryRegistry {
    var circuits: map<string, Telemetry>

    constructor ()
      ensures circuits == map[]
    {
      circuits := map[];
    }

    function Of(service: string): Telemetry
      reads this
    {
      if service in circuits then circuits[service] else NO_TELEMETRY
    }

    method RecordCircuitBreakerState(service: string, s: State, now: int)
      modifies this
      ensures circuits == old(circuits)[service := RecordState(old(Of(service)), s, now)]
    {
      var t := Of(service);
      var previous := t.code;
      t := t.(code := Some(Code(s)), transitions := t.transitions + 1);
      if s == Open {
        t := t.(openTimestamp := now);
      } else if previous == Some(2) && t.openTimestamp != 0 {
        t := t.(recoveryTimes := t.recoveryTimes + [now - t.openTimestamp]);
      }
      if s == HalfOpen {
        t := t.(halfOpenAttempts := t.halfOpenAttempts + 1, recoveryAttempts := t.recoveryAttempts + 1);
      }
      circuits := circuits[service := t];
    }

    method RecordCircuitBreakerTrip(service: string)
      modifies this
      ensures circuits == old(circuits)[service := old(Of(service)).(trips := old(Of(service)).trips + 1)]
    {
      var t := Of(service);
      circuits := circuits[service := t.(trips := t.trips + 1)];
    }

    method RecordCircuitBreakerOutcome(service: string, success: bool)
      modifies this
      ensures var t := old(Of(service));
              circuits == old(circuits)[service := if success then t.(successes := t.successes + 1)
                                                   else t.(failures := t.failures + 1)]
    {
      var t := Of(service);
      if success {
        t := t.(successes := t.successes + 1);
      } else {
        t := t.(failures := t.failures + 1);
      }
      circuits := circuits[service := t];
    }
  }

  class CircuitBreaker {
    const serviceId: string
    const metrics: TelemetryRegistry
    var state: State
    var failureCount: nat
    var successCount: nat
    var lastStateTransition: int
    var config: Config

    /** The breaker together with the telemetry of its service. */
    ghost function View(): Pair
      reads this, metrics
    {
      Pair(Breaker(state, failureCount, successCount, lastStateTransition, config), metrics.Of(serviceId))
    }

    /** Telemetry of other services. */
    ghost function Others(): map<string, Telemetry>
      reads this, metrics
    {
      metrics.circuits - {serviceId}
    }

    constructor (serviceId: string, metrics: TelemetryRegistry, policy: Config, now: int)
      modifies metrics
      ensures this.serviceId == serviceId && this.metrics == metrics
      ensures View() == New(policy, old(metrics.Of(serviceId)), now)
      ensures Others() == old(metrics.circuits) - {serviceId}
    {
      this.serviceId := serviceId;
      this.metrics := metrics;
      config := Override(policy, DEFAULTS);
      state := Closed;
      failureCount, successCount := 0, 0;
      lastStateTransition := now;
      new;
      metrics.RecordCircuitBreakerState(serviceId, Closed, now);
    }

    method UpdateConfig(policy: Config)
      modifies this`config
      ensures View() == Step(old(View()), Update(policy))
      ensures config.failureThreshold
           == if policy.failureThreshold != 0 then policy.failureThreshold else old(config).failureThreshold
      ensures config.recoveryTimeoutMs
           == if policy.recoveryTimeoutMs != 0 then policy.recoveryTimeoutMs else old(config).recoveryTimeoutMs
      ensures config.halfOpenMaxRequests
           == if policy.halfOpenMaxRequests != 0 then policy.halfOpenMaxRequests else old(config).halfOpenMaxRequests
    {
      config := Override(policy, config);
    }

    method TransitionState(next: State, now: int)
      modifies this, metrics
      ensures View() == TransitionTo(old(View()), next, now) && Others() == old(Others())
    {
      state := next;
      lastStateTransition := now;
      metrics.RecordCircuitBreakerState(serviceId, next, now);
      if next == Open {
        metrics.RecordCircuitBreakerTrip(serviceId);
      }
      successCount := 0;
      if next == Closed {
        failureCount := 0;
      }
    }

    method AllowRequest(now: int) returns (allowed: bool)
      modifies this, metrics
      ensures View() == Step(old(View()), Allow(now)) && Others() == old(Others())
      ensures allowed == Admits(View().b)
    {
      if state == Open && now - lastStateTransition > config.recoveryTimeoutMs {
        TransitionState(HalfOpen, now);
      }
      if state == Open {
        return false;
      }
      if state == HalfOpen {
        return successCount < config.halfOpenMaxRequests;
      }
      allowed := true;
    }

    method RecordSuccess(now: int)
      modifies this, metrics
      ensures View() == Step(old(View()), Success(now)) && Others() == old(Others())
    {
      metrics.RecordCircuitBreakerOutcome(serviceId, true);
      if state == HalfOpen {
        successCount := successCount + 1;
        if successCount >= config.halfOpenMaxRequests {
          TransitionState(Closed, now);
        }
      } else if state == Closed {
        failureCount := 0;
      }
    }

    method RecordFailure(now: int)
      modifies this, metrics
      ensures View() == Step(old(View()), Failure(now)) && Others() == old(Others())
    {
      metrics.RecordCircuitBreakerOutcome(serviceId, false);
      failureCount := failureCount + 1;
      if state == Closed {
        if failureCount >= config.failureThreshold {
          TransitionState(Open, now);
        }
      } else if state == HalfOpen {
        TransitionState(Open, now);
      }
    }
  }

  // ---------------------------------------------------------------- the trace specification

  /**
   The breaker as its documentation describes it: the outcomes recorded since the phase began,
   and nothing else. `true` is a success.
   */
  datatype Phase =
    | Counting(outcomes: seq<bool>)
    | Refusing(since: int)
    | Probing(outcomes: seq<bool>)

  /** The last `n` outcomes are all failures. */
  predicate LastAllFailed(outcomes: seq<bool>, n: nat) {
    n <= |outcomes| && forall i :: |outcomes| - n <= i < |outcomes| ==> !outcomes[i]
  }

  function PhaseStep(c: Config, p: Phase, e: Event): Phase
    requires Positive(c) && !e.Update?
  {
    match p
    case Counting(o) =>
      (match e
       case Failure(now) =>
         if LastAllFailed(o + [false], c.failureThreshold) then Refusing(now) else Counting(o + [false])
       case Success(_) => Counting(o + [true])
       case _ => p)
    case Refusing(since) =>
      if e.Allow? && e.now - since > c.recoveryTimeoutMs then Probing([]) else p
    case Probing(o) =>
      (match e
       case Failure(now) => Refusing(now)
       case Success(_) => if |o + [true]| == c.halfOpenMaxRequests then Counting([]) else Probing(o + [true])
       case _ => p)
  }

  function PhaseRun(c: Config, p: Phase, events: seq<Event>): Phase
    requires Positive(c) && forall e :: e in events ==> !e.Update?
    decreases |events|
  {
    if events == [] then p
    else
      assert events[0] in events;
      PhaseRun(c, PhaseStep(c, p, events[0]), events[1..])
  }

  function TrailingFailures(outcomes: seq<bool>): (n: nat)
    ensures n <= |outcomes|
    decreases |outcomes|
  {
    var last := |outcomes| - 1;
    if outcomes == [] || outcomes[last] then 0 else TrailingFailures(outcomes[..last]) + 1
  }

  lemma {:induction false} TrailingFailuresIff(outcomes: seq<bool>, k: nat)
    ensures LastAllFailed(outcomes, k) <==> k <= TrailingFailures(outcomes)
    decreases |outcomes|
  {
    var last := |outcomes| - 1;
    if k > 0 && outcomes != [] && !outcomes[last] {
      TrailingFailuresIff(outcomes[..last], k - 1);
      assert LastAllFailed(outcomes, k) ==> LastAllFailed(outcomes[..last], k - 1);
      if LastAllFailed(outcomes[..last], k - 1) {
        assert forall i :: |outcomes| - k <= i < last ==> outcomes[i] == outcomes[..last][i];
      }
    }
  }

  /** The counters hold exactly what the outcomes of the current phase imply. */
  predicate Matches(b: Breaker, p: Phase) {
    match p
    case Counting(o) => b.state == Closed && b.failureCount == TrailingFailures(o) < b.config.failureThreshold
    case Refusing(since) => b.state == Open && b.lastTransition == since
    case Probing(o) =>
      && b.state == HalfOpen && b.successCount == |o| < b.config.halfOpenMaxRequests
      && forall i :: 0 <= i < |o| ==> o[i]
  }

  lemma StepMatches(q: Pair, p: Phase, e: Event)
    requires Positive(q.b.config) && !e.Update? && Matches(q.b, p)
    ensures Matches(Step(q, e).b, PhaseStep(q.b.config, p, e)) && Step(q, e).b.config == q.b.config
  {
    if p.Counting? && (e.Success? || e.Failure?) {
      var o := p.outcomes + [e.Success?];
      assert o[..|o| - 1] == p.outcomes;
      TrailingFailuresIff(o, q.b.config.failureThreshold);
    }
  }

  lemma {:induction false} RunMatches(q: Pair, p: Phase, events: seq<Event>)
    requires Positive(q.b.config) && (forall e :: e in events ==> !e.Update?) && Matches(q.b, p)
    ensures Matches(Run(q, events).b, PhaseRun(q.b.config, p, events)) && Run(q, events).b.config == q.b.config
    decreases |events|
  {
    if events == [] {
    } else {
      assert events[0] in events;
      StepMatches(q, p, events[0]);
      RunMatches(Step(q, events[0]), PhaseStep(q.b.config, p, events[0]), events[1..]);
    }
  }

  /**
   Refinement. With a fixed configuration, after any events the breaker is in the phase the trace
   specification says, and its next answer is a refusal exactly when the circuit is open and the
   timeout has not elapsed; so once the timeout has elapsed no reachable state refuses.
   */
  lemma BreakerRefinesTrace(policy: Config, t: Telemetry, start: int, events: seq<Event>, now: int)
    requires Acceptable(policy) && forall e :: e in events ==> !e.Update?
    ensures var c := Config(if policy.failureThreshold == 0 then 5 else policy.failureThreshold,
                            if policy.recoveryTimeoutMs == 0 then 10000 else policy.recoveryTimeoutMs,
                            if policy.halfOpenMaxRequests == 0 then 2 else policy.halfOpenMaxRequests);
            var q := Run(New(policy, t, start), events);
            var p := PhaseRun(c, Counting([]), events);
            && Matches(q.b, p)
            && (Admits(Step(q, Allow(now)).b) <==> !(p.Refusing? && now - p.since <= c.recoveryTimeoutMs))
  {
    var q := New(policy, t, start);
    RunMatches(q, Counting([]), events);
    var r := Run(q, events);
    StepMatches(r, PhaseRun(q.b.config, Counting([]), events), Allow(now));
  }

  // ---------------------------------------------------------------- changing the configuration

  /** Holds in every reachable state, whatever policies were pushed. */
  predicate Sound(b: Breaker) {
    Positive(b.config) && (b.state != HalfOpen ==> b.successCount == 0)
  }

  lemma {:induction false} RunKeepsSound(p: Pair, events: seq<Event>)
    requires Sound(p.b) && forall e :: e in events && e.Update? ==> Acceptable(e.policy)
    ensures Sound(Run(p, events).b)
    decreases |events|
  {
    if events == [] {
    } else {
      assert events[0] in events;
      RunKeepsSound(Step(p, events[0]), events[1..]);
    }
  }

  /** Half-open with at least as many recorded successes as a later policy allows probes. */
  predicate Wedged(b: Breaker) {
    b.state == HalfOpen && b.successCount >= b.config.halfOpenMaxRequests
  }

  lemma {:induction false} WedgedUntilOutcome(p: Pair, events: seq<Event>)
    requires Wedged(p.b) && forall e :: e in events ==> e.Allow?
    ensures Run(p, events) == p && !Admits(p.b)
    decreases |events|
  {
    if events == [] {
    } else {
      assert events[0] in events;
      WedgedUntilOutcome(p, events[1..]);
    }
  }

  /**
   In any state reached with any policy updates, asking again eventually succeeds if and only if the
   breaker is not wedged: lowering `half_open_max_requests` while probing can make it refuse every
   further request until an outcome still in flight is recorded.
   */
  lemma EventuallyAdmitsIffNotWedged(policy: Config, t: Telemetry, start: int, events: seq<Event>)
    requires Acceptable(policy) && forall e :: e in events && e.Update? ==> Acceptable(e.policy)
    ensures var q := Run(New(policy, t, start), events);
            (exists now :: Admits(Step(q, Allow(now)).b)) <==> !Wedged(q.b)
  {
    var p := New(policy, t, start);
    RunKeepsSound(p, events);
    var q := Run(p, events);
    var later := q.b.lastTransition + q.b.config.recoveryTimeoutMs + 1;
    if Wedged(q.b) {
      forall now ensures !Admits(Step(q, Allow(now)).b) {
        WedgedUntilOutcome(q, [Allow(now)]);
      }
    } else {
      assert Admits(Step(q, Allow(later)).b);
    }
  }

  /** An update, while probing, to a limit no higher than the successes recorded so far. */
  predicate LowersTooFar(b: Breaker, e: Event) {
    e.Update? && b.state == HalfOpen && b.successCount >= Override(e.policy, b.config).halfOpenMaxRequests
  }

  /** A step wedges the breaker exactly when it is such an update, or keeps it wedged while only asking. */
  lemma StepWedgesIff(p: Pair, e: Event)
    requires Sound(p.b)
    ensures Wedged(Step(p, e).b) <==> LowersTooFar(p.b, e) || (e.Allow? && Wedged(p.b))
  {
  }

  predicate EverWedged(p: Pair, events: seq<Event>)
    decreases |events|
  {
    Wedged(p.b) || (events != [] && EverWedged(Step(p, events[0]), events[1..]))
  }

  predicate EverLowersTooFar(p: Pair, events: seq<Event>)
    decreases |events|
  {
    events != [] && (LowersTooFar(p.b, events[0]) || EverLowersTooFar(Step(p, events[0]), events[1..]))
  }

  /**
   Over every run from an unwedged breaker: it is wedged at some moment exactly when some update
   lowers the limit to the successes already recorded. Any outcome recorded later frees it.
   */
  lemma {:induction false} EverWedgedIff(p: Pair, events: seq<Event>)
    requires Sound(p.b) && !Wedged(p.b) && forall e :: e in events && e.Update? ==> Acceptable(e.policy)
    ensures EverWedged(p, events) <==> EverLowersTooFar(p, events)
    decreases |events|
  {
    if events == [] {
    } else {
      assert events[0] in events;
      StepWedgesIff(p, events[0]);
      RunKeepsSound(p, [events[0]]);
      assert Run(p, [events[0]]) == Step(p, events[0]);
      if !LowersTooFar(p.b, events[0]) {
        EverWedgedIff(Step(p, events[0]), events[1..]);
      }
    }
  }

  lemma OutcomeUnwedges(p: Pair, e: Event)
    requires Wedged(p.b) && (e.Success? || e.Failure?)
    ensures !Wedged(Step(p, e).b) && Step(p, e).b.state == if e.Success? then Closed else Open
  {
  }

  lemma RunCons(p: Pair, e: Event, rest: seq<Event>)
    ensures Run(p, [e] + rest) == Run(Step(p, e), rest)
  {
    assert ([e] + rest)[1..] == rest;
  }

  /** A concrete wedge: one probe succeeded out of two, then the policy allows only one. */
  lemma UpdateCanWedge()
    ensures var events := [Failure(1)] + ([Allow(20)] + ([Success(21)] + ([Update(Config(0, 0, 1))] + [])));
            Wedged(Run(New(Config(1, 10, 2), NO_TELEMETRY, 1), events).b)
  {
    var last := [Update(Config(0, 0, 1))] + [];
    var p0 := New(Config(1, 10, 2), NO_TELEMETRY, 1);
    RunCons(p0, Failure(1), [Allow(20)] + ([Success(21)] + last));
    var p1 := Step(p0, Failure(1));
    RunCons(p1, Allow(20), [Success(21)] + last);
    var p2 := Step(p1, Allow(20));
    RunCons(p2, Success(21), last);
    var p3 := Step(p2, Success(21));
    RunCons(p3, Update(Config(0, 0, 1)), []);
  }

  // ---------------------------------------------------------------- telemetry

  /** What an observer of the state alone would count: closings, and for each recovery the wait and the timeout. */
  datatype Tally = Tally(closes: nat, waits: seq<int>, timeouts: seq<int>, successes: nat, failures: nat)

  function TallyStep(y: Tally, before: Breaker, e: Event, after: Breaker): Tally {
    Tally(
      y.closes + (if before.state == HalfOpen && after.state == Closed then 1 else 0),
      if before.state == Open && after.state == HalfOpen
      then y.waits + [after.lastTransition - before.lastTransition] else y.waits,
      if before.state == Open && after.state == HalfOpen
      then y.timeouts + [before.config.recoveryTimeoutMs] else y.timeouts,
      y.successes + (if e.Success? then 1 else 0),
      y.failures + (if e.Failure? then 1 else 0))
  }

  function TallyRun(y: Tally, p: Pair, events: seq<Event>): Tally
    decreases |events|
  {
    if events == [] then y
    else TallyRun(TallyStep(y, p.b, events[0], Step(p, events[0]).b), Step(p, events[0]), events[1..])
  }

  predicate Conserved(p: Pair, y: Tally) {
    var b, t := p.b, p.t;
    && t.trips - t.halfOpenAttempts == (if b.state == Open then 1 else 0)
    && t.transitions == 1 + t.trips + t.halfOpenAttempts + y.closes
    && t.recoveryAttempts == t.halfOpenAttempts == |t.recoveryTimes| == |y.timeouts|
    && t.recoveryTimes == y.waits
    && (forall i :: 0 <= i < |y.timeouts| ==> t.recoveryTimes[i] > y.timeouts[i])
    && t.code == Some(if b.state == Closed then 0 else if b.state == HalfOpen then 1 else 2)
    && (b.state == Open ==> t.openTimestamp == b.lastTransition != 0)
    && t.successes == y.successes && t.failures == y.failures
  }

  lemma {:induction false} RunConserves(p: Pair, y: Tally, events: seq<Event>)
    requires Conserved(p, y) && forall e :: e in events && !e.Update? ==> e.now > 0
    ensures Conserved(Run(p, events), TallyRun(y, p, events))
    decreases |events|
  {
    if events == [] {
    } else {
      assert events[0] in events;
      RunConserves(Step(p, events[0]), TallyStep(y, p.b, events[0], Step(p, events[0]).b), events[1..]);
    }
  }

  /**
   Conservation over every run, with any policy updates and any positive clock: the counters of a
   service agree with each other and with the breaker, and the recovery times are the times the
   circuit was open, each longer than the timeout that was in force when it went half-open.
   */
  lemma TelemetryConserved(policy: Config, start: int, events: seq<Event>)
    requires forall e :: e in events && !e.Update? ==> e.now > 0
    ensures var p := New(policy, NO_TELEMETRY, start);
            Conserved(Run(p, events), TallyRun(Tally(0, [], [], 0, 0), p, events))
  {
    RunConserves(New(policy, NO_TELEMETRY, start), Tally(0, [], [], 0, 0), events);
  }
}
