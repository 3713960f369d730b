/**
 The connection gauge under concurrency. Requests interleave at their awaits, so one attempt is two
 atomic actions: `Begin` picks an endpoint and increments its gauge, `Finish` runs from the end of
 the await and decrements once, or twice when the attempt fails after the first decrement.
 */
module ConnectionGauge {
  import opened LoadBalancing
  import Loop = RequestLoop

  type RequestId = nat

  datatype Action = Begin(id: RequestId, endpoint: string) | Finish(id: RequestId, twice: bool)

  /** `attempts` maps each request that is awaiting a reply to the endpoint it waits for. */
  datatype System = System(gauge: map<string, nat>, attempts: map<RequestId, string>)

  const IDLE := System(map[], map[])

  predicate Enabled(s: System, a: Action) {
    match a
    case Begin(id, _) => id !in s.attempts
    case Finish(id, _) => id in s.attempts
  }

  function Next(s: System, a: Action): System
    requires Enabled(s, a)
  {
    match a
    case Begin(id, e) => System(Incremented(s.gauge, e), s.attempts[id := e])
    case Finish(id, twice) =>
      var e := s.attempts[id];
      var once := Decremented(s.gauge, e);
      System(if twice then Decremented(once, e) else once, s.attempts - {id})
  }

  predicate Legal(s: System, actions: seq<Action>)
    decreases |actions|
  {
    actions == [] || (Enabled(s, actions[0]) && Legal(Next(s, actions[0]), actions[1..]))
  }

  function Run(s: System, actions: seq<Action>): System
    requires Legal(s, actions)
    decreases |actions|
  {
    if actions == [] then s else Run(Next(s, actions[0]), actions[1..])
  }

  // ---------------------------------------------------------------- requests as scripts

  /** The gauge actions of one request, from its log. */
  function Script(id: RequestId, q: Loop.Request, turns: seq<Loop.Turn>, attempt: nat): seq<Action>
    requires attempt >= 1 && |turns| >= q.MaxAttempts()
    decreases |turns| + 1 - attempt
  {
    if attempt > q.MaxAttempts() || !q.hasEndpoints then []
    else
      var t := turns[attempt - 1];
      [Begin(id, t.endpoint), Finish(id, FailsLate(t.reply))]
      + (if Loop.Retries(q, t, attempt) then Script(id, q, turns, attempt + 1) else [])
  }

  /** A server error or a failing copy to the client is noticed after the first decrement. */
  predicate FailsLate(reply: Loop.Reply) {
    reply.Answered? && !Loop.Delivered(reply)
  }

  /** What the actions of one request do to the gauge, in the words of the request's log. */
  function Written(script: seq<Action>, current: string): seq<Loop.Effect>
    decreases |script|
  {
    if script == [] then []
    else
      match script[0]
      case Begin(_, e) => [Loop.Inc(e)] + Written(script[1..], e)
      case Finish(_, twice) =>
        (if twice then [Loop.Dec(current), Loop.Dec(current)] else [Loop.Dec(current)]) + Written(script[1..], current)
  }

  function GaugeEffects(log: seq<Loop.Effect>): seq<Loop.Effect>
    decreases |log|
  {
    if log == [] then []
    else (if log[0].Inc? || log[0].Dec? then [log[0]] else []) + GaugeEffects(log[1..])
  }

  lemma {:induction false} GaugeEffectsConcat(a: seq<Loop.Effect>, b: seq<Loop.Effect>)
    ensures GaugeEffects(a + b) == GaugeEffects(a) + GaugeEffects(b)
    decreases |a|
  {
    if a == [] {
      assert a + b == b;
    } else {
      GaugeEffectsConcat(a[1..], b);
      assert (a + b)[0] == a[0] && (a + b)[1..] == a[1..] + b;
      Loop.Assoc(if a[0].Inc? || a[0].Dec? then [a[0]] else [], GaugeEffects(a[1..]), GaugeEffects(b));
    }
  }

  lemma {:induction false} NoGaugeEffects(log: seq<Loop.Effect>)
    requires forall e :: e in log ==> !e.Inc? && !e.Dec?
    ensures GaugeEffects(log) == []
    decreases |log|
  {
    if log == [] {
    } else {
      assert log[0] in log;
      NoGaugeEffects(log[1..]);
    }
  }

  function HeadEffects(t: Loop.Turn): seq<Loop.Effect> {
    [Loop.Inc(t.endpoint)]
    + (if FailsLate(t.reply) then [Loop.Dec(t.endpoint), Loop.Dec(t.endpoint)] else [Loop.Dec(t.endpoint)])
  }

  lemma SettleStartsWithDec(t: Loop.Turn)
    ensures Loop.Settle(t) == [Loop.Dec(t.endpoint)] + Loop.Settle(t)[1..]
    ensures GaugeEffects(Loop.Head(t))
         == [Loop.Inc(t.endpoint), Loop.Dec(t.endpoint)] + GaugeEffects(Loop.Settle(t)[1..])
  {
    var inc, dec, rest := [Loop.Inc(t.endpoint)], [Loop.Dec(t.endpoint)], Loop.Settle(t)[1..];
    assert inc[1..] == [] && dec[1..] == [];
    assert Loop.Settle(t) == dec + rest;
    GaugeEffectsConcat(inc, dec + rest);
    GaugeEffectsConcat(dec, rest);
    assert GaugeEffects(inc) == inc && GaugeEffects(dec) == dec;
    assert inc + (dec + GaugeEffects(rest)) == [Loop.Inc(t.endpoint), Loop.Dec(t.endpoint)] + GaugeEffects(rest);
  }

  /** The second decrement of an attempt that fails late comes after these effects. */
  lemma SecondDecrement(before: seq<Loop.Effect>, e: string)
    requires forall x :: x in before ==> !x.Inc? && !x.Dec?
    ensures GaugeEffects(before + ([Loop.Dec(e)] + [Loop.BreakerFailure])) == [Loop.Dec(e)]
  {
    var dec := [Loop.Dec(e)];
    GaugeEffectsConcat(before, dec + [Loop.BreakerFailure]);
    GaugeEffectsConcat(dec, [Loop.BreakerFailure]);
    NoGaugeEffects(before);
    NoGaugeEffects([Loop.BreakerFailure]);
    assert dec[1..] == [];
  }

  lemma GaugeEffectsOfHead(t: Loop.Turn)
    ensures GaugeEffects(Loop.Head(t)) == HeadEffects(t)
  {
    var rest := Loop.Settle(t)[1..];
    SettleStartsWithDec(t);
    if Loop.LateThrow(t.reply) {
      var middle := [Loop.BreakerSuccess, Loop.Recorded(t.reply.code)];
      assert rest == middle + ([Loop.Dec(t.endpoint)] + [Loop.BreakerFailure]);
      SecondDecrement(middle, t.endpoint);
    } else if t.reply.Answered? && !Loop.Delivered(t.reply) {
      assert rest == [] + ([Loop.Dec(t.endpoint)] + [Loop.BreakerFailure]);
      SecondDecrement([], t.endpoint);
    } else {
      NoGaugeEffects(rest);
    }
  }

  lemma GaugeEffectsOfAttempt(q: Loop.Request, turns: seq<Loop.Turn>, attempt: nat)
    requires attempt >= 1 && |turns| >= q.MaxAttempts() && attempt <= q.MaxAttempts() && q.hasEndpoints
    ensures GaugeEffects(Loop.Attempts(q, turns, attempt))
         == HeadEffects(turns[attempt - 1])
            + if Loop.Retries(q, turns[attempt - 1], attempt)
              then GaugeEffects(Loop.Attempts(q, turns, attempt + 1)) else []
  {
    var t := turns[attempt - 1];
    GaugeEffectsOfHead(t);
    if Loop.Retries(q, t, attempt) {
      QuietBetween(Loop.Head(t), Loop.Pause(q, t, attempt), Loop.Attempts(q, turns, attempt + 1));
    } else if !Loop.Delivered(t.reply) {
      var failure := Loop.GatewayFailure(Loop.TimedOut(t.reply), Loop.HeadersSent(turns, attempt));
      QuietBetween(Loop.Head(t), failure, []);
      assert failure + [] == failure;
    }
  }

  lemma QuietBetween(a: seq<Loop.Effect>, quiet: seq<Loop.Effect>, b: seq<Loop.Effect>)
    requires forall e :: e in quiet ==> !e.Inc? && !e.Dec?
    ensures GaugeEffects(a + (quiet + b)) == GaugeEffects(a) + GaugeEffects(b)
  {
    GaugeEffectsConcat(a, quiet + b);
    GaugeEffectsConcat(quiet, b);
    NoGaugeEffects(quiet);
    assert [] + GaugeEffects(b) == GaugeEffects(b);
  }

  /** A script says exactly what the log of its request does to the gauge. */
  lemma {:induction false} ScriptMatchesLog(id: RequestId, q: Loop.Request, turns: seq<Loop.Turn>, attempt: nat,
                                            current: string)
    requires attempt >= 1 && |turns| >= q.MaxAttempts()
    ensures GaugeEffects(Loop.Attempts(q, turns, attempt)) == Written(Script(id, q, turns, attempt), current)
    decreases |turns| + 1 - attempt
  {
    if attempt > q.MaxAttempts() {
      NoGaugeEffects(Loop.GatewayFailure(false, Loop.HeadersSent(turns, attempt - 1)));
    } else if !q.hasEndpoints {
      NoGaugeEffects([Loop.BreakerFailure, Loop.Responded(502)]);
    } else {
      var t := turns[attempt - 1];
      GaugeEffectsOfAttempt(q, turns, attempt);
      WrittenPair(id, t, if Loop.Retries(q, t, attempt) then Script(id, q, turns, attempt + 1) else [], current);
      if Loop.Retries(q, t, attempt) {
        ScriptMatchesLog(id, q, turns, attempt + 1, t.endpoint);
      }
    }
  }

  lemma WrittenPair(id: RequestId, t: Loop.Turn, tail: seq<Action>, current: string)
    ensures Written([Begin(id, t.endpoint), Finish(id, FailsLate(t.reply))] + tail, current)
         == HeadEffects(t) + Written(tail, t.endpoint)
  {
    var s := [Begin(id, t.endpoint), Finish(id, FailsLate(t.reply))] + tail;
    assert s[1..] == [Finish(id, FailsLate(t.reply))] + tail;
    assert s[1..][1..] == tail;
  }

  // ---------------------------------------------------------------- interleavings

  /** The actions of one request within an interleaving. */
  function Of(id: RequestId, actions: seq<Action>): seq<Action>
    decreases |actions|
  {
    if actions == [] then []
    else (if actions[0].id == id then [actions[0]] else []) + Of(id, actions[1..])
  }

  /** Attempts of one request never overlap: `waiting` tells whether one is open. */
  predicate Alternates(script: seq<Action>, waiting: bool)
    decreases |script|
  {
    script == [] || (script[0].Finish? == waiting && Alternates(script[1..], !waiting))
  }

  lemma {:induction false} ScriptAlternates(id: RequestId, q: Loop.Request, turns: seq<Loop.Turn>, attempt: nat)
    requires attempt >= 1 && |turns| >= q.MaxAttempts()
    ensures Alternates(Script(id, q, turns, attempt), false)
    decreases |turns| + 1 - attempt
  {
    if attempt <= q.MaxAttempts() && q.hasEndpoints {
      var t := turns[attempt - 1];
      var tail := if Loop.Retries(q, t, attempt) then Script(id, q, turns, attempt + 1) else [];
      if Loop.Retries(q, t, attempt) {
        ScriptAlternates(id, q, turns, attempt + 1);
      }
      var s := Script(id, q, turns, attempt);
      assert s[1..] == [Finish(id, FailsLate(t.reply))] + tail;
      assert s[1..][1..] == tail;
    }
  }

  lemma {:induction false} PrefixAlternates(a: seq<Action>, b: seq<Action>, waiting: bool)
    requires a <= b && Alternates(b, waiting)
    ensures Alternates(a, waiting)
    decreases |a|
  {
    if a == [] {
    } else {
      PrefixAlternates(a[1..], b[1..], !waiting);
    }
  }

  /** An interleaving is legal exactly when each request's own actions alternate. */
  lemma {:induction false} LegalIffAlternating(s: System, actions: seq<Action>)
    ensures Legal(s, actions) <==> forall id :: Alternates(Of(id, actions), id in s.attempts)
    decreases |actions|
  {
    if actions != [] {
      var a, rest := actions[0], actions[1..];
      assert Of(a.id, actions) == [a] + Of(a.id, rest);
      assert ([a] + Of(a.id, rest))[1..] == Of(a.id, rest);
      assert forall id :: id != a.id ==> Of(id, actions) == Of(id, rest);
      if Enabled(s, a) {
        var n := Next(s, a);
        LegalIffAlternating(n, rest);
        assert forall id :: id != a.id ==> (id in n.attempts <==> id in s.attempts);
        assert Alternates(Of(a.id, actions), a.id in s.attempts) <==> Alternates(Of(a.id, rest), a.id in n.attempts);
      } else {
        assert !Alternates(Of(a.id, actions), a.id in s.attempts);
      }
    } else {
      assert forall id :: Of(id, actions) == [];
    }
  }

  /** Whatever has happened so far of requests running concurrently is a legal run from the idle system. */
  lemma ConcurrentRequestsAreLegal(qs: map<RequestId, (Loop.Request, seq<Loop.Turn>)>, actions: seq<Action>)
    requires forall id :: id in qs ==> |qs[id].1| >= qs[id].0.MaxAttempts()
    requires forall id :: Of(id, actions) <= if id in qs then Script(id, qs[id].0, qs[id].1, 1) else []
    ensures Legal(IDLE, actions)
  {
    forall id ensures Alternates(Of(id, actions), id in IDLE.attempts) {
      if id in qs {
        ScriptAlternates(id, qs[id].0, qs[id].1, 1);
        PrefixAlternates(Of(id, actions), Script(id, qs[id].0, qs[id].1, 1), false);
      }
    }
    LegalIffAlternating(IDLE, actions);
  }

  // ---------------------------------------------------------------- the invariant

  function WaitingFor(attempts: map<RequestId, string>, e: string): set<RequestId> {
    set id | id in attempts && attempts[id] == e
  }

  function InFlight(s: System, e: string): nat {
    |WaitingFor(s.attempts, e)|
  }

  /** The gauge never exceeds the number of attempts in flight. */
  ghost predicate Bounded(s: System) {
    forall e :: Connections(s.gauge, e) <= InFlight(s, e)
  }

  ghost predicate Exact(s: System) {
    forall e :: Connections(s.gauge, e) == InFlight(s, e)
  }

  lemma WaitingAfterBegin(attempts: map<RequestId, string>, id: RequestId, x: string, e: string)
    requires id !in attempts
    ensures |WaitingFor(attempts[id := x], e)| == |WaitingFor(attempts, e)| + (if x == e then 1 else 0)
  {
    var before := WaitingFor(attempts, e);
    if x == e {
      assert WaitingFor(attempts[id := x], e) == before + {id};
    } else {
      assert WaitingFor(attempts[id := x], e) == before;
    }
  }

  lemma WaitingAfterFinish(attempts: map<RequestId, string>, id: RequestId, e: string)
    requires id in attempts
    ensures |WaitingFor(attempts - {id}, e)| == |WaitingFor(attempts, e)| - (if attempts[id] == e then 1 else 0)
  {
    var before := WaitingFor(attempts, e);
    if attempts[id] == e {
      assert id in before;
      assert WaitingFor(attempts - {id}, e) == before - {id};
    } else {
      assert WaitingFor(attempts - {id}, e) == before;
    }
  }

  lemma InFlightAfter(s: System, a: Action, e: string)
    requires Enabled(s, a)
    ensures InFlight(Next(s, a), e)
         == match a
            case Begin(_, x) => InFlight(s, e) + (if x == e then 1 else 0)
            case Finish(id, _) => InFlight(s, e) - (if s.attempts[id] == e then 1 else 0)
  {
    match a
    case Begin(id, x) => WaitingAfterBegin(s.attempts, id, x, e);
    case Finish(id, _) => WaitingAfterFinish(s.attempts, id, e);
  }

  lemma GaugeAfter(s: System, a: Action, e: string)
    requires Enabled(s, a)
    ensures Connections(Next(s, a).gauge, e)
         == match a
            case Begin(_, x) => Connections(s.gauge, e) + (if x == e then 1 else 0)
            case Finish(id, twice) =>
              if s.attempts[id] != e then Connections(s.gauge, e)
              else
                var d := if twice then 2 else 1;
                if Connections(s.gauge, e) >= d then Connections(s.gauge, e) - d else 0
  {
  }

  /** Over every interleaving, for every endpoint, the gauge lies between zero and the attempts in flight. */
  lemma {:induction false} GaugeBounded(s: System, actions: seq<Action>)
    requires Bounded(s) && Legal(s, actions)
    ensures Bounded(Run(s, actions))
    decreases |actions|
  {
    if actions == [] {
    } else {
      var n := Next(s, actions[0]);
      forall e ensures Connections(n.gauge, e) <= InFlight(n, e) {
        InFlightAfter(s, actions[0], e);
        GaugeAfter(s, actions[0], e);
      }
      GaugeBounded(n, actions[1..]);
    }
  }

  /** A second decrement does no harm only when nothing else is in flight at the endpoint. */
  predicate Harmless(s: System, a: Action)
    requires Enabled(s, a)
  {
    a.Finish? && a.twice ==> InFlight(s, s.attempts[a.id]) == 1
  }

  predicate AllHarmless(s: System, actions: seq<Action>)
    requires Legal(s, actions)
    decreases |actions|
  {
    actions == [] || (Harmless(s, actions[0]) && AllHarmless(Next(s, actions[0]), actions[1..]))
  }

  ghost predicate AlwaysExact(s: System, actions: seq<Action>)
    requires Legal(s, actions)
    decreases |actions|
  {
    Exact(s) && (actions == [] || AlwaysExact(Next(s, actions[0]), actions[1..]))
  }

  lemma StepExactIff(s: System, a: Action)
    requires Exact(s) && Enabled(s, a)
    ensures Exact(Next(s, a)) <==> Harmless(s, a)
  {
    var n := Next(s, a);
    forall e ensures Connections(n.gauge, e) == InFlight(n, e)
                <==> (Harmless(s, a) || (a.Finish? && s.attempts[a.id] != e)) {
      InFlightAfter(s, a, e);
      GaugeAfter(s, a, e);
    }
    if !Harmless(s, a) {
      assert Connections(n.gauge, s.attempts[a.id]) != InFlight(n, s.attempts[a.id]);
    }
  }

  /**
   The gauge equals the attempts in flight at every moment of a run if and only if every attempt
   that failed after its first decrement was alone at its endpoint. In particular it does in every
   run without such a failure.
   */
  lemma {:induction false} AlwaysExactIff(s: System, actions: seq<Action>)
    requires Exact(s) && Legal(s, actions)
    ensures AlwaysExact(s, actions) <==> AllHarmless(s, actions)
    ensures (forall a :: a in actions && a.Finish? ==> !a.twice) ==> AlwaysExact(s, actions)
    decreases |actions|
  {
    if actions == [] {
    } else {
      assert actions[0] in actions;
      StepExactIff(s, actions[0]);
      if Exact(Next(s, actions[0])) {
        AlwaysExactIff(Next(s, actions[0]), actions[1..]);
      }
    }
  }

  lemma IdleIsExact()
    ensures Exact(IDLE) && Bounded(IDLE)
  {
    assert forall e :: WaitingFor(IDLE.attempts, e) == {};
  }

  /** The main result: any number of concurrent requests, stopped anywhere. */
  lemma GaugeUnderConcurrency(qs: map<RequestId, (Loop.Request, seq<Loop.Turn>)>, actions: seq<Action>)
    requires forall id :: id in qs ==> |qs[id].1| >= qs[id].0.MaxAttempts()
    requires forall id :: Of(id, actions) <= if id in qs then Script(id, qs[id].0, qs[id].1, 1) else []
    ensures Legal(IDLE, actions)
    ensures var s := Run(IDLE, actions);
            && Bounded(s)
            && (AlwaysExact(IDLE, actions) <==> AllHarmless(IDLE, actions))
            && (s.attempts == map[] ==> Exact(s))
  {
    ConcurrentRequestsAreLegal(qs, actions);
    IdleIsExact();
    GaugeBounded(IDLE, actions);
    AlwaysExactIff(IDLE, actions);
    var s := Run(IDLE, actions);
    if s.attempts == map[] {
      assert forall e :: WaitingFor(s.attempts, e) == {};
    }
  }

  /** Two requests at one endpoint, one answered with a server error: one is in flight, the gauge says none. */
  lemma ServerErrorHidesAnAttempt()
    ensures var s1 := Next(IDLE, Begin(1, "a"));
            var s2 := Next(s1, Begin(2, "a"));
            var s3 := Next(s2, Finish(1, true));
            Connections(s3.gauge, "a") == 0 && InFlight(s3, "a") == 1
  {
    var s1 := Next(IDLE, Begin(1, "a"));
    var s2 := Next(s1, Begin(2, "a"));
    var s3 := Next(s2, Finish(1, true));
    assert WaitingFor(s3.attempts, "a") == {2};
  }
}
