/**
 One request through the routing engine: the gates before the loop, the retry loop and the backoff
 between attempts. A request is described by the log of what it does to the objects it shares with
 other requests and to its client; the awaits are the points right after `Inc` and `Slept`.
 */
module RequestLoop {
  import opened Wrappers

  // ---------------------------------------------------------------- retry policy

  function Pow2(n: nat): (r: real)
    ensures r >= 1.0
  {
    if n == 0 then 1.0 else 2.0 * Pow2(n - 1)
  }

  function Min(a: real, b: real): real {
    if a <= b then a else b
  }

  /** Every type the policy does not name falls into the jitter branch. */
  datatype Backoff = Immediate | Linear | Exponential | ExponentialJitter

  /** The delay before clamping; `draw` is the random number in [0, 1) used for jitter. */
  function Unclamped(kind: Backoff, attempt: nat, base: real, draw: real): real
    requires attempt >= 1
  {
    match kind
    case Immediate => 0.0
    case Linear => base * attempt as real
    case Exponential => base * Pow2(attempt - 1)
    case ExponentialJitter => base * Pow2(attempt - 1) + draw * base
  }

  function CalculateBackoff(kind: Backoff, attempt: int, base: real, max: real, draw: real): real {
    if attempt <= 0 then 0.0 else Min(Unclamped(kind, attempt, base, draw), max)
  }

  // ---------------------------------------------------------------- the request

  /** How copying an answer to the client ends: done, or with an exception before or after the headers were sent. */
  datatype Copy = Done | Refused | Cut

  /** What one attempt meets: an answer or a transport error. */
  datatype Reply = Answered(code: nat, copy: Copy) | Broken(timeout: bool)

  /** One turn of the loop: the endpoint picked, the reply, the time spent so far, the jitter draw. */
  datatype Turn = Turn(endpoint: string, reply: Reply, elapsed: int, draw: real)

  datatype Gate = UnknownService | SourceDenied | CircuitOpen | Passed

  datatype Request = Request(
    gate: Gate,
    hasEndpoints: bool,
    attemptLimit: int,
    eligible: bool,
    budgetMs: int,
    kind: Backoff,
    base: real,
    max: real)
  {
    /** `max_attempts || 3`. */
    function MaxAttempts(): int {
      if attemptLimit == 0 then 3 else attemptLimit
    }
  }

  datatype Effect =
    | Inc(endpoint: string) | Dec(endpoint: string)
    | BreakerSuccess | BreakerFailure
    | Recorded(code: nat) | TimeoutRecorded | RetryRecorded
    | Slept(delay: real)
    | Responded(code: nat)
    | Rejected

  predicate Delivered(reply: Reply) {
    reply.Answered? && reply.code < 500 && reply.copy.Done?
  }

  /** The answer was good but copying it to the client threw, after the success was recorded. */
  predicate LateThrow(reply: Reply) {
    reply.Answered? && reply.code < 500 && !reply.copy.Done?
  }

  /** From the end of the await to the decision about a retry. */
  function Settle(t: Turn): seq<Effect> {
    var e := t.endpoint;
    if Delivered(t.reply) then [Dec(e), BreakerSuccess, Recorded(t.reply.code), Responded(t.reply.code)]
    else if LateThrow(t.reply) then [Dec(e), BreakerSuccess, Recorded(t.reply.code), Dec(e), BreakerFailure]
    else if t.reply.Answered? then [Dec(e), Dec(e), BreakerFailure]
    else [Dec(e), BreakerFailure]
  }

  /** The copy threw with the headers already sent. */
  predicate Severed(reply: Reply) {
    LateThrow(reply) && reply.copy.Cut?
  }

  /** Whether one of the first `n` attempts sent headers and no whole answer. */
  predicate HeadersSent(turns: seq<Turn>, n: nat) {
    n > 0 && (HeadersSent(turns, n - 1) || (n <= |turns| && Severed(turns[n - 1].reply)))
  }

  /** The failure answer sets a header first, which throws when headers were sent; then nothing answers. */
  function Closing(code: nat, sent: bool): Effect {
    if sent then Rejected else Responded(code)
  }

  function GatewayFailure(timeout: bool, sent: bool): seq<Effect> {
    if timeout then [TimeoutRecorded, Recorded(504), Closing(504, sent)] else [Recorded(502), Closing(502, sent)]
  }

  predicate TimedOut(reply: Reply) {
    reply.Broken? && reply.timeout
  }

  predicate Retries(q: Request, t: Turn, attempt: nat) {
    !Delivered(t.reply) && q.eligible && t.elapsed < q.budgetMs && attempt < q.MaxAttempts()
  }

  function Delay(q: Request, t: Turn, attempt: nat): real {
    CalculateBackoff(q.kind, attempt, q.base, q.max, t.draw)
  }

  function Head(t: Turn): seq<Effect> {
    [Inc(t.endpoint)] + Settle(t)
  }

  function Pause(q: Request, t: Turn, attempt: nat): seq<Effect> {
    [RetryRecorded, Slept(Delay(q, t, attempt))]
  }

  /** The loop from `attempt` on; `turns` holds what the environment does, one turn per attempt. */
  function Attempts(q: Request, turns: seq<Turn>, attempt: nat): seq<Effect>
    requires attempt >= 1 && |turns| >= q.MaxAttempts()
    decreases |turns| + 1 - attempt
  {
    if attempt > q.MaxAttempts() then GatewayFailure(false, HeadersSent(turns, attempt - 1))
    else if !q.hasEndpoints then [BreakerFailure, Responded(502)]
    else
      var t := turns[attempt - 1];
      if Delivered(t.reply) then Head(t)
      else if Retries(q, t, attempt) then Head(t) + (Pause(q, t, attempt) + Attempts(q, turns, attempt + 1))
      else Head(t) + GatewayFailure(TimedOut(t.reply), HeadersSent(turns, attempt))
  }

  function Route(q: Request, turns: seq<Turn>): seq<Effect>
    requires |turns| >= q.MaxAttempts()
  {
    match q.gate
    case UnknownService => [Responded(404)]
    case SourceDenied => [Responded(403)]
    case CircuitOpen => [Recorded(503), Responded(503)]
    case Passed => Attempts(q, turns, 1)
  }

  lemma Assoc<T>(a: seq<T>, b: seq<T>, c: seq<T>)
    ensures a + (b + c) == (a + b) + c
  {
  }

  /** The part of the log still to come is the turn and what follows it. */
  lemma TurnAdded(log: seq<Effect>, rest: seq<Effect>, q: Request, turns: seq<Turn>, attempt: nat, after: seq<Effect>)
    requires 1 <= attempt <= q.MaxAttempts() <= |turns| && q.hasEndpoints && rest == Attempts(q, turns, attempt)
    requires var t := turns[attempt - 1];
             after == if Delivered(t.reply) then []
                      else if Retries(q, t, attempt) then Pause(q, t, attempt) + Attempts(q, turns, attempt + 1)
                      else GatewayFailure(TimedOut(t.reply), HeadersSent(turns, attempt))
    ensures log + rest == (log + Head(turns[attempt - 1])) + after
  {
    Assoc(log, Head(turns[attempt - 1]), after);
  }

  /** `routeRequest` up to its loop. */
  method RouteRequest(q: Request, turns: seq<Turn>) returns (log: seq<Effect>)
    requires |turns| >= q.MaxAttempts()
    ensures log == Route(q, turns)
  {
    if q.gate == UnknownService {
      return [Responded(404)];
    }
    if q.gate == SourceDenied {
      return [Responded(403)];
    }
    if q.gate == CircuitOpen {
      return [Recorded(503), Responded(503)];
    }
    log := RetryLoop(q, turns);
  }

  /** The loop of `routeRequest` and the answer after it. */
  method RetryLoop(q: Request, turns: seq<Turn>) returns (log: seq<Effect>)
    requires |turns| >= q.MaxAttempts()
    ensures log == Attempts(q, turns, 1)
  {
    log := [];
    ghost var goal := Attempts(q, turns, 1);
    ghost var rest := goal;
    var maxAttempts := q.MaxAttempts();
    var attempt: nat := 1;
    var lastError: Option<bool> := None;
    var responseSent, headersSent, exit := false, false, false;
    while !exit && attempt <= maxAttempts
      invariant 1 <= attempt && (attempt > 1 ==> attempt <= maxAttempts)
      invariant log + rest == goal
      invariant !exit ==> !responseSent && rest == Attempts(q, turns, attempt)
      invariant !exit && attempt == 1 ==> lastError.None?
      invariant !exit ==> headersSent == HeadersSent(turns, attempt - 1)
      invariant exit && responseSent ==> rest == []
      invariant exit && !responseSent ==> lastError.Some? && rest == GatewayFailure(lastError.value, headersSent)
      decreases !exit, maxAttempts - attempt
    {
      if !q.hasEndpoints {
        log := log + [BreakerFailure, Responded(502)];
        return;
      }
      var t := turns[attempt - 1];
      if Delivered(t.reply) {
        TurnAdded(log, rest, q, turns, attempt, []);
        log, rest := log + Head(t), [];
        responseSent := true;
        exit := true;
      } else {
        lastError := Some(TimedOut(t.reply));
        headersSent := headersSent || Severed(t.reply);
        if q.eligible && t.elapsed < q.budgetMs && attempt < maxAttempts {
          ghost var next := Attempts(q, turns, attempt + 1);
          TurnAdded(log, rest, q, turns, attempt, Pause(q, t, attempt) + next);
          log := log + Head(t);
          Assoc(log, Pause(q, t, attempt), next);
          log, rest := log + Pause(q, t, attempt), next;
          attempt := attempt + 1;
        } else {
          ghost var failure := GatewayFailure(TimedOut(t.reply), headersSent);
          TurnAdded(log, rest, q, turns, attempt, failure);
          log, rest := log + Head(t), failure;
          exit := true;
        }
      }
    }
    if !responseSent {
      log := log + GatewayFailure(if lastError.Some? then lastError.value else false, headersSent);
    }
  }

  // ---------------------------------------------------------------- accounting

  datatype Kind =
    | Opened | Answer | Rejection | Recording | Outcome | Sleep
    | OpenedAt(endpoint: string) | ClosedAt(endpoint: string)
    | GoodOutcome | BadOutcome
    | RecordedAs(code: nat) | AnsweredAs(code: nat)
    | TimeoutNote | RetryNote

  predicate Is(e: Effect, k: Kind) {
    match k
    case Opened => e.Inc?
    case Answer => e.Responded?
    case Rejection => e.Rejected?
    case Recording => e.Recorded?
    case Outcome => e.BreakerSuccess? || e.BreakerFailure?
    case Sleep => e.Slept?
    case OpenedAt(x) => e == Inc(x)
    case ClosedAt(x) => e == Dec(x)
    case GoodOutcome => e.BreakerSuccess?
    case BadOutcome => e.BreakerFailure?
    case RecordedAs(code) => e == Recorded(code)
    case AnsweredAs(code) => e == Responded(code)
    case TimeoutNote => e.TimeoutRecorded?
    case RetryNote => e.RetryRecorded?
  }

  function Count(log: seq<Effect>, k: Kind): nat
    decreases |log|
  {
    if log == [] then 0 else (if Is(log[0], k) then 1 else 0) + Count(log[1..], k)
  }

  lemma {:induction false} CountConcat(a: seq<Effect>, b: seq<Effect>, k: Kind)
    ensures Count(a + b, k) == Count(a, k) + Count(b, k)
    decreases |a|
  {
    if a == [] {
      assert a + b == b;
    } else {
      CountConcat(a[1..], b, k);
      assert (a + b)[1..] == a[1..] + b;
    }
  }

  /** How many of the first `n` attempts from `attempt` on threw while answering the client. */
  function Throws(turns: seq<Turn>, attempt: nat, n: nat): nat
    requires attempt >= 1 && attempt - 1 + n <= |turns|
    decreases n
  {
    if n == 0 then 0
    else (if LateThrow(turns[attempt - 1].reply) then 1 else 0) + Throws(turns, attempt + 1, n - 1)
  }

  function One(e: Effect, k: Kind): nat {
    if Is(e, k) then 1 else 0
  }

  lemma CountTwo(a: Effect, b: Effect, k: Kind)
    ensures Count([a, b], k) == One(a, k) + One(b, k)
  {
    assert [a, b][1..] == [b] && [b][1..] == [];
    assert Count([b], k) == One(b, k) + Count([b][1..], k);
  }

  lemma CountThree(a: Effect, b: Effect, c: Effect, k: Kind)
    ensures Count([a, b, c], k) == One(a, k) + One(b, k) + One(c, k)
  {
    assert [a, b, c][1..] == [b, c];
    CountTwo(b, c, k);
  }

  lemma CountFive(a: Effect, b: Effect, c: Effect, d: Effect, e: Effect, k: Kind)
    ensures Count([a, b, c, d, e], k) == One(a, k) + One(b, k) + One(c, k) + One(d, k) + One(e, k)
  {
    assert [a, b, c, d, e] == [a, b] + [c, d, e];
    CountConcat([a, b], [c, d, e], k);
    CountTwo(a, b, k);
    CountThree(c, d, e, k);
  }

  function Bit(b: bool): nat {
    if b then 1 else 0
  }

  /** What one attempt contributes to each count. */
  function Share(t: Turn, k: Kind): nat {
    var whole, late := Delivered(t.reply), LateThrow(t.reply);
    match k
    case Opened => 1
    case Answer => Bit(whole)
    case Recording => Bit(whole || late)
    case Outcome => if late then 2 else 1
    case OpenedAt(e) => Bit(t.endpoint == e)
    case ClosedAt(e) => if t.endpoint != e then 0 else if t.reply.Answered? && !whole then 2 else 1
    case GoodOutcome => Bit(whole || late)
    case BadOutcome => Bit(!whole)
    case RecordedAs(code) => Bit((whole || late) && t.reply.code == code)
    case AnsweredAs(code) => Bit(whole && t.reply.code == code)
    case _ => 0
  }

  /** What the failure answer contributes. */
  function Ending(timeout: bool, sent: bool, k: Kind): nat {
    match k
    case Recording => 1
    case Answer => Bit(!sent)
    case Rejection => Bit(sent)
    case RecordedAs(code) => Bit(code == if timeout then 504 else 502)
    case AnsweredAs(code) => Bit(!sent && code == if timeout then 504 else 502)
    case TimeoutNote => Bit(timeout)
    case _ => 0
  }

  lemma CountDelivered(t: Turn, k: Kind)
    requires Delivered(t.reply)
    ensures Count(Settle(t), k) + One(Inc(t.endpoint), k) == Share(t, k)
  {
    var e, code := t.endpoint, t.reply.code;
    CountConcat([Dec(e), BreakerSuccess], [Recorded(code), Responded(code)], k);
    assert Settle(t) == [Dec(e), BreakerSuccess] + [Recorded(code), Responded(code)];
    CountTwo(Dec(e), BreakerSuccess, k);
    CountTwo(Recorded(code), Responded(code), k);
  }

  lemma CountLateThrow(t: Turn, k: Kind)
    requires LateThrow(t.reply)
    ensures Count(Settle(t), k) + One(Inc(t.endpoint), k) == Share(t, k)
  {
    CountFive(Dec(t.endpoint), BreakerSuccess, Recorded(t.reply.code), Dec(t.endpoint), BreakerFailure, k);
  }

  lemma CountHead(t: Turn, k: Kind)
    ensures Count(Head(t), k) == Share(t, k)
  {
    var e := t.endpoint;
    CountConcat([Inc(e)], Settle(t), k);
    assert [Inc(e)][1..] == [];
    assert Count([Inc(e)], k) == One(Inc(e), k) + Count([Inc(e)][1..], k);
    if Delivered(t.reply) {
      CountDelivered(t, k);
    } else if LateThrow(t.reply) {
      CountLateThrow(t, k);
    } else if t.reply.Answered? {
      CountThree(Dec(e), Dec(e), BreakerFailure, k);
    } else {
      CountTwo(Dec(e), BreakerFailure, k);
    }
  }

  lemma CountGatewayFailure(timeout: bool, sent: bool, k: Kind)
    ensures Count(GatewayFailure(timeout, sent), k) == Ending(timeout, sent, k)
  {
    CountTwo(Recorded(502), Closing(502, sent), k);
    CountThree(TimeoutRecorded, Recorded(504), Closing(504, sent), k);
  }

  /** Counts of the loop from `attempt` on, by how the first attempt ends. */
  lemma CountAttempts(q: Request, turns: seq<Turn>, attempt: nat, k: Kind)
    requires attempt >= 1 && |turns| >= q.MaxAttempts() && q.hasEndpoints && attempt <= q.MaxAttempts()
    ensures var t := turns[attempt - 1];
            Count(Attempts(q, turns, attempt), k) == Share(t, k)
              + if Delivered(t.reply) then 0
                else if Retries(q, t, attempt)
                then Bit(k.Sleep? || k.RetryNote?) + Count(Attempts(q, turns, attempt + 1), k)
                else Ending(TimedOut(t.reply), HeadersSent(turns, attempt), k)
  {
    var t := turns[attempt - 1];
    CountHead(t, k);
    if Delivered(t.reply) {
    } else if Retries(q, t, attempt) {
      var pause, rest := Pause(q, t, attempt), Attempts(q, turns, attempt + 1);
      CountConcat(Head(t), pause + rest, k);
      CountConcat(pause, rest, k);
      CountTwo(RetryRecorded, Slept(Delay(q, t, attempt)), k);
    } else {
      var sent := HeadersSent(turns, attempt);
      CountConcat(Head(t), GatewayFailure(TimedOut(t.reply), sent), k);
      CountGatewayFailure(TimedOut(t.reply), sent, k);
    }
  }

  predicate Last(log: seq<Effect>) {
    log != [] && (log[|log| - 1].Responded? || log[|log| - 1].Rejected?)
  }

  lemma {:induction false} LastActIsTheAnswer(q: Request, turns: seq<Turn>, attempt: nat)
    requires attempt >= 1 && |turns| >= q.MaxAttempts()
    ensures Last(Attempts(q, turns, attempt))
    decreases |turns| + 1 - attempt
  {
    if attempt <= q.MaxAttempts() && q.hasEndpoints {
      var t := turns[attempt - 1];
      if Retries(q, t, attempt) {
        var rest := Attempts(q, turns, attempt + 1);
        LastActIsTheAnswer(q, turns, attempt + 1);
        LastOfConcat(Pause(q, t, attempt), rest);
        LastOfConcat(Head(t), Pause(q, t, attempt) + rest);
      } else if !Delivered(t.reply) {
        LastOfConcat(Head(t), GatewayFailure(TimedOut(t.reply), HeadersSent(turns, attempt)));
      }
    }
  }

  lemma LastOfConcat(a: seq<Effect>, b: seq<Effect>)
    requires b != []
    ensures a + b != [] && (a + b)[|a + b| - 1] == b[|b| - 1]
  {
  }

  /** The client is left without a whole answer: headers went out, and the last attempt is not delivered. */
  predicate LeftOpen(turns: seq<Turn>, n: nat) {
    HeadersSent(turns, n) && 1 <= n <= |turns| && !Delivered(turns[n - 1].reply)
  }

  /** The numbers a request leaves behind, as functions of the number `n` of attempts. */
  predicate Balanced(q: Request, turns: seq<Turn>, attempt: nat, n: nat)
    requires attempt >= 1 && |turns| >= q.MaxAttempts() && attempt - 1 + n <= |turns|
  {
    var log := Attempts(q, turns, attempt);
    && Count(log, Opened) == n
    && Count(log, Answer) == (if LeftOpen(turns, attempt - 1 + n) then 0 else 1)
    && Count(log, Rejection) == (if LeftOpen(turns, attempt - 1 + n) then 1 else 0)
    && Count(log, Recording) == 1 + Throws(turns, attempt, n)
    && Count(log, Outcome) == n + Throws(turns, attempt, n)
    && Count(log, Sleep) == n - 1
  }

  lemma BalancedAtLast(q: Request, turns: seq<Turn>, attempt: nat)
    requires attempt >= 1 && |turns| >= q.MaxAttempts() && q.hasEndpoints && attempt <= q.MaxAttempts()
    requires !Retries(q, turns[attempt - 1], attempt)
    ensures Balanced(q, turns, attempt, 1)
  {
    var t := turns[attempt - 1];
    assert Throws(turns, attempt, 1) == if LateThrow(t.reply) then 1 else 0;
    assert Delivered(t.reply) ==> !LateThrow(t.reply);
    CountAttempts(q, turns, attempt, Opened);
    CountAttempts(q, turns, attempt, Answer);
    CountAttempts(q, turns, attempt, Rejection);
    CountAttempts(q, turns, attempt, Recording);
    CountAttempts(q, turns, attempt, Outcome);
    CountAttempts(q, turns, attempt, Sleep);
  }

  lemma BalancedBefore(q: Request, turns: seq<Turn>, attempt: nat, n: nat)
    requires attempt >= 1 && |turns| >= q.MaxAttempts() && q.hasEndpoints && attempt < q.MaxAttempts()
    requires Retries(q, turns[attempt - 1], attempt) && attempt + n <= |turns| && Balanced(q, turns, attempt + 1, n)
    ensures Balanced(q, turns, attempt, n + 1)
  {
    var t := turns[attempt - 1];
    assert Throws(turns, attempt, n + 1) == (if LateThrow(t.reply) then 1 else 0) + Throws(turns, attempt + 1, n);
    CountAttempts(q, turns, attempt, Opened);
    CountAttempts(q, turns, attempt, Answer);
    CountAttempts(q, turns, attempt, Rejection);
    CountAttempts(q, turns, attempt, Recording);
    CountAttempts(q, turns, attempt, Outcome);
    CountAttempts(q, turns, attempt, Sleep);
  }

  lemma {:induction false} AttemptsBalance(q: Request, turns: seq<Turn>, attempt: nat) returns (n: nat)
    requires attempt >= 1 && |turns| >= q.MaxAttempts() && q.hasEndpoints && attempt <= q.MaxAttempts()
    ensures 1 <= n <= q.MaxAttempts() + 1 - attempt && (!q.eligible ==> n == 1)
    ensures Balanced(q, turns, attempt, n)
    decreases |turns| + 1 - attempt
  {
    if Retries(q, turns[attempt - 1], attempt) {
      n := AttemptsBalance(q, turns, attempt + 1);
      BalancedBefore(q, turns, attempt, n);
      n := n + 1;
    } else {
      BalancedAtLast(q, turns, attempt);
      n := 1;
    }
  }

  /**
   Accounting. Past the gates and with at least one endpoint a request answers its client exactly
   once, as its last act, unless headers went out and the last attempt is not delivered, where it
   ends with an exception instead; it makes at most `max_attempts` attempts, exactly one if the method
   is not eligible for retry; and it records itself once and feeds the breaker one outcome per
   attempt, plus one more of each for every answer that threw while being copied to the client. So
   both are exact if and only if no copy throws.
   */
  lemma RequestAccounting(q: Request, turns: seq<Turn>)
    requires |turns| >= q.MaxAttempts() >= 1 && q.gate == Passed && q.hasEndpoints
    ensures var log := Route(q, turns);
            var n := Count(log, Opened);
            && 1 <= n <= q.MaxAttempts() && (!q.eligible ==> n == 1)
            && Balanced(q, turns, 1, n)
            && Last(log)
  {
    var _ := AttemptsBalance(q, turns, 1);
    LastActIsTheAnswer(q, turns, 1);
  }

  function AnswerWithoutAttempt(gate: Gate): nat {
    match gate
    case UnknownService => 404
    case SourceDenied => 403
    case CircuitOpen => 503
    case Passed => 502
  }

  /** The counts of a request that makes no attempt. */
  function ShortCount(q: Request, k: Kind): nat {
    match k
    case Answer => 1
    case Recording => if q.gate.CircuitOpen? || (q.gate.Passed? && q.MaxAttempts() < 1) then 1 else 0
    case Outcome => if q.gate.Passed? && q.MaxAttempts() >= 1 then 1 else 0
    case BadOutcome => if q.gate.Passed? && q.MaxAttempts() >= 1 then 1 else 0
    case AnsweredAs(code) => Bit(code == AnswerWithoutAttempt(q.gate))
    case RecordedAs(code) =>
      Bit((q.gate.CircuitOpen? && code == 503) || (q.gate.Passed? && q.MaxAttempts() < 1 && code == 502))
    case _ => 0
  }

  lemma CountsWithoutAttempt(q: Request, turns: seq<Turn>, k: Kind)
    requires |turns| >= q.MaxAttempts() && !(q.gate.Passed? && q.hasEndpoints && q.MaxAttempts() >= 1)
    ensures Count(Route(q, turns), k) == ShortCount(q, k)
  {
    CountGatewayFailure(false, false, k);
    CountTwo(BreakerFailure, Responded(502), k);
    CountTwo(Recorded(503), Responded(503), k);
    assert [Responded(404)][1..] == [] && [Responded(403)][1..] == [];
  }

  /**
   Every path answers its client once, as its last act, exactly when no copy stopped after the
   headers before the loop gave up; otherwise it ends with an exception and no answer. Only an empty
   endpoint list or a refusal before the breaker is not recorded.
   */
  lemma EveryPathAnswersOnceIff(q: Request, turns: seq<Turn>)
    requires |turns| >= q.MaxAttempts()
    ensures var log := Route(q, turns);
            var n := Count(log, Opened);
            && Last(log) && Count(log, Answer) + Count(log, Rejection) == 1
            && (Count(log, Answer) == 1 <==> !LeftOpen(turns, n))
            && (Count(log, Recording) == 0 <==>
                  q.gate in {UnknownService, SourceDenied}
                  || (q.gate == Passed && !q.hasEndpoints && q.MaxAttempts() >= 1))
  {
    LastActIsTheAnswer(q, turns, 1);
    if q.gate == Passed && q.hasEndpoints && q.MaxAttempts() >= 1 {
      RequestAccounting(q, turns);
    } else {
      CountsWithoutAttempt(q, turns, Opened);
      CountsWithoutAttempt(q, turns, Answer);
      CountsWithoutAttempt(q, turns, Rejection);
      CountsWithoutAttempt(q, turns, Recording);
    }
  }

  /** An answer cut off after its headers, without a retry: the client never gets an answer. */
  lemma CutAnswerIsNeverCompleted(q: Request, turns: seq<Turn>, code: nat)
    requires q.gate.Passed? && q.hasEndpoints && !q.eligible && q.MaxAttempts() >= 1
    requires |turns| >= q.MaxAttempts() && turns[0].reply == Answered(code, Cut) && code < 500
    ensures Count(Route(q, turns), Answer) == 0
  {
    var n := AttemptsBalance(q, turns, 1);
    assert Severed(turns[0].reply);
  }

  // ---------------------------------------------------------------- what a request does, by its turns

  /** The number of the last attempt of the loop from `attempt` on. */
  function LastAttempt(q: Request, turns: seq<Turn>, attempt: nat): nat
    requires 1 <= attempt <= q.MaxAttempts() <= |turns|
    decreases |turns| - attempt
  {
    if Retries(q, turns[attempt - 1], attempt) then LastAttempt(q, turns, attempt + 1) else attempt
  }

  /** The shares of the attempts from `attempt` to `last`. */
  function Shares(turns: seq<Turn>, attempt: nat, last: nat, k: Kind): nat
    requires 1 <= attempt && last <= |turns|
    decreases last + 1 - attempt
  {
    if attempt > last then 0 else Share(turns[attempt - 1], k) + Shares(turns, attempt + 1, last, k)
  }

  /** Past the gates, with endpoints and a limit that allows an attempt. */
  predicate Tries(q: Request, turns: seq<Turn>) {
    q.gate == Passed && q.hasEndpoints && 1 <= q.MaxAttempts() <= |turns|
  }

  /** What follows the last attempt. */
  function AfterLast(turns: seq<Turn>, last: nat, k: Kind): nat
    requires 1 <= last <= |turns|
  {
    if Delivered(turns[last - 1].reply) then 0
    else Ending(TimedOut(turns[last - 1].reply), HeadersSent(turns, last), k)
  }

  /** The count of the loop from `attempt` on, attempt by attempt. */
  function Counted(q: Request, turns: seq<Turn>, attempt: nat, k: Kind): nat
    requires 1 <= attempt <= q.MaxAttempts() <= |turns|
    decreases |turns| - attempt
  {
    Share(turns[attempt - 1], k)
    + if Retries(q, turns[attempt - 1], attempt)
      then (if k.Sleep? || k.RetryNote? then 1 else 0) + Counted(q, turns, attempt + 1, k)
      else AfterLast(turns, attempt, k)
  }

  lemma {:induction false} LoopCounts(q: Request, turns: seq<Turn>, attempt: nat, k: Kind)
    requires 1 <= attempt <= q.MaxAttempts() <= |turns| && q.hasEndpoints
    ensures Count(Attempts(q, turns, attempt), k) == Counted(q, turns, attempt, k)
    decreases |turns| - attempt
  {
    if Retries(q, turns[attempt - 1], attempt) {
      CountBefore(q, turns, attempt, k);
      LoopCounts(q, turns, attempt + 1, k);
    } else {
      CountAtLast(q, turns, attempt, k);
    }
  }

  lemma {:induction false} CountedShares(q: Request, turns: seq<Turn>, attempt: nat, k: Kind)
    requires 1 <= attempt <= q.MaxAttempts() <= |turns|
    ensures var last := LastAttempt(q, turns, attempt);
            && attempt <= last <= q.MaxAttempts()
            && Counted(q, turns, attempt, k)
               == Shares(turns, attempt, last, k) + (if k.Sleep? || k.RetryNote? then last - attempt else 0)
                  + AfterLast(turns, last, k)
    decreases |turns| - attempt
  {
    if Retries(q, turns[attempt - 1], attempt) {
      CountedShares(q, turns, attempt + 1, k);
    } else {
      assert Shares(turns, attempt + 1, attempt, k) == 0;
    }
  }

  /** The count of a whole request that tries. */
  lemma RouteCounts(q: Request, turns: seq<Turn>, k: Kind)
    requires Tries(q, turns)
    ensures Count(Route(q, turns), k) == Counted(q, turns, 1, k)
  {
    LoopCounts(q, turns, 1, k);
  }

  lemma CountBefore(q: Request, turns: seq<Turn>, attempt: nat, k: Kind)
    requires 1 <= attempt <= q.MaxAttempts() <= |turns| && q.hasEndpoints && Retries(q, turns[attempt - 1], attempt)
    ensures Count(Attempts(q, turns, attempt), k)
         == Share(turns[attempt - 1], k) + (if k.Sleep? || k.RetryNote? then 1 else 0)
            + Count(Attempts(q, turns, attempt + 1), k)
  {
    CountAttempts(q, turns, attempt, k);
  }

  lemma CountAtLast(q: Request, turns: seq<Turn>, attempt: nat, k: Kind)
    requires 1 <= attempt <= q.MaxAttempts() <= |turns| && q.hasEndpoints && !Retries(q, turns[attempt - 1], attempt)
    ensures Count(Attempts(q, turns, attempt), k) == Share(turns[attempt - 1], k) + AfterLast(turns, attempt, k)
  {
    CountAttempts(q, turns, attempt, k);
  }

  /** How many of the first `n` turns are such. */
  function Number(turns: seq<Turn>, n: nat, such: Turn -> bool): nat
    requires n <= |turns|
  {
    if n == 0 then 0 else Number(turns, n - 1, such) + Bit(such(turns[n - 1]))
  }

  lemma {:induction false} SharesAreNumber(turns: seq<Turn>, attempt: nat, last: nat, k: Kind, such: Turn -> bool)
    requires 1 <= attempt <= last + 1 && last <= |turns|
    requires forall t :: Share(t, k) == Bit(such(t))
    ensures Shares(turns, attempt, last, k) == Number(turns, last, such) - Number(turns, attempt - 1, such)
    decreases last + 1 - attempt
  {
    if attempt > last {
    } else {
      SharesAreNumber(turns, attempt + 1, last, k, such);
    }
  }

  lemma CountsByTurns(q: Request, turns: seq<Turn>, k: Kind, such: Turn -> bool)
    requires Tries(q, turns) && !k.Sleep? && !k.RetryNote? && forall t :: Share(t, k) == Bit(such(t))
    ensures var n := LastAttempt(q, turns, 1);
            && 1 <= n <= q.MaxAttempts()
            && Counted(q, turns, 1, k) == Number(turns, n, such) + AfterLast(turns, n, k)
  {
    CountedShares(q, turns, 1, k);
    SharesAreNumber(turns, 1, LastAttempt(q, turns, 1), k, such);
  }

  lemma {:induction false} NumberOfAll(turns: seq<Turn>, n: nat)
    requires n <= |turns|
    ensures Number(turns, n, (t: Turn) => true) == n
  {
    if n == 0 {
    } else {
      NumberOfAll(turns, n - 1);
    }
  }

  lemma LastIsCount(q: Request, turns: seq<Turn>)
    requires Tries(q, turns)
    ensures Count(Route(q, turns), Opened) == LastAttempt(q, turns, 1) <= |turns|
  {
    RouteCounts(q, turns, Opened);
    CountsByTurns(q, turns, Opened, (t: Turn) => true);
    NumberOfAll(turns, LastAttempt(q, turns, 1));
  }

  /** Another attempt follows: the answer is no whole one, the method allows it, and time and attempts are left. */
  predicate GoesOn(q: Request, turns: seq<Turn>, i: nat)
    requires 1 <= i <= |turns|
  {
    var t := turns[i - 1];
    && !(t.reply.Answered? && t.reply.code < 500 && t.reply.copy == Done)
    && q.eligible && t.elapsed < q.budgetMs && i < (if q.attemptLimit == 0 then 3 else q.attemptLimit)
  }

  lemma {:induction false} LastAttemptIff(q: Request, turns: seq<Turn>, attempt: nat)
    requires 1 <= attempt <= q.MaxAttempts() <= |turns|
    ensures var n := LastAttempt(q, turns, attempt);
            && attempt <= n <= q.MaxAttempts() && !GoesOn(q, turns, n)
            && forall i :: attempt <= i < n ==> GoesOn(q, turns, i)
    decreases |turns| - attempt
  {
    if Retries(q, turns[attempt - 1], attempt) {
      LastAttemptIff(q, turns, attempt + 1);
    }
  }

  /** The attempts are the first turns, up to the first that does not go on; a retry is noted between any two. */
  lemma AttemptsMade(q: Request, turns: seq<Turn>)
    requires Tries(q, turns)
    ensures var n := Count(Route(q, turns), Opened);
            && 1 <= n <= |turns| && !GoesOn(q, turns, n) && (forall i :: 1 <= i < n ==> GoesOn(q, turns, i))
            && Count(Route(q, turns), RetryNote) == n - 1
  {
    LastIsCount(q, turns);
    LastAttemptIff(q, turns, 1);
    RouteCounts(q, turns, RetryNote);
    CountedShares(q, turns, 1, RetryNote);
    SharesAreNumber(turns, 1, LastAttempt(q, turns, 1), RetryNote, (t: Turn) => false);
    NumberOfNone(turns, LastAttempt(q, turns, 1));
  }

  lemma {:induction false} NumberOfNone(turns: seq<Turn>, n: nat)
    requires n <= |turns|
    ensures Number(turns, n, (t: Turn) => false) == 0
  {
    if n == 0 {
    } else {
      NumberOfNone(turns, n - 1);
    }
  }

  predicate AnsweredBelow500(t: Turn) {
    t.reply.Answered? && t.reply.code < 500
  }

  predicate NotDelivered(t: Turn) {
    t.reply.Broken? || t.reply.code >= 500 || t.reply.copy != Done
  }

  /**
   The breaker is fed a success for each attempt answered below 500, and a failure for each answered
   with a server error, not answered, or not copied to the client.
   */
  lemma BreakerIsFed(q: Request, turns: seq<Turn>)
    requires Tries(q, turns)
    ensures var log := Route(q, turns);
            var n := Count(log, Opened);
            && n <= |turns|
            && Count(log, GoodOutcome) == Number(turns, n, AnsweredBelow500)
            && Count(log, BadOutcome) == Number(turns, n, NotDelivered)
  {
    LastIsCount(q, turns);
    RouteCounts(q, turns, GoodOutcome);
    RouteCounts(q, turns, BadOutcome);
    CountsByTurns(q, turns, GoodOutcome, AnsweredBelow500);
    CountsByTurns(q, turns, BadOutcome, NotDelivered);
  }

  /** The endpoint of each attempt is opened once, and closed once, or twice after a failed answer. */
  lemma EndpointsOpenedAndClosed(q: Request, turns: seq<Turn>, e: string)
    requires Tries(q, turns)
    ensures var log := Route(q, turns);
            var n := Count(log, Opened);
            && n <= |turns|
            && Count(log, OpenedAt(e)) == Number(turns, n, (t: Turn) => t.endpoint == e)
            && Count(log, ClosedAt(e))
               == Number(turns, n, (t: Turn) => t.endpoint == e)
                  + Number(turns, n, (t: Turn) => t.endpoint == e && FailedAnswer(t))
  {
    LastIsCount(q, turns);
    RouteCounts(q, turns, OpenedAt(e));
    RouteCounts(q, turns, ClosedAt(e));
    EndpointsCounted(q, turns, e);
  }

  predicate FailedAnswer(t: Turn) {
    t.reply.Answered? && (t.reply.code >= 500 || t.reply.copy != Done)
  }

  lemma EndpointsCounted(q: Request, turns: seq<Turn>, e: string)
    requires Tries(q, turns)
    ensures var n := LastAttempt(q, turns, 1);
            && n <= |turns|
            && Counted(q, turns, 1, OpenedAt(e)) == Number(turns, n, (t: Turn) => t.endpoint == e)
            && Counted(q, turns, 1, ClosedAt(e))
               == Number(turns, n, (t: Turn) => t.endpoint == e)
                  + Number(turns, n, (t: Turn) => t.endpoint == e && FailedAnswer(t))
  {
    CountsByTurns(q, turns, OpenedAt(e), (t: Turn) => t.endpoint == e);
    CountedShares(q, turns, 1, ClosedAt(e));
    ClosedShares(turns, 1, LastAttempt(q, turns, 1), e);
  }

  lemma {:induction false} ClosedShares(turns: seq<Turn>, attempt: nat, last: nat, e: string)
    requires 1 <= attempt <= last + 1 && last <= |turns|
    ensures var once := (t: Turn) => t.endpoint == e;
            var twice := (t: Turn) => t.endpoint == e && FailedAnswer(t);
            Shares(turns, attempt, last, ClosedAt(e))
              == Number(turns, last, once) - Number(turns, attempt - 1, once)
                 + Number(turns, last, twice) - Number(turns, attempt - 1, twice)
    decreases last + 1 - attempt
  {
    if attempt > last {
    } else {
      ClosedShares(turns, attempt + 1, last, e);
    }
  }

  /** The last reply was copied whole to the client. */
  predicate Whole(reply: Reply) {
    reply.Answered? && reply.code < 500 && reply.copy == Done
  }

  /**
   The codes recorded are those of the replies below 500, and after a last attempt that is not
   delivered 504 if it timed out and 502 otherwise; a timeout is noted just then.
   */
  lemma CodesRecorded(q: Request, turns: seq<Turn>, code: nat)
    requires Tries(q, turns)
    ensures var log := Route(q, turns);
            var n := Count(log, Opened);
            && 1 <= n <= |turns|
            && var last := turns[n - 1].reply;
               && Count(log, RecordedAs(code))
                  == Number(turns, n, (t: Turn) => t.reply.Answered? && t.reply.code < 500 && t.reply.code == code)
                     + Bit(!Whole(last) && code == if last == Broken(true) then 504 else 502)
               && Count(log, TimeoutNote) == Bit(last == Broken(true))
  {
    var n := LastAttempt(q, turns, 1);
    LastIsCount(q, turns);
    RouteCounts(q, turns, RecordedAs(code));
    RouteCounts(q, turns, TimeoutNote);
    CountsByTurns(q, turns, RecordedAs(code),
                  (t: Turn) => t.reply.Answered? && t.reply.code < 500 && t.reply.code == code);
    CountsByTurns(q, turns, TimeoutNote, (t: Turn) => false);
    NumberOfNone(turns, n);
  }

  /**
   The client gets the code of the delivered reply, or that of the failure, unless an attempt was cut
   off after its headers.
   */
  lemma CodeAnswered(q: Request, turns: seq<Turn>, code: nat)
    requires Tries(q, turns)
    ensures var log := Route(q, turns);
            var n := Count(log, Opened);
            && 1 <= n <= |turns|
            && var last := turns[n - 1].reply;
               Count(log, AnsweredAs(code)) > 0 <==>
                 if Whole(last) then code == last.code
                 else code == (if last == Broken(true) then 504 else 502)
                      && forall i :: 0 <= i < n ==> !(turns[i].reply.Answered? && turns[i].reply.code < 500
                                                      && turns[i].reply.copy == Cut)
  {
    var n := LastAttempt(q, turns, 1);
    LastIsCount(q, turns);
    LastAttemptIff(q, turns, 1);
    HeadersSentIff(turns, n);
    var such := (t: Turn) => Whole(t.reply) && t.reply.code == code;
    RouteCounts(q, turns, AnsweredAs(code));
    CountsByTurns(q, turns, AnsweredAs(code), such);
    OnlyTheLastIsWhole(q, turns, n, n - 1, such);
  }

  lemma {:induction false} HeadersSentIff(turns: seq<Turn>, n: nat)
    requires n <= |turns|
    ensures HeadersSent(turns, n) <==>
              exists i :: 0 <= i < n && turns[i].reply.Answered? && turns[i].reply.code < 500
                          && turns[i].reply.copy == Cut
  {
    if n == 0 {
    } else {
      HeadersSentIff(turns, n - 1);
    }
  }

  lemma {:induction false} OnlyTheLastIsWhole(q: Request, turns: seq<Turn>, n: nat, m: nat, whole: Turn -> bool)
    requires m < n <= |turns| && forall i :: 1 <= i < n ==> GoesOn(q, turns, i)
    requires forall t :: whole(t) ==> Whole(t.reply)
    ensures Number(turns, m, whole) == 0
    decreases m
  {
    if m == 0 {
    } else {
      OnlyTheLastIsWhole(q, turns, n, m - 1, whole);
      assert GoesOn(q, turns, m);
    }
  }

  /** All that a request of one attempt does, in order. */
  lemma OneAttempt(q: Request, turns: seq<Turn>)
    requires Tries(q, turns) && !GoesOn(q, turns, 1)
    ensures var t := turns[0];
            var e := t.endpoint;
            Route(q, turns)
              == if t.reply.Broken? then
                   [Inc(e), Dec(e), BreakerFailure]
                   + if t.reply.timeout then [TimeoutRecorded, Recorded(504), Responded(504)]
                     else [Recorded(502), Responded(502)]
                 else if t.reply.code >= 500 then
                   [Inc(e), Dec(e), Dec(e), BreakerFailure, Recorded(502), Responded(502)]
                 else if t.reply.copy == Done then
                   [Inc(e), Dec(e), BreakerSuccess, Recorded(t.reply.code), Responded(t.reply.code)]
                 else
                   [Inc(e), Dec(e), BreakerSuccess, Recorded(t.reply.code), Dec(e), BreakerFailure, Recorded(502),
                    if t.reply.copy == Cut then Rejected else Responded(502)]
  {
    assert HeadersSent(turns, 1) == Severed(turns[0].reply) by {
      assert !HeadersSent(turns, 0);
    }
  }

  /** A retry is noted before its sleep, and both come between two attempts. */
  lemma RetriedOnce(q: Request, turns: seq<Turn>)
    requires Tries(q, turns) && GoesOn(q, turns, 1) && turns[0].reply.Broken? && |turns| >= 2
    requires q.MaxAttempts() == 2 && turns[1].reply == Answered(200, Done)
    ensures var d := CalculateBackoff(q.kind, 1, q.base, q.max, turns[0].draw);
            var e, f := turns[0].endpoint, turns[1].endpoint;
            Route(q, turns) == [Inc(e), Dec(e), BreakerFailure, RetryRecorded, Slept(d),
                                Inc(f), Dec(f), BreakerSuccess, Recorded(200), Responded(200)]
  {
    assert Attempts(q, turns, 2) == Head(turns[1]);
  }

  /** Requests that make no attempt: what they answer and record; only a missing endpoint is fed to the breaker. */
  lemma RefusedRequests(q: Request, turns: seq<Turn>, code: nat)
    requires |turns| >= q.MaxAttempts() && !Tries(q, turns)
    ensures var log := Route(q, turns);
            && Count(log, Opened) == 0 && Count(log, GoodOutcome) == 0
            && (Count(log, BadOutcome) > 0 <==> q.gate == Passed && q.MaxAttempts() >= 1)
            && (Count(log, AnsweredAs(code)) > 0 <==>
                  code == match q.gate
                          case UnknownService => 404
                          case SourceDenied => 403
                          case CircuitOpen => 503
                          case Passed => 502)
            && (Count(log, RecordedAs(code)) > 0 <==>
                  || (q.gate == CircuitOpen && code == 503)
                  || (q.gate == Passed && q.MaxAttempts() < 1 && code == 502))
  {
    CountsWithoutAttempt(q, turns, Opened);
    CountsWithoutAttempt(q, turns, GoodOutcome);
    CountsWithoutAttempt(q, turns, BadOutcome);
    CountsWithoutAttempt(q, turns, AnsweredAs(code));
    CountsWithoutAttempt(q, turns, RecordedAs(code));
  }

  // ---------------------------------------------------------------- backoff

  predicate SaneBackoff(q: Request, turns: seq<Turn>) {
    q.base >= 0.0 && q.max >= 0.0 && forall i :: 0 <= i < |turns| ==> 0.0 <= turns[i].draw < 1.0
  }

  lemma LinearGrows(base: real, x: real)
    requires base >= 0.0 && x >= 0.0
    ensures 0.0 <= base * x <= base * (x + 1.0)
  {
    assert base * (x + 1.0) == base * x + base;
  }

  lemma DoubledCoversJitter(base: real, p: real, draw1: real, draw2: real)
    requires base >= 0.0 && p >= 1.0 && 0.0 <= draw1 < 1.0 && 0.0 <= draw2
    ensures 0.0 <= base * p <= base * (2.0 * p)
    ensures 0.0 <= base * p + draw1 * base <= base * (2.0 * p) + draw2 * base
  {
    var x, j := base * p, draw1 * base;
    assert base * (2.0 * p) == x + x;
    assert base - j == (1.0 - draw1) * base;
    assert x - base == base * (p - 1.0);
    assert 0.0 <= j <= base <= x;
    assert 0.0 <= draw2 * base;
  }

  lemma UnclampedGrows(kind: Backoff, attempt: nat, base: real, draw1: real, draw2: real)
    requires attempt >= 1 && base >= 0.0 && 0.0 <= draw1 < 1.0 && 0.0 <= draw2 < 1.0
    ensures 0.0 <= Unclamped(kind, attempt, base, draw1) <= Unclamped(kind, attempt + 1, base, draw2)
  {
    match kind
    case Immediate =>
    case Linear =>
      LinearGrows(base, attempt as real);
      assert (attempt + 1) as real == attempt as real + 1.0;
    case _ =>
      DoubledCoversJitter(base, Pow2(attempt - 1), draw1, draw2);
      assert Pow2(attempt) == 2.0 * Pow2(attempt - 1);
  }

  lemma UnclampedPositive(kind: Backoff, base: real, draw: real)
    requires base >= 0.0 && 0.0 <= draw < 1.0
    ensures Unclamped(kind, 1, base, draw) >= 0.0
  {
    UnclampedGrows(kind, 1, base, draw, draw);
  }

  /** Delays never shrink from one attempt to the next, whatever the two jitter draws are. */
  lemma BackoffMonotone(kind: Backoff, attempt: int, base: real, max: real, draw1: real, draw2: real)
    requires base >= 0.0 && max >= 0.0 && 0.0 <= draw1 < 1.0 && 0.0 <= draw2 < 1.0
    ensures 0.0 <= CalculateBackoff(kind, attempt, base, max, draw1)
                <= CalculateBackoff(kind, attempt + 1, base, max, draw2) <= max
  {
    if attempt > 0 {
      UnclampedGrows(kind, attempt, base, draw1, draw2);
    } else if attempt == 0 {
      UnclampedPositive(kind, base, draw2);
    }
  }

  function Delays(log: seq<Effect>): seq<real>
    decreases |log|
  {
    if log == [] then [] else (if log[0].Slept? then [log[0].delay] else []) + Delays(log[1..])
  }

  lemma {:induction false} DelaysConcat(a: seq<Effect>, b: seq<Effect>)
    ensures Delays(a + b) == Delays(a) + Delays(b)
    decreases |a|
  {
    if a == [] {
      assert a + b == b;
    } else {
      DelaysConcat(a[1..], b);
      assert (a + b)[0] == a[0] && (a + b)[1..] == a[1..] + b;
      Assoc(if a[0].Slept? then [a[0].delay] else [], Delays(a[1..]), Delays(b));
    }
  }

  lemma {:induction false} NoDelays(log: seq<Effect>)
    requires forall e :: e in log ==> !e.Slept?
    ensures Delays(log) == []
    decreases |log|
  {
    if log == [] {
    } else {
      assert log[0] in log;
      NoDelays(log[1..]);
    }
  }

  function Sum(xs: seq<real>): real
    decreases |xs|
  {
    if xs == [] then 0.0 else xs[0] + Sum(xs[1..])
  }

  predicate NonDecreasing(xs: seq<real>) {
    forall i :: 0 < i < |xs| ==> xs[i - 1] <= xs[i]
  }

  lemma DelaysOfFirst(q: Request, turns: seq<Turn>, attempt: nat)
    requires attempt >= 1 && |turns| >= q.MaxAttempts() && q.hasEndpoints && attempt <= q.MaxAttempts()
    ensures var t := turns[attempt - 1];
            Delays(Attempts(q, turns, attempt))
              == if Retries(q, t, attempt) then [Delay(q, t, attempt)] + Delays(Attempts(q, turns, attempt + 1)) else []
  {
    var t := turns[attempt - 1];
    NoDelays(Head(t));
    if Delivered(t.reply) {
    } else if Retries(q, t, attempt) {
      var pause, rest := Pause(q, t, attempt), Attempts(q, turns, attempt + 1);
      DelaysConcat(Head(t), pause + rest);
      DelaysConcat(pause, rest);
      assert pause[1..] == [pause[1]] && [pause[1]][1..] == [];
    } else {
      var g := GatewayFailure(TimedOut(t.reply), HeadersSent(turns, attempt));
      NoDelays(g);
      DelaysConcat(Head(t), g);
    }
  }

  lemma NextDelayIsLonger(q: Request, turns: seq<Turn>, attempt: nat)
    requires 1 <= attempt < |turns| && SaneBackoff(q, turns)
    ensures 0.0 <= Delay(q, turns[attempt - 1], attempt) <= Delay(q, turns[attempt], attempt + 1) <= q.max
  {
    BackoffMonotone(q.kind, attempt, q.base, q.max, turns[attempt - 1].draw, turns[attempt].draw);
  }

  predicate Growing(ds: seq<real>, max: real) {
    NonDecreasing(ds) && forall i :: 0 <= i < |ds| ==> 0.0 <= ds[i] <= max
  }

  /** The delay before each retry there could be. */
  function Schedule(q: Request, turns: seq<Turn>): seq<real> {
    seq(|turns|, i requires 0 <= i < |turns| => Delay(q, turns[i], i + 1))
  }

  lemma ScheduleGrows(q: Request, turns: seq<Turn>)
    requires SaneBackoff(q, turns)
    ensures Growing(Schedule(q, turns), q.max)
  {
    forall i | 0 <= i < |turns| ensures 0.0 <= Schedule(q, turns)[i] <= q.max {
      BackoffMonotone(q.kind, i + 1, q.base, q.max, turns[i].draw, turns[i].draw);
    }
    forall i | 0 < i < |turns| ensures Schedule(q, turns)[i - 1] <= Schedule(q, turns)[i] {
      NextDelayIsLonger(q, turns, i);
    }
  }

  lemma PrependSlice(ds: seq<real>, xs: seq<real>, n: nat)
    requires n < |ds| && xs <= ds[n + 1..]
    ensures [ds[n]] + xs <= ds[n..]
  {
    assert ds[n..] == [ds[n]] + ds[n + 1..];
  }

  /** The delays of the loop from `attempt` on are the schedule from there, up to the last retry. */
  lemma {:induction false} DelaysFollowSchedule(q: Request, turns: seq<Turn>, attempt: nat, ds: seq<real>)
    requires attempt >= 1 && |turns| >= q.MaxAttempts() && q.hasEndpoints && attempt <= q.MaxAttempts()
    requires |ds| == |turns| && forall i :: 0 <= i < |ds| ==> ds[i] == Delay(q, turns[i], i + 1)
    ensures Delays(Attempts(q, turns, attempt)) <= ds[attempt - 1..]
    decreases |turns| + 1 - attempt
  {
    var t := turns[attempt - 1];
    DelaysOfFirst(q, turns, attempt);
    if Retries(q, t, attempt) {
      DelaysFollowSchedule(q, turns, attempt + 1, ds);
      PrependSlice(ds, Delays(Attempts(q, turns, attempt + 1)), attempt - 1);
    }
  }

  lemma {:induction false} DelayPerSleep(log: seq<Effect>)
    ensures |Delays(log)| == Count(log, Sleep)
    decreases |log|
  {
    if log == [] {
    } else {
      DelayPerSleep(log[1..]);
    }
  }

  lemma {:induction false} SumBounded(xs: seq<real>, max: real)
    requires forall i :: 0 <= i < |xs| ==> xs[i] <= max
    ensures Sum(xs) <= |xs| as real * max
    decreases |xs|
  {
    if xs == [] {
    } else {
      SumBounded(xs[1..], max);
      assert |xs| as real * max == max + |xs[1..]| as real * max;
    }
  }

  lemma SumOfDelays(log: seq<Effect>, ds: seq<real>, max: real)
    requires Growing(ds, max) && Delays(log) <= ds[0..] && Count(log, Sleep) == Count(log, Opened) - 1
    ensures NonDecreasing(Delays(log)) && Sum(Delays(log)) <= (Count(log, Opened) - 1) as real * max
  {
    DelayPerSleep(log);
    SumBounded(Delays(log), max);
  }

  lemma SleepBetweenAttempts(q: Request, turns: seq<Turn>, log: seq<Effect>)
    requires |turns| >= q.MaxAttempts() >= 1 && q.gate == Passed && q.hasEndpoints && log == Route(q, turns)
    ensures Count(log, Sleep) == Count(log, Opened) - 1
  {
    var _ := AttemptsBalance(q, turns, 1);
  }

  lemma DelaysAreScheduled(q: Request, turns: seq<Turn>, log: seq<Effect>)
    requires |turns| >= q.MaxAttempts() >= 1 && q.gate == Passed && q.hasEndpoints && log == Route(q, turns)
    ensures Delays(log) <= Schedule(q, turns)[0..]
  {
    DelaysFollowSchedule(q, turns, 1, Schedule(q, turns));
  }

  lemma SomeSchedule(q: Request, turns: seq<Turn>, log: seq<Effect>) returns (ds: seq<real>)
    requires |turns| >= q.MaxAttempts() >= 1 && q.gate == Passed && q.hasEndpoints && log == Route(q, turns)
    requires SaneBackoff(q, turns)
    ensures Growing(ds, q.max) && Delays(log) <= ds[0..]
  {
    ds := Schedule(q, turns);
    ScheduleGrows(q, turns);
    DelaysAreScheduled(q, turns, log);
  }

  /** The sleeps of a request never shrink, and together last at most `(attempts - 1) * max_delay_ms`. */
  lemma BackoffOfRequest(q: Request, turns: seq<Turn>, log: seq<Effect>)
    requires |turns| >= q.MaxAttempts() >= 1 && q.gate == Passed && q.hasEndpoints && SaneBackoff(q, turns)
    requires log == Route(q, turns)
    ensures NonDecreasing(Delays(log))
    ensures Sum(Delays(log)) <= (Count(log, Opened) - 1) as real * q.max
  {
    var ds := SomeSchedule(q, turns, log);
    SleepBetweenAttempts(q, turns, log);
    SumOfDelays(log, ds, q.max);
  }

  /** Between the attempts `i` and `i + 1` the request sleeps for the delay of attempt `i`. */
  lemma SleepsOfRequest(q: Request, turns: seq<Turn>, i: nat)
    requires Tries(q, turns) && 1 <= i < Count(Route(q, turns), Opened)
    ensures var ds := Delays(Route(q, turns));
            && |ds| == Count(Route(q, turns), Opened) - 1 && |ds| <= |turns|
            && ds[i - 1] == CalculateBackoff(q.kind, i, q.base, q.max, turns[i - 1].draw)
  {
    var log := Route(q, turns);
    SleepBetweenAttempts(q, turns, log);
    DelayPerSleep(log);
    DelaysAreScheduled(q, turns, log);
    assert Delays(log)[i - 1] == Schedule(q, turns)[0..][i - 1];
  }

  /**
   The delays: none, `attempt` times the base, or the base doubled from one attempt to the next, to
   which jitter adds its share of the base; never more than the maximum.
   */
  lemma BackoffValues(attempt: nat, base: real, max: real, draw: real)
    requires attempt >= 1
    ensures CalculateBackoff(Immediate, attempt, base, max, draw) == Min(0.0, max)
    ensures CalculateBackoff(Linear, attempt, base, max, draw) == Min(base * attempt as real, max)
    ensures CalculateBackoff(Exponential, 1, base, max, draw) == Min(base, max)
    ensures CalculateBackoff(Exponential, attempt + 1, base, max, draw)
         == CalculateBackoff(Exponential, attempt, 2.0 * base, max, draw)
    ensures var plain := CalculateBackoff(Exponential, attempt, base, max, draw);
            plain < max ==>
              CalculateBackoff(ExponentialJitter, attempt, base, max, draw) == Min(plain + draw * base, max)
  {
    assert base * Pow2(attempt) == 2.0 * base * Pow2(attempt - 1);
  }
}
