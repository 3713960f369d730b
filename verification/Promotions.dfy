/**
 Promotions of releases between environments. A promotion awaits its approval and its deployment, so
 the operations on several promotions, freezes and window changes interleave at those points.
 */
module Promotions {
  import opened Text
  import opened Wrappers

  /** `frozenAs` is the name under which the environment is frozen; an inherited property has no order. */
  datatype Environment = Environment(order: Option<nat>, requiresApproval: bool, frozenAs: string)

  /** The environments, from the first a release is promoted to up to the last. */
  const LADDER: seq<string> := ["development", "testing", "staging", "production"]

  /**
   Environments are found by name in any case, in a dictionary that also answers to the names of
   inherited properties. In lower case these are `constructor`, a function called `Object`, and
   `__proto__`, whose lookup throws for want of a name.
   */
  function EnvironmentOf(name: string): Option<Environment> {
    var n := Lower(name);
    if n == "development" then Some(Environment(Some(1), false, n))
    else if n == "testing" then Some(Environment(Some(2), false, n))
    else if n == "staging" then Some(Environment(Some(3), false, n))
    else if n == "production" then Some(Environment(Some(4), true, n))
    else if n == "constructor" then Some(Environment(None, false, "object"))
    else None
  }

  predicate LookupThrows(name: string) {
    Lower(name) == "__proto__"
  }

  function OrderOf(name: string): Option<nat> {
    if EnvironmentOf(name).Some? then EnvironmentOf(name).value.order else None
  }

  /** Deployment hours `[start, end)` on some days of the week. */
  datatype Window = Window(start: int, end: int, days: seq<int>)

  datatype Clock = Clock(day: int, hour: int)

  predicate IsOpen(w: Window, now: Clock) {
    now.day in w.days && w.start <= now.hour < w.end
  }

  datatype PromotionStatus = PENDING | DEPLOYING | SUCCESS | FAILED | REJECTED

  datatype Promotion = Promotion(source: string, target: string, status: PromotionStatus)

  datatype ApprovalStatus = AwaitingDecision | APPROVED | DECLINED

  datatype Approval = Approval(status: ApprovalStatus, decidedBy: Option<string>)

  /** `launched` lists the promotions whose deployment was started, in order, with repetitions. */
  datatype State = State(
    promotions: map<nat, Promotion>,
    approvals: map<nat, Approval>,
    frozen: set<string>,
    window: Window,
    launched: seq<nat>)

  const INITIAL := State(map[], map[], {}, Window(0, 24, [1, 2, 3, 4, 5]), [])

  predicate CanDeploy(s: State, name: string, now: Clock) {
    && EnvironmentOf(name).Some?
    && EnvironmentOf(name).value.frozenAs !in s.frozen
    && (Lower(name) == "production" ==> IsOpen(s.window, now))
  }

  /** Comparing with a missing order is false, so only two known orders can refuse a promotion. */
  predicate Backward(source: string, target: string) {
    OrderOf(source).Some? && OrderOf(target).Some? && OrderOf(source).value >= OrderOf(target).value
  }

  predicate Startable(s: State, source: string, target: string, now: Clock) {
    && !LookupThrows(source) && EnvironmentOf(target).Some?
    && !Backward(source, target)
    && CanDeploy(s, target, now)
  }

  /** The source comes before the target. */
  predicate Before(source: string, target: string) {
    exists i, j :: 0 <= i < j < |LADDER| && LADDER[i] == Lower(source) && LADDER[j] == Lower(target)
  }

  /** Not frozen, and for production within the deployment hours of an allowed day. */
  predicate Unlocked(s: State, name: string, now: Clock) {
    && Lower(name) !in s.frozen
    && (Lower(name) == "production" ==> now.day in s.window.days && s.window.start <= now.hour < s.window.end)
  }

  lemma Rungs()
    ensures LADDER[0] == "development" && LADDER[1] == "testing" && LADDER[2] == "staging" && LADDER[3] == "production"
    ensures forall i, j :: 0 <= i < j < |LADDER| ==> LADDER[i] != LADDER[j]
    ensures "constructor" !in LADDER && "__proto__" !in LADDER
  {
    assert "development"[0] != "testing"[0] && "production"[0] != "staging"[0] && "testing"[0] != "staging"[0];
    assert "constructor"[0] == 'c' && "__proto__"[0] == '_';
    assert "development"[0] == 'd' && "testing"[0] == 't' && "staging"[0] == 's' && "production"[0] == 'p';
  }

  /** The orders of two environments compare as their places do. */
  lemma BackwardIff(source: string, target: string)
    requires Lower(source) in LADDER && Lower(target) in LADDER
    ensures Backward(source, target) <==> !Before(source, target)
  {
    Rungs();
    var i :| 0 <= i < |LADDER| && LADDER[i] == Lower(source);
    var j :| 0 <= j < |LADDER| && LADDER[j] == Lower(target);
    assert OrderOf(source) == Some(i + 1) && OrderOf(target) == Some(j + 1);
    assert Before(source, target) <==> i < j;
  }

  /**
   Between two of the four environments a promotion starts exactly when the source comes before the
   target and the target is unlocked; from any other source, whenever the target is unlocked.
   */
  lemma StartableIff(s: State, source: string, target: string, now: Clock)
    requires Lower(target) in LADDER
    ensures Startable(s, source, target, now) <==>
              && Lower(source) != "__proto__" && (Lower(source) in LADDER ==> Before(source, target))
              && Unlocked(s, target, now)
  {
    Rungs();
    if Lower(source) in LADDER {
      BackwardIff(source, target);
    } else {
      assert OrderOf(source).None?;
    }
  }

  /** `constructor` is a target from everywhere, unless an environment called `object` is frozen. */
  lemma ConstructorStartableIff(s: State, source: string, now: Clock)
    ensures Startable(s, source, "constructor", now) <==> Lower(source) != "__proto__" && "object" !in s.frozen
  {
    assert Lower("constructor") == "constructor";
    Rungs();
  }

  /** A decision is recorded with who took it, and a result as it came back. */
  lemma DecisionIs(s: State, id: nat, approver: string, now: Clock, ok: bool)
    ensures Undecided(s, id) ==>
              && Step(s, Approve(id, approver, now)).approvals[id] == Approval(APPROVED, Some(approver))
              && Step(s, Reject(id, approver)).approvals[id] == Approval(DECLINED, Some(approver))
    ensures id in s.promotions && s.promotions[id].status == DEPLOYING ==>
              Step(s, Finish(id, ok)).promotions[id].status == if ok then SUCCESS else FAILED
  {
  }

  /** No promotion to a name that is neither one of them nor `constructor` ever starts. */
  lemma UnknownTarget(s: State, source: string, target: string, now: Clock)
    requires Lower(target) !in LADDER && Lower(target) != "constructor"
    ensures !Startable(s, source, target, now)
  {
    Rungs();
    assert forall i :: 0 <= i < |LADDER| ==> Lower(target) != LADDER[i];
  }

  datatype Event =
    | Start(id: nat, source: string, target: string, now: Clock)
    | Finish(id: nat, ok: bool)
    | Approve(id: nat, approver: string, now: Clock)
    | Reject(id: nat, approver: string)
    | Freeze(name: string)
    | Unfreeze(name: string)
    | SetWindow(window: Window)

  predicate Undecided(s: State, id: nat) {
    id in s.approvals && s.approvals[id].status == AwaitingDecision && id in s.promotions
  }

  function Launched(s: State, id: nat): State
    requires id in s.promotions
  {
    s.(promotions := s.promotions[id := s.promotions[id].(status := DEPLOYING)], launched := s.launched + [id])
  }

  /** `Finish` is the deployment of a promotion coming back; refused operations change nothing. */
  function Step(s: State, e: Event): State {
    match e
    case Start(id, source, target, now) =>
      if !Startable(s, source, target, now) then s
      else
        var t := s.(promotions := s.promotions[id := Promotion(source, target, PENDING)]);
        if EnvironmentOf(target).value.requiresApproval
        then t.(approvals := t.approvals[id := Approval(AwaitingDecision, None)])
        else Launched(t, id)
    case Finish(id, ok) =>
      if id !in s.promotions || s.promotions[id].status != DEPLOYING then s
      else s.(promotions := s.promotions[id := s.promotions[id].(status := if ok then SUCCESS else FAILED)])
    case Approve(id, approver, _) =>
      if !Undecided(s, id) then s
      else Launched(s.(approvals := s.approvals[id := Approval(APPROVED, Some(approver))]), id)
    case Reject(id, approver) =>
      if !Undecided(s, id) then s
      else s.(approvals := s.approvals[id := Approval(DECLINED, Some(approver))],
              promotions := s.promotions[id := s.promotions[id].(status := REJECTED)])
    case Freeze(name) => s.(frozen := s.frozen + {Lower(name)})
    case Unfreeze(name) => s.(frozen := s.frozen - {Lower(name)})
    case SetWindow(w) => s.(window := w)
  }

  function Run(s: State, events: seq<Event>): State
    decreases |events|
  {
    if events == [] then s else Run(Step(s, events[0]), events[1..])
  }

  // ---------------------------------------------------------------- the objects

  class FreezeManager {
    var frozenEnvironments: set<string>

    constructor ()
      ensures frozenEnvironments == {}
    {
      frozenEnvironments := {};
    }
  }

  class DeploymentWindow {
    var allowed: Window

    constructor ()
      ensures allowed == INITIAL.window
    {
      allowed := Window(0, 24, [1, 2, 3, 4, 5]);
    }

    method SetAllowed(window: Window)
      modifies this
      ensures allowed == window
    {
      allowed := window;
    }

    method IsWindowOpen(now: Clock) returns (open: bool)
      ensures open == IsOpen(allowed, now)
    {
      if now.day !in allowed.days {
        return false;
      }
      open := !(now.hour < allowed.start || now.hour >= allowed.end);
    }
  }

  class ApprovalManager {
    var approvals: map<nat, Approval>

    constructor ()
      ensures approvals == map[]
    {
      approvals := map[];
    }

    method RequestApproval(id: nat)
      modifies this
      ensures approvals == old(approvals)[id := Approval(AwaitingDecision, None)]
    {
      approvals := approvals[id := Approval(AwaitingDecision, None)];
    }

    /** False when there is no request or it has been decided already. */
    method SubmitApproval(id: nat, approver: string, approved: bool) returns (ok: bool)
      modifies this
      ensures ok == (id in old(approvals) && old(approvals)[id].status == AwaitingDecision)
      ensures approvals
           == if ok then old(approvals)[id := Approval(if approved then APPROVED else DECLINED, Some(approver))]
              else old(approvals)
    {
      if id !in approvals || approvals[id].status != AwaitingDecision {
        return false;
      }
      approvals := approvals[id := Approval(if approved then APPROVED else DECLINED, Some(approver))];
      ok := true;
    }
  }

  class PromotionEngine {
    const approval: ApprovalManager
    const freezes: FreezeManager
    const window: DeploymentWindow
    var promotions: map<nat, Promotion>
    ghost var launched: seq<nat>

    ghost function View(): State
      reads this, approval, freezes, window
    {
      State(promotions, approval.approvals, freezes.frozenEnvironments, window.allowed, launched)
    }

    constructor ()
      ensures View() == INITIAL && fresh(approval) && fresh(freezes) && fresh(window)
    {
      approval := new ApprovalManager();
      freezes := new FreezeManager();
      window := new DeploymentWindow();
      promotions, launched := map[], [];
    }

    method DeployAllowed(name: string, now: Clock) returns (r: bool)
      ensures r == CanDeploy(View(), name, now)
    {
      var env := EnvironmentOf(name);
      if env.None? || env.value.frozenAs in freezes.frozenEnvironments {
        return false;
      }
      if Lower(name) == "production" {
        r := window.IsWindowOpen(now);
      } else {
        r := true;
      }
    }

    /** `startPromotion` under a fresh id, up to its first await. False when it throws. */
    method StartPromotion(id: nat, source: string, target: string, now: Clock) returns (ok: bool)
      modifies this`promotions, this`launched, approval
      ensures ok == Startable(old(View()), source, target, now)
      ensures Lower(source) in LADDER && Lower(target) in LADDER ==>
                (ok <==> Before(source, target) && Unlocked(old(View()), target, now))
      ensures View() == Step(old(View()), Start(id, source, target, now))
    {
      if Lower(source) in LADDER && Lower(target) in LADDER {
        Rungs();
        StartableIff(View(), source, target, now);
      }
      if LookupThrows(source) {
        return false;
      }
      var from, to := EnvironmentOf(source), EnvironmentOf(target);
      if to.None? {
        return false;
      }
      if from.Some? && from.value.order.Some? && to.value.order.Some? {
        if from.value.order.value >= to.value.order.value {
          return false;
        }
      }
      ok := DeployAllowed(target, now);
      if ok {
        promotions := promotions[id := Promotion(source, target, PENDING)];
        if to.value.requiresApproval {
          approval.RequestApproval(id);
        } else {
          ExecutePromotion(id);
        }
      }
    }

    /** `executePromotion` up to the deployment it awaits. */
    method ExecutePromotion(id: nat)
      requires id in promotions
      modifies this`promotions, this`launched
      ensures View() == Launched(old(View()), id)
    {
      promotions := promotions[id := promotions[id].(status := DEPLOYING)];
      launched := launched + [id];
    }

    /** The rest of `executePromotion`. */
    method FinishPromotion(id: nat, ok: bool)
      requires id in promotions && promotions[id].status == DEPLOYING
      modifies this`promotions
      ensures View() == Step(old(View()), Finish(id, ok))
      ensures id in promotions && promotions[id].status == if ok then SUCCESS else FAILED
    {
      promotions := promotions[id := promotions[id].(status := if ok then SUCCESS else FAILED)];
    }

    method ApprovePromotion(id: nat, approver: string, now: Clock) returns (ok: bool)
      requires id in approval.approvals ==> id in promotions
      modifies this`promotions, this`launched, approval
      ensures ok == Undecided(old(View()), id) && View() == Step(old(View()), Approve(id, approver, now))
    {
      ok := approval.SubmitApproval(id, approver, true);
      if ok {
        ExecutePromotion(id);
      }
    }

    method RejectPromotion(id: nat, approver: string) returns (ok: bool)
      requires id in approval.approvals ==> id in promotions
      modifies this`promotions, approval
      ensures ok == Undecided(old(View()), id) && View() == Step(old(View()), Reject(id, approver))
    {
      ok := approval.SubmitApproval(id, approver, false);
      if ok {
        promotions := promotions[id := promotions[id].(status := REJECTED)];
      }
    }

    method FreezeEnvironment(name: string)
      modifies freezes
      ensures View() == Step(old(View()), Freeze(name))
    {
      freezes.frozenEnvironments := freezes.frozenEnvironments + {Lower(name)};
    }

    method UnfreezeEnvironment(name: string)
      modifies freezes
      ensures View() == Step(old(View()), Unfreeze(name))
    {
      freezes.frozenEnvironments := freezes.frozenEnvironments - {Lower(name)};
    }
  }

  // ---------------------------------------------------------------- safety over runs

  predicate Underway(status: PromotionStatus) {
    status in {DEPLOYING, SUCCESS, FAILED}
  }

  predicate NeedsApproval(p: Promotion) {
    Lower(p.target) == "production"
  }

  /** Approval and promotion status, as they are at every await. */
  predicate StatusesMatch(approval: ApprovalStatus, status: PromotionStatus) {
    match approval
    case AwaitingDecision => status == PENDING
    case APPROVED => Underway(status)
    case DECLINED => status == REJECTED
  }

  /** The target is one of the four environments, and a source that is one comes before it. */
  predicate Upward(p: Promotion) {
    Lower(p.target) in LADDER && (Lower(p.source) in LADDER ==> Before(p.source, p.target))
  }

  function Launches(s: State, id: nat): nat {
    multiset(s.launched)[id]
  }

  predicate SafeAt(s: State, id: nat) {
    if id !in s.promotions then id !in s.approvals && Launches(s, id) == 0
    else
      var p := s.promotions[id];
      && EnvironmentOf(p.target).Some? && !Backward(p.source, p.target)
      && (id in s.approvals <==> NeedsApproval(p))
      && (if id in s.approvals then StatusesMatch(s.approvals[id].status, p.status) else Underway(p.status))
      && Launches(s, id) == if Underway(p.status) then 1 else 0
  }

  /** Promotion ids are fresh. */
  ghost predicate FreshIds(s: State, events: seq<Event>)
    decreases |events|
  {
    events != [] ==>
      (events[0].Start? ==> events[0].id !in s.promotions) && FreshIds(Step(s, events[0]), events[1..])
  }

  lemma LaunchCounts(s: State, launched: nat, id: nat)
    requires launched in s.promotions
    ensures Launches(Launched(s, launched), id) == Launches(s, id) + (if id == launched then 1 else 0)
  {
    assert multiset(s.launched + [launched]) == multiset(s.launched) + multiset{launched};
  }

  lemma StepKeepsSafety(s: State, e: Event, id: nat)
    requires SafeAt(s, id) && FreshIds(s, [e])
    ensures SafeAt(Step(s, e), id)
  {
    if e.Start? && Startable(s, e.source, e.target, e.now) {
      var p := Promotion(e.source, e.target, PENDING);
      LaunchCounts(s.(promotions := s.promotions[e.id := p]), e.id, id);
    } else if e.Approve? && Undecided(s, e.id) {
      LaunchCounts(s.(approvals := s.approvals[e.id := Approval(APPROVED, Some(e.approver))]), e.id, id);
    }
  }

  lemma {:induction false} SafeFrom(s: State, events: seq<Event>, id: nat)
    requires SafeAt(s, id) && FreshIds(s, events)
    ensures SafeAt(Run(s, events), id)
    decreases |events|
  {
    if events == [] {
    } else {
      StepKeepsSafety(s, events[0], id);
      SafeFrom(Step(s, events[0]), events[1..], id);
    }
  }

  /**
   Over every interleaving: an approval is pending, granted or declined exactly when its promotion is
   pending, underway or rejected, and only promotions to production have one; each promotion deploys
   at most once, a waiting or rejected one never; and the target is above any known source exactly
   when it is one of the four environments.
   */
  lemma PromotionSafety(events: seq<Event>, id: nat)
    requires FreshIds(INITIAL, events) && id in Run(INITIAL, events).promotions
    ensures var s := Run(INITIAL, events);
            var p := s.promotions[id];
            && (id in s.approvals <==> NeedsApproval(p))
            && (id in s.approvals ==>
                  && (s.approvals[id].status == AwaitingDecision <==> p.status == PENDING)
                  && (s.approvals[id].status == APPROVED <==> p.status in {DEPLOYING, SUCCESS, FAILED})
                  && (s.approvals[id].status == DECLINED <==> p.status == REJECTED))
            && Launches(s, id) <= 1
            && (Launches(s, id) == 0 <==> p.status in {PENDING, REJECTED})
            && (Upward(p) <==> Lower(p.target) in LADDER)
            && (Lower(p.target) in LADDER || Lower(p.target) == "constructor")
  {
    SafeFrom(INITIAL, events, id);
    var p := Run(INITIAL, events).promotions[id];
    Rungs();
    if Lower(p.target) in LADDER && Lower(p.source) in LADDER {
      BackwardIff(p.source, p.target);
    }
  }

  /** At the beginning production is open on weekdays at any hour. */
  lemma InitialWindow(source: string, now: Clock)
    requires Lower(source) in {"development", "testing", "staging"} && 0 <= now.hour < 24
    ensures Startable(INITIAL, source, "production", now) <==> 1 <= now.day <= 5
  {
    assert Lower("production") == "production";
    Rungs();
    assert LADDER[3] == Lower("production");
    StartableIff(INITIAL, source, "production", now);
    assert Before(source, "production") by {
      if Lower(source) == "development" { assert LADDER[0] == Lower(source); }
      else if Lower(source) == "testing" { assert LADDER[1] == Lower(source); }
      else { assert LADDER[2] == Lower(source); }
    }
  }

  /** A frozen environment takes no promotion, whatever the case of its name; lifting the freeze undoes that. */
  lemma FreezeRefuses(s: State, name: string, source: string, target: string, now: Clock)
    requires Lower(target) in LADDER && Lower(name) == Lower(target)
    ensures !Startable(Step(s, Freeze(name)), source, target, now)
    ensures Lower(target) !in s.frozen ==>
              (Startable(Step(Step(s, Freeze(name)), Unfreeze(name)), source, target, now)
               <==> Startable(s, source, target, now))
  {
    StartableIff(s, source, target, now);
    StartableIff(Step(s, Freeze(name)), source, target, now);
    StartableIff(Step(Step(s, Freeze(name)), Unfreeze(name)), source, target, now);
  }

  /** From production, with no approval and on any day, a promotion to the target `constructor` deploys. */
  lemma ConstructorIsATarget(now: Clock)
    ensures var s := Run(INITIAL, [Start(1, "production", "constructor", now)]);
            && 1 in s.promotions && s.promotions[1].status == DEPLOYING && 1 !in s.approvals
            && !Upward(s.promotions[1])
  {
    Rungs();
    assert Lower("production") == "production" && Lower("constructor") == "constructor";
    assert "constructor"[0] != "development"[0];
    var events := [Start(1, "production", "constructor", now)];
    assert Startable(INITIAL, "production", "constructor", now);
    assert Run(INITIAL, events) == Run(Step(INITIAL, events[0]), []);
  }

  /** What a decision or a result leaves open: nothing, except the result of a deployment underway. */
  predicate Settled(s: State, t: State, id: nat)
    requires id in s.promotions
  {
    && id in t.promotions
    && (id in s.approvals && s.approvals[id].status != AwaitingDecision ==>
          id in t.approvals && t.approvals[id] == s.approvals[id])
    && (s.promotions[id].status in {SUCCESS, FAILED, REJECTED} ==> t.promotions[id] == s.promotions[id])
    && (s.promotions[id].status == DEPLOYING ==> Underway(t.promotions[id].status))
  }

  lemma StepSettled(s: State, e: Event, id: nat)
    requires SafeAt(s, id) && FreshIds(s, [e]) && id in s.promotions
    ensures Settled(s, Step(s, e), id)
  {
  }

  /** Decisions and results are final: nothing later in a run changes them. */
  lemma {:induction false} DecisionsAreFinal(s: State, events: seq<Event>, id: nat)
    requires SafeAt(s, id) && FreshIds(s, events) && id in s.promotions
    ensures Settled(s, Run(s, events), id)
    decreases |events|
  {
    if events == [] {
    } else {
      StepKeepsSafety(s, events[0], id);
      StepSettled(s, events[0], id);
      DecisionsAreFinal(Step(s, events[0]), events[1..], id);
    }
  }

  // ---------------------------------------------------------------- freezes and windows

  /** An event that launches a deployment into an environment closed to deployments at that time. */
  predicate ClosedLaunch(s: State, e: Event) {
    && Step(s, e).launched != s.launched
    && (e.Start? || e.Approve?)
    && e.id in Step(s, e).promotions
    && !CanDeploy(s, Step(s, e).promotions[e.id].target, e.now)
  }

  /** An approval given while the environment is frozen or outside the window. */
  predicate LateApproval(s: State, e: Event) {
    e.Approve? && Undecided(s, e.id) && !CanDeploy(s, s.promotions[e.id].target, e.now)
  }

  /** Freezes and windows are only looked at when a promotion starts, so an approval is the one way past them. */
  lemma ClosedLaunchIff(s: State, e: Event)
    ensures ClosedLaunch(s, e) <==> LateApproval(s, e)
  {
  }

  function Count(s: State, events: seq<Event>, what: (State, Event) -> bool): nat
    decreases |events|
  {
    if events == [] then 0 else (if what(s, events[0]) then 1 else 0) + Count(Step(s, events[0]), events[1..], what)
  }

  lemma {:induction false} ClosedLaunchesOverRuns(s: State, events: seq<Event>)
    ensures Count(s, events, ClosedLaunch) == Count(s, events, LateApproval)
    decreases |events|
  {
    if events == [] {
    } else {
      ClosedLaunchIff(s, events[0]);
      ClosedLaunchesOverRuns(Step(s, events[0]), events[1..]);
    }
  }

  /** A promotion to production requested on an open day deploys into the freeze that came before its approval. */
  lemma ApprovalIgnoresFreeze(approver: string)
    ensures var monday := Clock(1, 9);
            var events := [Start(1, "staging", "production", monday), Freeze("production"),
                           Approve(1, approver, monday)];
            var s := Run(INITIAL, events);
            1 in s.promotions && s.promotions[1].status == DEPLOYING && !CanDeploy(s, "production", monday)
  {
    var monday := Clock(1, 9);
    var events := [Start(1, "staging", "production", monday), Freeze("production"), Approve(1, approver, monday)];
    assert Lower("production") == "production" && Lower("staging") == "staging";
    assert "production"[0] != "staging"[0];
    var s1 := Step(INITIAL, events[0]);
    assert Startable(INITIAL, "staging", "production", monday);
    var s2 := Step(s1, events[1]);
    var s3 := Step(s2, events[2]);
    assert events[1..][1..] == [events[2]] && [events[2]][1..] == [];
    assert Run(s2, [events[2]]) == s3;
  }
}
