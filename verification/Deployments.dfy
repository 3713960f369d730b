/**
 Deployments and rollbacks of applications: the deployment state machine, which writes its state
 through to the application registry and keeps the gauge of active applications, and the two engines
 that drive it. Engines await between their steps, so the jobs of several applications interleave.
 */
module Deployments {
  import opened Wrappers

  datatype Status =
    | CREATED | BUILDING | BUILT | DEPLOYING | VERIFYING | ACTIVE
    | SCALING | UPDATING | FAILED | ROLLBACK | ARCHIVED

  datatype Release = Release(digest: string, version: string, strategy: string)

  /** A registered application; `status` is absent until the first transition. */
  datatype App = App(status: Option<Status>, image: string, version: string)

  /** The application registry and the gauge `application_active`. */
  datatype World = World(registry: map<nat, App>, active: nat)

  function Allowed(from: Status): set<Status> {
    match from
    case CREATED => {BUILDING, DEPLOYING, FAILED, ARCHIVED}
    case BUILDING => {BUILT, FAILED}
    case BUILT => {DEPLOYING, FAILED, ARCHIVED}
    case DEPLOYING => {VERIFYING, FAILED, ROLLBACK}
    case VERIFYING => {ACTIVE, FAILED}
    case ACTIVE => {UPDATING, SCALING, FAILED, ARCHIVED, ROLLBACK}
    case SCALING => {ACTIVE, FAILED}
    case UPDATING => {VERIFYING, FAILED}
    case FAILED => {ROLLBACK, BUILDING, DEPLOYING, ARCHIVED}
    case ROLLBACK => {VERIFYING, FAILED, ACTIVE}
    case ARCHIVED => {CREATED}
  }

  predicate Legal(from: Status, to: Status) {
    to in Allowed(from)
  }

  /** By target: from which statuses an application gets there. */
  function Entrances(to: Status): set<Status> {
    match to
    case CREATED => {ARCHIVED}
    case BUILDING => {CREATED, FAILED}
    case BUILT => {BUILDING}
    case DEPLOYING => {CREATED, BUILT, FAILED}
    case VERIFYING => {DEPLOYING, UPDATING, ROLLBACK}
    case ACTIVE => {VERIFYING, SCALING, ROLLBACK}
    case SCALING => {ACTIVE}
    case UPDATING => {ACTIVE}
    case FAILED => {CREATED, BUILDING, BUILT, DEPLOYING, VERIFYING, ACTIVE, SCALING, UPDATING, ROLLBACK}
    case ROLLBACK => {DEPLOYING, ACTIVE, FAILED}
    case ARCHIVED => {CREATED, BUILT, ACTIVE, FAILED}
  }

  lemma LegalIffEntrance(from: Status, to: Status)
    ensures Legal(from, to) <==> from in Entrances(to)
  {
    match to
    case CREATED =>
    case BUILDING =>
    case BUILT =>
    case DEPLOYING =>
    case VERIFYING =>
    case ACTIVE =>
    case SCALING =>
    case UPDATING =>
    case FAILED =>
    case ROLLBACK =>
    case ARCHIVED =>
  }

  function Gauge(active: nat, from: Status, to: Status): nat {
    if to == ACTIVE && from != ACTIVE then active + 1
    else if from == ACTIVE && to != ACTIVE && active > 0 then active - 1
    else active
  }

  /** A legal transition: the registry entry takes the new status, whatever else it holds. */
  function Moved(w: World, app: nat, from: Status, to: Status): World {
    World(
      if app in w.registry then w.registry[app := w.registry[app].(status := Some(to))] else w.registry,
      Gauge(w.active, from, to))
  }

  function Saved(w: World, app: nat, config: App): World {
    w.(registry := w.registry[app := config])
  }

  datatype Kind = Deployment | Rollback

  /** The steps of a deployment plan. */
  datatype PlanStep = StopOld | StartNew | VerifyReadiness | StopPrevious

  /** What a job does from one await to the next. */
  datatype Action = Validate | Stop | EnterStarting | Launch | Verify | CleanUp | EnterRollback | EnterVerifying

  /** A run of an engine: its own state machine, and the copy of the registry entry it read at the start. */
  datatype Job = Job(app: nat, kind: Kind, release: Release, copy: App, fsm: Status, todo: seq<Action>)

  /** A start changes the status first and then awaits the containers, so other jobs run in between. */
  function ActionsOf(step: PlanStep): seq<Action> {
    match step
    case StopOld => [Stop]
    case StartNew => [EnterStarting, Launch]
    case VerifyReadiness => [Verify]
    case StopPrevious => [CleanUp]
  }

  function Actions(steps: seq<PlanStep>): seq<Action>
    decreases |steps|
  {
    if steps == [] then [] else ActionsOf(steps[0]) + Actions(steps[1..])
  }

  lemma RecreateActions()
    ensures Actions([StopOld, StartNew]) == [Stop, EnterStarting, Launch]
  {
    assert [StopOld, StartNew][1..] == [StartNew] && [StartNew][1..] == [];
    assert Actions([StartNew]) == [EnterStarting, Launch];
  }

  lemma RollingActions()
    ensures Actions([StartNew, VerifyReadiness, StopPrevious]) == [EnterStarting, Launch, Verify, CleanUp]
  {
    assert [StartNew, VerifyReadiness, StopPrevious][1..] == [VerifyReadiness, StopPrevious];
    assert [VerifyReadiness, StopPrevious][1..] == [StopPrevious] && [StopPrevious][1..] == [];
    assert Actions([StopPrevious]) == [CleanUp] && Actions([VerifyReadiness, StopPrevious]) == [Verify, CleanUp];
  }

  function Plan(strategy: string): (steps: seq<PlanStep>)
    ensures Actions(steps)
         == if strategy == "Recreate" then [Stop, EnterStarting, Launch] else [EnterStarting, Launch, Verify, CleanUp]
  {
    if strategy == "Recreate" then
      RecreateActions();
      [StopOld, StartNew]
    else
      RollingActions();
      [StartNew, VerifyReadiness, StopPrevious]
  }

  function StartStatus(app: App, kind: Kind): Status {
    app.status.GetOr(if kind.Deployment? then CREATED else FAILED)
  }

  function NewJob(w: World, app: nat, kind: Kind, release: Release): Job
    requires app in w.registry
  {
    Job(app, kind, release, w.registry[app], StartStatus(w.registry[app], kind),
        [Validate] + if kind.Deployment? then Actions(Plan(release.strategy))
                     else [EnterRollback, Launch, EnterVerifying])
  }

  datatype Outcome = Outcome(world: World, fsm: Status, ok: bool)

  /** A transition; `ok` says whether it was legal. */
  function Attempt(w: World, app: nat, from: Status, to: Status): Outcome {
    if Legal(from, to) then Outcome(Moved(w, app, from, to), to, true) else Outcome(w, from, false)
  }

  /**
   One step of a job. `ok` is what the outside world answers: validation, and stopping or starting
   containers. The deployment executor swallows illegal transitions and failed readiness checks, the
   rollback engine only the latter.
   */
  function Perform(w: World, app: nat, fsm: Status, action: Action, ok: bool): Outcome {
    match action
    case EnterStarting => Attempt(w, app, fsm, if fsm == ACTIVE then UPDATING else DEPLOYING).(ok := true)
    case Verify => Attempt(w, app, fsm, VERIFYING).(ok := true)
    case CleanUp => Outcome(w, fsm, true)
    case EnterRollback => Attempt(w, app, fsm, ROLLBACK)
    case EnterVerifying => Attempt(w, app, fsm, VERIFYING)
    case _ => Outcome(w, fsm, ok)
  }

  /** The `catch` block of an engine. Only the deployment engine saves its copy. */
  function Aborted(w: World, job: Job, fsm: Status): World {
    var v := Attempt(w, job.app, fsm, FAILED).world;
    if job.kind.Deployment? then Saved(v, job.app, job.copy.(status := Some(FAILED))) else v
  }

  /**
   The end of a job; `ok` is false when publishing the completion fails. A rollback saves its copy
   with its old status.
   */
  function Completed(w: World, job: Job, ok: bool): Outcome {
    var o := Attempt(w, job.app, job.fsm, ACTIVE);
    if !o.ok || !ok then Outcome(Aborted(o.world, job, o.fsm), o.fsm, false)
    else
      var config := job.copy.(image := job.release.digest, version := job.release.version);
      o.(world := Saved(o.world, job.app, if job.kind.Deployment? then config.(status := Some(ACTIVE)) else config))
  }

  function PerformAll(w: World, app: nat, fsm: Status, todo: seq<Action>, oks: seq<bool>): Outcome
    requires |oks| >= |todo|
    decreases |todo|
  {
    if todo == [] then Outcome(w, fsm, true)
    else
      var o := Perform(w, app, fsm, todo[0], oks[0]);
      if o.ok then PerformAll(o.world, app, o.fsm, todo[1..], oks[1..]) else o
  }

  /** A whole job with nothing in between. */
  function RunJob(w: World, job: Job, oks: seq<bool>): Outcome
    requires |oks| == |job.todo| + 1
  {
    var o := PerformAll(w, job.app, job.fsm, job.todo, oks);
    if o.ok then Completed(o.world, job.(fsm := o.fsm), oks[|job.todo|])
    else o.(world := Aborted(o.world, job, o.fsm))
  }

  // ---------------------------------------------------------------- the objects

  /** The registry's cache hands out and stores deep copies: values. */
  class ApplicationCache {
    var cache: map<nat, App>

    constructor ()
      ensures cache == map[]
    {
      cache := map[];
    }

    method Get(id: nat) returns (r: Option<App>)
      ensures r == if id in cache then Some(cache[id]) else None
    {
      r := if id in cache then Some(cache[id]) else None;
    }

    method Set(id: nat, config: App)
      modifies this
      ensures cache == old(cache)[id := config]
    {
      cache := cache[id := config];
    }
  }

  class FsmMetrics {
    var applicationActive: nat

    constructor ()
      ensures applicationActive == 0
    {
      applicationActive := 0;
    }
  }

  function Now(registry: ApplicationCache, metrics: FsmMetrics): World
    reads registry, metrics
  {
    World(registry.cache, metrics.applicationActive)
  }

  /** What a step does before the rest of a plan, whose answers begin at `k`. */
  lemma StepPerforms(w: World, app: nat, fsm: Status, step: PlanStep, rest: seq<Action>, oks: seq<bool>, k: nat)
    requires k + |ActionsOf(step)| + |rest| == |oks|
    ensures var o := Perform(w, app, fsm, ActionsOf(step)[0], oks[k]);
            PerformAll(w, app, fsm, ActionsOf(step) + rest, oks[k..])
              == if step == StartNew
                 then (if oks[k + 1] then PerformAll(o.world, app, o.fsm, rest, oks[k + 2..]) else o.(ok := false))
                 else (if o.ok then PerformAll(o.world, app, o.fsm, rest, oks[k + 1..]) else o)
  {
    var todo := ActionsOf(step) + rest;
    assert todo[0] == ActionsOf(step)[0] && oks[k..][0] == oks[k] && oks[k..][1..] == oks[k + 1..];
    if step == StartNew {
      assert todo[1..] == [Launch] + rest && ([Launch] + rest)[1..] == rest;
      assert oks[k + 1..][0] == oks[k + 1] && oks[k + 1..][1..] == oks[k + 2..];
    } else {
      assert todo[1..] == rest;
    }
  }

  class DeploymentFSM {
    const appId: nat
    const registry: ApplicationCache
    const metrics: FsmMetrics
    var state: Status

    constructor (appId: nat, registry: ApplicationCache, metrics: FsmMetrics, state: Status)
      ensures this.appId == appId && this.registry == registry && this.metrics == metrics && this.state == state
    {
      this.appId, this.registry, this.metrics, this.state := appId, registry, metrics, state;
    }

    method TransitionTo(to: Status) returns (ok: bool)
      modifies this`state, registry, metrics
      ensures Outcome(Now(registry, metrics), state, ok) == Attempt(old(Now(registry, metrics)), appId, old(state), to)
    {
      if !Legal(state, to) {
        return false;
      }
      var oldState := state;
      state := to;
      var config := registry.Get(appId);
      if config.Some? && config.value.status != Some(to) {
        registry.Set(appId, config.value.(status := Some(to)));
      }
      if to == ACTIVE && oldState != ACTIVE {
        metrics.applicationActive := metrics.applicationActive + 1;
      }
      if oldState == ACTIVE && to != ACTIVE {
        metrics.applicationActive := if metrics.applicationActive > 0 then metrics.applicationActive - 1 else 0;
      }
      ok := true;
    }

    /** `DeploymentExecutor.execute`: stops at the first step that throws. `oks` answers each action of the steps. */
    method Execute(steps: seq<PlanStep>, oks: seq<bool>) returns (ok: bool)
      requires |oks| == |Actions(steps)|
      modifies this`state, registry, metrics
      ensures Outcome(Now(registry, metrics), state, ok)
           == PerformAll(old(Now(registry, metrics)), appId, old(state), Actions(steps), oks)
    {
      var i, k := 0, 0;
      while i < |steps|
        invariant 0 <= i <= |steps| && 0 <= k <= |oks| && |oks| - k == |Actions(steps[i..])|
        invariant PerformAll(Now(registry, metrics), appId, state, Actions(steps[i..]), oks[k..])
               == PerformAll(old(Now(registry, metrics)), appId, old(state), Actions(steps), oks)
      {
        ghost var rest := Actions(steps[i + 1..]);
        assert Actions(steps[i..]) == ActionsOf(steps[i]) + rest by {
          assert steps[i..][0] == steps[i] && steps[i..][1..] == steps[i + 1..];
        }
        StepPerforms(Now(registry, metrics), appId, state, steps[i], rest, oks, k);
        var legal;
        if steps[i] == StartNew {
          if state == ACTIVE {
            legal := TransitionTo(UPDATING);
          } else {
            legal := TransitionTo(DEPLOYING);
          }
          if !oks[k + 1] {
            return false;
          }
          k := k + 2;
        } else {
          if steps[i] == StopOld {
            if !oks[k] {
              return false;
            }
          } else if steps[i] == VerifyReadiness {
            legal := TransitionTo(VERIFYING);
          }
          k := k + 1;
        }
        i := i + 1;
      }
      ok := true;
    }
  }

  /** `DeploymentPlan.generate`. */
  method Generate(strategy: string) returns (steps: seq<PlanStep>)
    ensures steps == Plan(strategy)
  {
    steps := [];
    if strategy == "Recreate" {
      steps := steps + [StopOld];
      steps := steps + [StartNew];
    } else {
      steps := steps + [StartNew];
      steps := steps + [VerifyReadiness];
      steps := steps + [StopPrevious];
    }
  }

  lemma PerformAllHead(w: World, job: Job, oks: seq<bool>)
    requires job.todo != [] && job.todo[0] == Validate && |oks| == |job.todo| + 1
    ensures PerformAll(w, job.app, job.fsm, job.todo, oks)
         == if oks[0] then PerformAll(w, job.app, job.fsm, job.todo[1..], oks[1..|job.todo|])
            else Outcome(w, job.fsm, false)
  {
    PerformAllPrefix(w, job.app, job.fsm, job.todo[1..], oks[1..], oks[1..|job.todo|]);
  }

  lemma {:induction false} PerformAllPrefix(w: World, app: nat, fsm: Status, todo: seq<Action>,
                                            a: seq<bool>, b: seq<bool>)
    requires |a| >= |todo| && |b| >= |todo| && forall i :: 0 <= i < |todo| ==> a[i] == b[i]
    ensures PerformAll(w, app, fsm, todo, a) == PerformAll(w, app, fsm, todo, b)
    decreases |todo|
  {
    if todo == [] {
    } else {
      var o := Perform(w, app, fsm, todo[0], a[0]);
      PerformAllPrefix(o.world, app, o.fsm, todo[1..], a[1..], b[1..]);
    }
  }

  /** `oks` answers the validation, each step, and the publication of the completion. */
  method RunDeployment(registry: ApplicationCache, metrics: FsmMetrics, appId: nat, release: Release, oks: seq<bool>)
    returns (ok: bool)
    requires |oks| == |Actions(Plan(release.strategy))| + 2
    modifies registry, metrics
    ensures appId !in old(registry.cache) ==> !ok && Now(registry, metrics) == old(Now(registry, metrics))
    ensures appId in old(registry.cache) ==>
              var o := RunJob(old(Now(registry, metrics)),
                              old(NewJob(Now(registry, metrics), appId, Deployment, release)), oks);
              ok == o.ok && Now(registry, metrics) == o.world
  {
    var found := registry.Get(appId);
    if found.None? {
      return false;
    }
    var config := found.value;
    var fsm := new DeploymentFSM(appId, registry, metrics, config.status.GetOr(CREATED));
    ghost var job := NewJob(Now(registry, metrics), appId, Deployment, release);
    PerformAllHead(Now(registry, metrics), job, oks);
    ok := oks[0];
    if ok {
      var steps := Generate(release.strategy);
      assert job.todo[1..] == Actions(steps);
      ok := fsm.Execute(steps, oks[1..|oks| - 1]);
    }
    if ok {
      ok := fsm.TransitionTo(ACTIVE);
      ok := ok && oks[|oks| - 1];
    }
    if ok {
      config := config.(status := Some(ACTIVE), image := release.digest, version := release.version);
      registry.Set(appId, config);
    } else {
      var _ := fsm.TransitionTo(FAILED);
      registry.Set(appId, config.(status := Some(FAILED)));
    }
  }

  /** `oks` answers the validation, the start of the target release, and the publication of the completion. */
  method RunRollback(registry: ApplicationCache, metrics: FsmMetrics, appId: nat, release: Release,
                     oks: (bool, bool, bool))
    returns (ok: bool)
    modifies registry, metrics
    ensures appId !in old(registry.cache) ==> !ok && Now(registry, metrics) == old(Now(registry, metrics))
    ensures appId in old(registry.cache) ==>
              var o := RunJob(old(Now(registry, metrics)),
                              old(NewJob(Now(registry, metrics), appId, Rollback, release)),
                              [oks.0, true, oks.1, true, oks.2]);
              ok == o.ok && Now(registry, metrics) == o.world
  {
    var found := registry.Get(appId);
    if found.None? {
      return false;
    }
    var config := found.value;
    var fsm := new DeploymentFSM(appId, registry, metrics, config.status.GetOr(FAILED));
    ghost var w := Now(registry, metrics);
    ghost var job := NewJob(w, appId, Rollback, release);
    RollbackUnfolded(w, job, oks);
    ok := oks.0;
    if ok {
      ok := fsm.TransitionTo(ROLLBACK);
    }
    ok := ok && oks.1;
    if ok {
      ok := fsm.TransitionTo(VERIFYING);
    }
    if ok {
      ok := fsm.TransitionTo(ACTIVE);
      ok := ok && oks.2;
    }
    if ok {
      registry.Set(appId, config.(image := release.digest, version := release.version));
    } else {
      var _ := fsm.TransitionTo(FAILED);
    }
  }

  lemma RollbackUnfolded(w: World, job: Job, oks: (bool, bool, bool))
    requires job.todo == [Validate, EnterRollback, Launch, EnterVerifying]
    ensures var o := PerformAll(w, job.app, job.fsm, job.todo, [oks.0, true, oks.1, true, oks.2]);
            if !oks.0 then o == Outcome(w, job.fsm, false)
            else
              var r := Attempt(w, job.app, job.fsm, ROLLBACK);
              if !r.ok then o == r
              else if !oks.1 then o == r.(ok := false)
              else o == Attempt(r.world, job.app, r.fsm, VERIFYING)
  {
    var b := [oks.0, true, oks.1, true, oks.2];
    var r := Attempt(w, job.app, job.fsm, ROLLBACK);
    assert job.todo[1..] == [EnterRollback, Launch, EnterVerifying] && b[1..] == [true, oks.1, true, oks.2];
    assert job.todo[1..][1..] == [Launch, EnterVerifying] && b[1..][1..] == [oks.1, true, oks.2];
    assert job.todo[1..][1..][1..] == [EnterVerifying] && b[1..][1..][1..] == [true, oks.2];
    assert PerformAll(r.world, job.app, r.fsm, [EnterVerifying], [true, oks.2])
        == Attempt(r.world, job.app, r.fsm, VERIFYING);
    assert PerformAll(r.world, job.app, r.fsm, [Launch, EnterVerifying], [oks.1, true, oks.2])
        == if oks.1 then Attempt(r.world, job.app, r.fsm, VERIFYING) else r.(ok := false);
  }

  // ---------------------------------------------------------------- interleaved runs

  datatype Sys = Sys(world: World, jobs: map<nat, Job>)

  datatype Event = Begin(job: nat, app: nat, kind: Kind, release: Release) | Advance(job: nat, ok: bool) | Restart

  /**
   One event: a request starts a job, a job makes its next step, or the process restarts, which ends
   all jobs and sets the gauge to zero while the registry comes back from disk. Unregistered
   applications are refused.
   */
  function Step(s: Sys, e: Event): Sys {
    match e
    case Begin(j, app, kind, release) =>
      if app !in s.world.registry || j in s.jobs then s
      else s.(jobs := s.jobs[j := NewJob(s.world, app, kind, release)])
    case Advance(j, ok) =>
      if j !in s.jobs then s
      else
        var job := s.jobs[j];
        if job.todo == [] then Sys(Completed(s.world, job, ok).world, s.jobs - {j})
        else
          var o := Perform(s.world, job.app, job.fsm, job.todo[0], ok);
          if o.ok then Sys(o.world, s.jobs[j := job.(fsm := o.fsm, todo := job.todo[1..])])
          else Sys(Aborted(o.world, job, o.fsm), s.jobs - {j})
    case Restart => Sys(World(s.world.registry, 0), map[])
  }

  function Run(s: Sys, events: seq<Event>): Sys
    decreases |events|
  {
    if events == [] then s else Run(Step(s, events[0]), events[1..])
  }

  function Actives(registry: map<nat, App>): nat {
    |ActiveSet(registry)|
  }

  function ActiveSet(registry: map<nat, App>): set<nat> {
    set a | a in registry && registry[a].status == Some(ACTIVE)
  }

  /** How far the gauge is ahead of the registry. */
  function Excess(w: World): int {
    w.active - Actives(w.registry)
  }

  lemma SetStatus(registry: map<nat, App>, app: nat, config: App)
    requires app in registry
    ensures Actives(registry[app := config])
         == Actives(registry) - Bit(registry[app].status == Some(ACTIVE)) + Bit(config.status == Some(ACTIVE))
  {
    var before, after := ActiveSet(registry), ActiveSet(registry[app := config]);
    assert after - {app} == before - {app};
    assert app in before ==> before == (before - {app}) + {app};
    assert app in after ==> after == (after - {app}) + {app};
  }

  // ---------------------------------------------------------------- what each step does to the gauge

  function Bit(b: bool): int {
    if b then 1 else 0
  }

  predicate IsActive(w: World, app: nat) {
    app in w.registry && w.registry[app].status == Some(ACTIVE)
  }

  /**
   By how much a transition moves the gauge against the registry: it forgets an entry that says
   ACTIVE, and it takes one off when the state machine leaves ACTIVE, unless the gauge is at zero.
   */
  function TransitionOff(w: World, app: nat, from: Status, to: Status): int {
    if Legal(from, to) then Bit(IsActive(w, app)) - Bit(from == ACTIVE && w.active > 0) else 0
  }

  function AbortedOff(w: World, job: Job, fsm: Status): int {
    TransitionOff(w, job.app, fsm, FAILED)
    + Bit(job.kind.Deployment? && IsActive(Attempt(w, job.app, fsm, FAILED).world, job.app))
  }

  function CompletedOff(w: World, job: Job, ok: bool): int {
    var o := Attempt(w, job.app, job.fsm, ACTIVE);
    TransitionOff(w, job.app, job.fsm, ACTIVE)
    + if !o.ok || !ok then AbortedOff(o.world, job, o.fsm)
      else Bit(job.kind.Rollback? && job.copy.status != Some(ACTIVE))
  }

  /** The state an action tries to enter, if it is a transition. */
  function Entered(fsm: Status, action: Action): Option<Status> {
    match action
    case EnterStarting => Some(if fsm == ACTIVE then UPDATING else DEPLOYING)
    case Verify => Some(VERIFYING)
    case EnterRollback => Some(ROLLBACK)
    case EnterVerifying => Some(VERIFYING)
    case _ => None
  }

  function PerformedOff(w: World, app: nat, fsm: Status, action: Action): int {
    var to := Entered(fsm, action);
    if to.Some? then TransitionOff(w, app, fsm, to.value) else 0
  }

  /** By how much an event moves the gauge against the registry. */
  function Miscount(s: Sys, e: Event): int {
    match e
    case Begin(_, _, _, _) => 0
    case Restart => 0 - s.world.active
    case Advance(j, ok) =>
      if j !in s.jobs then 0
      else
        var job := s.jobs[j];
        if job.todo == [] then CompletedOff(s.world, job, ok)
        else
          var o := Perform(s.world, job.app, job.fsm, job.todo[0], ok);
          PerformedOff(s.world, job.app, job.fsm, job.todo[0]) + if o.ok then 0 else AbortedOff(o.world, job, o.fsm)
  }

  function Miscounts(s: Sys, events: seq<Event>): int
    decreases |events|
  {
    if events == [] then 0 else Miscount(s, events[0]) + Miscounts(Step(s, events[0]), events[1..])
  }

  ghost predicate Registered(s: Sys) {
    forall j :: j in s.jobs ==> s.jobs[j].app in s.world.registry
  }

  /** `v` differs from `w` in one application at most, and the gauge moved against the registry by `off`. */
  ghost predicate Moves(w: World, v: World, app: nat, off: int) {
    && Excess(v) == Excess(w) + off
    && v.registry.Keys == w.registry.Keys
    && forall a :: a in w.registry && a != app ==> v.registry[a] == w.registry[a]
  }

  lemma GaugeMoves(active: nat, from: Status, to: Status)
    requires Legal(from, to)
    ensures Gauge(active, from, to) == active + Bit(to == ACTIVE) - Bit(from == ACTIVE && active > 0)
  {
  }

  lemma AttemptMoves(w: World, app: nat, from: Status, to: Status)
    requires app in w.registry
    ensures Moves(w, Attempt(w, app, from, to).world, app, TransitionOff(w, app, from, to))
  {
    if Legal(from, to) {
      GaugeMoves(w.active, from, to);
      SetStatus(w.registry, app, w.registry[app].(status := Some(to)));
    }
  }

  lemma AbortedMoves(w: World, job: Job, fsm: Status)
    requires job.app in w.registry
    ensures Moves(w, Aborted(w, job, fsm), job.app, AbortedOff(w, job, fsm))
  {
    AttemptMoves(w, job.app, fsm, FAILED);
    SetStatus(Attempt(w, job.app, fsm, FAILED).world.registry, job.app, job.copy.(status := Some(FAILED)));
  }

  lemma CompletedMoves(w: World, job: Job, ok: bool)
    requires job.app in w.registry
    ensures Moves(w, Completed(w, job, ok).world, job.app, CompletedOff(w, job, ok))
  {
    AttemptMoves(w, job.app, job.fsm, ACTIVE);
    var o := Attempt(w, job.app, job.fsm, ACTIVE);
    if !o.ok || !ok {
      AbortedMoves(o.world, job, o.fsm);
    } else {
      var config := job.copy.(image := job.release.digest, version := job.release.version);
      SetStatus(o.world.registry, job.app, if job.kind.Deployment? then config.(status := Some(ACTIVE)) else config);
    }
  }

  lemma PerformedMoves(w: World, job: Job, ok: bool)
    requires job.app in w.registry && job.todo != []
    ensures Moves(w, Perform(w, job.app, job.fsm, job.todo[0], ok).world, job.app,
                  PerformedOff(w, job.app, job.fsm, job.todo[0]))
  {
    var to := Entered(job.fsm, job.todo[0]);
    if to.Some? {
      AttemptMoves(w, job.app, job.fsm, to.value);
    }
  }

  lemma StepMoves(s: Sys, e: Event)
    requires Registered(s)
    ensures Registered(Step(s, e)) && Excess(Step(s, e).world) == Excess(s.world) + Miscount(s, e)
    ensures e.Advance? && e.job in s.jobs ==> Moves(s.world, Step(s, e).world, s.jobs[e.job].app, Miscount(s, e))
  {
    if e.Advance? && e.job in s.jobs {
      var job := s.jobs[e.job];
      if job.todo == [] {
        CompletedMoves(s.world, job, e.ok);
      } else {
        var o := Perform(s.world, job.app, job.fsm, job.todo[0], e.ok);
        PerformedMoves(s.world, job, e.ok);
        AbortedMoves(o.world, job, o.fsm);
      }
    }
  }

  /** Over every run, from any state and with any overlap of jobs: the gauge is off by the sum of the miscounts. */
  lemma {:induction false} GaugeOff(s: Sys, events: seq<Event>)
    requires Registered(s)
    ensures Registered(Run(s, events))
    ensures Run(s, events).world.active
         == Actives(Run(s, events).world.registry) + Excess(s.world) + Miscounts(s, events)
    decreases |events|
  {
    if events == [] {
    } else {
      StepMoves(s, events[0]);
      GaugeOff(Step(s, events[0]), events[1..]);
    }
  }

  ghost predicate CountsThroughout(s: Sys, events: seq<Event>)
    decreases |events|
  {
    Excess(s.world) == 0 && (events == [] || CountsThroughout(Step(s, events[0]), events[1..]))
  }

  predicate AllNeutral(s: Sys, events: seq<Event>)
    decreases |events|
  {
    events == [] || (Miscount(s, events[0]) == 0 && AllNeutral(Step(s, events[0]), events[1..]))
  }

  /** A transition keeps a right gauge right exactly when the entry says ACTIVE just when the state machine does. */
  lemma TransitionCountsIff(w: World, app: nat, from: Status, to: Status)
    requires app in w.registry && Legal(from, to) && Excess(w) == 0
    ensures Excess(Attempt(w, app, from, to).world) == 0 <==> (IsActive(w, app) <==> from == ACTIVE && w.active > 0)
  {
    AttemptMoves(w, app, from, to);
  }

  /** With any overlap of jobs, a gauge that is right stays right throughout exactly when every step is neutral. */
  lemma {:induction false} CountsThroughoutIff(s: Sys, events: seq<Event>)
    requires Registered(s) && Excess(s.world) == 0
    ensures CountsThroughout(s, events) <==> AllNeutral(s, events)
    decreases |events|
  {
    if events == [] {
    } else {
      StepMoves(s, events[0]);
      if Excess(Step(s, events[0]).world) == 0 {
        CountsThroughoutIff(Step(s, events[0]), events[1..]);
      }
    }
  }

  // ---------------------------------------------------------------- the gauge with one job per application

  /** An event that completes a rollback begun from another status than ACTIVE. */
  predicate StaleSave(s: Sys, e: Event) {
    && e.Advance? && e.ok && e.job in s.jobs
    && var job := s.jobs[e.job];
       job.kind.Rollback? && job.todo == [] && Legal(job.fsm, ACTIVE) && job.copy.status != Some(ACTIVE)
  }

  function StaleSaves(s: Sys, events: seq<Event>): nat
    decreases |events|
  {
    if events == [] then 0 else Bit(StaleSave(s, events[0])) + StaleSaves(Step(s, events[0]), events[1..])
  }

  /** An event that takes a state machine out of ACTIVE. */
  predicate Departs(s: Sys, e: Event) {
    && e.Advance? && e.job in s.jobs
    && var job := s.jobs[e.job];
       && job.fsm == ACTIVE
       && (job.todo == [] || job.todo[0] in {EnterStarting, EnterRollback, EnterVerifying}
           || (job.todo[0] in {Validate, Stop, Launch} && !e.ok))
  }

  /** An event that takes a state machine into ACTIVE for good. */
  predicate Arrives(s: Sys, e: Event) {
    && e.Advance? && e.ok && e.job in s.jobs
    && var job := s.jobs[e.job];
       job.todo == [] && Legal(job.fsm, ACTIVE)
  }

  /** A departure at gauge zero, so that nothing is subtracted. */
  predicate Lost(s: Sys, e: Event) {
    Departs(s, e) && s.world.active == 0
  }

  function Losts(s: Sys, events: seq<Event>): nat
    decreases |events|
  {
    if events == [] then 0 else Bit(Lost(s, events[0])) + Losts(Step(s, events[0]), events[1..])
  }

  /** The gauge values that restarts throw away. */
  function Forgotten(s: Sys, events: seq<Event>): nat
    decreases |events|
  {
    if events == [] then 0
    else (if events[0].Restart? then s.world.active else 0) + Forgotten(Step(s, events[0]), events[1..])
  }

  /** No job begins for an application that has one running. */
  ghost predicate OneJobPerApp(s: Sys, events: seq<Event>)
    decreases |events|
  {
    events != [] ==>
      && (events[0].Begin? ==> forall j :: j in s.jobs ==> s.jobs[j].app != events[0].app)
      && OneJobPerApp(Step(s, events[0]), events[1..])
  }

  predicate AtStatus(w: World, job: Job, fsm: Status) {
    job.app in w.registry && StartStatus(w.registry[job.app], job.kind) == fsm
  }

  /** Every running state machine is at the status of its application. */
  ghost predicate Synced(s: Sys) {
    && (forall j :: j in s.jobs ==> AtStatus(s.world, s.jobs[j], s.jobs[j].fsm))
    && (forall i, j :: i in s.jobs && j in s.jobs && i != j ==> s.jobs[i].app != s.jobs[j].app)
  }

  lemma AttemptAtStatus(w: World, job: Job, from: Status, to: Status)
    requires AtStatus(w, job, from)
    ensures var o := Attempt(w, job.app, from, to);
            AtStatus(o.world, job, o.fsm) && (o.fsm == ACTIVE ==> from == ACTIVE || o.world.active > 0)
    ensures TransitionOff(w, job.app, from, to) == Bit(Legal(from, to) && from == ACTIVE && w.active == 0)
  {
  }

  lemma AbortedAtStatus(w: World, job: Job, fsm: Status)
    requires AtStatus(w, job, fsm)
    ensures AbortedOff(w, job, fsm) == Bit(fsm == ACTIVE && w.active == 0)
  {
    AttemptAtStatus(w, job, fsm, FAILED);
  }

  /** In step with its application, a job miscounts only a stale save and a departure from ACTIVE at gauge zero. */
  lemma MiscountIs(s: Sys, e: Event)
    requires Synced(s) && !e.Restart?
    ensures Miscount(s, e) == Bit(StaleSave(s, e)) + Bit(Lost(s, e))
  {
    if e.Advance? && e.job in s.jobs {
      var job := s.jobs[e.job];
      if job.todo == [] {
        AttemptAtStatus(s.world, job, job.fsm, ACTIVE);
        var o := Attempt(s.world, job.app, job.fsm, ACTIVE);
        AbortedAtStatus(o.world, job, o.fsm);
      } else {
        PerformMiscountIs(s.world, job, e.ok);
      }
    }
  }

  lemma PerformMiscountIs(w: World, job: Job, ok: bool)
    requires AtStatus(w, job, job.fsm) && job.todo != []
    ensures var o := Perform(w, job.app, job.fsm, job.todo[0], ok);
            && AtStatus(o.world, job, o.fsm)
            && PerformedOff(w, job.app, job.fsm, job.todo[0]) + (if o.ok then 0 else AbortedOff(o.world, job, o.fsm))
            == Bit(job.fsm == ACTIVE && w.active == 0
                   && (job.todo[0] in {EnterStarting, EnterRollback, EnterVerifying}
                       || (job.todo[0] in {Validate, Stop, Launch} && !ok)))
  {
    var to := Entered(job.fsm, job.todo[0]);
    if to.Some? {
      AttemptAtStatus(w, job, job.fsm, to.value);
    }
    var o := Perform(w, job.app, job.fsm, job.todo[0], ok);
    AbortedAtStatus(o.world, job, o.fsm);
  }

  lemma StepStaysSynced(s: Sys, e: Event)
    requires Synced(s) && OneJobPerApp(s, [e])
    ensures Synced(Step(s, e))
  {
    if e.Advance? && e.job in s.jobs {
      var job := s.jobs[e.job];
      StepMoves(s, e);
      if job.todo != [] {
        PerformMiscountIs(s.world, job, e.ok);
      }
    }
  }

  /**
   Over every interleaving of deployments and rollbacks that end in any way, and from any gauge: the
   gauge is ahead of the registry by what it was ahead at the start, and one for each rollback that
   completed from another status than ACTIVE and each departure from ACTIVE at gauge zero, less what
   restarts threw away.
   */
  lemma {:induction false} GaugeOverRuns(s: Sys, events: seq<Event>)
    requires Synced(s) && OneJobPerApp(s, events)
    ensures Synced(Run(s, events))
    ensures Run(s, events).world.active
         == Actives(Run(s, events).world.registry) + Excess(s.world)
            + StaleSaves(s, events) + Losts(s, events) - Forgotten(s, events)
    decreases |events|
  {
    if events == [] {
    } else {
      StepStaysSynced(s, events[0]);
      StepMoves(s, events[0]);
      if !events[0].Restart? {
        MiscountIs(s, events[0]);
      }
      GaugeOverRuns(Step(s, events[0]), events[1..]);
    }
  }

  predicate NoRestart(events: seq<Event>) {
    forall i :: 0 <= i < |events| ==> !events[i].Restart?
  }

  lemma {:induction false} NothingForgotten(s: Sys, events: seq<Event>)
    requires NoRestart(events)
    ensures Forgotten(s, events) == 0
    decreases |events|
  {
    if events == [] {
    } else {
      NothingForgotten(Step(s, events[0]), events[1..]);
    }
  }

  // ---------------------------------------------------------------- when departures are lost

  function Max(a: int, b: int): int {
    if a >= b then a else b
  }

  /** The most by which departures from ACTIVE outnumber arrivals in any beginning of the run. */
  function Drop(s: Sys, events: seq<Event>): nat
    decreases |events|
  {
    if events == [] then 0
    else Max(0, Bit(Departs(s, events[0])) - Bit(Arrives(s, events[0])) + Drop(Step(s, events[0]), events[1..]))
  }

  lemma StepGauge(s: Sys, e: Event)
    requires !e.Restart?
    ensures Step(s, e).world.active == s.world.active + Bit(Arrives(s, e)) - Bit(Departs(s, e)) + Bit(Lost(s, e))
  {
    if e.Advance? && e.job in s.jobs {
      var job := s.jobs[e.job];
      if job.todo == [] {
        var o := Attempt(s.world, job.app, job.fsm, ACTIVE);
        AbortedGauge(o.world, job, o.fsm);
      } else {
        var o := Perform(s.world, job.app, job.fsm, job.todo[0], e.ok);
        AbortedGauge(o.world, job, o.fsm);
      }
    }
  }

  lemma AbortedGauge(w: World, job: Job, fsm: Status)
    ensures Aborted(w, job, fsm).active == w.active - Bit(fsm == ACTIVE && w.active > 0)
  {
  }

  /** The departures lost are those by which the gauge would have gone below zero. */
  lemma {:induction false} LostsAreTheDrop(s: Sys, events: seq<Event>)
    requires NoRestart(events)
    ensures Losts(s, events) == Max(0, Drop(s, events) - s.world.active)
    decreases |events|
  {
    if events == [] {
    } else {
      assert !events[0].Restart?;
      StepGauge(s, events[0]);
      LostsAreTheDrop(Step(s, events[0]), events[1..]);
    }
  }

  function Regauged(s: Sys, active: nat): Sys {
    s.(world := s.world.(active := active))
  }

  lemma AbortedIgnoresGauge(w: World, active: nat, job: Job, fsm: Status)
    ensures Aborted(w.(active := active), job, fsm).registry == Aborted(w, job, fsm).registry
  {
  }

  lemma AdvanceIgnoresGauge(s: Sys, active: nat, j: nat, ok: bool)
    requires j in s.jobs
    ensures var t, u := Step(Regauged(s, active), Advance(j, ok)), Step(s, Advance(j, ok));
            t.jobs == u.jobs && t.world.registry == u.world.registry
  {
    var job, w, v := s.jobs[j], s.world, s.world.(active := active);
    if job.todo == [] {
      var o, r := Attempt(w, job.app, job.fsm, ACTIVE), Attempt(v, job.app, job.fsm, ACTIVE);
      assert r.world == o.world.(active := r.world.active);
      AbortedIgnoresGauge(o.world, r.world.active, job, o.fsm);
    } else {
      var o, r := Perform(w, job.app, job.fsm, job.todo[0], ok), Perform(v, job.app, job.fsm, job.todo[0], ok);
      assert r.world == o.world.(active := r.world.active) && r.fsm == o.fsm && r.ok == o.ok;
      AbortedIgnoresGauge(o.world, r.world.active, job, o.fsm);
    }
  }

  lemma StepIgnoresGauge(s: Sys, active: nat, e: Event)
    ensures var t := Step(Regauged(s, active), e);
            t == Regauged(Step(s, e), t.world.active)
  {
    if e.Advance? && e.job in s.jobs {
      AdvanceIgnoresGauge(s, active, e.job, e.ok);
    }
  }

  /** Neither count depends on what the gauge shows. */
  lemma {:induction false} CountsIgnoreGauge(s: Sys, active: nat, events: seq<Event>)
    ensures Drop(Regauged(s, active), events) == Drop(s, events)
    ensures StaleSaves(Regauged(s, active), events) == StaleSaves(s, events)
    decreases |events|
  {
    if events == [] {
    } else {
      var e, t := events[0], Step(Regauged(s, active), events[0]);
      StepIgnoresGauge(s, active, e);
      CountsIgnoreGauge(Step(s, e), t.world.active, events[1..]);
    }
  }

  /** Departures never outnumber arrivals by more than the applications that were ACTIVE at the start. */
  lemma {:induction false} DropBounded(s: Sys, events: seq<Event>)
    requires Synced(s) && NoRestart(events) && OneJobPerApp(s, events)
    ensures Drop(s, events) <= Actives(s.world.registry)
    decreases |events|
  {
    if events == [] {
    } else {
      var e := events[0];
      assert !e.Restart?;
      StepStaysSynced(s, e);
      StepMoves(s, e);
      MiscountIs(s, e);
      StepGauge(s, e);
      DropBounded(Step(s, e), events[1..]);
    }
  }

  /** A gauge that is not too low loses no departure. */
  lemma {:induction false} NothingLost(s: Sys, events: seq<Event>)
    requires Synced(s) && NoRestart(events) && OneJobPerApp(s, events) && Excess(s.world) >= 0
    ensures Losts(s, events) == 0
  {
    LostsAreTheDrop(s, events);
    DropBounded(s, events);
  }

  /**
   From any state in which the gauge is right, with jobs under way: it is right at the end of a run
   exactly when no rollback completed that had begun from another status than ACTIVE, and then it was
   right throughout.
   */
  lemma {:induction false} GaugeStaysRightIff(s: Sys, events: seq<Event>)
    requires Synced(s) && NoRestart(events) && OneJobPerApp(s, events) && Excess(s.world) == 0
    ensures Run(s, events).world.active == Actives(Run(s, events).world.registry) <==> StaleSaves(s, events) == 0
    ensures CountsThroughout(s, events) <==> StaleSaves(s, events) == 0
    decreases |events|
  {
    NothingLost(s, events);
    NothingForgotten(s, events);
    GaugeOverRuns(s, events);
    if events == [] {
    } else {
      var e := events[0];
      assert !e.Restart?;
      StepStaysSynced(s, e);
      StepMoves(s, e);
      MiscountIs(s, e);
      if !StaleSave(s, e) {
        GaugeStaysRightIff(Step(s, e), events[1..]);
      }
    }
  }

  /** Every rollback under way began from ACTIVE. */
  ghost predicate FromActive(s: Sys) {
    forall j :: j in s.jobs && s.jobs[j].kind.Rollback? ==> s.jobs[j].copy.status == Some(ACTIVE)
  }

  /** No rollback begins of an application that is not ACTIVE. */
  predicate RollbacksOfActive(s: Sys, events: seq<Event>)
    decreases |events|
  {
    events != [] ==>
      && (events[0].Begin? && events[0].kind.Rollback? ==> IsActive(s.world, events[0].app))
      && RollbacksOfActive(Step(s, events[0]), events[1..])
  }

  lemma {:induction false} NoStaleSaves(s: Sys, events: seq<Event>)
    requires FromActive(s) && RollbacksOfActive(s, events)
    ensures StaleSaves(s, events) == 0
    decreases |events|
  {
    if events == [] {
    } else {
      assert FromActive(Step(s, events[0]));
      NoStaleSaves(Step(s, events[0]), events[1..]);
    }
  }

  /**
   The gauge counts the ACTIVE applications after every step of any interleaving of deployments and
   of rollbacks begun from ACTIVE, whatever fails, one job per application at a time.
   */
  lemma GaugeCountsActives(s: Sys, events: seq<Event>)
    requires Synced(s) && NoRestart(events) && OneJobPerApp(s, events) && Excess(s.world) == 0
    requires FromActive(s) && RollbacksOfActive(s, events)
    ensures CountsThroughout(s, events)
    ensures Run(s, events).world.active == Actives(Run(s, events).world.registry)
  {
    NoStaleSaves(s, events);
    GaugeStaysRightIff(s, events);
  }

  /**
   A process begins with the gauge at zero and any registry on disk. Its gauge counts the ACTIVE
   applications exactly when there were as many at the start as stale saves since then and departures
   in excess of arrivals; from a registry without any, exactly when there was no stale save.
   */
  lemma GaugeCountsActivesIff(registry: map<nat, App>, events: seq<Event>)
    requires NoRestart(events) && OneJobPerApp(Sys(World(registry, 0), map[]), events)
    ensures var s := Sys(World(registry, 0), map[]);
            var right := Run(s, events).world.active == Actives(Run(s, events).world.registry);
            && (right <==> Actives(registry) == StaleSaves(s, events) + Drop(s, events))
            && (Actives(registry) == 0 ==> (right <==> StaleSaves(s, events) == 0))
            && (RollbacksOfActive(s, events) ==> (right <==> Actives(registry) == Drop(s, events)))
  {
    var s := Sys(World(registry, 0), map[]);
    GaugeOverRuns(s, events);
    NothingForgotten(s, events);
    LostsAreTheDrop(s, events);
    DropBounded(s, events);
    if RollbacksOfActive(s, events) {
      NoStaleSaves(s, events);
    }
  }

  lemma {:induction false} RunConcat(s: Sys, a: seq<Event>, b: seq<Event>)
    ensures Run(s, a + b) == Run(Run(s, a), b)
    decreases |a|
  {
    if a == [] {
      assert a + b == b;
    } else {
      assert (a + b)[1..] == a[1..] + b;
      RunConcat(Step(s, a[0]), a[1..], b);
    }
  }

  /** Whatever happened before the last restart, jobs that overlap included, only what came after it matters. */
  lemma GaugeSinceRestartIff(s: Sys, before: seq<Event>, after: seq<Event>)
    requires NoRestart(after) && OneJobPerApp(Run(s, before + [Restart]), after)
    ensures var t := Run(s, before + [Restart]);
            var end := Run(s, before + [Restart] + after);
            var right := end.world.active == Actives(end.world.registry);
            && (right <==> Actives(t.world.registry) == StaleSaves(t, after) + Drop(t, after))
            && (Actives(t.world.registry) == 0 ==> (right <==> StaleSaves(t, after) == 0))
            && (RollbacksOfActive(t, after) ==> (right <==> Actives(t.world.registry) == Drop(t, after)))
  {
    RunConcat(s, before, [Restart]);
    RunConcat(s, before + [Restart], after);
    var u := Run(s, before);
    assert [Restart][1..] == [];
    assert Run(u, [Restart]) == Sys(World(u.world.registry, 0), map[]);
    GaugeCountsActivesIff(u.world.registry, after);
  }

  // ---------------------------------------------------------------- outcomes

  ghost predicate Elsewhere(v: World, w: World, app: nat) {
    v.registry.Keys == w.registry.Keys && forall a :: a in w.registry && a != app ==> v.registry[a] == w.registry[a]
  }

  lemma PerformStays(w: World, app: nat, fsm: Status, action: Action, ok: bool)
    requires app in w.registry
    ensures var o := Perform(w, app, fsm, action, ok);
            && Elsewhere(o.world, w, app)
            && o.world.registry[app] == w.registry[app].(status := o.world.registry[app].status)
  {
  }

  lemma {:induction false} PerformAllStays(w: World, app: nat, fsm: Status, todo: seq<Action>, oks: seq<bool>)
    requires app in w.registry && |oks| >= |todo|
    ensures var o := PerformAll(w, app, fsm, todo, oks);
            && Elsewhere(o.world, w, app)
            && o.world.registry[app] == w.registry[app].(status := o.world.registry[app].status)
    decreases |todo|
  {
    if todo == [] {
    } else {
      var o := Perform(w, app, fsm, todo[0], oks[0]);
      PerformStays(w, app, fsm, todo[0], oks[0]);
      PerformAllStays(o.world, app, o.fsm, todo[1..], oks[1..]);
    }
  }

  lemma JobStaysElsewhere(w: World, job: Job, oks: seq<bool>)
    requires job.app in w.registry && |oks| == |job.todo| + 1
    ensures Elsewhere(RunJob(w, job, oks).world, w, job.app)
  {
    PerformAllStays(w, job.app, job.fsm, job.todo, oks);
  }

  /**
   A deployment that does not succeed, at whatever point and for whatever reason, leaves the
   application FAILED on the image and version it had, and one that does leaves it ACTIVE on the
   release. No other application changes.
   */
  lemma DeploymentOutcome(w: World, app: nat, release: Release, oks: seq<bool>)
    requires app in w.registry && |oks| == |Actions(Plan(release.strategy))| + 2
    ensures var o := RunJob(w, NewJob(w, app, Deployment, release), oks);
            && Elsewhere(o.world, w, app)
            && (o.ok ==> o.fsm == ACTIVE && o.world.registry[app] == App(Some(ACTIVE), release.digest, release.version))
            && (!o.ok ==> o.world.registry[app] == w.registry[app].(status := Some(FAILED)))
  {
    var job := NewJob(w, app, Deployment, release);
    PerformAllStays(w, app, job.fsm, job.todo, oks);
  }

  /** The status of the state machine after each action of a job whose calls all work. */
  function Visits(w: World, app: nat, fsm: Status, todo: seq<Action>): seq<Status>
    decreases |todo|
  {
    if todo == [] then []
    else
      var o := Perform(w, app, fsm, todo[0], true);
      [o.fsm] + Visits(o.world, app, o.fsm, todo[1..])
  }

  lemma VisitsOne(w: World, app: nat, fsm: Status, action: Action, rest: seq<Action>)
    ensures var o := Perform(w, app, fsm, action, true);
            Visits(w, app, fsm, [action] + rest) == [o.fsm] + Visits(o.world, app, o.fsm, rest)
  {
    assert ([action] + rest)[1..] == rest;
  }

  /**
   A Rolling deployment takes an application over DEPLOYING, or UPDATING if it was ACTIVE, and
   VERIFYING; what has no status yet begins as CREATED.
   */
  lemma DeploymentVisits(w: World, app: nat, release: Release)
    requires app in w.registry && release.strategy != "Recreate"
    requires w.registry[app].status in {None, Some(CREATED), Some(BUILT), Some(FAILED), Some(ACTIVE)}
    ensures var job := NewJob(w, app, Deployment, release);
            var from := if w.registry[app].status == None then CREATED else w.registry[app].status.value;
            var via := if from == ACTIVE then UPDATING else DEPLOYING;
            Visits(w, app, job.fsm, job.todo) == [from, via, via, VERIFYING, VERIFYING]
  {
    var job := NewJob(w, app, Deployment, release);
    assert job.todo == [Validate] + ([EnterStarting] + ([Launch] + ([Verify] + ([CleanUp] + []))));
    VisitsOne(w, app, job.fsm, Validate, [EnterStarting] + ([Launch] + ([Verify] + ([CleanUp] + []))));
    var o := Perform(w, app, job.fsm, EnterStarting, true);
    VisitsOne(w, app, job.fsm, EnterStarting, [Launch] + ([Verify] + ([CleanUp] + [])));
    VisitsAfterStart(o.world, app, o.fsm);
  }

  lemma VisitsAfterStart(w: World, app: nat, fsm: Status)
    requires fsm in {DEPLOYING, UPDATING}
    ensures Visits(w, app, fsm, [Launch] + ([Verify] + ([CleanUp] + []))) == [fsm, VERIFYING, VERIFYING]
  {
    VisitsOne(w, app, fsm, Launch, [Verify] + ([CleanUp] + []));
    VisitsOne(w, app, fsm, Verify, [CleanUp] + []);
    var p := Perform(w, app, fsm, Verify, true);
    VisitsOne(p.world, app, p.fsm, CleanUp, []);
  }

  /** A rollback takes it over ROLLBACK and VERIFYING; what has no status yet begins as FAILED. */
  lemma RollbackVisits(w: World, app: nat, release: Release)
    requires app in w.registry && w.registry[app].status in {None, Some(DEPLOYING), Some(ACTIVE), Some(FAILED)}
    ensures var job := NewJob(w, app, Rollback, release);
            var from := if w.registry[app].status == None then FAILED else w.registry[app].status.value;
            Visits(w, app, job.fsm, job.todo) == [from, ROLLBACK, ROLLBACK, VERIFYING]
  {
    var job := NewJob(w, app, Rollback, release);
    assert job.todo == [Validate] + ([EnterRollback] + ([Launch] + ([EnterVerifying] + [])));
    VisitsOne(w, app, job.fsm, Validate, [EnterRollback] + ([Launch] + ([EnterVerifying] + [])));
    var o := Perform(w, app, job.fsm, EnterRollback, true);
    VisitsOne(w, app, job.fsm, EnterRollback, [Launch] + ([EnterVerifying] + []));
    VisitsOne(o.world, app, o.fsm, Launch, [EnterVerifying] + []);
    VisitsOne(o.world, app, o.fsm, EnterVerifying, []);
  }

  /** Both strategies, all steps answered: success depends on the status the deployment begins from. */
  lemma DeploymentSucceedsIff(w: World, app: nat, release: Release)
    requires app in w.registry
    ensures var n := |Actions(Plan(release.strategy))| + 2;
            var start := StartStatus(w.registry[app], Deployment);
            var o := RunJob(w, NewJob(w, app, Deployment, release), seq(n, i => true));
            o.ok <==> (if release.strategy == "Recreate" then start in {VERIFYING, SCALING, ROLLBACK}
                       else start !in {BUILDING, ARCHIVED})
  {
    var job := NewJob(w, app, Deployment, release);
    var oks := seq(|job.todo| + 1, i => true);
    PlanEnds(w, job, oks);
  }

  /** Where a plan whose steps all work leaves registry, gauge and state machine. */
  function PlanOutcome(w: World, app: nat, fsm: Status, strategy: string): Outcome {
    var o := Attempt(w, app, fsm, if fsm == ACTIVE then UPDATING else DEPLOYING);
    (if strategy == "Recreate" then o else Attempt(o.world, app, o.fsm, VERIFYING)).(ok := true)
  }

  lemma PlanEnds(w: World, job: Job, oks: seq<bool>)
    requires job.todo == [Validate] + Actions(Plan(job.release.strategy))
    requires |oks| == |job.todo| + 1 && forall i :: 0 <= i < |oks| ==> oks[i]
    ensures PerformAll(w, job.app, job.fsm, job.todo, oks) == PlanOutcome(w, job.app, job.fsm, job.release.strategy)
  {
    PerformAllHead(w, job, oks);
    assert job.todo[1..] == Actions(Plan(job.release.strategy));
    if job.release.strategy == "Recreate" {
      RecreateEnds(w, job.app, job.fsm, oks[1..|job.todo|]);
    } else {
      RollingEnds(w, job.app, job.fsm, oks[1..|job.todo|]);
    }
  }

  lemma RecreateEnds(w: World, app: nat, fsm: Status, oks: seq<bool>)
    requires |oks| == 3 && oks[0] && oks[1] && oks[2]
    ensures PerformAll(w, app, fsm, [Stop, EnterStarting, Launch], oks) == PlanOutcome(w, app, fsm, "Recreate")
  {
    assert [Stop, EnterStarting, Launch][1..] == [EnterStarting, Launch];
    StartEnds(w, app, fsm, [], oks[1..]);
    assert [EnterStarting, Launch] + [] == [EnterStarting, Launch];
  }

  lemma RollingEnds(w: World, app: nat, fsm: Status, oks: seq<bool>)
    requires |oks| == 4 && oks[0] && oks[1] && oks[2] && oks[3]
    ensures PerformAll(w, app, fsm, [EnterStarting, Launch, Verify, CleanUp], oks)
         == PlanOutcome(w, app, fsm, "Rolling")
  {
    var o := Perform(w, app, fsm, EnterStarting, true);
    var p := Perform(o.world, app, o.fsm, Verify, true);
    StartEnds(w, app, fsm, [Verify, CleanUp], oks);
    assert [EnterStarting, Launch] + [Verify, CleanUp] == [EnterStarting, Launch, Verify, CleanUp];
    assert [Verify, CleanUp][1..] == [CleanUp] && [CleanUp][1..] == [];
    assert oks[2..][0] == oks[2] && oks[2..][1..] == oks[3..];
    assert PerformAll(p.world, app, p.fsm, [CleanUp], oks[3..]) == p;
  }

  lemma StartEnds(w: World, app: nat, fsm: Status, rest: seq<Action>, oks: seq<bool>)
    requires |oks| == |rest| + 2 && oks[1]
    ensures var o := Perform(w, app, fsm, EnterStarting, true);
            PerformAll(w, app, fsm, [EnterStarting, Launch] + rest, oks)
              == PerformAll(o.world, app, o.fsm, rest, oks[2..])
  {
    assert ([EnterStarting, Launch] + rest)[1..] == [Launch] + rest && ([Launch] + rest)[1..] == rest;
    assert oks[1..][0] == oks[1] && oks[1..][1..] == oks[2..];
  }

  /**
   A rollback succeeds exactly when its three calls do and it begins where ROLLBACK is legal. Its
   success changes image and version and nothing else: the status it began from is written back.
   */
  lemma RollbackOutcome(w: World, app: nat, release: Release, oks: (bool, bool, bool))
    requires app in w.registry
    ensures var start := StartStatus(w.registry[app], Rollback);
            var o := RunJob(w, NewJob(w, app, Rollback, release), [oks.0, true, oks.1, true, oks.2]);
            && Elsewhere(o.world, w, app)
            && (o.ok <==> oks.0 && oks.1 && oks.2 && start in {DEPLOYING, ACTIVE, FAILED})
            && (o.ok ==> o.fsm == ACTIVE
                         && o.world.registry[app] == App(w.registry[app].status, release.digest, release.version))
            && (!o.ok ==> o.world.registry[app] == w.registry[app].(status :=
                  if start == ARCHIVED || (start == FAILED && !oks.0) then w.registry[app].status else Some(FAILED)))
  {
    var job := NewJob(w, app, Rollback, release);
    RollbackUnfolded(w, job, oks);
    JobStaysElsewhere(w, job, [oks.0, true, oks.1, true, oks.2]);
  }

  /** So a failed application stays FAILED in the registry after a rollback that worked, while the gauge counts it. */
  lemma RollbackLeavesFailed(image: string, release: Release)
    ensures var w := World(map[7 := App(Some(FAILED), image, "1")], 0);
            var o := RunJob(w, NewJob(w, 7, Rollback, release), [true, true, true, true, true]);
            o.ok && o.world.registry[7].status == Some(FAILED) && o.world.active == 1
  {
    var w := World(map[7 := App(Some(FAILED), image, "1")], 0);
    RollbackOutcome(w, 7, release, (true, true, true));
    RollbackUnfolded(w, NewJob(w, 7, Rollback, release), (true, true, true));
  }

  // ---------------------------------------------------------------- whole jobs are runs

  function Advances(j: nat, oks: seq<bool>): seq<Event> {
    seq(|oks|, i requires 0 <= i < |oks| => Advance(j, oks[i]))
  }

  lemma {:induction false} IdleAdvances(s: Sys, j: nat, oks: seq<bool>)
    requires j !in s.jobs
    ensures Run(s, Advances(j, oks)) == s
    decreases |oks|
  {
    if oks == [] {
    } else {
      assert Advances(j, oks)[1..] == Advances(j, oks[1..]);
      IdleAdvances(s, j, oks[1..]);
    }
  }

  /** A job whose steps are not interleaved with others is the sequential engine. */
  lemma {:induction false} SequentialIsARun(s: Sys, j: nat, oks: seq<bool>)
    requires j in s.jobs && |oks| == |s.jobs[j].todo| + 1
    ensures Run(s, Advances(j, oks)) == Sys(RunJob(s.world, s.jobs[j], oks).world, s.jobs - {j})
    decreases |oks|
  {
    var job := s.jobs[j];
    var es := Advances(j, oks);
    var t := Step(s, es[0]);
    assert es[1..] == Advances(j, oks[1..]);
    if job.todo == [] {
      IdleAdvances(t, j, oks[1..]);
    } else {
      var o := Perform(s.world, job.app, job.fsm, job.todo[0], oks[0]);
      if o.ok {
        SequentialIsARun(t, j, oks[1..]);
        SameAborted(o.world, job, job.(fsm := o.fsm, todo := job.todo[1..]));
        assert t.jobs - {j} == s.jobs - {j};
      } else {
        IdleAdvances(t, j, oks[1..]);
      }
    }
  }

  lemma SameAborted(w: World, a: Job, b: Job)
    requires a.(fsm := b.fsm, todo := b.todo) == b
    ensures forall w, fsm :: Aborted(w, a, fsm) == Aborted(w, b, fsm)
  {
  }

  /** After a restart with two ACTIVE applications, redeploying one of them leaves the gauge at one. */
  lemma RestartUndercounts(a: App, b: App, release: Release)
    requires a.status == b.status == Some(ACTIVE) && release.strategy == "Rolling"
    ensures var w := World(map[7 := a, 8 := b], 0);
            var o := RunJob(w, NewJob(w, 7, Deployment, release), [true, true, true, true, true, true]);
            o.ok && o.world.active == 1 && Actives(o.world.registry) == 2
  {
    var w := World(map[7 := a, 8 := b], 0);
    var oks := [true, true, true, true, true, true];
    var job := NewJob(w, 7, Deployment, release);
    PlanEnds(w, job, oks);
    ReplacedActive(w, job, Attempt(Attempt(w, 7, ACTIVE, UPDATING).world, 7, UPDATING, VERIFYING).world);
  }

  lemma ReplacedActive(w: World, job: Job, v: World)
    requires w.registry.Keys == {7, 8} && IsActive(w, 8) && w.active == 0 && job.app == 7 && job.kind.Deployment?
    requires v.registry.Keys == {7, 8} && v.registry[8] == w.registry[8] && v.active == 0
    ensures var o := Completed(v, job.(fsm := VERIFYING), true);
            o.ok && o.world.active == 1 && Actives(o.world.registry) == 2
  {
    assert ActiveSet(Completed(v, job.(fsm := VERIFYING), true).world.registry) == {7, 8};
  }

  /** Two deployments of one application at the same time count it twice. */
  lemma OverlapCountsTwice(release: Release)
    requires release.strategy == "Rolling"
    ensures var s := Sys(World(map[7 := App(None, "", "")], 0), map[]);
            var begins := [Begin(1, 7, Deployment, release), Begin(2, 7, Deployment, release)];
            var oks := [true, true, true, true, true, true];
            var end := Run(Run(Run(s, begins), Advances(1, oks)), Advances(2, oks));
            end.world.active == 2 && Actives(end.world.registry) == 1
  {
    var s := Sys(World(map[7 := App(None, "", "")], 0), map[]);
    var begins := [Begin(1, 7, Deployment, release), Begin(2, 7, Deployment, release)];
    var oks := [true, true, true, true, true, true];
    var w := s.world;
    var job := NewJob(w, 7, Deployment, release);
    var t := Sys(w, map[1 := job, 2 := job]);
    BothBegin(s, begins);
    SequentialIsARun(t, 1, oks);
    FirstDeployment(w, job, oks);
    var u := Run(t, Advances(1, oks));
    assert u.jobs == map[2 := job];
    SequentialIsARun(u, 2, oks);
    SecondDeployment(u.world, job, oks);
  }

  /**
   A deployment whose containers fail to start, while another one of the same application has
   finished: the application is FAILED and counted.
   */
  lemma FailedStartStaysCounted(release: Release)
    requires release.strategy == "Rolling"
    ensures var s := Sys(World(map[7 := App(None, "", "")], 0), map[]);
            var begins := [Begin(1, 7, Deployment, release), Begin(2, 7, Deployment, release)];
            var starting := Run(Run(s, begins), [Advance(1, true), Advance(1, true)]);
            var finished := Run(starting, Advances(2, [true, true, true, true, true, true]));
            var end := Step(finished, Advance(1, false));
            end.world.active == 1 && Actives(end.world.registry) == 0
  {
    var s := Sys(World(map[7 := App(None, "", "")], 0), map[]);
    var begins := [Begin(1, 7, Deployment, release), Begin(2, 7, Deployment, release)];
    var oks := [true, true, true, true, true, true];
    var job := NewJob(s.world, 7, Deployment, release);
    var t := Sys(s.world, map[1 := job, 2 := job]);
    BothBegin(s, begins);
    assert Run(s, begins) == t;
    var u := Run(t, [Advance(1, true), Advance(1, true)]);
    StartIsEntered(t, job);
    SequentialIsARun(u, 2, oks);
    OtherFinishes(u, job, oks);
  }

  lemma OtherFinishes(u: Sys, job: Job, oks: seq<bool>)
    requires job.release.strategy == "Rolling" && job.app == 7 && job.kind == Deployment && job.fsm == CREATED
    requires job.todo == [Validate] + Actions(Plan("Rolling")) && oks == [true, true, true, true, true, true]
    requires u == Sys(World(map[7 := App(Some(DEPLOYING), "", "")], 0),
                      map[1 := job.(fsm := DEPLOYING, todo := [Launch, Verify, CleanUp]), 2 := job])
    ensures var finished := Sys(RunJob(u.world, job, oks).world, u.jobs - {2});
            var end := Step(finished, Advance(1, false));
            end.world.active == 1 && Actives(end.world.registry) == 0
  {
    PlanEnds(u.world, job, oks);
    var w := RunJob(u.world, job, oks).world;
    assert w.active == 1 && w.registry.Keys == {7};
    StartFails(w, u.jobs[1]);
  }

  lemma StartFails(w: World, job: Job)
    requires job.app == 7 && job.kind.Deployment? && job.fsm == DEPLOYING && job.todo == [Launch, Verify, CleanUp]
    requires w.registry.Keys == {7} && w.active == 1
    ensures var end := Step(Sys(w, map[1 := job]), Advance(1, false));
            end.world.active == 1 && Actives(end.world.registry) == 0
  {
    var end := Step(Sys(w, map[1 := job]), Advance(1, false));
    assert end.world == Aborted(w, job, DEPLOYING);
    assert ActiveSet(end.world.registry) == {};
  }

  lemma StartIsEntered(t: Sys, job: Job)
    requires job.todo == [Validate] + Actions(Plan("Rolling")) && job.app == 7 && job.fsm == CREATED
    requires t == Sys(World(map[7 := App(None, "", "")], 0), map[1 := job, 2 := job])
    ensures Run(t, [Advance(1, true), Advance(1, true)])
         == Sys(World(map[7 := App(Some(DEPLOYING), "", "")], 0),
                map[1 := job.(fsm := DEPLOYING, todo := [Launch, Verify, CleanUp]), 2 := job])
  {
    var es := [Advance(1, true), Advance(1, true)];
    assert es[1..] == [Advance(1, true)] && es[1..][1..] == [];
    var u := Step(t, es[0]);
    assert u == t.(jobs := map[1 := job.(todo := Actions(Plan("Rolling"))), 2 := job]);
    assert [EnterStarting, Launch, Verify, CleanUp][1..] == [Launch, Verify, CleanUp];
    assert Run(t, es) == Step(u, es[1..][0]);
  }

  lemma FirstDeployment(w: World, job: Job, oks: seq<bool>)
    requires w == World(map[7 := App(None, "", "")], 0) && job.release.strategy == "Rolling"
    requires job == NewJob(w, 7, Deployment, job.release) && oks == [true, true, true, true, true, true]
    ensures RunJob(w, job, oks).world
         == World(map[7 := App(Some(ACTIVE), job.release.digest, job.release.version)], 1)
  {
    PlanEnds(w, job, oks);
  }

  lemma SecondDeployment(w: World, job: Job, oks: seq<bool>)
    requires job.release.strategy == "Rolling" && job.app == 7 && job.kind == Deployment && job.fsm == CREATED
    requires w == World(map[7 := App(Some(ACTIVE), job.release.digest, job.release.version)], 1)
    requires job.todo == [Validate] + Actions(Plan("Rolling")) && oks == [true, true, true, true, true, true]
    ensures var v := RunJob(w, job, oks).world;
            v.active == 2 && Actives(v.registry) == 1
  {
    PlanEnds(w, job, oks);
    assert ActiveSet(RunJob(w, job, oks).world.registry) == {7};
  }

  lemma BothBegin(s: Sys, begins: seq<Event>)
    requires |begins| == 2 && begins[0].Begin? && begins[1].Begin?
    ensures Run(s, begins) == Step(Step(s, begins[0]), begins[1])
  {
    assert begins[1..][1..] == [] && begins[1..][0] == begins[1];
    assert Run(Step(s, begins[0]), begins[1..]) == Run(Step(Step(s, begins[0]), begins[1]), []);
  }

  // ---------------------------------------------------------------- jobs do not disturb each other

  /** Begins for the application, the steps of its jobs, and restarts. */
  predicate Concerns(s: Sys, e: Event, app: nat) {
    match e
    case Begin(_, a, _, _) => a == app
    case Advance(j, _) => j in s.jobs && s.jobs[j].app == app
    case Restart => true
  }

  /** The events of a run that concern one application. */
  function Own(s: Sys, events: seq<Event>, app: nat): seq<Event>
    decreases |events|
  {
    if events == [] then []
    else (if Concerns(s, events[0], app) then [events[0]] else []) + Own(Step(s, events[0]), events[1..], app)
  }

  /** Every job has an id of its own. */
  ghost predicate FreshJobs(s: Sys, events: seq<Event>)
    decreases |events|
  {
    events != [] ==>
      (events[0].Begin? ==> events[0].job !in s.jobs) && FreshJobs(Step(s, events[0]), events[1..])
  }

  predicate SameEntry(w: World, v: World, app: nat) {
    if app in w.registry then app in v.registry && v.registry[app] == w.registry[app] else app !in v.registry
  }

  /** `t` has the application and its jobs as `s` has them, and no other job. */
  ghost predicate Projects(s: Sys, t: Sys, app: nat) {
    && SameEntry(s.world, t.world, app)
    && (forall j :: j in t.jobs <==> j in s.jobs && s.jobs[j].app == app)
    && (forall j :: j in t.jobs ==> t.jobs[j] == s.jobs[j])
  }

  lemma AttemptLocal(w: World, v: World, app: nat, x: nat, from: Status, to: Status)
    requires SameEntry(w, v, app)
    ensures Attempt(w, x, from, to).fsm == Attempt(v, x, from, to).fsm
    ensures Attempt(w, x, from, to).ok == Attempt(v, x, from, to).ok
    ensures SameEntry(Attempt(w, x, from, to).world, Attempt(v, x, from, to).world, app)
    ensures x != app ==> SameEntry(Attempt(w, x, from, to).world, w, app)
  {
  }

  lemma PerformLocal(w: World, v: World, app: nat, x: nat, fsm: Status, action: Action, ok: bool)
    requires SameEntry(w, v, app)
    ensures var o, r := Perform(w, x, fsm, action, ok), Perform(v, x, fsm, action, ok);
            && o.fsm == r.fsm && o.ok == r.ok && SameEntry(o.world, r.world, app)
            && (x != app ==> SameEntry(o.world, w, app))
  {
    AttemptLocal(w, v, app, x, fsm, if action == EnterStarting then (if fsm == ACTIVE then UPDATING else DEPLOYING)
                                    else if action == EnterRollback then ROLLBACK else VERIFYING);
  }

  lemma AbortedLocal(w: World, v: World, app: nat, job: Job, fsm: Status)
    requires SameEntry(w, v, app)
    ensures SameEntry(Aborted(w, job, fsm), Aborted(v, job, fsm), app)
    ensures job.app != app ==> SameEntry(Aborted(w, job, fsm), w, app)
  {
    AttemptLocal(w, v, app, job.app, fsm, FAILED);
  }

  lemma CompletedLocal(w: World, v: World, app: nat, job: Job, ok: bool)
    requires SameEntry(w, v, app)
    ensures SameEntry(Completed(w, job, ok).world, Completed(v, job, ok).world, app)
    ensures job.app != app ==> SameEntry(Completed(w, job, ok).world, w, app)
  {
    AttemptLocal(w, v, app, job.app, job.fsm, ACTIVE);
    AbortedLocal(Attempt(w, job.app, job.fsm, ACTIVE).world, Attempt(v, job.app, job.fsm, ACTIVE).world, app, job,
                 Attempt(w, job.app, job.fsm, ACTIVE).fsm);
  }

  /** One job step in two worlds that agree on an application. */
  lemma AdvanceLocal(w: World, v: World, app: nat, job: Job, ok: bool)
    requires SameEntry(w, v, app)
    ensures var a, b := Step(Sys(w, map[0 := job]), Advance(0, ok)), Step(Sys(v, map[0 := job]), Advance(0, ok));
            && a.jobs == b.jobs && SameEntry(a.world, b.world, app)
            && (job.app != app ==> SameEntry(a.world, w, app))
  {
    if job.todo == [] {
      CompletedLocal(w, v, app, job, ok);
    } else {
      PerformLocal(w, v, app, job.app, job.fsm, job.todo[0], ok);
      var o, r := Perform(w, job.app, job.fsm, job.todo[0], ok), Perform(v, job.app, job.fsm, job.todo[0], ok);
      AbortedLocal(o.world, r.world, app, job, o.fsm);
      AbortedLocal(o.world, o.world, app, job, o.fsm);
    }
  }

  /** A step among other jobs is the step of the job alone. */
  lemma AdvanceAlone(s: Sys, j: nat, ok: bool)
    requires j in s.jobs
    ensures var t, one := Step(s, Advance(j, ok)), Step(Sys(s.world, map[0 := s.jobs[j]]), Advance(0, ok));
            && t.world == one.world
            && t.jobs == (if 0 in one.jobs then s.jobs[j := one.jobs[0]] else s.jobs - {j})
            && (0 in one.jobs ==> one.jobs[0].app == s.jobs[j].app)
  {
  }

  lemma StepProjects(s: Sys, t: Sys, e: Event, app: nat)
    requires Projects(s, t, app) && FreshJobs(s, [e])
    ensures Projects(Step(s, e), if Concerns(s, e, app) then Step(t, e) else t, app)
  {
    if e.Advance? && e.job in s.jobs {
      AdvanceAlone(s, e.job, e.ok);
      AdvanceLocal(s.world, t.world, app, s.jobs[e.job], e.ok);
      if Concerns(s, e, app) {
        AdvanceAlone(t, e.job, e.ok);
      }
    }
  }

  /**
   Whatever runs at the same time, an application ends as if only its own jobs had run, in the same
   order and with the same answers.
   */
  lemma {:induction false} JobsAreIndependent(s: Sys, t: Sys, events: seq<Event>, app: nat)
    requires Projects(s, t, app) && FreshJobs(s, events)
    ensures Projects(Run(s, events), Run(t, Own(s, events, app)), app)
    decreases |events|
  {
    if events == [] {
    } else {
      var e, rest := events[0], Own(Step(s, events[0]), events[1..], app);
      StepProjects(s, t, e, app);
      if Concerns(s, e, app) {
        assert ([e] + rest)[1..] == rest;
        JobsAreIndependent(Step(s, e), Step(t, e), events[1..], app);
      } else {
        assert [] + rest == rest;
        JobsAreIndependent(Step(s, e), t, events[1..], app);
      }
    }
  }

  /** So a deployment among any other jobs ends as the engine alone would end it. */
  lemma ConcurrentDeployment(w: World, events: seq<Event>, j: nat, app: nat, release: Release, oks: seq<bool>)
    requires app in w.registry && FreshJobs(Sys(w, map[]), events) && |oks| == |Actions(Plan(release.strategy))| + 2
    requires Own(Sys(w, map[]), events, app) == [Begin(j, app, Deployment, release)] + Advances(j, oks)
    ensures var r := Run(Sys(w, map[]), events).world.registry;
            app in r && r[app] == (if RunJob(w, NewJob(w, app, Deployment, release), oks).ok
                                   then App(Some(ACTIVE), release.digest, release.version)
                                   else w.registry[app].(status := Some(FAILED)))
  {
    var s := Sys(w, map[]);
    var own := Own(s, events, app);
    JobsAreIndependent(s, s, events, app);
    assert own[1..] == Advances(j, oks);
    SequentialIsARun(Step(s, own[0]), j, oks);
    DeploymentOutcome(w, app, release, oks);
  }
}
