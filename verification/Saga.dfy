/**
 The provisioning saga of the tenant manager: ten steps that build a tenant, the runner that
 executes them in order, the compensation that undoes the completed prefix in reverse, and the
 provisioner that drives the lifecycle state machine around them.

 `World` holds everything outside the process that a step can create for one tenant. A step is a
 sequence of primitive effects; a fault stops it after some of them, so a failing step may leave
 partial effects behind.
 */
module Saga {
  import opened Wrappers

  /** What can live in a tenant's workspace directory. */
  datatype Entry = DataDir | LogsDir | SecretsFile | AppDir | ComposeFile | TenantYaml | Versions

  datatype Containers = Absent | Stopped | Running

  datatype Status =
    | CREATING | PROVISIONING | STARTING | ACTIVE | SUSPENDED | UPDATING
    | MIGRATING | RESTORING | ARCHIVED | FAILED | DELETING | DELETED

  datatype World = World(
    workspace: Option<set<Entry>>,
    role: bool,
    database: bool,
    registered: Option<Status>,
    route: bool,
    certKey: bool,
    certCrt: bool,
    containers: Containers)

  const CLEAN := World(None, false, false, None, false, false, false, Absent)

  /** Host facilities: a reachable Postgres with its client, and a working Docker. */
  datatype Env = Env(psql: bool, docker: bool)

  datatype Step =
    | Workspace | Volume | Secret | Database | Environment
    | Compose | Dns | Certificate | Container | Health

  /** The order in which the provisioner adds the steps. */
  const STEPS: seq<Step> := [Workspace, Volume, Secret, Database, Environment,
                             Compose, Dns, Certificate, Container, Health]

  predicate HasEntry(w: World, e: Entry) {
    w.workspace.Some? && e in w.workspace.value
  }

  // ---------------------------------------------------------------- primitive effects

  /** `Make` creates missing parent directories, `Put` writes into an existing workspace. */
  datatype Effect =
    | MakeWorkspace | Make(entry: Entry) | Put(entry: Entry)
    | CreateRole | CreateDatabase | GrantAll
    | WriteRoute | WriteKey | WriteCrt

  /** An effect the outside world refuses: Postgres rejects a role or database that exists. */
  predicate Possible(w: World, f: Effect) {
    match f
    case Put(_) => w.workspace.Some?
    case CreateRole => !w.role
    case CreateDatabase => w.role && !w.database
    case GrantAll => w.role && w.database
    case _ => true
  }

  function Apply(w: World, f: Effect): World {
    match f
    case MakeWorkspace => if w.workspace.Some? then w else w.(workspace := Some({}))
    case Make(e) => w.(workspace := Some(w.workspace.GetOr({}) + {e}))
    case Put(e) => w.(workspace := Some(w.workspace.GetOr({}) + {e}))
    case CreateRole => w.(role := true)
    case CreateDatabase => w.(database := true)
    case GrantAll => w
    case WriteRoute => w.(route := true)
    case WriteKey => w.(certKey := true)
    case WriteCrt => w.(certCrt := true)
  }

  /** `FailsAfter(n)`: the step throws once its first `n` effects are done. */
  datatype Fault = NoFault | FailsAfter(done: nat)

  datatype StepResult = StepResult(world: World, ok: bool)

  function Play(w: World, effects: seq<Effect>, fault: Fault): StepResult
    decreases |effects|
  {
    if fault == FailsAfter(0) then StepResult(w, false)
    else if effects == [] then StepResult(w, true)
    else if !Possible(w, effects[0]) then StepResult(w, false)
    else Play(Apply(w, effects[0]), effects[1..], Later(fault))
  }

  function Later(fault: Fault): Fault
    requires fault != FailsAfter(0)
  {
    if fault.NoFault? then NoFault else FailsAfter(fault.done - 1)
  }

  /** The effects of a step that can throw, in program order. */
  function Effects(step: Step): seq<Effect> {
    match step
    case Workspace => [MakeWorkspace]
    case Volume => [Make(DataDir), Make(LogsDir)]
    case Secret => [Put(SecretsFile)]
    case Database => [CreateRole, CreateDatabase, GrantAll]
    case Environment => [Make(TenantYaml), Make(Versions)]
    case Compose => [Make(AppDir), Put(ComposeFile)]
    case Dns => [WriteRoute]
    case Certificate => [WriteKey, WriteCrt]
    case Container => []
    case Health => []
  }

  /** Container start-up and the health check swallow their errors; without psql nothing is queried. */
  predicate CanThrow(step: Step, env: Env) {
    !step.Container? && !step.Health? && (step.Database? ==> env.psql)
  }

  function ComposeUp(w: World, env: Env): World {
    if env.docker && HasEntry(w, ComposeFile) then w.(containers := Running) else w
  }

  function ComposeDown(w: World, env: Env): World {
    if env.docker && HasEntry(w, ComposeFile) then w.(containers := Absent) else w
  }

  /** `step.execute`. */
  function Execute(w: World, step: Step, env: Env, fault: Fault): StepResult {
    if step.Container? then StepResult(ComposeUp(w, env), true)
    else if !CanThrow(step, env) then StepResult(w, true)
    else
      var r := Play(w, Effects(step), fault);
      if step.Environment? && r.ok then r.(world := r.world.(registered := Some(PROVISIONING))) else r
  }

  /** The world after `step.compensate`. */
  function Undone(w: World, step: Step, env: Env): World {
    match step
    case Workspace => w.(workspace := None)
    case Volume => w
    case Secret => w
    case Database => if env.psql then w.(role := false, database := false) else w
    case Environment =>
      if w.registered.None? then w
      else w.(registered := None,
              workspace := if w.workspace.None? then None else Some(w.workspace.value - {TenantYaml}))
    case Compose =>
      if w.workspace.None? then w else w.(workspace := Some(w.workspace.value - {ComposeFile}))
    case Dns => w.(route := false)
    case Certificate => w.(certKey := false, certCrt := false)
    case Container => ComposeDown(w, env)
    case Health => w
  }

  // ---------------------------------------------------------------- runner and compensation

  /** The world after compensating the first `k` steps, last one first. */
  function UndoPrefix(w: World, k: nat, env: Env): World
    requires k <= |STEPS|
    decreases k
  {
    if k == 0 then w else UndoPrefix(Undone(w, STEPS[k - 1], env), k - 1, env)
  }

  function Reversed<T>(s: seq<T>): (r: seq<T>)
    ensures |r| == |s|
    ensures forall i :: 0 <= i < |s| ==> r[i] == s[|s| - 1 - i]
  {
    if s == [] then [] else [s[|s| - 1]] + Reversed(s[..|s| - 1])
  }

  datatype RunResult = RunResult(world: World, failedAt: Option<nat>, compensated: seq<Step>)

  /** `TransactionRunner.run` from step `k` on. */
  function RunFrom(w: World, k: nat, env: Env, faults: seq<Fault>): RunResult
    requires k <= |STEPS| == |faults|
    decreases |STEPS| - k
  {
    if k == |STEPS| then RunResult(w, None, [])
    else
      var r := Execute(w, STEPS[k], env, faults[k]);
      if r.ok then RunFrom(r.world, k + 1, env, faults)
      else RunResult(UndoPrefix(r.world, k, env), Some(k), Reversed(STEPS[..k]))
  }

  function Run(w: World, env: Env, faults: seq<Fault>): RunResult
    requires |STEPS| == |faults|
  {
    RunFrom(w, 0, env, faults)
  }

  const NO_FAULTS: seq<Fault> := [NoFault, NoFault, NoFault, NoFault, NoFault,
                                  NoFault, NoFault, NoFault, NoFault, NoFault]

  // ---------------------------------------------------------------- lifecycle state machine

  function Allowed(s: Status): set<Status> {
    match s
    case CREATING => {PROVISIONING, FAILED, DELETING}
    case PROVISIONING => {STARTING, FAILED, DELETING}
    case STARTING => {ACTIVE, FAILED, DELETING}
    case ACTIVE => {SUSPENDED, UPDATING, MIGRATING, ARCHIVED, DELETING, FAILED}
    case SUSPENDED => {ACTIVE, DELETING, FAILED}
    case UPDATING => {ACTIVE, FAILED}
    case MIGRATING => {ACTIVE, FAILED}
    case RESTORING => {ACTIVE, FAILED}
    case ARCHIVED => {RESTORING, DELETING, FAILED}
    case FAILED => {PROVISIONING, STARTING, RESTORING, DELETING}
    case DELETING => {DELETED, FAILED}
    case DELETED => {}
  }

  class LifecycleFSM {
    var state: Status

    constructor (initial: Status)
      ensures state == initial
    {
      state := initial;
    }

    /** `ok` is false where the source throws a lifecycle error. */
    method TransitionTo(next: Status) returns (ok: bool)
      modifies this
      ensures ok == (next == old(state) || next in Allowed(old(state)))
      ensures state == if ok then next else old(state)
    {
      if state == next {
        return true;
      }
      if next !in Allowed(state) {
        return false;
      }
      state := next;
      ok := true;
    }
  }

  /** By target: from which statuses a tenant gets there. */
  function Entrances(to: Status): set<Status> {
    match to
    case CREATING => {}
    case PROVISIONING => {CREATING, FAILED}
    case STARTING => {PROVISIONING, FAILED}
    case ACTIVE => {STARTING, SUSPENDED, UPDATING, MIGRATING, RESTORING}
    case SUSPENDED => {ACTIVE}
    case UPDATING => {ACTIVE}
    case MIGRATING => {ACTIVE}
    case RESTORING => {ARCHIVED, FAILED}
    case ARCHIVED => {ACTIVE}
    case FAILED => {CREATING, PROVISIONING, STARTING, ACTIVE, SUSPENDED, UPDATING, MIGRATING, RESTORING, ARCHIVED,
                    DELETING}
    case DELETING => {CREATING, PROVISIONING, STARTING, ACTIVE, SUSPENDED, ARCHIVED, FAILED}
    case DELETED => {DELETING}
  }

  lemma AllowedIffEntrance(from: Status, to: Status)
    ensures to in Allowed(from) <==> from in Entrances(to)
  {
    match to
    case CREATING =>
    case PROVISIONING =>
    case STARTING =>
    case ACTIVE =>
    case SUSPENDED =>
    case UPDATING =>
    case MIGRATING =>
    case RESTORING =>
    case ARCHIVED =>
    case FAILED =>
    case DELETING =>
    case DELETED =>
  }

  // ---------------------------------------------------------------- provisioner

  datatype ProvisionResult = ProvisionResult(world: World, fsm: Status, ok: bool)

  /**
   `Provisioner.provision`. `allowed` is the verdict of the policy engine and `saved` tells whether
   the last write to the registry succeeds. The cached tenant is the very object whose status is
   set to ACTIVE before that write, so the cache shows ACTIVE either way.
   */
  function Provision(w: World, env: Env, allowed: bool, faults: seq<Fault>, saved: bool): ProvisionResult
    requires |STEPS| == |faults|
  {
    if !allowed then ProvisionResult(w, FAILED, false)
    else
      var r := Run(w, env, faults);
      if r.failedAt.Some? then ProvisionResult(r.world, FAILED, false)
      else
        var active := r.world.(registered := Some(ACTIVE));
        ProvisionResult(active, if saved then ACTIVE else FAILED, saved)
  }

  /** One host with one tenant: the imperative form of the steps, the runner and the provisioner. */
  class Host {
    const env: Env
    var world: World
    var rolledBack: seq<Step>

    constructor (env: Env, world: World)
      ensures this.env == env && this.world == world && rolledBack == []
    {
      this.env := env;
      this.world := world;
      rolledBack := [];
    }

    method ExecuteStep(step: Step, fault: Fault) returns (ok: bool)
      modifies this`world
      ensures StepResult(world, ok) == Execute(old(world), step, env, fault)
    {
      if step.Container? {
        world := ComposeUp(world, env);
        return true;
      }
      if !CanThrow(step, env) {
        return true;
      }
      ok := true;
      var effects := Effects(step);
      var left := fault;
      var i := 0;
      while ok && i < |effects| && left != FailsAfter(0)
        invariant 0 <= i <= |effects|
        invariant ok ==> Play(old(world), effects, fault) == Play(world, effects[i..], left)
        invariant !ok ==> Play(old(world), effects, fault) == StepResult(world, false)
        decreases |effects| - i, ok
      {
        if Possible(world, effects[i]) {
          world := Apply(world, effects[i]);
          left := Later(left);
          assert effects[i..][1..] == effects[i + 1..];
          i := i + 1;
        } else {
          ok := false;
        }
      }
      if left == FailsAfter(0) {
        ok := false;
      }
      if step.Environment? && ok {
        world := world.(registered := Some(PROVISIONING));
      }
    }

    /** `SecretStep.compensate` calls a method that the secret generator does not define. */
    method CompensateStep(step: Step) returns (threw: bool)
      modifies this`world
      ensures world == Undone(old(world), step, env)
      ensures threw <==> step == Secret
    {
      world := Undone(world, step, env);
      threw := step.Secret?;
    }

    /** `Compensation.execute`: an exception from one step never stops the countdown. */
    method Compensate(k: nat)
      requires k <= |STEPS|
      modifies this
      ensures world == UndoPrefix(old(world), k, env)
      ensures rolledBack == old(rolledBack) + Reversed(STEPS[..k])
    {
      var i := k;
      ghost var order := Reversed(STEPS[..k]);
      while i > 0
        invariant 0 <= i <= k
        invariant UndoPrefix(world, i, env) == UndoPrefix(old(world), k, env)
        invariant rolledBack == old(rolledBack) + order[..k - i]
      {
        i := i - 1;
        rolledBack := rolledBack + [STEPS[i]];
        assert order[..k - i] == order[..k - i - 1] + [STEPS[i]];
        var _ := CompensateStep(STEPS[i]);
      }
    }

    method RunTransaction(faults: seq<Fault>) returns (failedAt: Option<nat>)
      requires |STEPS| == |faults|
      modifies this
      ensures var r := Run(old(world), env, faults);
              world == r.world && failedAt == r.failedAt && rolledBack == old(rolledBack) + r.compensated
    {
      var k := 0;
      while k < |STEPS|
        invariant 0 <= k <= |STEPS|
        invariant RunFrom(world, k, env, faults) == Run(old(world), env, faults)
        invariant rolledBack == old(rolledBack)
      {
        var ok := ExecuteStep(STEPS[k], faults[k]);
        if !ok {
          Compensate(k);
          return Some(k);
        }
        k := k + 1;
      }
      failedAt := None;
    }

    method ProvisionTenant(allowed: bool, faults: seq<Fault>, saved: bool) returns (ok: bool, status: Status)
      requires |STEPS| == |faults|
      modifies this
      ensures ProvisionResult(world, status, ok) == Provision(old(world), env, allowed, faults, saved)
    {
      var fsm := new LifecycleFSM(CREATING);
      ok := allowed;
      if ok {
        ok := fsm.TransitionTo(PROVISIONING);
        var failedAt := RunTransaction(faults);
        ok := failedAt.None?;
        if ok {
          var _ := fsm.TransitionTo(STARTING);
          world := world.(registered := Some(ACTIVE));
          ok := saved;
          if ok {
            var _ := fsm.TransitionTo(ACTIVE);
          }
        }
      }
      if !ok {
        var _ := fsm.TransitionTo(FAILED);
      }
      status := fsm.state;
    }
  }

  // ---------------------------------------------------------------- what compensation achieves

  /**
   The world with everything the first `k` steps own removed. The countdown is defined for every
   prefix; runs fail at the certificates at the latest, so they only use it for the first seven steps.
   */
  function Scrub(w: World, k: nat, env: Env): World {
    World(
      if k >= 1 then None else w.workspace,
      if k >= 4 && env.psql then false else w.role,
      if k >= 4 && env.psql then false else w.database,
      if k >= 5 then None else w.registered,
      if k >= 7 then false else w.route,
      if k >= 8 then false else w.certKey,
      if k >= 8 then false else w.certCrt,
      if k >= 9 && env.docker && HasEntry(w, ComposeFile) then Absent else w.containers)
  }

  /**
   Compensating a prefix removes everything its steps own, although Volume undoes nothing and
   Secret only throws: the workspace goes last and takes the subtree with it, and the containers
   go down while their compose file is still there.
   */
  lemma {:induction false} UndoPrefixScrubs(w: World, k: nat, env: Env)
    requires k <= |STEPS|
    ensures UndoPrefix(w, k, env) == Scrub(w, k, env)
    decreases k
  {
    if k == 0 {
    } else {
      UndoPrefixScrubs(Undone(w, STEPS[k - 1], env), k - 1, env);
      ScrubOneMore(w, k - 1, env);
    }
  }

  lemma ScrubOneMore(w: World, k: nat, env: Env)
    requires k < |STEPS|
    ensures Scrub(Undone(w, STEPS[k], env), k, env) == Scrub(w, k + 1, env)
  {
  }

  /** `v` is `w` after the first `k` steps ran: only what those steps own may differ. */
  predicate PrefixDone(w: World, v: World, k: nat, env: Env) {
    && (k == 0 ==> v.workspace == w.workspace)
    && (k >= 1 ==> v.workspace.Some?)
    && (k >= 6 ==> HasEntry(v, ComposeFile))
    && (k <= 3 || !env.psql ==> v.role == w.role && v.database == w.database)
    && (k <= 4 ==> v.registered == w.registered)
    && (k <= 6 ==> v.route == w.route)
    && (k <= 7 ==> v.certKey == w.certKey && v.certCrt == w.certCrt)
    && (k <= 8 || !env.docker ==> v.containers == w.containers)
  }

  /** The trace an effect leaves in the world. */
  predicate Visible(w: World, f: Effect) {
    match f
    case MakeWorkspace => w.workspace.Some?
    case Make(e) => HasEntry(w, e)
    case Put(e) => HasEntry(w, e)
    case CreateRole => w.role
    case CreateDatabase => w.database
    case GrantAll => w.role && w.database
    case WriteRoute => w.route
    case WriteKey => w.certKey
    case WriteCrt => w.certCrt
  }

  /** Effects never remove anything. */
  predicate Grows(w: World, v: World) {
    && v.registered == w.registered && v.containers == w.containers
    && (w.workspace.Some? ==> v.workspace.Some? && w.workspace.value <= v.workspace.value)
    && (w.role ==> v.role) && (w.database ==> v.database)
    && (w.route ==> v.route) && (w.certKey ==> v.certKey) && (w.certCrt ==> v.certCrt)
  }

  /** `v` differs from `w` outside the workspace only by what `effects` create. */
  predicate Touches(w: World, v: World, effects: seq<Effect>) {
    && (v.role != w.role ==> CreateRole in effects)
    && (v.database != w.database ==> CreateDatabase in effects)
    && (v.route != w.route ==> WriteRoute in effects)
    && (v.certKey != w.certKey ==> WriteKey in effects)
    && (v.certCrt != w.certCrt ==> WriteCrt in effects)
  }

  lemma ApplyAdds(w: World, f: Effect)
    ensures Grows(w, Apply(w, f)) && Touches(w, Apply(w, f), [f]) && (Possible(w, f) ==> Visible(Apply(w, f), f))
  {
  }

  lemma {:induction false} PlayGrows(w: World, effects: seq<Effect>, fault: Fault)
    ensures Grows(w, Play(w, effects, fault).world)
    decreases |effects|
  {
    if fault != FailsAfter(0) && effects != [] && Possible(w, effects[0]) {
      ApplyAdds(w, effects[0]);
      PlayGrows(Apply(w, effects[0]), effects[1..], Later(fault));
    }
  }

  lemma {:induction false} PlayTouches(w: World, effects: seq<Effect>, fault: Fault)
    ensures Touches(w, Play(w, effects, fault).world, effects)
    decreases |effects|
  {
    if fault != FailsAfter(0) && effects != [] && Possible(w, effects[0]) {
      ApplyAdds(w, effects[0]);
      PlayTouches(Apply(w, effects[0]), effects[1..], Later(fault));
    }
  }

  lemma {:induction false} PlayShows(w: World, effects: seq<Effect>, fault: Fault, f: Effect)
    requires f in effects && Play(w, effects, fault).ok
    ensures Visible(Play(w, effects, fault).world, f)
    decreases |effects|
  {
    var v := Apply(w, effects[0]);
    var left := Later(fault);
    if f == effects[0] {
      PlayGrows(v, effects[1..], left);
    } else {
      PlayShows(v, effects[1..], left, f);
    }
  }

  /** The footprint of one step outside the workspace, and what it guarantees when it succeeds. */
  predicate Footprint(v: World, r: StepResult, step: Step, env: Env) {
    var u := r.world;
    && (v.workspace.Some? ==> u.workspace.Some? && v.workspace.value <= u.workspace.value)
    && ((step.Database? && env.psql) || (u.role == v.role && u.database == v.database))
    && ((step.Environment? && r.ok) || u.registered == v.registered)
    && (step.Dns? || u.route == v.route)
    && (step.Certificate? || (u.certKey == v.certKey && u.certCrt == v.certCrt))
    && ((step.Container? && env.docker) || u.containers == v.containers)
    && (r.ok && step.Workspace? ==> u.workspace.Some?)
    && (r.ok && step.Compose? ==> HasEntry(u, ComposeFile))
  }

  lemma StepFootprint(v: World, step: Step, env: Env, fault: Fault)
    ensures Footprint(v, Execute(v, step, env, fault), step, env)
  {
    if CanThrow(step, env) {
      var effects := Effects(step);
      PlayGrows(v, effects, fault);
      PlayTouches(v, effects, fault);
      if Play(v, effects, fault).ok && step.Workspace? {
        PlayShows(v, effects, fault, MakeWorkspace);
      }
      if Play(v, effects, fault).ok && step.Compose? {
        PlayShows(v, effects, fault, Put(ComposeFile));
      }
    }
  }

  lemma StepFrame(w: World, v: World, k: nat, env: Env, r: StepResult)
    requires k < |STEPS| && PrefixDone(w, v, k, env)
    requires r.ok && Footprint(v, r, STEPS[k], env)
    ensures PrefixDone(w, r.world, k + 1, env)
  {
  }

  /** The step that fails, the world it starts in, and what is left after compensation. */
  lemma {:induction false} FailingStep(w: World, v: World, k: nat, env: Env, faults: seq<Fault>)
      returns (at: World, j: nat)
    requires k <= |STEPS| == |faults| && PrefixDone(w, v, k, env)
    requires RunFrom(v, k, env, faults).failedAt.Some?
    ensures k <= j < |STEPS| && PrefixDone(w, at, j, env)
    ensures var r := Execute(at, STEPS[j], env, faults[j]);
            !r.ok && RunFrom(v, k, env, faults)
                     == RunResult(Scrub(r.world, j, env), Some(j), Reversed(STEPS[..j]))
    decreases |STEPS| - k
  {
    var r := Execute(v, STEPS[k], env, faults[k]);
    if r.ok {
      StepFootprint(v, STEPS[k], env, faults[k]);
      StepFrame(w, v, k, env, r);
      at, j := FailingStep(w, r.world, k + 1, env, faults);
    } else {
      at, j := v, k;
      UndoPrefixScrubs(r.world, k, env);
    }
  }

  /** Every completed step is compensated exactly once, in the reverse of the order they ran in. */
  lemma {:induction false} CompensatesInExactReverse(v: World, k: nat, env: Env, faults: seq<Fault>)
    requires k <= |STEPS| == |faults|
    ensures var r := RunFrom(v, k, env, faults);
            match r.failedAt
            case None => r.compensated == []
            case Some(j) =>
              && k <= j < |STEPS| && |r.compensated| == j
              && forall i :: 0 <= i < j ==> r.compensated[i] == STEPS[j - 1 - i]
    decreases |STEPS| - k
  {
    if k == |STEPS| {
    } else {
      var r := Execute(v, STEPS[k], env, faults[k]);
      if r.ok {
        CompensatesInExactReverse(r.world, k + 1, env, faults);
      } else {
        ReversedPrefix(STEPS, k);
      }
    }
  }

  lemma ReversedPrefix(steps: seq<Step>, k: nat)
    requires k <= |steps|
    ensures |Reversed(steps[..k])| == k
    ensures forall i :: 0 <= i < k ==> Reversed(steps[..k])[i] == steps[k - 1 - i]
  {
  }

  /** `w` without everything that steps before `k` own. */
  function Without(w: World, k: nat, env: Env): World {
    Scrub(w, k, env).(containers := if k >= 9 && env.docker then Absent else w.containers)
  }

  /**
   A step that fails before its first effect: whatever the tenant had before the run, exactly the
   resources owned by the completed steps are gone afterwards and nothing else changed.
   */
  lemma FailedRunRemovesPrefix(w: World, env: Env, faults: seq<Fault>)
    requires |STEPS| == |faults|
    ensures var r := Run(w, env, faults);
            r.failedAt.Some? && faults[r.failedAt.value] == FailsAfter(0)
            ==> r.world == Without(w, r.failedAt.value, env)
  {
    var r := Run(w, env, faults);
    if r.failedAt.Some? && faults[r.failedAt.value] == FailsAfter(0) {
      var at, j := FailingStep(w, w, 0, env, faults);
      FailsAtOnce(at, STEPS[j], env);
      ScrubbedPrefix(w, at, j, env);
    }
  }

  lemma FailsAtOnce(at: World, step: Step, env: Env)
    requires !Execute(at, step, env, FailsAfter(0)).ok
    ensures Execute(at, step, env, FailsAfter(0)).world == at
  {
  }

  lemma ScrubbedPrefix(w: World, at: World, j: nat, env: Env)
    requires j < |STEPS| && PrefixDone(w, at, j, env)
    ensures Scrub(at, j, env) == Without(w, j, env)
  {
  }

  /** A failing step whose partial effects no compensation will remove. */
  predicate Leaks(step: Step, fault: Fault) {
    fault != FailsAfter(0) && step in {Workspace, Database, Dns, Certificate}
  }

  lemma UnfaultedStepSucceeds(v: World, step: Step, env: Env)
    requires step.Secret? ==> v.workspace.Some?
    requires step.Database? && env.psql ==> !v.role && !v.database
    ensures Execute(v, step, env, NoFault).ok
  {
    var effects := Effects(step);
    if CanThrow(step, env) {
      var v1 := Apply(v, effects[0]);
      assert Possible(v, effects[0]) && Play(v, effects, NoFault) == Play(v1, effects[1..], NoFault);
      if |effects| > 1 {
        var v2 := Apply(v1, effects[1]);
        assert Possible(v1, effects[1]) && effects[1..][0] == effects[1];
        assert Play(v1, effects[1..], NoFault) == Play(v2, effects[1..][1..], NoFault);
        if |effects| > 2 {
          assert effects[1..][1..] == [effects[2]];
          assert Possible(v2, effects[2]) && [effects[2]][1..] == [];
          assert Play(v2, [effects[2]], NoFault) == Play(Apply(v2, effects[2]), [], NoFault);
        } else {
          assert effects[1..][1..] == [];
        }
      }
    }
  }

  lemma FirstEffectStays(v: World, effects: seq<Effect>, fault: Fault)
    requires effects != [] && fault != FailsAfter(0) && Possible(v, effects[0])
    ensures Visible(Play(v, effects, fault).world, effects[0])
  {
    ApplyAdds(v, effects[0]);
    PlayGrows(Apply(v, effects[0]), effects[1..], Later(fault));
  }

  lemma LeakOfOneStep(at: World, j: nat, env: Env, fault: Fault)
    requires j < |STEPS| && PrefixDone(CLEAN, at, j, env)
    requires !Execute(at, STEPS[j], env, fault).ok
    ensures Scrub(Execute(at, STEPS[j], env, fault).world, j, env) == CLEAN <==> !Leaks(STEPS[j], fault)
  {
    var step := STEPS[j];
    if fault.NoFault? {
      UnfaultedStepSucceeds(at, step, env);
    } else if fault != FailsAfter(0) {
      StepFootprint(at, step, env, fault);
      FirstEffectStays(at, Effects(step), fault);
    }
  }

  // ---------------------------------------------------------------- provisioning as a whole

  /** Nothing in the world makes an unfaulted run fail. */
  predicate Provisionable(w: World, env: Env) {
    env.psql ==> !w.role && !w.database
  }

  lemma {:induction false} UnfaultedRunCompletes(w: World, v: World, k: nat, env: Env)
    requires k <= |STEPS| && PrefixDone(w, v, k, env) && Provisionable(w, env)
    ensures RunFrom(v, k, env, NO_FAULTS).failedAt.None?
    decreases |STEPS| - k
  {
    if k == |STEPS| {
    } else {
      UnfaultedStepSucceeds(v, STEPS[k], env);
      StepFootprint(v, STEPS[k], env, NoFault);
      StepFrame(w, v, k, env, Execute(v, STEPS[k], env, NoFault));
      UnfaultedRunCompletes(w, Execute(v, STEPS[k], env, NoFault).world, k + 1, env);
    }
  }

  /** A fault that stops its step: the step can throw, and has not done with its effects before. */
  predicate Strikes(step: Step, env: Env, fault: Fault) {
    CanThrow(step, env) && fault.FailsAfter? && fault.done <= |Effects(step)|
  }

  lemma {:induction false} StruckPlayFails(w: World, effects: seq<Effect>, n: nat)
    requires n <= |effects|
    ensures !Play(w, effects, FailsAfter(n)).ok
    decreases |effects|
  {
    if n == 0 {
    } else {
      StruckPlayFails(Apply(w, effects[0]), effects[1..], n - 1);
    }
  }

  lemma {:induction false} UnstruckPlay(w: World, effects: seq<Effect>, n: nat)
    requires n > |effects|
    ensures Play(w, effects, FailsAfter(n)) == Play(w, effects, NoFault)
    decreases |effects|
  {
    if effects == [] {
    } else {
      UnstruckPlay(Apply(w, effects[0]), effects[1..], n - 1);
    }
  }

  lemma StepFailsIffStruck(v: World, step: Step, env: Env, fault: Fault)
    requires step.Secret? ==> v.workspace.Some?
    requires step.Database? && env.psql ==> !v.role && !v.database
    ensures Execute(v, step, env, fault).ok <==> !Strikes(step, env, fault)
  {
    UnfaultedStepSucceeds(v, step, env);
    if CanThrow(step, env) && fault.FailsAfter? {
      if fault.done <= |Effects(step)| {
        StruckPlayFails(v, Effects(step), fault.done);
      } else {
        UnstruckPlay(v, Effects(step), fault.done);
      }
    }
  }

  /** The first step from `k` on that the fault plan strikes. */
  function FirstStrike(k: nat, env: Env, faults: seq<Fault>): Option<nat>
    requires k <= |STEPS| == |faults|
    decreases |STEPS| - k
  {
    if k == |STEPS| then None
    else if Strikes(STEPS[k], env, faults[k]) then Some(k)
    else FirstStrike(k + 1, env, faults)
  }

  /** Where nothing stands in the way, a run fails exactly at the first step its fault plan strikes. */
  lemma {:induction false} FailsAtFirstStrike(w: World, v: World, k: nat, env: Env, faults: seq<Fault>)
    requires k <= |STEPS| == |faults| && PrefixDone(w, v, k, env) && Provisionable(w, env)
    ensures RunFrom(v, k, env, faults).failedAt == FirstStrike(k, env, faults)
    ensures FirstStrike(k, env, faults).Some? ==> FirstStrike(k, env, faults).value < |STEPS|
    decreases |STEPS| - k
  {
    if k == |STEPS| {
    } else {
      StepFailsIffStruck(v, STEPS[k], env, faults[k]);
      if !Strikes(STEPS[k], env, faults[k]) {
        var r := Execute(v, STEPS[k], env, faults[k]);
        StepFootprint(v, STEPS[k], env, faults[k]);
        StepFrame(w, v, k, env, r);
        FailsAtFirstStrike(w, r.world, k + 1, env, faults);
      }
    }
  }

  /** No run fails after the certificates, so no run ever compensates the container step or the health check. */
  lemma {:induction false} NoFailureAfterCertificates(v: World, k: nat, env: Env, faults: seq<Fault>)
    requires k <= |STEPS| == |faults|
    ensures RunFrom(v, k, env, faults).failedAt.Some? ==> RunFrom(v, k, env, faults).failedAt.value <= 7
    decreases |STEPS| - k
  {
    if k == |STEPS| {
    } else if Execute(v, STEPS[k], env, faults[k]).ok {
      NoFailureAfterCertificates(Execute(v, STEPS[k], env, faults[k]).world, k + 1, env, faults);
    }
  }

  /**
   Restoration. A run from a tenant without resources fails at the first step its fault plan strikes.
   It leaves nothing behind exactly when that fault strikes before the first effect of the step or
   within the workspace directory; a step that fails half way through the database, the route or the
   certificates leaks, because the runner never compensates the failing step itself.
   */
  lemma RestoredIffNothingLeaks(env: Env, faults: seq<Fault>)
    requires |STEPS| == |faults|
    ensures var r, k := Run(CLEAN, env, faults), FirstStrike(0, env, faults);
            && r.failedAt == k
            && (k.Some? ==>
                  k.value < |STEPS| && (r.world == CLEAN <==> !Leaks(STEPS[k.value], faults[k.value])))
  {
    FailsAtFirstStrike(CLEAN, CLEAN, 0, env, faults);
    if Run(CLEAN, env, faults).failedAt.Some? {
      var at, j := FailingStep(CLEAN, CLEAN, 0, env, faults);
      LeakOfOneStep(at, j, env, faults[j]);
    }
  }

  lemma PlayOne(v: World, effects: seq<Effect>, d: nat)
    requires effects != [] && d > 0 && Possible(v, effects[0])
    ensures Play(v, effects, FailsAfter(d)) == Play(Apply(v, effects[0]), effects[1..], FailsAfter(d - 1))
  {
  }

  /** What a step does that fails after `d` of its effects. */
  lemma PartialEffects(v: World, step: Step, env: Env, d: nat)
    requires step in {Workspace, Database, Dns, Certificate} && Strikes(step, env, FailsAfter(d)) && d > 0
    requires step.Database? ==> !v.role && !v.database
    ensures Execute(v, step, env, FailsAfter(d)).world
         == match step
            case Workspace => v.(workspace := Some(v.workspace.GetOr({})))
            case Database => v.(role := true, database := d >= 2)
            case Dns => v.(route := true)
            case _ => v.(certKey := true, certCrt := v.certCrt || d >= 2)
  {
    var effects := Effects(step);
    PlayOne(v, effects, d);
    var v1 := Apply(v, effects[0]);
    if d > 1 {
      assert effects[1..][0] == effects[1];
      PlayOne(v1, effects[1..], d - 1);
      var v2 := Apply(v1, effects[1]);
      if d > 2 {
        assert effects[1..][1..][0] == effects[2];
        PlayOne(v2, effects[1..][1..], d - 2);
      }
    }
  }

  /**
   What a failed run leaves of a tenant that had nothing: of the step that failed, the effects it had
   done outside the workspace directory, or the empty directory.
   */
  lemma FailedRunLeaves(env: Env, faults: seq<Fault>)
    requires |STEPS| == |faults|
    ensures var k := FirstStrike(0, env, faults);
            k.Some? ==>
              && k.value < |STEPS| && faults[k.value].FailsAfter?
              && var d := faults[k.value].done;
                 Run(CLEAN, env, faults).world
                 == World(if k.value == 0 && d >= 1 then Some({}) else None,
                          k.value == 3 && d >= 1, k.value == 3 && d >= 2, None,
                          k.value == 6 && d >= 1, k.value == 7 && d >= 1, k.value == 7 && d >= 2, Absent)
  {
    FailsAtFirstStrike(CLEAN, CLEAN, 0, env, faults);
    RestoredIffNothingLeaks(env, faults);
    var k := FirstStrike(0, env, faults);
    if k.Some? {
      StruckAt(0, env, faults);
      var at, j := FailingStep(CLEAN, CLEAN, 0, env, faults);
      if Leaks(STEPS[j], faults[j]) {
        PartialEffects(at, STEPS[j], env, faults[j].done);
        LeftByStep(at, j, env, faults[j].done);
      }
    }
  }

  lemma {:induction false} StruckAt(k: nat, env: Env, faults: seq<Fault>)
    requires k <= |STEPS| == |faults| && FirstStrike(k, env, faults).Some?
    ensures var j := FirstStrike(k, env, faults).value;
            k <= j < |STEPS| && Strikes(STEPS[j], env, faults[j])
    decreases |STEPS| - k
  {
    if !Strikes(STEPS[k], env, faults[k]) {
      StruckAt(k + 1, env, faults);
    }
  }

  lemma LeftByStep(at: World, j: nat, env: Env, d: nat)
    requires j in {0, 3, 6, 7} && PrefixDone(CLEAN, at, j, env) && d > 0 && (j == 3 ==> env.psql)
    ensures var v := match STEPS[j]
                     case Workspace => at.(workspace := Some(at.workspace.GetOr({})))
                     case Database => at.(role := true, database := d >= 2)
                     case Dns => at.(route := true)
                     case _ => at.(certKey := true, certCrt := at.certCrt || d >= 2);
            Scrub(v, j, env)
              == World(if j == 0 then Some({}) else None, j == 3, j == 3 && d >= 2, None,
                       j == 6, j == 7, j == 7 && d >= 2, Absent)
  {
  }

  /** All that a provisioned tenant needs is there. */
  predicate Complete(w: World, env: Env) {
    && HasEntry(w, SecretsFile) && HasEntry(w, ComposeFile) && HasEntry(w, DataDir) && HasEntry(w, LogsDir)
    && HasEntry(w, TenantYaml)
    && (env.psql ==> w.role && w.database)
    && w.registered == Some(PROVISIONING)
    && w.route && w.certKey && w.certCrt
    && (env.docker ==> w.containers == Running)
  }

  /** The part of `Complete` that the first `k` steps establish. */
  predicate BuiltUpTo(w: World, k: nat, env: Env) {
    && (k >= 1 ==> w.workspace.Some?)
    && (k >= 2 ==> HasEntry(w, DataDir) && HasEntry(w, LogsDir))
    && (k >= 3 ==> HasEntry(w, SecretsFile))
    && (k >= 4 && env.psql ==> w.role && w.database)
    && (k >= 5 ==> HasEntry(w, TenantYaml) && w.registered == Some(PROVISIONING))
    && (k >= 6 ==> HasEntry(w, ComposeFile))
    && (k >= 7 ==> w.route)
    && (k >= 8 ==> w.certKey && w.certCrt)
    && (k >= 9 && env.docker ==> w.containers == Running)
  }

  lemma StepBuilds(v: World, k: nat, env: Env, fault: Fault)
    requires k < |STEPS| && BuiltUpTo(v, k, env) && Execute(v, STEPS[k], env, fault).ok
    ensures BuiltUpTo(Execute(v, STEPS[k], env, fault).world, k + 1, env)
  {
    var step := STEPS[k];
    var effects := Effects(step);
    StepFootprint(v, step, env, fault);
    if CanThrow(step, env) {
      PlayGrows(v, effects, fault);
      forall f | f in effects ensures Visible(Play(v, effects, fault).world, f) {
        PlayShows(v, effects, fault, f);
      }
      assert forall i :: 0 <= i < |effects| ==> effects[i] in effects;
      assert effects != [];
      assert effects[0] in effects && (|effects| > 1 ==> effects[1] in effects);
    }
  }

  lemma {:induction false} CompletedRunBuilds(v: World, k: nat, env: Env, faults: seq<Fault>)
    requires k <= |STEPS| == |faults| && BuiltUpTo(v, k, env)
    requires RunFrom(v, k, env, faults).failedAt.None?
    ensures Complete(RunFrom(v, k, env, faults).world, env)
    decreases |STEPS| - k
  {
    if k == |STEPS| {
    } else {
      StepBuilds(v, k, env, faults[k]);
      CompletedRunBuilds(Execute(v, STEPS[k], env, faults[k]).world, k + 1, env, faults);
    }
  }

  /**
   A run that reports success has built everything, whatever the tenant looked like before; a run
   without faults reports success exactly when Postgres holds neither the role nor the database.
   */
  lemma RunSucceeds(w: World, env: Env, faults: seq<Fault>)
    requires |STEPS| == |faults|
    ensures Run(w, env, faults).failedAt.None? ==> Complete(Run(w, env, faults).world, env)
    ensures Run(w, env, NO_FAULTS).failedAt.None? <==> Provisionable(w, env)
  {
    if Run(w, env, faults).failedAt.None? {
      CompletedRunBuilds(w, 0, env, faults);
    }
    if Provisionable(w, env) {
      UnfaultedRunCompletes(w, w, 0, env);
    } else {
      BlockedRunFails(w, env);
    }
  }

  /** The workspace entries that a step puts there. */
  function EntriesOf(step: Step): set<Entry> {
    match step
    case Volume => {DataDir, LogsDir}
    case Secret => {SecretsFile}
    case Environment => {TenantYaml, Versions}
    case Compose => {AppDir, ComposeFile}
    case _ => {}
  }

  function EntriesUpTo(k: nat): set<Entry>
    requires k <= |STEPS|
  {
    if k == 0 then {} else EntriesUpTo(k - 1) + EntriesOf(STEPS[k - 1])
  }

  /** The world after the first `k` steps of a run in which they succeed. */
  function BuiltWorld(w: World, k: nat, env: Env): World
    requires k <= |STEPS|
  {
    World(
      if k >= 1 then Some(w.workspace.GetOr({}) + EntriesUpTo(k)) else w.workspace,
      w.role || (k >= 4 && env.psql),
      w.database || (k >= 4 && env.psql),
      if k >= 5 then Some(PROVISIONING) else w.registered,
      w.route || k >= 7,
      w.certKey || k >= 8,
      w.certCrt || k >= 8,
      if k >= 9 && env.docker then Running else w.containers)
  }

  /** The world after all effects of a step. */
  function ApplyAll(w: World, effects: seq<Effect>): World
    decreases |effects|
  {
    if effects == [] then w else ApplyAll(Apply(w, effects[0]), effects[1..])
  }

  lemma {:induction false} PlayedAll(w: World, effects: seq<Effect>, fault: Fault)
    requires Play(w, effects, fault).ok
    ensures Play(w, effects, fault).world == ApplyAll(w, effects)
    decreases |effects|
  {
    if effects == [] {
    } else {
      PlayedAll(Apply(w, effects[0]), effects[1..], Later(fault));
    }
  }

  lemma ApplyTwo(w: World, f: Effect, g: Effect)
    ensures ApplyAll(w, [f]) == Apply(w, f) && ApplyAll(w, [f, g]) == Apply(Apply(w, f), g)
  {
    assert [f, g][1..] == [g] && [g][1..] == [] && [f][1..] == [];
    assert ApplyAll(w, [f]) == ApplyAll(Apply(w, f), []);
    assert ApplyAll(Apply(w, f), [g]) == ApplyAll(Apply(Apply(w, f), g), []);
  }

  lemma EntriesOfAll()
    ensures EntriesUpTo(10) == {DataDir, LogsDir, SecretsFile, TenantYaml, Versions, AppDir, ComposeFile}
  {
    assert EntriesUpTo(2) == {DataDir, LogsDir};
    assert EntriesUpTo(4) == {DataDir, LogsDir, SecretsFile};
    assert EntriesUpTo(6) == {DataDir, LogsDir, SecretsFile, TenantYaml, Versions, AppDir, ComposeFile};
    assert EntriesUpTo(8) == EntriesUpTo(6);
  }

  /** The effects of each step, one after the other. */
  lemma StepEffects(v: World, step: Step)
    ensures ApplyAll(v, Effects(step))
         == match step
            case Workspace => Apply(v, MakeWorkspace)
            case Volume => Apply(Apply(v, Make(DataDir)), Make(LogsDir))
            case Secret => Apply(v, Put(SecretsFile))
            case Database => v.(role := true, database := true)
            case Environment => Apply(Apply(v, Make(TenantYaml)), Make(Versions))
            case Compose => Apply(Apply(v, Make(AppDir)), Put(ComposeFile))
            case Dns => v.(route := true)
            case Certificate => v.(certKey := true, certCrt := true)
            case _ => v
  {
    match step {
      case Workspace => ApplyTwo(v, MakeWorkspace, MakeWorkspace);
      case Volume => ApplyTwo(v, Make(DataDir), Make(LogsDir));
      case Secret => ApplyTwo(v, Put(SecretsFile), Put(SecretsFile));
      case Database =>
        var effects := Effects(Database);
        assert effects[1..] == [CreateDatabase, GrantAll];
        assert ApplyAll(v, effects) == ApplyAll(Apply(v, CreateRole), effects[1..]);
        ApplyTwo(Apply(v, CreateRole), CreateDatabase, GrantAll);
      case Environment => ApplyTwo(v, Make(TenantYaml), Make(Versions));
      case Compose => ApplyTwo(v, Make(AppDir), Put(ComposeFile));
      case Dns => ApplyTwo(v, WriteRoute, WriteRoute);
      case Certificate => ApplyTwo(v, WriteKey, WriteCrt);
      case _ =>
    }
  }

  lemma WorkspaceAfter(v: World, step: Step)
    ensures ApplyAll(v, Effects(step)).workspace
         == if step in {Workspace, Volume, Secret, Environment, Compose}
            then Some(v.workspace.GetOr({}) + EntriesOf(step)) else v.workspace
  {
    StepEffects(v, step);
    var x := v.workspace.GetOr({});
    assert x + {} == x;
    assert x + {DataDir} + {LogsDir} == x + {DataDir, LogsDir};
    assert x + {TenantYaml} + {Versions} == x + {TenantYaml, Versions};
    assert x + {AppDir} + {ComposeFile} == x + {AppDir, ComposeFile};
  }

  lemma SetsAssoc<T>(x: set<T>, a: set<T>, b: set<T>)
    ensures (x + a) + b == x + (a + b) && x + {} == x
  {
  }

  lemma WorkspaceBuilt(w: World, k: nat, env: Env)
    requires k < |STEPS|
    ensures ApplyAll(BuiltWorld(w, k, env), Effects(STEPS[k])).workspace == BuiltWorld(w, k + 1, env).workspace
    ensures EntriesOf(STEPS[k]) == {} && k > 0 ==>
              BuiltWorld(w, k, env).workspace == BuiltWorld(w, k + 1, env).workspace
  {
    WorkspaceAfter(BuiltWorld(w, k, env), STEPS[k]);
    SetsAssoc(w.workspace.GetOr({}), EntriesUpTo(k), EntriesOf(STEPS[k]));
    SetsAssoc(EntriesUpTo(k), {}, {});
  }

  lemma FieldsAfter(v: World, step: Step)
    ensures var r := ApplyAll(v, Effects(step));
            && r.role == (v.role || step.Database?) && r.database == (v.database || step.Database?)
            && r.route == (v.route || step.Dns?) && r.certKey == (v.certKey || step.Certificate?)
            && r.certCrt == (v.certCrt || step.Certificate?)
            && r.registered == v.registered && r.containers == v.containers
  {
    StepEffects(v, step);
  }

  lemma FieldsBuilt(w: World, k: nat, env: Env)
    requires k < |STEPS| && CanThrow(STEPS[k], env)
    ensures var r, v := ApplyAll(BuiltWorld(w, k, env), Effects(STEPS[k])), BuiltWorld(w, k + 1, env);
            && r.role == v.role && r.database == v.database && r.route == v.route
            && r.certKey == v.certKey && r.certCrt == v.certCrt && r.containers == v.containers
            && (k != 4 ==> r.registered == v.registered)
  {
    FieldsAfter(BuiltWorld(w, k, env), STEPS[k]);
  }

  lemma StepBuildsExactly(w: World, k: nat, env: Env, fault: Fault)
    requires k < |STEPS|
    requires Execute(BuiltWorld(w, k, env), STEPS[k], env, fault).ok
    ensures Execute(BuiltWorld(w, k, env), STEPS[k], env, fault).world == BuiltWorld(w, k + 1, env)
  {
    WorkspaceBuilt(w, k, env);
    if CanThrow(STEPS[k], env) {
      PlayedAll(BuiltWorld(w, k, env), Effects(STEPS[k]), fault);
      FieldsBuilt(w, k, env);
    } else if STEPS[k].Container? {
      ComposeFileBuilt(w, env);
    }
  }

  lemma ComposeFileBuilt(w: World, env: Env)
    ensures HasEntry(BuiltWorld(w, 8, env), ComposeFile)
  {
    assert ComposeFile in EntriesUpTo(6);
    assert ComposeFile in EntriesUpTo(8);
  }

  /** A run that succeeds leaves exactly the built world, whatever there was before. */
  lemma {:induction false} RunBuildsExactly(w: World, k: nat, env: Env, faults: seq<Fault>)
    requires k <= |STEPS| == |faults| && RunFrom(BuiltWorld(w, k, env), k, env, faults).failedAt.None?
    ensures RunFrom(BuiltWorld(w, k, env), k, env, faults).world == BuiltWorld(w, |STEPS|, env)
    decreases |STEPS| - k
  {
    if k == |STEPS| {
    } else {
      StepBuildsExactly(w, k, env, faults[k]);
      RunBuildsExactly(w, k + 1, env, faults);
    }
  }

  /** All that a successful provisioning leaves, with the status it registers. */
  lemma ProvisionedExactly(w: World, env: Env, faults: seq<Fault>)
    requires |STEPS| == |faults| && Provision(w, env, true, faults, true).ok
    ensures Provision(w, env, true, faults, true).world
         == World(Some(w.workspace.GetOr({})
                       + {DataDir, LogsDir, SecretsFile, TenantYaml, Versions, AppDir, ComposeFile}),
                  w.role || env.psql, w.database || env.psql, Some(ACTIVE), true, true, true,
                  if env.docker then Running else w.containers)
  {
    EntriesOfAll();
    assert BuiltWorld(w, 0, env) == w;
    RunBuildsExactly(w, 0, env, faults);
  }

  /** The steps before the database only build the workspace. */
  lemma WorkspaceStep(v: World, k: nat, env: Env)
    requires k < 3 && (k > 0 ==> v.workspace.Some?)
    ensures var r := Execute(v, STEPS[k], env, NoFault);
            && r.ok && r.world.workspace.Some? && r.world == v.(workspace := r.world.workspace)
            && RunFrom(v, k, env, NO_FAULTS) == RunFrom(r.world, k + 1, env, NO_FAULTS)
  {
    UnfaultedStepSucceeds(v, STEPS[k], env);
    StepFootprint(v, STEPS[k], env, NoFault);
    StepIsRun(v, k, env);
  }

  lemma StepIsRun(v: World, k: nat, env: Env)
    requires k < |STEPS| && Execute(v, STEPS[k], env, NoFault).ok
    ensures RunFrom(v, k, env, NO_FAULTS)
         == RunFrom(Execute(v, STEPS[k], env, NoFault).world, k + 1, env, NO_FAULTS)
  {
  }

  lemma DatabaseBlocked(v: World, env: Env)
    requires !Provisionable(v, env)
    ensures Execute(v, Database, env, NoFault) == StepResult(v.(role := true), false)
  {
    var effects := Effects(Database);
    if !v.role {
      var u := Apply(v, CreateRole);
      assert Play(v, effects, NoFault) == Play(u, effects[1..], NoFault);
      assert effects[1..][0] == CreateDatabase && !Possible(u, CreateDatabase);
    }
  }

  /** Re-provisioning a tenant whose role or database survives fails there and takes the workspace along. */
  lemma BlockedRunFails(w: World, env: Env)
    requires !Provisionable(w, env)
    ensures var r := Run(w, env, NO_FAULTS);
            && r.failedAt == Some(3)
            && r.world.workspace.None?
            && r.world == w.(workspace := None, role := true)
  {
    WorkspaceStep(w, 0, env);
    var w1 := Execute(w, STEPS[0], env, NoFault).world;
    WorkspaceStep(w1, 1, env);
    var w2 := Execute(w1, STEPS[1], env, NoFault).world;
    WorkspaceStep(w2, 2, env);
    var w3 := Execute(w2, STEPS[2], env, NoFault).world;
    DatabaseBlocked(w3, env);
    UndoPrefixScrubs(w3.(role := true), 3, env);
  }

  /** A successful provisioning is complete and ACTIVE; no other outcome reports ACTIVE. */
  lemma ProvisionSucceeds(w: World, env: Env, allowed: bool, faults: seq<Fault>, saved: bool)
    requires |STEPS| == |faults|
    ensures var p := Provision(w, env, allowed, faults, saved);
            && (p.ok <==> p.fsm == ACTIVE)
            && (!p.ok <==> p.fsm == FAILED)
            && (p.ok ==> p.world.registered == Some(ACTIVE)
                         && Complete(p.world.(registered := Some(PROVISIONING)), env))
  {
    RunSucceeds(w, env, faults);
  }

  /**
   A failed provisioning restores a tenant without resources exactly when a policy refused it or a
   step failed without leaking. When only the last registry write fails nothing is compensated:
   the whole tenant stays, and the cache says ACTIVE while the state machine says FAILED.
   */
  lemma FailedProvisionRestoresIff(env: Env, allowed: bool, faults: seq<Fault>, saved: bool)
    requires |STEPS| == |faults|
    ensures var p := Provision(CLEAN, env, allowed, faults, saved);
            var k := FirstStrike(0, env, faults);
            && (p.ok <==> allowed && k.None? && saved)
            && (!p.ok ==>
              && (p.world == CLEAN <==>
                    !allowed || (k.Some? && k.value < |STEPS| && !Leaks(STEPS[k.value], faults[k.value])))
              && (allowed && k.None? ==>
                    p.fsm == FAILED && p.world == Provision(CLEAN, env, true, faults, true).world))
  {
    RestoredIffNothingLeaks(env, faults);
    RunSucceeds(CLEAN, env, faults);
  }

  // ---------------------------------------------------------------- why the order matters

  /** The world after compensating `order`, first element first. */
  function UndoInOrder(w: World, order: seq<Step>, env: Env): World
    decreases |order|
  {
    if order == [] then w else UndoInOrder(Undone(w, order[0], env), order[1..], env)
  }

  lemma {:induction false} UndoPrefixIsReverseOrder(w: World, k: nat, env: Env)
    requires k <= |STEPS|
    ensures UndoPrefix(w, k, env) == UndoInOrder(w, Reversed(STEPS[..k]), env)
    decreases k
  {
    if k == 0 {
    } else {
      UndoPrefixIsReverseOrder(Undone(w, STEPS[k - 1], env), k - 1, env);
      assert STEPS[..k][..k - 1] == STEPS[..k - 1];
      assert Reversed(STEPS[..k]) == [STEPS[k - 1]] + Reversed(STEPS[..k - 1]);
    }
  }

  lemma {:induction false} ContainersSettled(w: World, order: seq<Step>, env: Env)
    requires w.containers == Absent || !HasEntry(w, ComposeFile)
    ensures UndoInOrder(w, order, env).containers == w.containers
    decreases |order|
  {
    if order == [] {
    } else {
      ContainersSettled(Undone(w, order[0], env), order[1..], env);
    }
  }

  /**
   Of the countdown itself, in whatever order steps are compensated: running containers go down if
   and only if the container step comes before the compose file and the workspace are removed.
   */
  lemma {:induction false} ContainersGoDownIff(w: World, order: seq<Step>, env: Env)
    requires env.docker && w.containers == Running && HasEntry(w, ComposeFile)
    ensures UndoInOrder(w, order, env).containers == Absent
       <==> exists i :: 0 <= i < |order| && order[i] == Container
                        && forall j :: 0 <= j < i ==> order[j] !in {Workspace, Compose}
    decreases |order|
  {
    if order == [] {
    } else {
      var v, rest := Undone(w, order[0], env), order[1..];
      if order[0] in {Container, Workspace, Compose} {
        ContainersSettled(v, rest, env);
      } else {
        ContainersGoDownIff(v, rest, env);
        if i :| 0 <= i < |rest| && rest[i] == Container && forall j :: 0 <= j < i ==> rest[j] !in {Workspace, Compose} {
          assert order[i + 1] == Container;
          assert forall j :: 0 <= j < i + 1 ==> order[j] !in {Workspace, Compose};
        }
        if i :| 0 <= i < |order| && order[i] == Container
                && forall j :: 0 <= j < i ==> order[j] !in {Workspace, Compose} {
          assert rest[i - 1] == Container;
          assert forall j :: 0 <= j < i - 1 ==> rest[j] == order[j + 1];
        }
      }
    }
  }

  /** A countdown over all ten steps in execution order would leave the containers running. */
  lemma ForwardCompensationLeavesContainers(w: World, env: Env)
    requires env.docker && Complete(w, env)
    ensures UndoInOrder(w, STEPS, env).containers == Running
    ensures UndoInOrder(w, Reversed(STEPS), env).containers == Absent
  {
    ContainersSettled(Undone(w, STEPS[0], env), STEPS[1..], env);
    assert STEPS[..|STEPS|] == STEPS;
    UndoPrefixIsReverseOrder(w, |STEPS|, env);
    UndoPrefixScrubs(w, |STEPS|, env);
  }

  // ---------------------------------------------------------------- when compensations fail

  /** The countdown when the compensations of `broken` throw before they undo anything. */
  function UndoPrefixWith(w: World, k: nat, env: Env, broken: set<Step>): World
    requires k <= |STEPS|
    decreases k
  {
    if k == 0 then w
    else UndoPrefixWith(if STEPS[k - 1] in broken then w else Undone(w, STEPS[k - 1], env), k - 1, env, broken)
  }

  lemma {:induction false} NothingBroken(w: World, k: nat, env: Env)
    requires k <= |STEPS|
    ensures UndoPrefixWith(w, k, env, {}) == UndoPrefix(w, k, env)
    decreases k
  {
    if k == 0 {
    } else {
      NothingBroken(Undone(w, STEPS[k - 1], env), k - 1, env);
    }
  }

  /** The entries of a workspace whose own compensation throws. */
  function EntriesLeft(w: World, k: nat, broken: set<Step>): set<Entry>
    requires w.workspace.Some?
  {
    w.workspace.value
      - (if k >= 5 && Environment !in broken && w.registered.Some? then {TenantYaml} else {})
      - (if k >= 6 && Compose !in broken then {ComposeFile} else {})
  }

  lemma EntriesUndone(w: World, k: nat, env: Env, broken: set<Step>)
    requires k < |STEPS| && STEPS[k] !in broken && Undone(w, STEPS[k], env).workspace.Some?
    ensures w.workspace.Some?
    ensures EntriesLeft(Undone(w, STEPS[k], env), k, broken) == EntriesLeft(w, k + 1, broken)
  {
  }

  /** What such a countdown leaves of `w`, resource by resource. */
  predicate LeftOf(w: World, k: nat, env: Env, broken: set<Step>, u: World) {
    && (u.workspace.None? <==> w.workspace.None? || (k >= 1 && Workspace !in broken))
    && (u.workspace.Some? && w.workspace.Some? ==> u.workspace.value == EntriesLeft(w, k, broken))
    && u.role == (w.role && !(k >= 4 && env.psql && Database !in broken))
    && u.database == (w.database && !(k >= 4 && env.psql && Database !in broken))
    && u.registered == (if k >= 5 && Environment !in broken then None else w.registered)
    && u.route == (w.route && !(k >= 7 && Dns !in broken))
    && u.certKey == (w.certKey && !(k >= 8 && Certificate !in broken))
    && u.certCrt == (w.certCrt && !(k >= 8 && Certificate !in broken))
    && u.containers == (if k >= 9 && env.docker && Container !in broken && HasEntry(w, ComposeFile) then Absent
                        else w.containers)
  }

  lemma BrokenLeaves(w: World, k: nat, env: Env, broken: set<Step>, u: World)
    requires k < |STEPS| && STEPS[k] in broken && LeftOf(w, k, env, broken, u)
    ensures LeftOf(w, k + 1, env, broken, u)
  {
  }

  lemma UndoneLeaves(w: World, k: nat, step: Step, env: Env, broken: set<Step>, u: World)
    requires k < |STEPS| && step == STEPS[k] && step !in broken && LeftOf(Undone(w, step, env), k, env, broken, u)
    ensures LeftOf(w, k + 1, env, broken, u)
  {
    if Undone(w, step, env).workspace.Some? {
      EntriesUndone(w, k, env, broken);
    }
  }

  lemma {:induction false} UndoPrefixWithLeaves(w: World, k: nat, env: Env, broken: set<Step>)
    requires k <= |STEPS|
    ensures LeftOf(w, k, env, broken, UndoPrefixWith(w, k, env, broken))
    decreases k
  {
    if k == 0 {
    } else {
      var v := if STEPS[k - 1] in broken then w else Undone(w, STEPS[k - 1], env);
      UndoPrefixWithLeaves(v, k - 1, env, broken);
      if STEPS[k - 1] in broken {
        BrokenLeaves(w, k - 1, env, broken, UndoPrefixWith(v, k - 1, env, broken));
      } else {
        UndoneLeaves(w, k - 1, STEPS[k - 1], env, broken, UndoPrefixWith(v, k - 1, env, broken));
      }
    }
  }

  /** The world after the first `k` steps, if they all succeed. */
  function Executed(w: World, k: nat, env: Env, faults: seq<Fault>): Option<World>
    requires k <= |STEPS| == |faults|
    decreases k
  {
    if k == 0 then Some(w)
    else
      match Executed(w, k - 1, env, faults)
      case None => None
      case Some(v) =>
        var r := Execute(v, STEPS[k - 1], env, faults[k - 1]);
        if r.ok then Some(r.world) else None
  }

  lemma {:induction false} ExecutedBuilds(w: World, k: nat, env: Env, faults: seq<Fault>)
    requires k <= |STEPS| == |faults| && Executed(w, k, env, faults).Some?
    ensures PrefixDone(w, Executed(w, k, env, faults).value, k, env)
    ensures BuiltUpTo(Executed(w, k, env, faults).value, k, env)
    decreases k
  {
    if k == 0 {
    } else {
      var v := Executed(w, k - 1, env, faults).value;
      ExecutedBuilds(w, k - 1, env, faults);
      StepFootprint(v, STEPS[k - 1], env, faults[k - 1]);
      StepFrame(w, v, k - 1, env, Execute(v, STEPS[k - 1], env, faults[k - 1]));
      StepBuilds(v, k - 1, env, faults[k - 1]);
    }
  }

  /** The compensations that restoration rests on once `k` steps are done; runs reach `k <= 7`. */
  predicate Essential(step: Step, k: nat, env: Env) {
    || (step.Workspace? && k >= 1)
    || (step.Database? && k >= 4 && env.psql)
    || (step.Environment? && k >= 5)
    || (step.Dns? && k >= 7)
    || (step.Certificate? && k >= 8)
    || (step.Container? && k >= 9 && env.docker)
  }

  /**
   Exceptions from compensations are swallowed. A clean tenant is restored if and only if none of
   the essential compensations was among those that failed; those of Volume, Secret, Compose and
   Health may fail without consequence.
   */
  lemma RestoredIffEssentialsWork(k: nat, env: Env, faults: seq<Fault>, broken: set<Step>)
    requires k <= |STEPS| == |faults| && Executed(CLEAN, k, env, faults).Some?
    ensures UndoPrefixWith(Executed(CLEAN, k, env, faults).value, k, env, broken) == CLEAN
       <==> forall step :: step in broken ==> !Essential(step, k, env)
  {
    var v := Executed(CLEAN, k, env, faults).value;
    ExecutedBuilds(CLEAN, k, env, faults);
    UndoPrefixWithLeaves(v, k, env, broken);
    EssentialsDecide(v, k, env, broken, UndoPrefixWith(v, k, env, broken));
  }

  lemma EssentialsDecide(v: World, k: nat, env: Env, broken: set<Step>, u: World)
    requires k <= |STEPS| && PrefixDone(CLEAN, v, k, env) && BuiltUpTo(v, k, env) && LeftOf(v, k, env, broken, u)
    ensures u == CLEAN <==> forall step :: step in broken ==> !Essential(step, k, env)
  {
    if u == CLEAN {
      forall step | step in broken ensures !Essential(step, k, env) {
      }
    }
  }
}
