/**
 The tenant reconciler: what it observes of the world, the drifts it derives from the desired
 status, and the loop that repairs them. The world itself and the provisioner are those of `Saga`;
 the observation is kept apart from the world because containers are only seen through their
 compose file.
 */
module Reconciler {
  import opened Wrappers
  import opened Saga

  datatype Observed = Observed(
    workspaceExists: bool,
    composeFileExists: bool,
    composeRunning: bool,
    routeExists: bool,
    certsExist: bool,
    dbExists: bool,
    secretsExist: bool)

  datatype Drift =
    | OrphanWorkspace | OrphanRoute
    | MissingWorkspace | MissingSecrets | MissingCompose | MissingDb
    | StoppedContainers | MissingRoute | MissingCerts
    | RunningButSuspended | RunningButArchived

  /** `ActualState.get`. */
  function Observe(w: World, env: Env): Observed {
    Observed(
      w.workspace.Some?,
      HasEntry(w, ComposeFile),
      env.docker && HasEntry(w, ComposeFile) && w.containers == Running,
      w.route,
      w.certKey && w.certCrt,
      if env.psql then w.database else w.workspace.Some?,
      HasEntry(w, SecretsFile))
  }

  /** `if (present) { drifts.push(d) }`. */
  function Add(drifts: seq<Drift>, present: bool, d: Drift): seq<Drift> {
    if present then drifts + [d] else drifts
  }

  const WITH_DATABASE: set<Status> := {ACTIVE, SUSPENDED, UPDATING, RESTORING, MIGRATING}

  /** The drifts of a registered tenant that concern what provisioning builds. */
  function WorkspaceDrifts(s: Status, a: Observed): seq<Drift> {
    var d1 := Add([], s != DELETED && !a.workspaceExists, MissingWorkspace);
    var d2 := Add(d1, s != DELETED && !a.secretsExist, MissingSecrets);
    var d3 := Add(d2, s in WITH_DATABASE && !a.composeFileExists, MissingCompose);
    Add(d3, s in WITH_DATABASE && !a.dbExists, MissingDb)
  }

  /** `TenantDiff.compare`. */
  function Compare(desired: Option<Status>, a: Observed): seq<Drift> {
    match desired
    case None => Add(Add([], a.workspaceExists, OrphanWorkspace), a.routeExists, OrphanRoute)
    case Some(s) =>
      var d4 := WorkspaceDrifts(s, a);
      var d5 := Add(d4, s == ACTIVE && !a.composeRunning, StoppedContainers);
      var d6 := Add(d5, s == ACTIVE && !a.routeExists, MissingRoute);
      var d7 := Add(d6, s == ACTIVE && !a.certsExist, MissingCerts);
      var d8 := Add(d7, s == SUSPENDED && a.composeRunning, RunningButSuspended);
      Add(d8, s == ARCHIVED && a.composeRunning, RunningButArchived)
  }

  function Drifts(w: World, env: Env): seq<Drift> {
    Compare(w.registered, Observe(w, env))
  }

  datatype Pass = Pass(world: World, repaired: seq<Drift>, stopped: bool)

  predicate ComposeCommandWorks(w: World, env: Env) {
    env.docker && HasEntry(w, ComposeFile)
  }

  /** The branch of the repair loop for one drift; a branch that throws leaves `repaired` alone. */
  function RepairOne(p: Pass, env: Env, allowed: bool, d: Drift): Pass {
    var w := p.world;
    match d
    case MissingWorkspace => Reprovision(p, env, allowed, d)
    case MissingSecrets => Reprovision(p, env, allowed, d)
    case MissingDb => Reprovision(p, env, allowed, d)
    case MissingCompose =>
      if w.workspace.None? then p
      else Pass(w.(workspace := Some(w.workspace.value + {SecretsFile, AppDir, ComposeFile})), p.repaired + [d], false)
    case MissingRoute => Pass(w.(route := true), p.repaired + [d], false)
    case MissingCerts => Pass(w.(certKey := true, certCrt := true), p.repaired + [d], false)
    case StoppedContainers =>
      if ComposeCommandWorks(w, env) then Pass(w.(containers := Running), p.repaired + [d], false) else p
    case RunningButSuspended =>
      if ComposeCommandWorks(w, env) then Pass(w.(containers := Stopped), p.repaired + [d], false) else p
    case RunningButArchived =>
      if ComposeCommandWorks(w, env) then Pass(w.(containers := Absent), p.repaired + [d], false) else p
    case OrphanWorkspace => p
    case OrphanRoute => p
  }

  function Reprovision(p: Pass, env: Env, allowed: bool, d: Drift): Pass {
    var r := Provision(p.world, env, allowed, NO_FAULTS, true);
    if r.ok then Pass(r.world, p.repaired + [d], true) else p.(world := r.world)
  }

  function RepairAll(p: Pass, env: Env, allowed: bool, drifts: seq<Drift>): Pass
    decreases |drifts|
  {
    if drifts == [] || p.stopped then p
    else RepairAll(RepairOne(p, env, allowed, drifts[0]), env, allowed, drifts[1..])
  }

  /** The world and the repaired drifts after one call of `reconcile`. */
  function Reconcile(w: World, env: Env, allowed: bool): Pass {
    RepairAll(Pass(w, [], false), env, allowed, Drifts(w, env))
  }

  class TenantReconciler {
    const host: Host

    constructor (host: Host)
      ensures this.host == host
    {
      this.host := host;
    }

    method ActualState() returns (a: Observed)
      ensures a == Observe(host.world, host.env)
    {
      var w, env := host.world, host.env;
      var workspaceExists := w.workspace.Some?;
      var composeFileExists := workspaceExists && ComposeFile in w.workspace.value;
      var composeRunning := false;
      if composeFileExists {
        if env.docker {
          composeRunning := w.containers == Running;
        }
      }
      var dbExists := false;
      if env.psql {
        dbExists := w.database;
      } else {
        dbExists := workspaceExists;
      }
      a := Observed(workspaceExists, composeFileExists, composeRunning, w.route, w.certKey && w.certCrt,
                    dbExists, workspaceExists && SecretsFile in w.workspace.value);
    }

    static method CompareStates(desired: Option<Status>, a: Observed) returns (drifts: seq<Drift>)
      ensures drifts == Compare(desired, a)
    {
      drifts := [];
      if desired.None? {
        if a.workspaceExists { drifts := drifts + [OrphanWorkspace]; }
        if a.routeExists { drifts := drifts + [OrphanRoute]; }
        return;
      }
      var status := desired.value;
      if status != DELETED {
        if !a.workspaceExists { drifts := drifts + [MissingWorkspace]; }
        if !a.secretsExist { drifts := drifts + [MissingSecrets]; }
      }
      if status in WITH_DATABASE {
        if !a.composeFileExists { drifts := drifts + [MissingCompose]; }
        if !a.dbExists { drifts := drifts + [MissingDb]; }
      }
      if status == ACTIVE {
        if !a.composeRunning { drifts := drifts + [StoppedContainers]; }
        if !a.routeExists { drifts := drifts + [MissingRoute]; }
        if !a.certsExist { drifts := drifts + [MissingCerts]; }
      }
      if status == SUSPENDED {
        if a.composeRunning { drifts := drifts + [RunningButSuspended]; }
      }
      if status == ARCHIVED {
        if a.composeRunning { drifts := drifts + [RunningButArchived]; }
      }
    }

    /** The branch of the loop for one drift; `stopped` is its `break`. */
    method Repair(d: Drift, allowed: bool, done: seq<Drift>) returns (repaired: seq<Drift>, stopped: bool)
      modifies host
      ensures Pass(host.world, repaired, stopped) == RepairOne(Pass(old(host.world), done, false), host.env, allowed, d)
    {
      repaired, stopped := done, false;
      if d in {MissingWorkspace, MissingSecrets, MissingDb} {
        var ok, _ := host.ProvisionTenant(allowed, NO_FAULTS, true);
        if ok {
          repaired := repaired + [d];
          stopped := true;
        }
      } else if d == MissingCompose {
        if host.world.workspace.Some? {
          host.world := host.world.(workspace := Some(host.world.workspace.value + {SecretsFile, AppDir, ComposeFile}));
          repaired := repaired + [d];
        }
      } else if d == MissingRoute {
        host.world := host.world.(route := true);
        repaired := repaired + [d];
      } else if d == MissingCerts {
        host.world := host.world.(certKey := true, certCrt := true);
        repaired := repaired + [d];
      } else if d in {StoppedContainers, RunningButSuspended, RunningButArchived} {
        if ComposeCommandWorks(host.world, host.env) {
          host.world := host.world.(containers := if d == StoppedContainers then Running
                                                  else if d == RunningButSuspended then Stopped else Absent);
          repaired := repaired + [d];
        }
      }
    }

    method ReconcileTenant(allowed: bool) returns (drifted: bool, repaired: seq<Drift>)
      modifies host
      ensures var p := Reconcile(old(host.world), host.env, allowed);
              host.world == p.world && repaired == p.repaired
      ensures drifted <==> Drifts(old(host.world), host.env) != []
    {
      var desired := host.world.registered;
      var actual := ActualState();
      var drifts := CompareStates(desired, actual);
      repaired := [];
      if drifts == [] {
        return false, repaired;
      }
      drifted := true;
      var i, stopped := 0, false;
      ghost var start := Pass(host.world, [], false);
      while i < |drifts| && !stopped
        invariant 0 <= i <= |drifts|
        invariant RepairAll(start, host.env, allowed, drifts)
               == RepairAll(Pass(host.world, repaired, stopped), host.env, allowed, drifts[i..])
        decreases |drifts| - i
      {
        repaired, stopped := Repair(drifts[i], allowed, repaired);
        assert drifts[i..][1..] == drifts[i + 1..];
        i := i + 1;
      }
    }
  }

  // ---------------------------------------------------------------- the repair loop in closed form

  lemma {:induction false} RepairAllConcat(p: Pass, env: Env, allowed: bool, a: seq<Drift>, b: seq<Drift>)
    ensures RepairAll(p, env, allowed, a + b) == RepairAll(RepairAll(p, env, allowed, a), env, allowed, b)
    decreases |a|
  {
    if a == [] {
      assert a + b == b;
    } else if !p.stopped {
      RepairAllConcat(RepairOne(p, env, allowed, a[0]), env, allowed, a[1..], b);
      assert (a + b)[1..] == a[1..] + b;
    }
  }

  /** One optional drift: repaired when present, unless an earlier re-provisioning left the loop. */
  function Maybe(p: Pass, env: Env, allowed: bool, present: bool, d: Drift): Pass {
    if p.stopped || !present then p else RepairOne(p, env, allowed, d)
  }

  lemma RepairAllIf(p: Pass, env: Env, allowed: bool, front: seq<Drift>, present: bool, d: Drift)
    ensures RepairAll(p, env, allowed, Add(front, present, d))
         == Maybe(RepairAll(p, env, allowed, front), env, allowed, present, d)
  {
    RepairAllConcat(p, env, allowed, front, [d]);
    var q := RepairAll(p, env, allowed, front);
    if present && !q.stopped {
      assert RepairAll(q, env, allowed, [d]) == RepairAll(RepairOne(q, env, allowed, d), env, allowed, []);
    }
  }

  function ProvisionDrifts(s: Status, a: Observed, p: Pass, env: Env, allowed: bool): Pass {
    var p1 := Maybe(p, env, allowed, s != DELETED && !a.workspaceExists, MissingWorkspace);
    var p2 := Maybe(p1, env, allowed, s != DELETED && !a.secretsExist, MissingSecrets);
    var p3 := Maybe(p2, env, allowed, s in WITH_DATABASE && !a.composeFileExists, MissingCompose);
    Maybe(p3, env, allowed, s in WITH_DATABASE && !a.dbExists, MissingDb)
  }

  function RuntimeDrifts(s: Status, a: Observed, p: Pass, env: Env, allowed: bool): Pass {
    var p5 := Maybe(p, env, allowed, s == ACTIVE && !a.composeRunning, StoppedContainers);
    var p6 := Maybe(p5, env, allowed, s == ACTIVE && !a.routeExists, MissingRoute);
    var p7 := Maybe(p6, env, allowed, s == ACTIVE && !a.certsExist, MissingCerts);
    var p8 := Maybe(p7, env, allowed, s == SUSPENDED && a.composeRunning, RunningButSuspended);
    Maybe(p8, env, allowed, s == ARCHIVED && a.composeRunning, RunningButArchived)
  }

  lemma ProvisionDriftsClosedForm(s: Status, a: Observed, p: Pass, env: Env, allowed: bool)
    ensures RepairAll(p, env, allowed, WorkspaceDrifts(s, a)) == ProvisionDrifts(s, a, p, env, allowed)
  {
    RepairAllIf(p, env, allowed, [], s != DELETED && !a.workspaceExists, MissingWorkspace);
    var d1 := Add([], s != DELETED && !a.workspaceExists, MissingWorkspace);
    RepairAllIf(p, env, allowed, d1, s != DELETED && !a.secretsExist, MissingSecrets);
    var d2 := Add(d1, s != DELETED && !a.secretsExist, MissingSecrets);
    RepairAllIf(p, env, allowed, d2, s in WITH_DATABASE && !a.composeFileExists, MissingCompose);
    var d3 := Add(d2, s in WITH_DATABASE && !a.composeFileExists, MissingCompose);
    RepairAllIf(p, env, allowed, d3, s in WITH_DATABASE && !a.dbExists, MissingDb);
  }

  lemma ReconcileClosedForm(w: World, env: Env, allowed: bool)
    requires w.registered.Some?
    ensures var s, a := w.registered.value, Observe(w, env);
            var p := ProvisionDrifts(s, a, Pass(w, [], false), env, allowed);
            Reconcile(w, env, allowed) == RuntimeDrifts(s, a, p, env, allowed)
  {
    var s, a, p := w.registered.value, Observe(w, env), Pass(w, [], false);
    ProvisionDriftsClosedForm(s, a, p, env, allowed);
    var d4 := WorkspaceDrifts(s, a);
    RepairAllIf(p, env, allowed, d4, s == ACTIVE && !a.composeRunning, StoppedContainers);
    var d5 := Add(d4, s == ACTIVE && !a.composeRunning, StoppedContainers);
    RepairAllIf(p, env, allowed, d5, s == ACTIVE && !a.routeExists, MissingRoute);
    var d6 := Add(d5, s == ACTIVE && !a.routeExists, MissingRoute);
    RepairAllIf(p, env, allowed, d6, s == ACTIVE && !a.certsExist, MissingCerts);
    var d7 := Add(d6, s == ACTIVE && !a.certsExist, MissingCerts);
    RepairAllIf(p, env, allowed, d7, s == SUSPENDED && a.composeRunning, RunningButSuspended);
    var d8 := Add(d7, s == SUSPENDED && a.composeRunning, RunningButSuspended);
    RepairAllIf(p, env, allowed, d8, s == ARCHIVED && a.composeRunning, RunningButArchived);
  }

  // ---------------------------------------------------------------- the drifts of a world

  /** All drifts, in the order in which they are looked for. */
  const TABLE: seq<Drift> := [
    OrphanWorkspace, OrphanRoute,
    MissingWorkspace, MissingSecrets, MissingCompose, MissingDb,
    StoppedContainers, MissingRoute, MissingCerts,
    RunningButSuspended, RunningButArchived]

  predicate SeenRunning(w: World, env: Env) {
    env.docker && w.workspace.Some? && ComposeFile in w.workspace.value && w.containers == Running
  }

  /** The statuses whose tenants need a compose file and a database. */
  predicate Deployed(w: World) {
    w.registered.Some? && w.registered.value in {ACTIVE, SUSPENDED, UPDATING, RESTORING, MIGRATING}
  }

  /**
   What each drift means of the world. A database counts as missing when Postgres does not have it,
   whatever role is left; where psql is missing, when the workspace is.
   */
  predicate Drifted(w: World, env: Env, d: Drift) {
    match d
    case OrphanWorkspace => w.registered.None? && w.workspace.Some?
    case OrphanRoute => w.registered.None? && w.route
    case MissingWorkspace => w.registered.Some? && w.registered != Some(DELETED) && w.workspace.None?
    case MissingSecrets =>
      && w.registered.Some? && w.registered != Some(DELETED)
      && (w.workspace.None? || SecretsFile !in w.workspace.value)
    case MissingCompose => Deployed(w) && (w.workspace.None? || ComposeFile !in w.workspace.value)
    case MissingDb => Deployed(w) && if env.psql then !w.database else w.workspace.None?
    case StoppedContainers => w.registered == Some(ACTIVE) && !SeenRunning(w, env)
    case MissingRoute => w.registered == Some(ACTIVE) && !w.route
    case MissingCerts => w.registered == Some(ACTIVE) && !(w.certKey && w.certCrt)
    case RunningButSuspended => w.registered == Some(SUSPENDED) && SeenRunning(w, env)
    case RunningButArchived => w.registered == Some(ARCHIVED) && SeenRunning(w, env)
  }

  function Those(ds: seq<Drift>, w: World, env: Env): seq<Drift>
    decreases |ds|
  {
    if ds == [] then []
    else
      var last := ds[|ds| - 1];
      if Drifted(w, env, last) then Those(ds[..|ds| - 1], w, env) + [last] else Those(ds[..|ds| - 1], w, env)
  }

  lemma OneMore(w: World, env: Env, k: nat)
    requires k < |TABLE|
    ensures Those(TABLE[..k + 1], w, env) == Add(Those(TABLE[..k], w, env), Drifted(w, env, TABLE[k]), TABLE[k])
  {
    assert TABLE[..k + 1][..k] == TABLE[..k];
  }

  lemma FirstSix(w: World, env: Env)
    ensures w.registered.None? ==> Those(TABLE[..6], w, env) == Drifts(w, env)
    ensures w.registered.Some? ==> Those(TABLE[..6], w, env) == WorkspaceDrifts(w.registered.value, Observe(w, env))
  {
    assert TABLE[..0] == [];
    OneMore(w, env, 0);
    OneMore(w, env, 1);
    OneMore(w, env, 2);
    OneMore(w, env, 3);
    OneMore(w, env, 4);
    OneMore(w, env, 5);
  }

  /** The drifts reported are those of the table that the world shows, in its order. */
  lemma DriftsOfWorld(w: World, env: Env)
    ensures Drifts(w, env) == Those(TABLE, w, env)
  {
    FirstSix(w, env);
    assert TABLE[..11] == TABLE;
    LastFive(w, env, Those(TABLE[..6], w, env));
  }

  lemma LastFive(w: World, env: Env, d: seq<Drift>)
    requires d == Those(TABLE[..6], w, env)
    ensures w.registered.None? ==> Those(TABLE[..11], w, env) == d
    ensures w.registered.Some? ==>
              var s, a := w.registered.value, Observe(w, env);
              d == WorkspaceDrifts(s, a) ==> Those(TABLE[..11], w, env) == Compare(Some(s), a)
  {
    NextThree(w, env, d);
    OneMore(w, env, 9);
    OneMore(w, env, 10);
  }

  lemma NextThree(w: World, env: Env, d: seq<Drift>)
    requires d == Those(TABLE[..6], w, env)
    ensures var s, a := w.registered, Observe(w, env);
            var d5 := Add(d, s == Some(ACTIVE) && !a.composeRunning, StoppedContainers);
            var d6 := Add(d5, s == Some(ACTIVE) && !a.routeExists, MissingRoute);
            Those(TABLE[..9], w, env) == Add(d6, s == Some(ACTIVE) && !a.certsExist, MissingCerts)
  {
    OneMore(w, env, 6);
    OneMore(w, env, 7);
    OneMore(w, env, 8);
  }

  lemma {:induction false} ThoseIff(ds: seq<Drift>, w: World, env: Env, d: Drift)
    ensures d in Those(ds, w, env) <==> d in ds && Drifted(w, env, d)
    decreases |ds|
  {
    if ds == [] {
    } else {
      ThoseIff(ds[..|ds| - 1], w, env, d);
      assert ds == ds[..|ds| - 1] + [ds[|ds| - 1]];
    }
  }

  /** A database is missing exactly when Postgres does not have it, and so on for each drift. */
  lemma DriftIff(w: World, env: Env, d: Drift)
    ensures d in Drifts(w, env) <==> Drifted(w, env, d)
  {
    DriftsOfWorld(w, env);
    ThoseIff(TABLE, w, env, d);
    match d
    case OrphanWorkspace => assert TABLE[0] == d;
    case OrphanRoute => assert TABLE[1] == d;
    case MissingWorkspace => assert TABLE[2] == d;
    case MissingSecrets => assert TABLE[3] == d;
    case MissingCompose => assert TABLE[4] == d;
    case MissingDb => assert TABLE[5] == d;
    case StoppedContainers => assert TABLE[6] == d;
    case MissingRoute => assert TABLE[7] == d;
    case MissingCerts => assert TABLE[8] == d;
    case RunningButSuspended => assert TABLE[9] == d;
    case RunningButArchived => assert TABLE[10] == d;
  }

  // ---------------------------------------------------------------- convergence

  /** The drifts that send the reconciler back to the provisioner. */
  predicate NeedsProvision(w: World, env: Env)
    requires w.registered.Some?
  {
    var s := w.registered.value;
    || (s != DELETED && !HasEntry(w, SecretsFile))
    || (s in WITH_DATABASE && if env.psql then !w.database else w.workspace.None?)
  }

  /** A suspended tenant whose containers run behind a missing compose file, all else in place. */
  predicate HiddenRunning(w: World, env: Env)
    requires w.registered.Some?
  {
    && w.registered == Some(SUSPENDED) && !NeedsProvision(w, env)
    && env.docker && w.containers == Running && !HasEntry(w, ComposeFile)
  }

  /** What the reconciler can mend: no leftover role or database in the way, Docker where it is needed. */
  predicate Repairable(w: World, env: Env)
    requires w.registered.Some?
  {
    && (NeedsProvision(w, env) ==> Provisionable(w, env))
    && (NeedsProvision(w, env) || w.registered == Some(ACTIVE) ==> env.docker)
  }

  predicate Provisioned(w: World, env: Env) {
    w.registered == Some(ACTIVE) && Complete(w.(registered := Some(PROVISIONING)), env)
  }

  lemma ReprovisionWorks(p: Pass, env: Env, d: Drift)
    requires Provisionable(p.world, env)
    ensures var q := Reprovision(p, env, true, d);
            q.stopped && Provisioned(q.world, env) && q.repaired == p.repaired + [d]
  {
    RunSucceeds(p.world, env, NO_FAULTS);
  }

  lemma ReprovisionBlocked(p: Pass, env: Env, d: Drift)
    requires !Provisionable(p.world, env)
    ensures Reprovision(p, env, true, d) == p.(world := p.world.(workspace := None, role := true))
  {
    BlockedRunFails(p.world, env);
  }

  lemma DriftsOfProvisioned(w: World, env: Env)
    requires Provisioned(w, env)
    ensures Drifts(w, env) == (if env.docker then [] else [StoppedContainers])
    ensures !NeedsProvision(w, env)
  {
  }

  /** Once re-provisioned, the remaining drifts of the pass are skipped. */
  lemma RuntimeSkipped(s: Status, a: Observed, p: Pass, env: Env)
    requires p.stopped
    ensures RuntimeDrifts(s, a, p, env, true) == p
  {
  }

  lemma ProvisionDriftsSucceed(w: World, env: Env)
    requires w.registered.Some? && NeedsProvision(w, env) && Provisionable(w, env)
    ensures var p := ProvisionDrifts(w.registered.value, Observe(w, env), Pass(w, [], false), env, true);
            p.stopped && Provisioned(p.world, env)
  {
    var s, a, p := w.registered.value, Observe(w, env), Pass(w, [], false);
    if s != DELETED && !a.workspaceExists {
      ReprovisionWorks(p, env, MissingWorkspace);
    } else if s != DELETED && !a.secretsExist {
      ReprovisionWorks(p, env, MissingSecrets);
    } else {
      ReprovisionWorks(Maybe(p, env, true, s in WITH_DATABASE && !a.composeFileExists, MissingCompose), env, MissingDb);
    }
  }

  lemma PassProvisions(w: World, env: Env)
    requires w.registered.Some? && NeedsProvision(w, env) && Provisionable(w, env)
    ensures Provisioned(Reconcile(w, env, true).world, env)
  {
    ReconcileClosedForm(w, env, true);
    ProvisionDriftsSucceed(w, env);
    RuntimeSkipped(w.registered.value, Observe(w, env),
                   ProvisionDrifts(w.registered.value, Observe(w, env), Pass(w, [], false), env, true), env);
  }

  /** The world of a tenant whose re-provisioning was turned down by Postgres. */
  predicate Stranded(p: Pass, s: Status) {
    !p.stopped && p.world.workspace.None? && p.world.role && p.world.registered == Some(s)
  }

  lemma StrandedStays(p: Pass, env: Env, s: Status, present: bool, d: Drift)
    requires env.psql && Stranded(p, s)
    ensures Stranded(Maybe(p, env, true, present, d), s)
  {
    ReprovisionBlocked(p, env, d);
  }

  lemma RuntimeStranded(s: Status, a: Observed, p: Pass, env: Env)
    requires env.psql && Stranded(p, s)
    ensures Stranded(RuntimeDrifts(s, a, p, env, true), s)
  {
    var p5 := Maybe(p, env, true, s == ACTIVE && !a.composeRunning, StoppedContainers);
    StrandedStays(p, env, s, s == ACTIVE && !a.composeRunning, StoppedContainers);
    var p6 := Maybe(p5, env, true, s == ACTIVE && !a.routeExists, MissingRoute);
    StrandedStays(p5, env, s, s == ACTIVE && !a.routeExists, MissingRoute);
    var p7 := Maybe(p6, env, true, s == ACTIVE && !a.certsExist, MissingCerts);
    StrandedStays(p6, env, s, s == ACTIVE && !a.certsExist, MissingCerts);
    var p8 := Maybe(p7, env, true, s == SUSPENDED && a.composeRunning, RunningButSuspended);
    StrandedStays(p7, env, s, s == SUSPENDED && a.composeRunning, RunningButSuspended);
    StrandedStays(p8, env, s, s == ARCHIVED && a.composeRunning, RunningButArchived);
  }

  lemma ProvisionDriftsBlocked(w: World, env: Env)
    requires w.registered.Some? && NeedsProvision(w, env) && !Provisionable(w, env)
    ensures Stranded(ProvisionDrifts(w.registered.value, Observe(w, env), Pass(w, [], false), env, true),
                     w.registered.value)
  {
    var s, a, p := w.registered.value, Observe(w, env), Pass(w, [], false);
    var p1 := Maybe(p, env, true, s != DELETED && !a.workspaceExists, MissingWorkspace);
    if s != DELETED && !a.workspaceExists {
      ReprovisionBlocked(p, env, MissingWorkspace);
      assert Stranded(p1, s);
      StrandedStays(p1, env, s, s != DELETED && !a.secretsExist, MissingSecrets);
    } else if s != DELETED && !a.secretsExist {
      ReprovisionBlocked(p1, env, MissingSecrets);
    }
    var p2 := Maybe(p1, env, true, s != DELETED && !a.secretsExist, MissingSecrets);
    var p3 := Maybe(p2, env, true, s in WITH_DATABASE && !a.composeFileExists, MissingCompose);
    if Stranded(p2, s) {
      StrandedStays(p2, env, s, s in WITH_DATABASE && !a.composeFileExists, MissingCompose);
      StrandedStays(p3, env, s, s in WITH_DATABASE && !a.dbExists, MissingDb);
    } else {
      ReprovisionBlocked(p3, env, MissingDb);
    }
  }

  lemma PassBlocked(w: World, env: Env)
    requires w.registered.Some? && NeedsProvision(w, env) && !Provisionable(w, env)
    ensures var v := Reconcile(w, env, true).world;
            v.workspace.None? && v.role && v.registered == w.registered
  {
    ReconcileClosedForm(w, env, true);
    ProvisionDriftsBlocked(w, env);
    RuntimeStranded(w.registered.value, Observe(w, env),
                    ProvisionDrifts(w.registered.value, Observe(w, env), Pass(w, [], false), env, true), env);
  }

  /** The world after the compose file has been put back. */
  function WithCompose(w: World): World
    requires w.workspace.Some?
  {
    w.(workspace := Some(w.workspace.value + {SecretsFile, AppDir, ComposeFile}))
  }

  lemma OnlyComposeMissing(w: World, env: Env)
    requires w.registered.Some? && !NeedsProvision(w, env)
    ensures var s := w.registered.value;
            var p := ProvisionDrifts(s, Observe(w, env), Pass(w, [], false), env, true);
            !p.stopped && p.world == if s in WITH_DATABASE && !HasEntry(w, ComposeFile) then WithCompose(w) else w
  {
  }

  /** What the run-time repairs of a pass leave, given the observation made before it. */
  lemma RuntimeRepairs(s: Status, a: Observed, p: Pass, env: Env)
    requires !p.stopped && (s in {ACTIVE, SUSPENDED} ==> HasEntry(p.world, ComposeFile))
    requires a.composeRunning ==> env.docker && HasEntry(p.world, ComposeFile)
    requires a.routeExists == p.world.route && a.certsExist == (p.world.certKey && p.world.certCrt)
    ensures var q := RuntimeDrifts(s, a, p, env, true);
            && !q.stopped
            && q.world == p.world.(
                 route := p.world.route || s == ACTIVE,
                 certKey := p.world.certKey || s == ACTIVE,
                 certCrt := p.world.certCrt || s == ACTIVE,
                 containers := if s == ACTIVE && !a.composeRunning && env.docker then Running
                               else if s == SUSPENDED && a.composeRunning then Stopped
                               else if s == ARCHIVED && a.composeRunning then Absent
                               else p.world.containers)
  {
  }

  function RepairedWorld(w: World, env: Env): World
    requires w.registered.Some? && !NeedsProvision(w, env)
  {
    var s, a := w.registered.value, Observe(w, env);
    var u := if s in WITH_DATABASE && !HasEntry(w, ComposeFile) then WithCompose(w) else w;
    u.(route := w.route || s == ACTIVE,
       certKey := w.certKey || s == ACTIVE,
       certCrt := w.certCrt || s == ACTIVE,
       containers := if s == ACTIVE && !a.composeRunning && env.docker then Running
                     else if s == SUSPENDED && a.composeRunning then Stopped
                     else if s == ARCHIVED && a.composeRunning then Absent
                     else w.containers)
  }

  lemma PassReachesRepairedWorld(w: World, env: Env)
    requires w.registered.Some? && !NeedsProvision(w, env)
    ensures Reconcile(w, env, true).world == RepairedWorld(w, env)
  {
    ReconcileClosedForm(w, env, true);
    OnlyComposeMissing(w, env);
    var p := ProvisionDrifts(w.registered.value, Observe(w, env), Pass(w, [], false), env, true);
    RuntimeRepairs(w.registered.value, Observe(w, env), p, env);
  }

  /** With everything but the containers in place, only they can drift. */
  lemma OnlyContainersDrift(s: Status, a: Observed)
    requires s != DELETED ==> a.workspaceExists && a.secretsExist
    requires s in WITH_DATABASE ==> a.composeFileExists && a.dbExists
    requires s == ACTIVE ==> a.routeExists && a.certsExist
    ensures Compare(Some(s), a) == (if s == ACTIVE && !a.composeRunning then [StoppedContainers]
                                    else if s == SUSPENDED && a.composeRunning then [RunningButSuspended]
                                    else if s == ARCHIVED && a.composeRunning then [RunningButArchived] else [])
  {
  }

  lemma RepairedInPlace(w: World, env: Env)
    requires w.registered.Some? && !NeedsProvision(w, env)
    ensures var s, a := w.registered.value, Observe(RepairedWorld(w, env), env);
            && !NeedsProvision(RepairedWorld(w, env), env)
            && (s != DELETED ==> a.workspaceExists && a.secretsExist)
            && (s in WITH_DATABASE ==> a.composeFileExists && a.dbExists)
            && (s == ACTIVE ==> a.routeExists && a.certsExist)
  {
    var v := RepairedWorld(w, env);
    assert HasEntry(w, SecretsFile) ==> HasEntry(v, SecretsFile);
  }

  lemma DriftsOfRepaired(w: World, env: Env)
    requires w.registered.Some? && !NeedsProvision(w, env)
    ensures var v := RepairedWorld(w, env);
            && !NeedsProvision(v, env)
            && Drifts(v, env) == (if w.registered == Some(ACTIVE) && !env.docker then [StoppedContainers]
                                  else if HiddenRunning(w, env) then [RunningButSuspended] else [])
  {
    RepairedInPlace(w, env);
    OnlyContainersDrift(w.registered.value, Observe(RepairedWorld(w, env), env));
  }

  /** Without a re-provisioning, one pass mends all that is visible. */
  lemma PassRepairs(w: World, env: Env)
    requires w.registered.Some? && !NeedsProvision(w, env)
    ensures var v := Reconcile(w, env, true).world;
            && v.registered == w.registered && !NeedsProvision(v, env)
            && Drifts(v, env) == (if w.registered == Some(ACTIVE) && !env.docker then [StoppedContainers]
                                  else if HiddenRunning(w, env) then [RunningButSuspended] else [])
            && (HiddenRunning(w, env) ==> HasEntry(v, ComposeFile))
  {
    PassReachesRepairedWorld(w, env);
    DriftsOfRepaired(w, env);
  }

  /** The world after a pass without a re-provisioning, field by field. */
  lemma PassWorld(w: World, env: Env)
    requires w.registered.Some? && !NeedsProvision(w, env)
    ensures var v, active := Reconcile(w, env, true).world, w.registered == Some(ACTIVE);
            v == w.(
              workspace := if Drifted(w, env, MissingCompose) && w.workspace.Some?
                           then Some(w.workspace.value + {SecretsFile, AppDir, ComposeFile}) else w.workspace,
              route := w.route || active,
              certKey := w.certKey || active,
              certCrt := w.certCrt || active,
              containers := if active && env.docker then Running
                            else if Drifted(w, env, RunningButSuspended) then Stopped
                            else if Drifted(w, env, RunningButArchived) then Absent
                            else w.containers)
  {
    PassReachesRepairedWorld(w, env);
    RepairedWorldIs(w, env);
  }

  lemma RepairedWorldIs(w: World, env: Env)
    requires w.registered.Some? && !NeedsProvision(w, env)
    ensures var active := w.registered == Some(ACTIVE);
            RepairedWorld(w, env) == w.(
              workspace := if Drifted(w, env, MissingCompose) && w.workspace.Some?
                           then Some(w.workspace.value + {SecretsFile, AppDir, ComposeFile}) else w.workspace,
              route := w.route || active,
              certKey := w.certKey || active,
              certCrt := w.certCrt || active,
              containers := if active && env.docker then Running
                            else if Drifted(w, env, RunningButSuspended) then Stopped
                            else if Drifted(w, env, RunningButArchived) then Absent
                            else w.containers)
  {
  }

  /** What a policy that refuses provisioning leaves alone, in any pass. */
  predicate Untouched(w: World, p: Pass) {
    && p.world.role == w.role && p.world.database == w.database && p.world.registered == w.registered
    && (w.workspace.None? ==> p.world.workspace.None?)
    && MissingWorkspace !in p.repaired && MissingSecrets !in p.repaired && MissingDb !in p.repaired
  }

  lemma {:induction false} RepairsUntouched(w: World, p: Pass, env: Env, drifts: seq<Drift>)
    requires Untouched(w, p)
    ensures Untouched(w, RepairAll(p, env, false, drifts))
    decreases |drifts|
  {
    if drifts == [] || p.stopped {
    } else {
      RepairsUntouched(w, RepairOne(p, env, false, drifts[0]), env, drifts[1..]);
    }
  }

  /** When the policy refuses, nothing is provisioned, and neither are those drifts reported as repaired. */
  lemma PolicyForbids(w: World, env: Env)
    ensures Untouched(w, Reconcile(w, env, false))
  {
    RepairsUntouched(w, Pass(w, [], false), env, Drifts(w, env));
  }

  // ---------------------------------------------------------------- what is reported as repaired

  lemma RepairedRuntime(s: Status, a: Observed, p: Pass, env: Env, d: Drift)
    requires !p.stopped && (s == ACTIVE ==> HasEntry(p.world, ComposeFile))
    requires a.composeRunning ==> env.docker && HasEntry(p.world, ComposeFile)
    ensures d in RuntimeDrifts(s, a, p, env, true).repaired <==>
              || d in p.repaired
              || (s == ACTIVE && d == StoppedContainers && !a.composeRunning && env.docker)
              || (s == ACTIVE && d == MissingRoute && !a.routeExists)
              || (s == ACTIVE && d == MissingCerts && !a.certsExist)
              || (s == SUSPENDED && d == RunningButSuspended && a.composeRunning)
              || (s == ARCHIVED && d == RunningButArchived && a.composeRunning)
  {
  }

  lemma OnlyComposeRepaired(w: World, env: Env)
    requires w.registered.Some? && !NeedsProvision(w, env)
    ensures var s := w.registered.value;
            var p := ProvisionDrifts(s, Observe(w, env), Pass(w, [], false), env, true);
            p.repaired == if s in WITH_DATABASE && !HasEntry(w, ComposeFile) then [MissingCompose] else []
  {
  }

  lemma RepairedWhenInPlace(w: World, env: Env, d: Drift)
    requires w.registered.Some? && !NeedsProvision(w, env)
    ensures var s, a := w.registered.value, Observe(w, env);
            d in Reconcile(w, env, true).repaired <==>
              || (s in WITH_DATABASE && !HasEntry(w, ComposeFile) && d == MissingCompose)
              || (s == ACTIVE && d == StoppedContainers && !a.composeRunning && env.docker)
              || (s == ACTIVE && d == MissingRoute && !a.routeExists)
              || (s == ACTIVE && d == MissingCerts && !a.certsExist)
              || (s == SUSPENDED && d == RunningButSuspended && a.composeRunning)
              || (s == ARCHIVED && d == RunningButArchived && a.composeRunning)
  {
    ReconcileClosedForm(w, env, true);
    OnlyComposeMissing(w, env);
    OnlyComposeRepaired(w, env);
    var s, a := w.registered.value, Observe(w, env);
    RepairedRuntime(s, a, ProvisionDrifts(s, a, Pass(w, [], false), env, true), env, d);
  }

  /** Without a re-provisioning, exactly the drifts of the world are repaired, stopped containers only with Docker. */
  lemma RepairedIff(w: World, env: Env, d: Drift)
    requires w.registered.Some? && !NeedsProvision(w, env)
    ensures d in Reconcile(w, env, true).repaired <==> Drifted(w, env, d) && (d == StoppedContainers ==> env.docker)
  {
    RepairedWhenInPlace(w, env, d);
  }

  lemma MaybeSkips(p: Pass, env: Env, present: bool, d: Drift)
    requires p.stopped || !present
    ensures Maybe(p, env, true, present, d) == p
  {
  }

  lemma MaybeProvisions(p: Pass, env: Env, d: Drift) returns (q: Pass)
    requires Provisionable(p.world, env) && !p.stopped && d in {MissingWorkspace, MissingSecrets, MissingDb}
    ensures q == Maybe(p, env, true, true, d) && q.stopped && q.repaired == p.repaired + [d]
  {
    q := Maybe(p, env, true, true, d);
    ReprovisionWorks(p, env, d);
  }

  lemma MaybeComposes(p: Pass, env: Env, present: bool) returns (q: Pass)
    requires !p.stopped && p.world.workspace.Some?
    ensures q == Maybe(p, env, true, present, MissingCompose) && !q.stopped
    ensures q.repaired == p.repaired + (if present then [MissingCompose] else [])
    ensures q.world.role == p.world.role && q.world.database == p.world.database
  {
    q := Maybe(p, env, true, present, MissingCompose);
  }

  lemma RepairedWithoutWorkspace(w: World, env: Env, s: Status)
    requires w.registered == Some(s) && s != DELETED && w.workspace.None? && Provisionable(w, env)
    ensures ProvisionDrifts(s, Observe(w, env), Pass(w, [], false), env, true).repaired == [MissingWorkspace]
  {
    var a := Observe(w, env);
    var q := MaybeProvisions(Pass(w, [], false), env, MissingWorkspace);
    MaybeSkips(q, env, s != DELETED && !a.secretsExist, MissingSecrets);
    MaybeSkips(q, env, s in WITH_DATABASE && !a.composeFileExists, MissingCompose);
    MaybeSkips(q, env, s in WITH_DATABASE && !a.dbExists, MissingDb);
  }

  lemma RepairedWithoutSecrets(w: World, env: Env, s: Status)
    requires w.registered == Some(s) && s != DELETED && w.workspace.Some? && !HasEntry(w, SecretsFile)
    requires Provisionable(w, env)
    ensures ProvisionDrifts(s, Observe(w, env), Pass(w, [], false), env, true).repaired == [MissingSecrets]
  {
    var a, p := Observe(w, env), Pass(w, [], false);
    MaybeSkips(p, env, false, MissingWorkspace);
    var q := MaybeProvisions(p, env, MissingSecrets);
    MaybeSkips(q, env, s in WITH_DATABASE && !a.composeFileExists, MissingCompose);
    MaybeSkips(q, env, s in WITH_DATABASE && !a.dbExists, MissingDb);
  }

  lemma RepairedWithoutDatabase(w: World, env: Env, s: Status)
    requires w.registered == Some(s) && s in WITH_DATABASE && HasEntry(w, SecretsFile)
    requires !Observe(w, env).dbExists && Provisionable(w, env)
    ensures ProvisionDrifts(s, Observe(w, env), Pass(w, [], false), env, true).repaired
         == if HasEntry(w, ComposeFile) then [MissingDb] else [MissingCompose, MissingDb]
  {
    var p := Pass(w, [], false);
    MaybeSkips(p, env, false, MissingWorkspace);
    MaybeSkips(p, env, false, MissingSecrets);
    var q := MaybeComposes(p, env, !HasEntry(w, ComposeFile));
    var _ := MaybeProvisions(q, env, MissingDb);
  }

  /** A re-provisioning is reported under the drift that called for it, and ends the list. */
  lemma RepairedByProvision(w: World, env: Env)
    requires w.registered.Some? && NeedsProvision(w, env) && Provisionable(w, env)
    ensures Reconcile(w, env, true).repaired
         == if w.workspace.None? then [MissingWorkspace]
            else if SecretsFile !in w.workspace.value then [MissingSecrets]
            else if ComposeFile !in w.workspace.value then [MissingCompose, MissingDb] else [MissingDb]
  {
    ReconcileSkipsRuntime(w, env);
    if w.workspace.None? {
      RepairedWithoutWorkspace(w, env, w.registered.value);
    } else if SecretsFile !in w.workspace.value {
      RepairedWithoutSecrets(w, env, w.registered.value);
    } else {
      RepairedWithoutDatabase(w, env, w.registered.value);
    }
  }

  lemma ReconcileSkipsRuntime(w: World, env: Env)
    requires w.registered.Some? && NeedsProvision(w, env) && Provisionable(w, env)
    ensures Reconcile(w, env, true)
         == ProvisionDrifts(w.registered.value, Observe(w, env), Pass(w, [], false), env, true)
  {
    var s, a, p := w.registered.value, Observe(w, env), Pass(w, [], false);
    ReconcileClosedForm(w, env, true);
    ProvisionDriftsSucceed(w, env);
    RuntimeSkipped(s, a, ProvisionDrifts(s, a, p, env, true), env);
  }

  /** What an unregistered tenant leaves behind is reported in every pass and never removed. */
  lemma OrphansStay(w: World, env: Env, n: nat)
    requires w.registered.None?
    ensures Passes(w, env, n) == w && Reconcile(w, env, true).repaired == []
    decreases n
  {
    RepairAllIf(Pass(w, [], false), env, true, [], w.workspace.Some?, OrphanWorkspace);
    RepairAllIf(Pass(w, [], false), env, true, Add([], w.workspace.Some?, OrphanWorkspace), w.route, OrphanRoute);
    if n > 0 {
      OrphansStay(w, env, n - 1);
    }
  }

  /** Repairability is settled by the first pass and never changes afterwards. */
  lemma PassKeepsVerdict(w: World, env: Env)
    requires w.registered.Some?
    ensures var v := Reconcile(w, env, true).world;
            v.registered.Some? && (Repairable(v, env) <==> Repairable(w, env))
    ensures !Repairable(w, env) ==> Drifts(w, env) != []
  {
    if !NeedsProvision(w, env) {
      PassRepairs(w, env);
    } else if Provisionable(w, env) {
      PassProvisions(w, env);
      DriftsOfProvisioned(Reconcile(w, env, true).world, env);
    } else {
      PassBlocked(w, env);
    }
  }

  function Passes(w: World, env: Env, n: nat): World
    decreases n
  {
    if n == 0 then w else Passes(Reconcile(w, env, true).world, env, n - 1)
  }

  /** A registered tenant that no number of passes will mend. */
  predicate Hopeless(w: World, env: Env) {
    w.registered.Some? && !Repairable(w, env)
  }

  lemma OnePassMore(w: World, env: Env, n: nat)
    requires n > 0
    ensures Passes(w, env, n) == Passes(Reconcile(w, env, true).world, env, n - 1)
  {
  }

  lemma HopelessAfterPass(w: World, env: Env)
    requires Hopeless(w, env)
    ensures Hopeless(Reconcile(w, env, true).world, env)
  {
    PassKeepsVerdict(w, env);
  }

  lemma {:induction false} StaysHopeless(w: World, env: Env, n: nat)
    requires Hopeless(w, env)
    ensures Hopeless(Passes(w, env, n), env)
    decreases n
  {
    if n == 0 {
    } else {
      HopelessAfterPass(w, env);
      StaysHopeless(Reconcile(w, env, true).world, env, n - 1);
      OnePassMore(w, env, n);
    }
  }

  lemma NeverConverges(w: World, env: Env, n: nat)
    requires w.registered.Some? && !Repairable(w, env)
    ensures Drifts(Passes(w, env, n), env) != []
  {
    StaysHopeless(w, env, n);
    PassKeepsVerdict(Passes(w, env, n), env);
  }

  lemma {:induction false} DriftFreeStays(w: World, env: Env, n: nat)
    requires Drifts(w, env) == []
    ensures Passes(w, env, n) == w
    decreases n
  {
    if n == 0 {
    } else {
      DriftFreeStays(w, env, n - 1);
    }
  }

  lemma FirstPass(w: World, env: Env)
    requires w.registered.Some? && Repairable(w, env)
    ensures var v := Reconcile(w, env, true).world;
            Drifts(v, env) == if HiddenRunning(w, env) then [RunningButSuspended] else []
    ensures var v := Reconcile(w, env, true).world;
            HiddenRunning(w, env) ==>
              v.registered == Some(SUSPENDED) && !NeedsProvision(v, env) && HasEntry(v, ComposeFile)
  {
    if NeedsProvision(w, env) {
      PassProvisions(w, env);
      DriftsOfProvisioned(Reconcile(w, env, true).world, env);
    } else {
      PassRepairs(w, env);
    }
  }

  /**
   Convergence. For every registered tenant, status and world: two passes leave no drift, and every
   later pass changes nothing, exactly when the tenant is repairable; otherwise no number of passes
   ever does. One pass is enough except for a suspended tenant whose running containers are hidden
   by a missing compose file.
   */
  lemma ConvergesIffRepairable(w: World, env: Env, n: nat)
    requires w.registered.Some?
    ensures Repairable(w, env) ==>
              && (Drifts(Passes(w, env, 1), env) == [] <==> !HiddenRunning(w, env))
              && (n >= 2 ==> Drifts(Passes(w, env, n), env) == [] && Passes(w, env, n) == Passes(w, env, 2))
    ensures !Repairable(w, env) ==> Drifts(Passes(w, env, n), env) != []
  {
    if Repairable(w, env) {
      var v := Reconcile(w, env, true).world;
      var u := Reconcile(v, env, true).world;
      assert Passes(w, env, 1) == Passes(v, env, 0) == v;
      assert Passes(w, env, 2) == Passes(v, env, 1) == Passes(u, env, 0) == u;
      FirstPass(w, env);
      if HiddenRunning(w, env) {
        FirstPass(v, env);
      }
      if n >= 2 {
        assert Passes(w, env, n) == Passes(v, env, n - 1) == Passes(u, env, n - 2);
        DriftFreeStays(u, env, n - 2);
      }
    } else {
      NeverConverges(w, env, n);
    }
  }

  /**
   No drift does not mean no running containers: a suspended or archived tenant without drift may
   still run, but only an archived one, and only behind a missing compose file, which the
   reconciler does not look for in that status.
   */
  lemma DriftFreeMayStillRun(w: World, env: Env)
    requires env.docker && Drifts(w, env) == []
    requires w.registered in {Some(SUSPENDED), Some(ARCHIVED)}
    ensures w.containers == Running ==> w.registered == Some(ARCHIVED) && !HasEntry(w, ComposeFile)
  {
  }

  lemma {:induction false} ArchivedTenantKeepsRunning(n: nat)
    ensures var w := CLEAN.(workspace := Some({SecretsFile}), registered := Some(ARCHIVED), containers := Running);
            Drifts(w, Env(false, true)) == [] && Passes(w, Env(false, true), n).containers == Running
  {
    DriftFreeStays(CLEAN.(workspace := Some({SecretsFile}), registered := Some(ARCHIVED), containers := Running),
                   Env(false, true), n);
  }
}
