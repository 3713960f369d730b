/**
 The lifecycle actions of the queue worker on a tenant: start, stop, archive and restore, each a new
 state machine at the status of the tenant, a transition, a Docker command and the new status.
 */
module Lifecycle {
  import opened Saga

  datatype Action = StartTenant | StopTenant | ArchiveTenant | RestoreTenant

  /** The statuses from which the first transition of an action is legal. */
  function From(action: Action): set<Status> {
    match action
    case StartTenant => {PROVISIONING, STARTING, FAILED}
    case StopTenant => {ACTIVE, SUSPENDED}
    case ArchiveTenant => {ACTIVE, ARCHIVED}
    case RestoreTenant => {ARCHIVED, RESTORING, FAILED}
  }

  function To(action: Action): Status {
    match action
    case StartTenant => ACTIVE
    case StopTenant => SUSPENDED
    case ArchiveTenant => ARCHIVED
    case RestoreTenant => ACTIVE
  }

  /** Only starting depends on Docker; the other actions swallow its errors. */
  function After(action: Action, status: Status, docker: bool): Status {
    if status in From(action) && (action.StartTenant? ==> docker) then To(action) else status
  }

  /** False when the task fails, with the status as it was. */
  method RunAction(action: Action, tenant: Status, docker: bool) returns (status: Status, ok: bool)
    ensures ok <==> tenant in From(action) && (action.StartTenant? ==> docker)
    ensures status == After(action, tenant, docker)
  {
    var fsm := new LifecycleFSM(tenant);
    status := tenant;
    match action {
      case StartTenant =>
        ok := fsm.TransitionTo(STARTING);
        ok := ok && docker;
        if ok {
          status := ACTIVE;
          ok := fsm.TransitionTo(ACTIVE);
        }
      case StopTenant =>
        ok := fsm.TransitionTo(SUSPENDED);
        if ok {
          status := SUSPENDED;
        }
      case ArchiveTenant =>
        ok := fsm.TransitionTo(ARCHIVED);
        if ok {
          status := ARCHIVED;
        }
      case RestoreTenant =>
        ok := fsm.TransitionTo(RESTORING);
        if ok {
          status := ACTIVE;
          ok := fsm.TransitionTo(ACTIVE);
        }
    }
  }

  datatype Task = Task(action: Action, docker: bool)

  function RunAll(status: Status, tasks: seq<Task>): Status
    decreases |tasks|
  {
    if tasks == [] then status else RunAll(After(tasks[0].action, status, tasks[0].docker), tasks[1..])
  }

  /** A stopped tenant is never started, archived or restored by any sequence of these actions. */
  lemma {:induction false} SuspendedStays(tasks: seq<Task>)
    ensures RunAll(SUSPENDED, tasks) == SUSPENDED
    decreases |tasks|
  {
    if tasks == [] {
    } else {
      SuspendedStays(tasks[1..]);
    }
  }

  /** Whatever the actions, a tenant ends ACTIVE, SUSPENDED, ARCHIVED or where it was. */
  lemma {:induction false} ActionsSettle(status: Status, tasks: seq<Task>)
    ensures RunAll(status, tasks) in {status, ACTIVE, SUSPENDED, ARCHIVED}
    ensures status in {CREATING, UPDATING, MIGRATING, DELETING, DELETED} ==> RunAll(status, tasks) == status
    decreases |tasks|
  {
    if tasks == [] {
    } else {
      ActionsSettle(After(tasks[0].action, status, tasks[0].docker), tasks[1..]);
    }
  }
}
