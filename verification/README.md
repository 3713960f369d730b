# Verified model of the SJ Cloud control plane

A Dafny model of the state machines of the control plane, with proofs about whole runs of them:
the tenant provisioning saga and the reconciler, the request path of the service mesh, snapshot
compilation and history, the task queue, the tenant index, layered policies, deployments and
rollbacks, versioned secrets, promotions between environments and the request counters.

Run `dafny verify dfyconfig.toml` in this directory to check everything.

## How it is built

Every module has the same two halves. A state type with a step function gives the meaning of each
operation, branch by branch as in the source, including its error branches. Where the source mutates
objects, classes with the same fields and loops carry out the operations, and each method's
`ensures` says that the new state is the step applied to the old one. The theorems are lemmas about
runs of the step function, so they hold of the classes too.

Asynchronous code is cut at its awaits: an operation that awaits becomes several atomic steps, and
the theorems quantify over every interleaving of the steps of concurrent operations. Everything
outside the process (containers, Postgres, files, sockets, clocks, random draws, policy verdicts)
is a field of an abstract world or a parameter that may take any value.

| module | file | what it models |
|---|---|---|
| Saga | Saga.dfy | ten provisioning steps, the runner, compensation, the provisioner, the lifecycle machine |
| Reconciler | Reconciler.dfy | observed state, drifts and the repair loop over the saga's world |
| CircuitBreakers | Breaker.dfy | a circuit breaker with the telemetry it feeds |
| RequestLoop | RequestLoop.dfy | the routing and retry loop of one request, and its backoff |
| LoadBalancing | LoadBalancing.dfy | connection gauge, health filter, selection strategies |
| ConnectionGauge | ConnectionGauge.dfy | the gauge under any number of interleaved requests |
| Snapshots | Snapshots.dfy | live snapshot, history index and backups |
| Compiler | Compiler.dfy | the snapshot compiler and the dependency graph |
| Lifecycle | Lifecycle.dfy | the start, stop, archive and restore actions of the queue worker |
| TaskQueue | TaskQueue.dfy | dispatch, the worker loop, retries, the dead letter queue |
| TenantIndex | TenantIndex.dfy | the tenant cache's three maps and the registry around them |
| PolicyMerge | PolicyMerge.dfy | the two-level merge and policy resolution |
| Deployments | Deployments.dfy | deployment state machine, deployment and rollback engines, gauge |
| Secrets | Secrets.dfy | encrypted text format, secret store, versions |
| Promotions | Promotions.dfy | promotions, approvals, freezes, deployment windows |
| RequestMetrics | RequestMetrics.dfy | request counters keyed by joined labels |
| Text, Wrappers | Text.dfy, Wrappers.dfy | splitting and joining texts, optional values |

## Where the code does less than expected

Each of these is a lemma, and beside it stands the exact condition under which the code does meet
the expectation.

- `docs/architecture/TENANT-LIFECYCLE-HARDENING.md` promises cleanups with zero leaked resources. A
  step that fails half way through the database, the route or the certificates leaks what it had
  done, because the failing step is never compensated; `Saga.RestoredIffNothingLeaks` says exactly,
  from the plan of faults, when a failed run restores a clean tenant. The compensations of the
  container step and the health check are never used (`Saga.NoFailureAfterCertificates`).
- When only the last registry write of a provisioning fails, nothing is compensated: the tenant
  stays, the cache says ACTIVE (it holds the very object that was changed) and the state machine
  says FAILED (`Saga.FailedProvisionRestoresIff`).
- A tenant that needs re-provisioning while Postgres still has its role or database never
  converges, and each attempt destroys the workspace again (`Reconciler.ConvergesIffRepairable`,
  `Saga.BlockedRunFails`). Re-provisioning also makes a tenant of any status ACTIVE.
- The queue cannot start, archive or restore a stopped tenant: `start` needs a status from which
  STARTING is legal, and SUSPENDED is none (`Lifecycle.SuspendedStays`, `Lifecycle.RunAction`); only a
  rollback of its configuration makes it ACTIVE.
- An archived tenant may keep running behind a missing compose file with no drift reported
  (`Reconciler.ArchivedTenantKeepsRunning`).
- `half_open_max_requests` bounds successes, not admitted requests; lowering it during a probe can
  wedge the breaker (`CircuitBreakers.EventuallyAdmitsIffNotWedged`, `CircuitBreakers.EverWedgedIff`).
- A 5xx reply, or a reply whose copy to the client throws, decrements the connection gauge twice
  (`ConnectionGauge.AlwaysExactIff`). A copy that throws also records the request a second time and feeds
  the breaker a second outcome (`RequestLoop.RequestAccounting`), and one that throws after its headers
  were sent may leave the client without an answer (`RequestLoop.EveryPathAnswersOnceIff`).
- A listener that throws when a task fails for good ends the worker loop
  (`TaskQueue.ThrowingListenerStopsTheLoop`, `TaskQueue.DrainsWithinThreeN`).
- `TenantCache.set` never removes keys of the version it replaces; a renamed tenant is still found
  under its old slug, even after it was deleted (`TenantIndex.SetKeepsAgreementIff`,
  `TenantIndex.OldSlugOutlivesTenant`).
- A section set to null resolves to an empty block and gets its defaults back when resolved again
  (`PolicyMerge.ResolveAgainIff`). A leaf in the middle of three layers breaks associativity
  (`PolicyMerge.AssociativeIff`).
- A successful rollback writes the status it began from back to the registry, so an application
  rolled back from FAILED stays FAILED while the gauge counts it (`Deployments.RollbackLeavesFailed`).
  The gauge starts at zero in each process while the registry is read from disk, and it is never
  taken below zero (`Deployments.RestartUndercounts`); `Deployments.GaugeSinceRestartIff` says when it
  counts the ACTIVE applications all the same, `Deployments.GaugeStaysRightIff` that a right gauge goes
  wrong only by such rollbacks, and `Deployments.CountsThroughoutIff` when overlapping jobs of one
  application keep it right (`Deployments.OverlapCountsTwice`, `Deployments.FailedStartStaysCounted`). Recreate deployments succeed only from VERIFYING, SCALING or
  ROLLBACK (`Deployments.DeploymentSucceedsIff`).
- A compilation that fails after the live snapshot was written reports failure with the live snapshot
  replaced (`Compiler.FailedCompileReplacesLive`), and a backup that cannot be written is not reported
  at all (`Snapshots.CommittedWithoutBackup`); `Compiler.NewBuildIsAtomicIff` and
  `Snapshots.AlwaysConsistentIff` give the conditions.
- A secret whose file cannot be written is reported as failed and yet returned by reads until the
  next restart (`Secrets.FailedSaveLastsUntilRestart`, `Secrets.MemoryEqualsFilesIff`,
  `Secrets.SaveIsAtomicIff`). Saving a secret named like an inherited property of objects, such as
  `constructor`, always fails half way (`Secrets.InheritedNameFails`).
- A promotion to the target `constructor` is accepted from any source, production included, and
  deploys without approval; the order is respected exactly for the four environments
  (`Promotions.ConstructorIsATarget`, `Promotions.PromotionSafety`).
- An approval does not look at freezes or windows again (`Promotions.ClosedLaunchIff`).
- Labels, secret names and tenant ids with a colon share keys (`RequestMetrics.ReportedIff`,
  `RequestMetrics.ReportedDurationIff`, `RequestMetrics.ColonMergesTenants`, `Secrets.ColonsCollide`); the tenant and source labels of a
  request come from its headers.

## Model

| member | source | states |
|---|---|---|
| Saga.LifecycleFSM.TransitionTo | platform/tenant-manager/lifecycle/lifecycle-fsm.js:54-62 | a transition goes through exactly when the target is the current state or the table allows it; otherwise it throws and the state stays |
| Saga.AllowedIffEntrance | platform/tenant-manager/lifecycle/lifecycle-fsm.js:19-32 | the transition table read the other way: from which statuses each status is entered |
| Saga.Host.ExecuteStep | platform/tenant-manager/transactions/transaction-step.js:20-257 | a step performs its effects in program order up to the point of failure, so a failing step may leave some of them; container start-up and the health check never throw |
| Saga.Host.CompensateStep | platform/tenant-manager/transactions/transaction-step.js:30-261 | what each compensation removes; Volume and Secret remove nothing, and only Secret throws |
| Saga.Host.Compensate | platform/tenant-manager/transactions/compensation.js:6-17 | the completed steps are compensated last one first, each once, and an exception never stops the countdown |
| Saga.Host.RunTransaction | platform/tenant-manager/transactions/transaction-runner.js:4-26 | steps run in order; the first failure compensates exactly the completed prefix and is reported |
| Saga.Host.ProvisionTenant | platform/tenant-manager/provisioning/provisioner.js:46-89 | the saga between the lifecycle transitions and the registry writes, for any policy verdict, faults and failure of the last write |
| Saga.UndoPrefixScrubs | platform/tenant-manager/transactions/compensation.js:6-17 | about the countdown for any prefix: it removes everything the steps of the prefix own, although Volume and Secret undo nothing, because the workspace goes last; runs use it for prefixes of at most seven steps |
| Saga.UndoPrefixIsReverseOrder | platform/tenant-manager/transactions/compensation.js:8-16 | the countdown visits the reversed prefix, step by step |
| Saga.CompensatesInExactReverse | platform/tenant-manager/transactions/transaction-runner.js:8-21 | from any step on, every completed step is compensated exactly once, in exact reverse; the failing step is not; a successful run compensates nothing |
| Saga.FailedRunRemovesPrefix | platform/tenant-manager/transactions/transaction-runner.js:11-20 | from any world, a run whose failing step had no effect leaves the world without exactly the resources of the completed steps |
| Saga.RestoredIffNothingLeaks | platform/tenant-manager/transactions/transaction-runner.js:4-26 | a run from a tenant without resources fails at the first step its fault plan strikes, and restores that world if and only if that fault strikes before the first effect or within the workspace |
| Saga.FailedRunLeaves | platform/tenant-manager/transactions/transaction-runner.js:4-26 | exactly what a failed run leaves of a tenant without resources, from the first striking fault and the number of effects done before it |
| Saga.FailsAtFirstStrike | platform/tenant-manager/transactions/transaction-runner.js:8-21 | where Postgres holds neither role nor database, a run fails exactly at the first step whose fault strikes while it can throw and has not done with its effects |
| Saga.NoFailureAfterCertificates | platform/tenant-manager/transactions/transaction-step.js:235-257 | no run fails after the certificate step, so the container step and the health check are never compensated |
| Saga.RestoredIffEssentialsWork | platform/tenant-manager/transactions/compensation.js:8-16 | when any set of compensations throws and is swallowed, a clean tenant is restored if and only if none of the essential ones is among them; Volume, Secret, Compose and Health may fail without consequence |
| Saga.UndoPrefixWithLeaves | platform/tenant-manager/transactions/compensation.js:8-16 | for every resource, what a countdown with failing compensations leaves of it |
| Saga.NothingBroken | platform/tenant-manager/transactions/compensation.js:8-16 | without failing compensations that is the countdown of the runner |
| Saga.RunSucceeds | platform/tenant-manager/transactions/transaction-step.js:65-98 | a successful run has built everything a tenant needs; a run without faults succeeds exactly when Postgres has neither the role nor the database |
| Saga.RunBuildsExactly | platform/tenant-manager/transactions/transaction-runner.js:8-21 | from any step on, a run that succeeds leaves exactly the world that the steps build, whatever there was before |
| Saga.ProvisionedExactly | platform/tenant-manager/provisioning/provisioner.js:46-89 | all that a successful provisioning leaves: the seven workspace entries beside those before, role, database, route, certificates, containers, status ACTIVE |
| Saga.BlockedRunFails | platform/tenant-manager/transactions/transaction-step.js:91-97 | with a leftover role or database the run fails at the database step, the workspace is gone and a role is left |
| Saga.ContainersGoDownIff | platform/tenant-manager/transactions/transaction-step.js:186-241 | about the countdown itself, which no run uses for the container step: in whatever order steps are compensated, running containers go down if and only if the container step comes before the compose file and the workspace are removed |
| Saga.ForwardCompensationLeavesContainers | platform/tenant-manager/transactions/compensation.js:8-16 | about a countdown over all ten steps, which no run starts: in execution order it would leave the containers of a complete tenant running; in reverse it would not |
| Saga.ProvisionSucceeds | platform/tenant-manager/provisioning/provisioner.js:71-82 | success, and nothing else, ends ACTIVE, with the tenant complete and registered ACTIVE |
| Saga.FailedProvisionRestoresIff | platform/tenant-manager/provisioning/provisioner.js:71-88 | success exactly when the policy allows, no fault strikes and the last write works; when a failed provisioning restores a clean tenant; and that a failing last write leaves the whole tenant behind |
| Reconciler.TenantReconciler.ActualState | platform/tenant-manager/specification/actual-state.js:10-78 | what is observed of a world: containers only through their compose file, the database, or the workspace when psql is missing |
| Reconciler.DriftsOfWorld | platform/tenant-manager/specification/tenant-diff.js:2-61 | the drifts listed are those of a table, in its order, whose condition the fields of the world meet |
| Reconciler.DriftIff | platform/tenant-manager/specification/actual-state.js:48-64 | each drift is listed exactly when the world shows it: a missing database when Postgres does not have it, whatever role is left, or without psql when the workspace is gone |
| Reconciler.TenantReconciler.CompareStates | platform/tenant-manager/specification/tenant-diff.js:2-61 | the drifts of a desired status and an observation, in order |
| Reconciler.TenantReconciler.Repair | platform/tenant-manager/specification/tenant-reconciler.js:31-90 | the repair of one drift, whether it is reported as repaired, and whether it leaves the loop |
| Reconciler.TenantReconciler.ReconcileTenant | platform/tenant-manager/specification/tenant-reconciler.js:17-98 | one pass: world and repaired drifts, with the drifts computed before any repair |
| Reconciler.ReconcileClosedForm | platform/tenant-manager/specification/tenant-reconciler.js:29-91 | the loop with its break as nine optional repairs in a row |
| Reconciler.PassProvisions | platform/tenant-manager/specification/tenant-reconciler.js:34-39 | a pass that re-provisions ends with a complete ACTIVE tenant |
| Reconciler.PassBlocked | platform/tenant-manager/specification/tenant-reconciler.js:34-39 | a pass blocked by Postgres ends without workspace, with a role, and with the status unchanged |
| Reconciler.PassRepairs | platform/tenant-manager/specification/tenant-reconciler.js:41-86 | a pass without re-provisioning mends all that was visible; what is left is exactly what Docker or a hidden container prevents |
| Reconciler.PassWorld | platform/tenant-manager/specification/tenant-reconciler.js:41-86 | the whole world after a pass without a re-provisioning, field by field |
| Reconciler.RepairedIff | platform/tenant-manager/specification/tenant-reconciler.js:31-90 | such a pass reports exactly the drifts of the world as repaired, stopped containers only with Docker |
| Reconciler.RepairedByProvision | platform/tenant-manager/specification/tenant-reconciler.js:34-40 | a pass that re-provisions reports the drift that called for it, last |
| Reconciler.OrphansStay | platform/tenant-manager/specification/tenant-diff.js:5-13 | what an unregistered tenant leaves behind is never removed by any number of passes |
| Reconciler.PolicyForbids | platform/tenant-manager/specification/tenant-reconciler.js:34-40 | with a policy that refuses, a pass builds no workspace, role or database, changes no status, and reports none of these drifts as repaired |
| Reconciler.ConvergesIffRepairable | platform/tenant-manager/specification/tenant-reconciler.js:17-98 | two passes reach a drift-free fixed point exactly for repairable tenants, one pass exactly when no running container is hidden from it, and no number of passes helps the others |
| Reconciler.NeverConverges | platform/tenant-manager/specification/tenant-reconciler.js:17-98 | a tenant that is not repairable has a drift after any number of passes |
| Reconciler.DriftFreeStays | platform/tenant-manager/specification/tenant-reconciler.js:22-24 | a drift-free world is left alone by every later pass |
| Reconciler.DriftFreeMayStillRun | platform/tenant-manager/specification/tenant-diff.js:48-58 | without drift, a suspended or archived tenant runs only if archived and behind a missing compose file |
| Reconciler.ArchivedTenantKeepsRunning | platform/tenant-manager/specification/tenant-diff.js:54-58 | an archived tenant that keeps running through any number of passes |
| CircuitBreakers.TelemetryRegistry.RecordCircuitBreakerState | platform/service-mesh/observability/metrics.js:65-89 | state code, transition counter, open timestamp, recovery times and half-open counters after a state change |
| CircuitBreakers.CircuitBreaker.UpdateConfig | platform/service-mesh/circuit-breaker/breaker.js:19-23 | each value of a new policy that is not zero replaces the one in force; state and counters stay |
| CircuitBreakers.CircuitBreaker.TransitionState | platform/service-mesh/circuit-breaker/breaker.js:83-104 | a transition with its telemetry, other services untouched |
| CircuitBreakers.CircuitBreaker.AllowRequest | platform/service-mesh/circuit-breaker/breaker.js:29-50 | recovery is checked first; the answer is that of the state then reached |
| CircuitBreakers.CircuitBreaker.RecordSuccess | platform/service-mesh/circuit-breaker/breaker.js:55-65 | the effect of a success on breaker and telemetry in each state |
| CircuitBreakers.CircuitBreaker.RecordFailure | platform/service-mesh/circuit-breaker/breaker.js:70-81 | the effect of a failure on breaker and telemetry in each state |
| CircuitBreakers.BreakerRefinesTrace | platform/service-mesh/circuit-breaker/breaker.js:29-104 | with a fixed configuration, defaults 5, 10000 and 2, the breaker is in the phase that the recorded outcomes alone determine, and it refuses exactly when open with the timeout not elapsed |
| CircuitBreakers.TrailingFailuresIff | platform/service-mesh/circuit-breaker/breaker.js:70-77 | the failure counter reaches n exactly when the last n outcomes are failures |
| CircuitBreakers.EventuallyAdmitsIffNotWedged | platform/service-mesh/circuit-breaker/breaker.js:19-41 | under any policy updates, some later request is admitted if and only if the breaker is not half-open with as many successes as the policy now allows |
| CircuitBreakers.StepWedgesIff | platform/service-mesh/circuit-breaker/breaker.js:19-41 | a step leaves the breaker wedged exactly when it is an update, while half-open, to a limit no higher than the successes so far, or only asks a wedged one |
| CircuitBreakers.EverWedgedIff | platform/service-mesh/circuit-breaker/breaker.js:19-104 | over every run the breaker is wedged at some moment exactly when such an update occurs |
| CircuitBreakers.OutcomeUnwedges | platform/service-mesh/circuit-breaker/breaker.js:55-81 | any outcome recorded later frees it: a success closes it, a failure opens it |
| CircuitBreakers.UpdateCanWedge | platform/service-mesh/circuit-breaker/breaker.js:19-38 | a run that reaches such a state |
| CircuitBreakers.TelemetryConserved | platform/service-mesh/observability/metrics.js:61-97 | trips, half-open attempts, transitions, outcomes and state code (0 closed, 1 half-open, 2 open) agree with each other and with the breaker after any run; the recovery times are the times it was open, each above the timeout then in force |
| RequestLoop.RouteRequest | platform/service-mesh/routing/engine.js:23-199 | the log of everything a request does to gauge, breaker, metrics and client, on every path, the exception it may end with included |
| RequestLoop.RetryLoop | platform/service-mesh/routing/engine.js:91-198 | the same of the retry loop and the answer after it, which throws when headers were already sent |
| RequestLoop.AttemptsMade | platform/service-mesh/routing/engine.js:92-175 | another attempt is made exactly when the reply was no whole answer, the method is eligible, the budget is not spent and the limit, 3 by default, not reached; a retry is noted between any two |
| RequestLoop.BreakerIsFed | platform/service-mesh/routing/engine.js:127-149 | the breaker is fed a success per attempt answered below 500, and a failure per server error, transport error or thrown copy |
| RequestLoop.EndpointsOpenedAndClosed | platform/service-mesh/routing/engine.js:116-148 | each attempt increments its endpoint once and decrements it once, twice after a failed answer |
| RequestLoop.CodesRecorded | platform/service-mesh/routing/engine.js:130-189 | the codes recorded are those of the replies below 500, and 504 for a last attempt that timed out or 502 for another failure; a timeout is noted just then |
| RequestLoop.CodeAnswered | platform/service-mesh/routing/engine.js:133-197 | the client gets the code of the delivered reply, or that of the failure unless an attempt was cut off after its headers |
| RequestLoop.RefusedRequests | platform/service-mesh/routing/engine.js:32-113 | what a request without attempts answers, records and feeds the breaker: 404, 403, 503 or 502 |
| RequestLoop.OneAttempt | platform/service-mesh/routing/engine.js:115-198 | all that a request of one attempt does, in order, for each kind of reply |
| RequestLoop.RetriedOnce | platform/service-mesh/routing/engine.js:159-171 | a retry is noted before its sleep, and both come between the attempts |
| RequestLoop.AttemptsBalance | platform/service-mesh/routing/engine.js:97-176 | from any attempt on, the counts of answers, records, breaker outcomes and sleeps as functions of the number of attempts |
| RequestLoop.RequestAccounting | platform/service-mesh/routing/engine.js:92-198 | one answer as the last act, or an exception when a copy was cut off after its headers and the last attempt fails; at most max_attempts attempts, one if not eligible; one record and one breaker outcome per attempt, plus one of each per answer whose copy threw |
| RequestLoop.EveryPathAnswersOnceIff | platform/service-mesh/routing/engine.js:23-199 | every path answers its client once, exactly when no attempt made was cut off after its headers or the last one is delivered, otherwise it ends with an exception and no answer; and which paths record nothing |
| RequestLoop.CutAnswerIsNeverCompleted | platform/service-mesh/routing/engine.js:191-197 | an answer cut off after its headers on a request without retries is never followed by another |
| RequestLoop.BackoffMonotone | platform/service-mesh/retry/policy.js:9-34 | delays never shrink from one attempt to the next and stay within the maximum, whatever jitter is drawn |
| RequestLoop.BackoffOfRequest | platform/service-mesh/routing/engine.js:159-171 | the sleeps of a request never shrink and together last at most (attempts - 1) times the maximal delay |
| RequestLoop.SleepsOfRequest | platform/service-mesh/routing/engine.js:160-170 | the sleep between two attempts is the delay of the earlier one |
| RequestLoop.BackoffValues | platform/service-mesh/retry/policy.js:9-34 | the delays: none, the base times the attempt, the base doubled each time, or that and a share of the base, never above the maximum |
| LoadBalancing.LoadBalancer.IncrementConnections | platform/service-mesh/load-balancer/balancer.js:9-11 | one more connection at one endpoint, others unchanged |
| LoadBalancing.LoadBalancer.DecrementConnections | platform/service-mesh/load-balancer/balancer.js:13-17 | one connection less unless there is none, others unchanged |
| LoadBalancing.LoadBalancer.SelectLeastConnections | platform/service-mesh/load-balancer/balancer.js:66-78 | the pick is the first endpoint with the fewest connections |
| LoadBalancing.LoadBalancer.CountDown | platform/service-mesh/load-balancer/balancer.js:82-89 | the countdown ends at the endpoint whose share holds the drawn number, and never at the fallback |
| LoadBalancing.LoadBalancer.SelectWeighted | platform/service-mesh/load-balancer/balancer.js:80-90 | the pick is the one whose share of the total weight holds the draw |
| LoadBalancing.LoadBalancer.SelectRoundRobin | platform/service-mesh/routing/strategies/round-robin.js:9-21 | the picked position and the advanced index of the service only |
| LoadBalancing.LoadBalancer.SelectEndpoint | platform/service-mesh/load-balancer/balancer.js:27-64 | an error exactly for an empty list; an unhealthy pick exactly when all are; in terms of the endpoints and their weights, the strategy's choice among the candidates; when the index moves |
| LoadBalancing.FilterKeepsOrder | platform/service-mesh/load-balancer/balancer.js:35-42 | the unhealthy endpoints are dropped, the others keep their order |
| LoadBalancing.DrawnShare | platform/service-mesh/load-balancer/balancer.js:80-90 | an endpoint's share of the draws is its share of the total weight |
| LoadBalancing.SharesPartition | platform/service-mesh/load-balancer/balancer.js:80-90 | the shares partition the range of the draw into consecutive intervals as long as the weights |
| LoadBalancing.CandidatesHealth | platform/service-mesh/load-balancer/balancer.js:35-42 | a candidate is unhealthy only when every endpoint is |
| LoadBalancing.PicksRotate | platform/service-mesh/routing/strategies/round-robin.js:14-20 | picks for other services never disturb the rotation of one |
| LoadBalancing.RoundRobinIsFair | platform/service-mesh/routing/strategies/round-robin.js:9-21 | in every window of consecutive picks the counts of two positions differ by at most one |
| ConnectionGauge.ScriptMatchesLog | platform/service-mesh/routing/engine.js:115-153 | the atomic gauge actions of a request are exactly the gauge effects in its log |
| ConnectionGauge.LegalIffAlternating | platform/service-mesh/routing/engine.js:97-176 | an interleaving can happen exactly when the actions of each request alternate |
| ConnectionGauge.GaugeBounded | platform/service-mesh/load-balancer/balancer.js:9-17 | over every interleaving the gauge of each endpoint is at most the attempts in flight there |
| ConnectionGauge.StepExactIff | platform/service-mesh/routing/engine.js:124-148 | an action keeps gauge and attempts equal exactly when it is no second decrement beside other attempts |
| ConnectionGauge.AlwaysExactIff | platform/service-mesh/routing/engine.js:124-148 | the gauge equals the attempts in flight throughout a run if and only if each attempt failing after its first decrement was alone at its endpoint |
| ConnectionGauge.GaugeUnderConcurrency | platform/service-mesh/routing/engine.js:97-176 | any requests interleaved in any way and stopped anywhere: legal, bounded, exact under that condition, and exact again once idle |
| ConnectionGauge.ServerErrorHidesAnAttempt | platform/service-mesh/routing/engine.js:145-148 | two attempts at one endpoint, one server error, and a gauge of zero with one in flight |
| Snapshots.SnapshotStore.Record | platform/service-mesh/cache/snapshot-history.js:19-51 | the backup is written and the index entry replaced or appended; the index is not reached when the backup fails |
| Snapshots.SnapshotStore.PublishCompiled | platform/service-mesh/compiler/compiler.js:80-134 | the next build number, the live file, the history and the reported outcome, for any failing write |
| Snapshots.SnapshotStore.CommitServices | platform/service-mesh/cache/snapshot-manager.js:17-39 | a commit publishes the next build, or throws before anything is written; a failing history is not reported |
| Snapshots.SnapshotStore.RollbackTo | platform/service-mesh/cache/snapshot-manager.js:41-58 | a rollback writes only the live file, and fails for unknown builds and when that write or the event fails |
| Snapshots.PublishTouchesOneEntry | platform/service-mesh/cache/snapshot-history.js:33-49 | publishing replaces or appends exactly the entry with its number |
| Snapshots.IndexDescribesBackups | platform/service-mesh/cache/snapshot-history.js:33-49 | on a consistent history entry i gives number, version, stamp and file of backup i + 1 |
| Snapshots.PublishedSnapshots | platform/service-mesh/cache/snapshot-manager.js:17-39 | the snapshot a commit or a compile publishes when its writes work: next number, version, services |
| Snapshots.RollbackIff | platform/service-mesh/cache/snapshot-history.js:59-74 | on a consistent history a rollback succeeds exactly for the builds 1 to length when its writes work |
| Snapshots.CompileAfterRollback | platform/service-mesh/compiler/compiler.js:80-131 | a compile after a rollback to b publishes b + 1 and touches no other entry |
| Snapshots.HistoryOverRuns | platform/service-mesh/cache/snapshot-manager.js:17-58 | over every run with any failing writes a rollback to b brings back the newest snapshot backed up with that number if one was ever listed, and fails otherwise; when each operation is written whole or not at all, entry i has number i + 1 and the live file is its own backup |
| Snapshots.StepConsistentIff | platform/service-mesh/cache/snapshot-history.js:19-51 | an operation keeps numbering, backups and live file consistent exactly when nothing is written or live file, backup and entry all are |
| Snapshots.AlwaysConsistentIff | platform/service-mesh/cache/snapshot-manager.js:17-58 | over every run the history is consistent throughout exactly when that holds of each operation |
| Snapshots.PublishOrNothingIff | platform/service-mesh/compiler/compiler.js:94-163 | a compile publishes all and reports success, or changes nothing and reports failure, exactly when nothing fails or the first write does |
| Snapshots.CommittedWithoutBackup | platform/service-mesh/cache/snapshot-manager.js:35-38 | a commit whose backup fails reports success, and its build cannot be rolled back to |
| Compiler.ResolveDependencies | platform/service-mesh/compiler/dependency-resolver.js:4-34 | the nested loop computes the graph, or fails exactly when some dependency is neither the id of a service nor one of the eleven provided names |
| Compiler.SnapshotCompiler.Compile | platform/service-mesh/compiler/compiler.js:20-164 | a loading, validation or dependency error writes nothing; otherwise live snapshot, history and reported outcome are those of the publication, for any failing write |
| Compiler.ResolvedGraph | platform/service-mesh/compiler/dependency-resolver.js:11-33 | resolution succeeds exactly when each dependency is compiled or whitelisted; no duplicate node, edges the declared pairs in order, both ends of every edge a node |
| Compiler.AcceptedIff | platform/service-mesh/compiler/compiler.js:30-78 | acceptance as a property of the set of configurations: all valid, and every dependency the id of one of them or one of the eleven provided names |
| Compiler.CompiledServices | platform/service-mesh/compiler/compiler.js:23-31 | what is compiled: of each id the configuration loaded last |
| Compiler.AcceptanceIgnoresOrder | platform/service-mesh/compiler/compiler.js:23-78 | the order of loading never decides acceptance when ids are distinct |
| Compiler.RepeatedIdMakesOrderMatter | platform/service-mesh/compiler/compiler.js:24-31 | with a repeated id it does |
| Compiler.PublishedGraphIsClosed | platform/service-mesh/compiler/compiler.js:91-134 | what a compilation whose writes work publishes: next number, the version before or 1.0.0, the checked services with their closed graph, one backup more |
| Compiler.CompileIsAtomicIff | platform/service-mesh/compiler/compiler.js:68-163 | publish-or-nothing holds exactly when an error is found, or the live write fails, or nothing after it does |
| Compiler.NewBuildIsAtomicIff | platform/service-mesh/compiler/compiler.js:68-163 | for a build number new to the history and distinct ids, exactly when a configuration is invalid or names an unknown dependency, or the live write fails, or every write goes through |
| Compiler.FailedCompileReplacesLive | platform/service-mesh/compiler/compiler.js:99-163 | a manifest that cannot be written makes the compilation fail with the live snapshot already replaced |
| TaskQueue.QueueWorker.DispatchTask | platform/tenant-manager/queue/dispatcher.js:4-22 | a new queued task without attempts at the end of the list |
| TaskQueue.QueueWorker.GetPending | platform/tenant-manager/queue/queue.js:11-13 | the first queued task, if any |
| TaskQueue.QueueWorker.PickTask | platform/tenant-manager/queue/worker.js:38-56 | the first queued task starts its next attempt, unless one is running |
| TaskQueue.QueueWorker.SettleTask | platform/tenant-manager/queue/worker.js:135-154 | success, requeueing below three attempts, or failure and the dead letter queue; it throws exactly when a listener of the failure event does |
| TaskQueue.DeadLettersIff | platform/tenant-manager/queue/worker.js:147-152 | listeners are told of a failure exactly when the task goes to the dead letter queue |
| TaskQueue.QueueWorker.MoveToDLQ | platform/tenant-manager/queue/queue.js:26-29 | the task is appended to one list and removed from the other |
| TaskQueue.QueueIsTheLedger | platform/tenant-manager/queue/worker.js:38-155 | over every run the two lists are the dispatch-ordered ledger, split by failure: final tasks, at most one open task, untouched tasks |
| TaskQueue.Conservation | platform/tenant-manager/queue/queue.js:7-29 | every dispatched task is in exactly one list, and in the dead letter queue exactly when it failed with three attempts |
| TaskQueue.TaskFate | platform/tenant-manager/queue/worker.js:53-154 | over every run, what the outcomes of its attempts make of a task: succeeded by a success after at most two failures, dead-lettered by three failures, otherwise pending or running with as many attempts |
| TaskQueue.PickedInDispatchOrder | platform/tenant-manager/queue/worker.js:41-47 | a task is picked only when every task dispatched before it is final |
| TaskQueue.IterationDecreasesWork | platform/tenant-manager/queue/retry.js:7-9 | each iteration of the loop uses up some of the remaining attempts |
| TaskQueue.DrainsWithinThreeN | platform/tenant-manager/queue/worker.js:38-51 | in every reachable state with no task running, as many iterations as attempts are left, at most 3n for n pending tasks, leave nothing pending, whatever their outcomes, exactly when no listener of a failure event throws with work left |
| TaskQueue.ThrowingListenerStopsTheLoop | platform/tenant-manager/queue/worker.js:147-152 | two pending tasks, a listener that throws at the failure of the first, and the second is never picked |
| TaskQueue.WorkIsRemaining | platform/tenant-manager/queue/retry.js:7-9 | the attempts left in the pending list are those of the one retried task and of the tasks never started |
| Lifecycle.RunAction | platform/tenant-manager/queue/worker.js:69-112 | from which statuses a start, stop, archive or restore goes through, and the status it leaves |
| Lifecycle.SuspendedStays | platform/tenant-manager/queue/worker.js:73-112 | a stopped tenant stays SUSPENDED under any sequence of these actions |
| Lifecycle.ActionsSettle | platform/tenant-manager/queue/worker.js:73-112 | under any sequence of them a tenant ends ACTIVE, SUSPENDED, ARCHIVED or where it was |
| TenantIndex.TenantCache.Set | platform/tenant-manager/registry/tenant-cache.js:8-26 | the keys written to each of the three maps |
| TenantIndex.TenantCache.GetByDomain | platform/tenant-manager/registry/tenant-cache.js:36-39 | lookup by domain in any case; nothing for the empty domain |
| TenantIndex.TenantCache.Delete | platform/tenant-manager/registry/tenant-cache.js:41-56 | the keys removed are those of the stored version |
| TenantIndex.LookupsAfterSet | platform/tenant-manager/registry/tenant-cache.js:8-39 | after a save a lookup by id, slug or domain in any case finds the tenant when it has that key, and what it found before otherwise |
| TenantIndex.LookupsAfterDelete | platform/tenant-manager/registry/tenant-cache.js:28-56 | after a delete the lookups find nothing under the keys of the stored version, and what they found before otherwise |
| TenantIndex.TenantRegistry.ReloadAll | platform/tenant-manager/registry/tenant-registry.js:30-41 | the cache after a reload, invalid configurations skipped |
| TenantIndex.TenantRegistry.SaveTenant | platform/tenant-manager/registry/tenant-registry.js:76-93 | file and cache take the tenant, or a refusal changes nothing |
| TenantIndex.TenantRegistry.DeleteTenant | platform/tenant-manager/registry/tenant-registry.js:95-107 | file and cache drop the tenant, or false for an unknown one |
| TenantIndex.SetKeepsAgreementIff | platform/tenant-manager/registry/tenant-cache.js:8-26 | a save keeps all lookups right exactly when it drops no key of the version it replaces and takes no other tenant's key |
| TenantIndex.DeleteKeepsAgreement | platform/tenant-manager/registry/tenant-cache.js:41-56 | a delete keeps them right, and nothing finds the tenant afterwards |
| TenantIndex.ReloadAgreesIff | platform/tenant-manager/registry/tenant-registry.js:30-41 | a reload from any cache stores exactly the valid configurations; the lookups are right exactly when no two of them share a key |
| TenantIndex.AgreementOverRunsIff | platform/tenant-manager/registry/tenant-registry.js:30-107 | over every run the lookups are right after each operation exactly when each save and reload meets its condition |
| TenantIndex.ReloadHeals | platform/tenant-manager/registry/tenant-registry.js:30-107 | whatever saves and deletes did to the maps, a reload keeps the stored tenants and heals the lookups unless two tenants claim a key |
| TenantIndex.OldSlugOutlivesTenant | platform/tenant-manager/registry/tenant-cache.js:8-13 | a renamed and then deleted tenant is still found under its first slug |
| PolicyMerge.MergeLayer | platform/service-mesh/policy/policy-merger.js:8-14 | the result does not depend on the order of the keys |
| PolicyMerge.MergePolicies | platform/service-mesh/policy/policy-merger.js:2-18 | layers are folded in order and missing ones skipped |
| PolicyMerge.PresentKeepsOrder | platform/service-mesh/policy/policy-merger.js:4-6 | missing layers are skipped and the others keep their order |
| PolicyMerge.BlockOverList | platform/service-mesh/policy/policy-merger.js:9-13 | a block over a list keeps the items it does not set, under their numbers |
| PolicyMerge.BlockOverText | platform/service-mesh/policy/policy-merger.js:9-13 | a block over a text keeps its characters in the same way |
| PolicyMerge.MergedKey | platform/service-mesh/policy/policy-merger.js:2-18 | for all layers: which layer decides a key, and which a field of a block |
| PolicyMerge.LastLayerWins | platform/service-mesh/policy/policy-merger.js:9-13 | where a key always is a block, each field is that of the last layer defining it |
| PolicyMerge.LeafHidesFields | platform/service-mesh/policy/policy-merger.js:9-13 | a leaf between two blocks hides the fields before it |
| PolicyMerge.MergeAbsorbsRepeats | platform/service-mesh/policy/policy-merger.js:2-18 | merging a layer twice is merging it once |
| PolicyMerge.AssociativeIff | platform/service-mesh/policy/policy-merger.js:2-18 | merging is associative exactly when no block fields vanish behind a leaf of the middle layer |
| PolicyMerge.AssociativeWhenConsistent | platform/service-mesh/policy/policy-merger.js:9-13 | so it is associative on layers that agree on which keys are blocks |
| PolicyMerge.Resolve | platform/service-mesh/policy/policy-resolver.js:12-24 | the policy or the type error; with blocks, every field is the tenant's if it has it, else the service's, else the default, and a read timeout in development at most 5000 |
| PolicyMerge.NoLayers | platform/service-mesh/policy/default-policy.js:1-26 | without overrides, the default of every field |
| PolicyMerge.TenantLeafWins | platform/service-mesh/policy/resolved-policy.js:2-8 | a section that the tenant sets to no block is that, or empty when it is falsy |
| PolicyMerge.ResolveAgainIff | platform/service-mesh/policy/policy-resolver.js:12-24 | resolving a resolved policy returns it exactly when each section is a leaf or has all default fields |
| PolicyMerge.ResolveIsIdempotent | platform/service-mesh/policy/policy-resolver.js:12-24 | with block sections resolution is idempotent, development clamp included |
| PolicyMerge.NullSectionIsNotStable | platform/service-mesh/policy/resolved-policy.js:2-8 | a section set to null becomes empty and gets the defaults back on re-resolution |
| Deployments.DeploymentFSM.TransitionTo | platform/application-manager/state/deployment-fsm.js:26-75 | a legal transition moves state, registry status and gauge together; an illegal one changes nothing |
| Deployments.LegalIffEntrance | platform/application-manager/state/deployment-transition.js:3-66 | the transition table read the other way: from which statuses each status is entered |
| Deployments.DeploymentFSM.Execute | platform/application-manager/deployment/deployment-executor.js:6-48 | the steps run until one throws; a start changes the status before the containers, illegal transitions and failed readiness checks are swallowed |
| Deployments.Generate | platform/application-manager/deployment/deployment-plan.js:2-33 | the plans of the two strategies |
| Deployments.RunDeployment | platform/application-manager/deployment/deployment-engine.js:18-76 | registry, gauge and verdict of a deployment, for any failure point |
| Deployments.RunRollback | platform/application-manager/rollback/rollback-engine.js:16-74 | registry, gauge and verdict of a rollback, for any failure point |
| Deployments.GaugeOverRuns | platform/application-manager/state/deployment-fsm.js:34-52 | over every interleaving with one job per application at a time, restarts included, and from any gauge: how far the gauge is ahead of the registry, by stale rollbacks, departures from ACTIVE at gauge zero, and what restarts threw away |
| Deployments.GaugeCountsActives | platform/application-manager/state/deployment-fsm.js:46-52 | over any interleaving of deployments and of rollbacks begun from ACTIVE, one job per application, begun with a right gauge, the gauge equals the number of ACTIVE applications after every step |
| Deployments.GaugeStaysRightIff | platform/application-manager/rollback/rollback-engine.js:54-60 | begun with a right gauge, it is right at the end, and throughout, exactly when no rollback completed that had begun from another status than ACTIVE |
| Deployments.GaugeCountsActivesIff | platform/application-manager/rollback/rollback-engine.js:54-60 | from a process start, with the gauge at zero and any registry, the gauge counts the ACTIVE applications exactly when stale rollbacks and departures in excess of arrivals make up for those ACTIVE at the start; with none ACTIVE at the start, exactly when there was no stale rollback |
| Deployments.NothingLost | platform/application-manager/state/deployment-fsm.js:50-52 | the clamp at zero never swallows a departure when the gauge starts no lower than the number of ACTIVE applications |
| Deployments.LostsAreTheDrop | platform/application-manager/state/deployment-fsm.js:50-52 | the departures the clamp swallows are the largest excess of departures over arrivals, less the gauge at the start |
| Deployments.DropBounded | platform/application-manager/state/deployment-fsm.js:46-52 | departures from ACTIVE never outnumber arrivals by more than the applications ACTIVE at the start |
| Deployments.CountsIgnoreGauge | platform/application-manager/state/deployment-fsm.js:46-52 | departures, arrivals and stale rollbacks of a run do not depend on the gauge |
| Deployments.GaugeSinceRestartIff | platform/application-manager/state/deployment-fsm.js:6-13 | whatever happened before the last restart, the same equivalences hold since then |
| Deployments.RestartUndercounts | platform/application-manager/state/deployment-fsm.js:47-52 | after a restart with two ACTIVE applications, redeploying one leaves the gauge at one |
| Deployments.GaugeOff | platform/application-manager/state/deployment-fsm.js:34-52 | over every run, from any state and with any overlap of jobs, the gauge is off by the sum of the miscounts of its steps |
| Deployments.TransitionCountsIff | platform/application-manager/state/deployment-fsm.js:34-52 | a transition keeps a right gauge right exactly when the entry says ACTIVE just when the state machine does |
| Deployments.CountsThroughoutIff | platform/application-manager/deployment/deployment-engine.js:32-75 | with any overlap of jobs a right gauge stays right exactly when no step miscounts |
| Deployments.MiscountIs | platform/application-manager/rollback/rollback-engine.js:54-60 | a job in step with its application miscounts only a stale save and a departure from ACTIVE at gauge zero |
| Deployments.DeploymentOutcome | platform/application-manager/deployment/deployment-engine.js:46-75 | success leaves ACTIVE on the release, any failure FAILED on the old image, and no other application changes |
| Deployments.DeploymentSucceedsIff | platform/application-manager/deployment/deployment-executor.js:10-44 | with working steps a Rolling deployment succeeds except from BUILDING and ARCHIVED, a Recreate one only from VERIFYING, SCALING and ROLLBACK |
| Deployments.DeploymentVisits | platform/application-manager/deployment/deployment-executor.js:10-44 | a Rolling deployment goes over DEPLOYING, or UPDATING from ACTIVE, and VERIFYING, beginning as CREATED without a status |
| Deployments.RollbackOutcome | platform/application-manager/rollback/rollback-engine.js:29-73 | when a rollback succeeds, and that success changes image and version only: the status it began from is written back |
| Deployments.RollbackVisits | platform/application-manager/rollback/rollback-engine.js:29-54 | a rollback goes over ROLLBACK and VERIFYING, beginning as FAILED without a status |
| Deployments.RollbackLeavesFailed | platform/application-manager/rollback/rollback-engine.js:58-60 | a rollback from FAILED that works leaves the registry FAILED and the gauge at one |
| Deployments.JobsAreIndependent | platform/application-manager/deployment/deployment-executor.js:6-48 | whatever jobs run at the same time, an application and its jobs end as if only their own steps had been made |
| Deployments.ConcurrentDeployment | platform/application-manager/deployment/deployment-engine.js:35-75 | a deployment among any other jobs ends ACTIVE on the release or FAILED on the old image exactly as the engine alone would |
| Deployments.SequentialIsARun | platform/application-manager/deployment/deployment-engine.js:35-75 | a job without interruption is the sequential engine |
| Deployments.OverlapCountsTwice | platform/application-manager/state/deployment-fsm.js:47-52 | two deployments of one application at a time count it twice |
| Deployments.FailedStartStaysCounted | platform/application-manager/deployment/deployment-executor.js:15-25 | a start that fails after another deployment of the application has finished leaves it FAILED and counted |
| Secrets.EncryptionRoundTrip | platform/secrets/secret-encryption.js:15-40 | decrypting an encrypted text gives it back, for every text and iv |
| Secrets.EncryptedParts | platform/secrets/secret-encryption.js:15-22 | an encrypted text is iv, tag and cipher text, separated by colons |
| Secrets.PlainTextPasses | platform/secrets/secret-encryption.js:25-31 | a text with less than two colons is taken for plain text |
| Secrets.HexRoundTrip | platform/secrets/secret-encryption.js:19-36 | hexadecimal text has no colon and decodes to its bytes |
| Secrets.HexDigits | platform/secrets/secret-encryption.js:19-22 | each byte is two lower-case digits, the high one first |
| Secrets.SecretProvider.GetSecret | platform/secrets/secret-provider.js:8-14 | null for a missing key, the decrypted value otherwise |
| Secrets.SecretVersionManager.SaveVersion | platform/secrets/version-manager.js:14-35 | one more numbered version at the end, others unchanged, or an error when the file cannot be written or the key names an inherited property |
| Secrets.SecretVersionManager.GetVersions | platform/secrets/version-manager.js:37-47 | all versions decrypted, none without a version file, and an exception for an inherited name or an undecryptable version |
| Secrets.SecretVersionManager.Rollback | platform/secrets/version-manager.js:49-54 | the value of the first version with the number, or an error |
| Secrets.SecretManager.SaveSecret | platform/secrets/secret-manager.js:49-73 | memory, file, versions and the reported outcome of a save, for any failing write; nothing changed on a refusal |
| Secrets.AcceptsIff | platform/secrets/validator.js:2-13 | validation wants a value, of 8 characters for a name that contains `password` and of 16 for one that contains `key` |
| Secrets.SecretManager.GetSecret | platform/secrets/secret-manager.js:75-81 | the current value from memory |
| Secrets.SecretManager.DeleteSecret | platform/secrets/secret-manager.js:83-100 | memory loses the secret, the file too when it can be written, the versions stay |
| Secrets.SecretManager.RollbackSecret | platform/secrets/secret-manager.js:102-108 | a save of the value of an old version |
| Secrets.SecretManager.ReloadFiles | platform/secrets/secret-manager.js:26-42 | memory overlaid with the files |
| Secrets.KeysInjective | platform/secrets/secret-manager.js:44-47 | secrets named without colons never share a key |
| Secrets.DefaultScope | platform/secrets/secret-manager.js:44-47 | a scope without an id is the scope `default`; the tenant scope is the bare name |
| Secrets.StoreRefinesVault | platform/secrets/secret-manager.js:26-113 | over every run of saves, deletes, rollbacks, reloads and restarts with any failing writes, the encrypted store is a plain vault: what reads return, what the files keep, and an append-only numbered history |
| Secrets.MemoryEqualsFilesIff | platform/secrets/secret-manager.js:49-100 | memory equals the files throughout a run exactly when each save and delete gets its file written and no saved key is `__proto__` |
| Secrets.StepMirroredIff | platform/secrets/secret-manager.js:55-66 | the same for one operation |
| Secrets.SaveIsAtomicIff | platform/secrets/secret-manager.js:49-73 | a save is all or nothing exactly when it is refused, or its file, version and log can be written and its key is no inherited name |
| Secrets.FailedSaveLastsUntilRestart | platform/secrets/secret-manager.js:55-66 | a save whose file fails is reported as failed, returned by reads, and gone after a restart |
| Secrets.InheritedNameFails | platform/secrets/version-manager.js:21-32 | a secret named like an inherited property never gets a version, so every save of it reports failure with memory and file changed |
| Secrets.FetchedIsCurrent | platform/secrets/secret-manager.js:75-81 | in every reachable state, whichever writes failed, a read returns the current value of the vault, or null |
| Secrets.SavedIsNewest | platform/secrets/version-manager.js:21-34 | after any run an accepted save is what a read returns; if its version could be written it is the newest, numbered next; older versions never change |
| Secrets.RollbackIff | platform/secrets/version-manager.js:49-54 | a rollback works exactly for the versions there are, and always passes validation |
| Secrets.RollbackRestores | platform/secrets/secret-manager.js:102-108 | every version of a reachable state can be rolled back to after any further run, deletion included, and is then what a read returns |
| Secrets.ColonsCollide | platform/secrets/secret-manager.js:44-47 | with colons in names saving one secret overwrites another |
| Promotions.DeploymentWindow.IsWindowOpen | platform/environments/deployment-window.js:12-20 | open exactly on an allowed day within the hours |
| Promotions.ApprovalManager.SubmitApproval | platform/environments/approval-manager.js:19-30 | a decision is taken exactly once, for an existing request |
| Promotions.PromotionEngine.DeployAllowed | platform/environments/environment-manager.js:32-41 | when an environment accepts deployments, inherited names included |
| Promotions.PromotionEngine.StartPromotion | platform/environments/promotion-engine.js:11-46 | refusals, the waiting promotion with its approval request, or the launched one; between two of the four environments it starts exactly when the source comes before the target in development, testing, staging, production and the target is neither frozen nor closed |
| Promotions.StartableIff | platform/environments/environment-manager.js:6-41 | the same for any source: one that is no environment is taken for earlier than all |
| Promotions.UnknownTarget | platform/environments/promotion-engine.js:15-15 | no promotion starts to another name than the four and `constructor` |
| Promotions.ConstructorStartableIff | platform/environments/environment-manager.js:22-41 | `constructor` is a target from everywhere, unless `object` is frozen |
| Promotions.InitialWindow | platform/environments/deployment-window.js:2-5 | at first production is open from Monday to Friday at any hour |
| Promotions.FreezeRefuses | platform/environments/environment-manager.js:43-49 | a frozen environment takes no promotion, whatever the case of its name, until the freeze is lifted |
| Promotions.PromotionEngine.FinishPromotion | platform/environments/promotion-engine.js:52-66 | the result of the deployment that was awaited |
| Promotions.PromotionEngine.ApprovePromotion | platform/environments/promotion-engine.js:69-77 | an open approval launches the deployment |
| Promotions.PromotionEngine.RejectPromotion | platform/environments/promotion-engine.js:79-90 | an open approval ends the promotion |
| Promotions.DecisionIs | platform/environments/approval-manager.js:19-30 | a decision is recorded with who took it, a result as it came back |
| Promotions.PromotionEngine.FreezeEnvironment | platform/environments/environment-manager.js:43-45 | the environment, by its name in any case, refuses deployments from now on; nothing under way changes |
| Promotions.PromotionEngine.UnfreezeEnvironment | platform/environments/environment-manager.js:47-49 | the freeze is lifted and nothing else changes |
| Promotions.DeploymentWindow.SetAllowed | platform/environments/deployment-window.js:7-10 | hours and days of the window are replaced |
| Promotions.PromotionSafety | platform/environments/promotion-engine.js:11-90 | at every await approval and promotion status correspond, only promotions to production have an approval, a promotion deploys at most once and a rejected or waiting one never; the target is above any known source exactly when it is one of the four environments |
| Promotions.ConstructorIsATarget | platform/environments/environment-manager.js:22-30 | a promotion from production to the target `constructor` deploys at once without approval |
| Promotions.DecisionsAreFinal | platform/environments/approval-manager.js:19-30 | nothing later in a run changes a decision or a result |
| Promotions.ClosedLaunchIff | platform/environments/promotion-engine.js:69-77 | a deployment is launched into a closed environment exactly by a late approval |
| Promotions.ClosedLaunchesOverRuns | platform/environments/promotion-engine.js:20-77 | over every run the launches into closed environments are the late approvals |
| Promotions.ApprovalIgnoresFreeze | platform/environments/promotion-engine.js:69-77 | a promotion that deploys into a freeze |
| RequestMetrics.RequestTelemetry.RecordRequest | platform/service-mesh/observability/metrics.js:42-49 | the three dictionaries after a request |
| RequestMetrics.ReportedIff | platform/service-mesh/observability/metrics.js:127-130 | for the four-part request keys the export gives back the recorded labels exactly when none has a colon |
| RequestMetrics.ReportedDurationIff | platform/service-mesh/observability/metrics.js:136-149 | for the three-part duration keys likewise |
| RequestMetrics.CountersCount | platform/service-mesh/observability/metrics.js:42-49 | each counter is the number of requests with its key, and each duration sum the sum of their durations |
| RequestMetrics.CountOfLabels | platform/service-mesh/observability/metrics.js:42-44 | for colon-free labels it is the number of requests with these labels |
| RequestMetrics.DurationCountIsSumOverCodes | platform/service-mesh/observability/metrics.js:42-49 | for any labels each duration count is the sum of the request counts over the status codes |
| RequestMetrics.ColonMergesTenants | platform/service-mesh/observability/metrics.js:43-44 | a label with a colon is counted with another tenant's requests |
| RequestMetrics.ColonShiftsLabels | platform/service-mesh/observability/metrics.js:127-149 | and it is exported under shifted labels |
| Text.SplitOfJoin | platform/service-mesh/observability/metrics.js:128-128 | parts without the separator come back from a split of their join |
| Text.JoinOfSplit | platform/secrets/secret-encryption.js:27-27 | a split joins back, and its parts have no separator |
| Text.LowerLetters | platform/environments/environment-manager.js:23-23 | lower case takes each letter to its counterpart and leaves the rest |

## Left out

- The world behind the steps: the file system, Docker, Postgres, OpenSSL, sockets, YAML and JSON parsing and the schema validators are abstract fields and verdicts. A compensation undoes all it should or, in `Saga.RestoredIffEssentialsWork`, nothing; elsewhere only that of Secret fails. Psql is there or not for a whole run, and the tenants directory of registry and provisioner is the same.
- Each write of the snapshot files and of the secret files is made or not, never partly, and an unreported failure of a backup is taken not to end the process. The tenant registry's own file writes are taken to succeed. A read or delete of a secret whose audit line cannot be written is not told apart from one that reports success.
- Listeners of events are taken not to throw in the promotion engine, where one would leave an approval granted with its promotion pending, in the lifecycle transitions of the provisioner, and in the deployment engine other than on completion. In the task queue only the listeners of the failure event are told apart; what else throws there fails the attempt.
- A copied answer counts as delivered even when headers of an earlier, cut off one had gone out. The proxy answers 500 when a request ends with an exception before headers were sent; the exceptions of the model come after that.
- Names of inherited object properties are modelled for environments and secrets; a service, a policy section or a metrics label with such a name is not.
- The verdict of the provisioning policy engine is a parameter; convergence of the reconciler is proved with a policy that allows.
- When `docker compose ps` fails, the fallback to `docker inspect` looks for a container name that the compose file does not use, so it observes nothing running.
- Events, logs, audit files and the profilers; the lifecycle and queue metrics and the formatting of `toPrometheusString`.
- `executeHttpRequest` is replaced by any reply or error; `isEligibleForRetry` and the time budget enter the request loop as given values.
- `CircuitBreakerManager.getBreaker` is one breaker per service; events carry one clock reading each, positive and in any order.
- Delays of the task queue are only logged by the source. One worker loop is assumed: stopping and restarting it during a task can create two.
- Random ids are taken to be fresh, for tasks and promotions.
- Object property order: services with integer-like names would be enumerated first by JavaScript. Compilation and the snapshot manager are taken to use the same history directory.
- Tenant configurations, cached policies and promotion records are values: a caller that changes a configuration object it got from the cache without saving it is not modelled, except for the status the provisioner sets. Lower case is over the ASCII letters.
- Policy layers are plain JSON objects as YAML gives them; an `undefined` field inside a block, and a policy layer that is itself a list or a text, are not modelled. A numeric field assigned to a list of timeouts is dropped, as it is when the policy is serialised.
- Weights, draws, delays and policy numbers are integers and reals, without rounding; the length of a secret counts characters, not UTF-16 units.
- Deployments and rollbacks of a release that does not exist are refused before anything happens; the model starts with the release found.
- Registry writes of deployments and rollbacks are taken to succeed, and applications are not deleted or edited while a job runs. The closed form of the gauge is for one job at a time per application; with overlaps `Deployments.GaugeOff` and `Deployments.CountsThroughoutIff` hold.
- AES-GCM (sections 7.1 and 7.2 of NIST SP 800-38D) is a pair of functions of which opening inverts sealing; the derivation of the key from the environment is left out, and so is `validateTenantSecrets`.
- Paths: a tenant id with path separators would leave its directory.
- The pipeline runner, inventory, diagnostics, dashboards, API handlers and configuration loading: plumbing and easy members.
