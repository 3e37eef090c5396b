# Kuayle, modelled and proved

A Dafny model of the parts of the Kuayle back end in which several writers meet, something can
fail half way, or a fast computation stands for a simple one. `dafny verify dfyconfig.toml` checks
everything.

## What is modelled

**The dev-machine control plane.** A PostgreSQL-backed queue of operations with leases,
generation fencing, idempotency keys, retries and backoff, and the state machines of machines,
agent runs, environments, checkouts, terminals and tickets that move through it.

- `Domain` holds the rows and enumerations, `Store` what each transaction of
  `dev_machine.go` does as a function from the database before to the database after, and
  `Repository` the same transactions as they run: a class whose methods work on a copy of the
  tables, return early to roll back and write the copy back to commit, each proved to do exactly
  what its function says. What the transactions promise is proved about the functions, in the
  modules below and in `Laws`, which ties one call to the next and to every later one; a method
  whose contract is equality with its function has no row of its own in the table.
- `Invariants` states what every reachable state satisfies and how rows may move between two
  states. `Safety` shows what makes a write to one table safe, `TransactionSafety` that every
  transaction is, and `Runs` lifts both to every state, and every pair of states, of every run:
  any interleaving of any number of API servers, gateways, managers and reconcilers under one clock.
- `Leases`, `Fencing`, `OperationLedger`, `AgentRuns`, `Retirement`, `Deletion` and `Quota` are the
  main results about such runs; `LeaseStatement` defines the lease query itself and shows which
  sets of rows it can take, `LeaseOrder` in which order that serves them. `Admission` says for each
  request that can be refused exactly when it commits and what it leaves.
- `Manager` and `SpawnTasks` model the workers of `manager.go` as tasks with program counters that
  read, commit and call the container runtime one step at a time, may crash or fail at any step,
  and interleave with each other and everyone else; `AgentOutcomes` is about how agent runs come to
  be executed and what they end with, `Recovery` about the reconciler's own spawn of a machine that
  should be running.

**Smaller cores.** `DockerSpawn` is the acquisition of a machine's containers, networks,
connections and volume, in which any call may fail, and its roll-back; `DockerPlans` two planning
loops beside it. `GatewayGuard` is the gateway's abuse guard, `RateLimiter` the token buckets over
real numbers, `Burndown` the sort and day walk of a cycle's burn-down, `IssueForest` the parent
links of issues, and `Burnup` the buckets and totals of the burn-up chart.

## What came out differently than one might expect

- *Late renewals.* RenewOperationLease does not ask whether the lease is still live. Leases are
  exclusive in every run whose renewals are prompt; `RenewalKeepsExclusionIff` says exactly which
  late renewals are harmless, and `ExclusiveThroughoutIff` which runs are exclusive.
- *The daily cap counts rows.* A purged machine takes its runs with it, so more runs than the cap
  can be created in a day, by exactly the runs of that day that were removed.
- *Deleting a workspace.* While it has environments, the transaction marks them for deletion and
  asks neither the settings nor the machines that are to be started again whether they use them.
  A deletion requested for one environment does ask. `Retirement` says exactly when a marked
  environment is out of use for good.
- *A service keyed "gateway".* Spawn records the gateway's own connection under that key in the
  same map as the services', so the record can be overwritten and a failed spawn can leave the
  gateway attached to the machine's network. `Endangered` is the exact condition on the world
  before and the services asked for. No caller in the repository meets it: the services it builds
  are keyed collector, egress, ide, terminal and browser
  (`BE/internal/service/dev_machine.go:440-456`).
- *A burst below one.* The rate limiter admits a key's first request whatever the burst, and leaves
  its bucket in debt: the range of the tokens and the interval bound hold exactly for bursts of at
  least one.
- *Forgotten buckets.* The clean-up of idle buckets is invisible, and the interval bound survives
  it, only if rate * 180 s is at least the burst.
- *A rate of zero.* Retry-After then says one second, and a client that waits is refused all the same.
- *Machines without a creator.* They have none of the places of a user, and still a policy that gives
  users no places keeps them out: `HasRoom` compares zero with the limit.
- *Deleted users.* A request repeated under its idempotency key is answered with the same operation
  until its requester's account is deleted; then it is refused as a conflict.
- *Starts of expired machines.* The quota is checked for stopped and failed machines only. The
  service does not let a start through on the statuses where that would matter.
- *Cycles without issues.* Their burn-down is cut off at the present instant, any other at the last
  midnight; both give the same days when the cycle starts at midnight.

A version-4 UUID is taken never to repeat: the state remembers every identifier ever issued.
Times are microseconds. The idempotency keys the program builds are a datatype with one
constructor a format string.

## Model

| member | source | states |
|---|---|---|
| Runs.StepSafe | BE/internal/repository/dev_machine.go:102-2005 | any one transaction, with what its callers send, the deletion of a workspace and what foreign keys delete or set to NULL included, keeps the whole invariant (ledger, unique keys, fenced generations, one active run, absent environments unnamed, unusable ones without snapshots, closed terminals), lets nothing begin to use an environment that nothing may use, moves rows only forward, and moves operations only by the lease, renew, finish, retry, reset and forget-requester moves its kind allows |
| Runs.RunKeepsInv | BE/internal/repository/dev_machine.go:102-2005 | every state of every run from an empty database, with any interleaving of clients and of workspace deletions, satisfies the invariant |
| Runs.RunEvolves | BE/internal/repository/dev_machine.go:102-2005 | between any two states of a run generations never fall, identifiers never come back to life, deletion requests stand, recorded networks and volumes stay recorded, closed sessions stay closed, sessions and tickets do not return to active, finished runs keep their status |
| Leases.LeaseExclusion | BE/internal/repository/dev_machine.go:440-480 | in every state of every run whose renewals come before expiry, a machine has at most one live lease on an operation other than teardown, cancel_agent or terminate_terminal |
| Leases.RenewalKeepsExclusionIff | BE/internal/repository/dev_machine.go:470-480 | a renewal, however late, keeps exclusion exactly when the row is a cleanup or nobody else holds the machine |
| Leases.ExclusiveThroughoutIff | BE/internal/repository/dev_machine.go:440-480 | up to any state of any run a machine never has two live leases on lifecycle operations, exactly when no renewal before it revived a lease on a machine that another operation held by then |
| Leases.LateRenewalBreaksExclusion | BE/internal/repository/dev_machine.go:470-473 | the renewal does not test expiry: a run from the empty database whose last step, a late renewal and its only step that is not prompt, leaves one machine with two live leases |
| LeaseStatement.StatementIffChoice | BE/internal/repository/dev_machine.go:442-463 | the sets of rows LeaseChoice allows are exactly what the statement takes, when it ranks the rows of each machine, keeps those of rank one that are not locked, orders them and cuts the list at the limit, under some order of the rows its ORDER BY clauses leave tied |
| LeaseStatement.FirstRowsSize | BE/internal/repository/dev_machine.go:460-463 | the LIMIT takes as many rows as there are, up to the limit |
| LeaseStatement.CutOff | BE/internal/repository/dev_machine.go:460-463 | a row that is cut off has the whole limit ahead of it |
| LeaseOrder.ChoiceIffFair | BE/internal/repository/dev_machine.go:440-463 | the statement takes exactly the sets of due rows, at most one of a machine, in which a cleanup is never passed over for other work, nor a newer generation for an older, nor an older row for a newer, within a machine or, when the limit is used up, across machines |
| LeaseOrder.CleanupNeverWaits | BE/internal/repository/dev_machine.go:445-463 | a statement with room for the machines that have a cleanup waiting takes a cleanup of each, whatever else waits |
| Repository.DevMachineRepository.LeaseOperations | BE/internal/repository/dev_machine.go:440-468 | the rows taken are a fair choice, cleanup first, and ones the ranked statement could have taken; each is leased to the owner with one more attempt and the others are left alone |
| Fencing.RequestRaises | BE/internal/repository/dev_machine.go:317-413 | a lifecycle request that commits strictly raises the generation to its own and queues its operation at it, unless it repeats an idempotency key, and then it changes nothing |
| Fencing.GenerationStays | BE/internal/repository/dev_machine.go:102-2005 | no event but a fresh lifecycle request for a machine or its permanent deletion changes its generation |
| Fencing.RaisedByRequest | BE/internal/repository/dev_machine.go:401-408 | between two states of a run the generation is raised only by a fresh lifecycle request, which always raises it, or a permanent deletion |
| Fencing.StatusWriteFenced | BE/internal/repository/dev_machine.go:529-542 | a status write without allowStale, for an operation queued at its machine's generation, applies later exactly when the machine still exists and no step in between raised the generation |
| Fencing.SupersededForEver | BE/internal/repository/dev_machine.go:529-542 | once a fresh lifecycle request has committed, no operation queued before it can ever again write the machine's status without allowStale |
| OperationLedger.FinishedForEver | BE/internal/repository/dev_machine.go:494-516 | a completed, failed or cancelled operation never changes again while it exists, unless it is a terminal close that is requested again; only the name of its requester goes when that user is deleted |
| OperationLedger.OnlyCloseResets | BE/internal/repository/dev_machine.go:1923-1938 | only a repeated request to close a terminal resets an operation, and only one with a terminal-close key |
| OperationLedger.RetryAnswer | BE/internal/repository/dev_machine.go:506-516 | FailOperation answers "will retry" exactly when the row goes from leased back to pending, which takes a retryable error and an attempt left; otherwise the row is failed |
| OperationLedger.RetriesBounded | BE/internal/repository/dev_machine.go:506-516 | between two resets an operation is retried at most max_attempts - 1 times |
| OperationLedger.BackoffMonotone | BE/internal/repository/dev_machine.go:511 | the backoff is nondecreasing in attempts and between 5 and 300 seconds |
| OperationLedger.DueAfterPause | BE/internal/repository/dev_machine.go:506-516 | until it is leased again, an operation that failed with n attempts used up and will be retried is due exactly 5 * n * n seconds, or five minutes if that is sooner, after the failure |
| OperationLedger.NotLeasedInPause | BE/internal/repository/dev_machine.go:452-453 | no lease statement of any worker takes it before, in any run without a reset of it |
| OperationLedger.LeaseLasts | BE/internal/repository/dev_machine.go:440-480 | a lease taken or renewed for so many seconds, and not since, is live exactly that long, and the row is due for others exactly from then on |
| AgentRuns.OneRunAtATime | BE/internal/repository/dev_machine.go:731-792 | in every reachable state a machine has at most one active agent run, and then its desired status is running or its permanent deletion was requested |
| AgentRuns.FinishedRunsStay | BE/internal/repository/dev_machine.go:864-915 | a finished run keeps its status for ever, and no step returns a run to queued or starting |
| AgentRuns.DailyCap | BE/internal/repository/dev_machine.go:755-767 | while no policy allows a workspace more than a cap, no UTC day ever has more than that many of its runs in the table |
| AgentRuns.CreationsAreRows | BE/internal/repository/dev_machine.go:755-792 | the runs created for a day are, in every run of the system, the ones in the table and the ones that were removed from it |
| AgentRuns.CreationsAreRowsIff | BE/internal/repository/dev_machine.go:755-792 | the table holds every run created for a workspace and day exactly when no step so far removed one of that workspace and day |
| AgentRuns.CreationsBound | BE/internal/repository/dev_machine.go:755-767 | creations stay within the cap plus the removals, and within the cap itself exactly when the removals fit into what the table leaves free; so they do when nothing of that workspace and day was removed |
| AgentRuns.PurgeForgetsRuns | BE/internal/repository/dev_machine.go:755-767 | the cap counts rows: a run that is refused before a machine is purged is admitted after it |
| Admission.RequestAdmittedIff | BE/internal/repository/dev_machine.go:317-413 | a lifecycle request under a new key commits exactly when the machine is the workspace's and behind the request, no snapshot of it is open, no active run is in the way of a pause, a stop or a teardown, and a machine that is to run has its environment ready and, if stopped or failed, room in an enabled policy; it leaves the desired status and the generation asked for and one operation |
| Admission.PausedIsResumed | BE/internal/repository/dev_machine.go:381-399 | a paused machine is resumed even when its workspace is full, and takes no further place |
| Admission.BundleAdmittedIff | BE/internal/repository/dev_machine.go:102-251 | a new machine is admitted exactly when its environment is ready and there is room for it, and stored with the operation that spawns it |
| Admission.RunAdmittedIff | BE/internal/repository/dev_machine.go:731-806 | an agent run is admitted exactly on a running machine at the generation the client saw, without another active run, below the cap of the runs created since midnight |
| Admission.CancelOutcome | BE/internal/repository/dev_machine.go:864-893 | cancelling ends an active run and queues one cancellation, changes nothing of a finished one and refuses a run of another workspace |
| Admission.SnapshotAdmittedIff | BE/internal/repository/dev_machine.go:1510-1559 | a snapshot is admitted exactly of a builder machine at rest, paused or stopped, at the generation the client saw, with no lifecycle operation open |
| Admission.SettingAdmittedIff | BE/internal/repository/dev_machine.go:1379-1428 | a setting names an environment only when that is ready, and stays in its workspace |
| Admission.EnvironmentDeletionIff | BE/internal/repository/dev_machine.go:1561-1617 | the deletion of an environment is accepted exactly when it was before, or nothing names the environment and nobody builds it; its snapshots that wait or lapsed are cancelled |
| Admission.EnvironmentDroppedIff | BE/internal/repository/dev_machine.go:1629-1639 | the row goes exactly after an accepted deletion; settings and machines forget it, its operations go, everything else stays |
| Admission.EnvironmentUpdatedIff | BE/internal/repository/dev_machine.go:1641-1652 | the result of a build is written unless the environment is to be deleted, and what it does not say stays |
| Admission.CheckoutAdmittedIff | BE/internal/repository/dev_machine.go:1819-1853 | a checkout is admitted exactly on a running machine that works on its repository or on none; the machine works on it from then on and the row of the issue is reused |
| Admission.TicketAdmittedIff | BE/internal/repository/dev_machine.go:984-1002 | a ticket is issued exactly to the owner of a running machine for a running service while a member, not beyond the end of the machine, and for a terminal only with an active session |
| Admission.TicketConsumedIff | BE/internal/repository/dev_machine.go:1004-1023 | exactly the ticket with this hash and host that is active, unexpired and still entitled is consumed |
| Admission.CloseOutcome | BE/internal/repository/dev_machine.go:1880-1946 | a user's own session that is not closed is marked, its usable tickets are revoked at once and one open operation will end it |
| Admission.CloseEnds | BE/internal/repository/dev_machine.go:1957-1978 | the end of a close closes the session and revokes its tickets; a failed one marks it unless it was closed meanwhile |
| Admission.EnvironmentGivenUpIff | BE/internal/repository/dev_machine.go:1654-1721 | an unfinished environment is failed exactly when no snapshot of it is being taken or can still be |
| Admission.CheckoutGivenUpIff | BE/internal/repository/dev_machine.go:1723-1790 | an unfinished checkout is failed exactly when no preparation of it is running or can still run |
| Retirement.DeletedEnvironmentsStay | BE/internal/repository/dev_machine.go:1561-1652 | once delete_requested, an environment is never anything else again and no snapshot of it is pending or leased; and if nothing named it at some moment after that, no setting and no machine meant to be running ever does again |
| Retirement.RetiredFromMarking | BE/internal/repository/dev_machine.go:1561-1617 | an environment is out of use in all later states exactly when nothing named it at the step that marked it, which a request to delete it makes sure of |
| Retirement.AllRetiredIff | BE/internal/repository/workspace.go:121-141 | every deleted environment is out of use throughout a run exactly when no step of it marked one that a setting or a machine meant to be running named |
| Retirement.WorkspaceDeletionRetiresIff | BE/internal/repository/workspace.go:100-147 | deleting a workspace keeps deleted environments out of use exactly when no setting and no machine meant to be running names an environment it marks |
| Retirement.WorkspaceDeletionLeavesSetting | BE/internal/repository/workspace.go:121-141 | the deletion tests neither: a workspace without machines, whose ready environment a setting names, has it marked all the same |
| Retirement.DeletionLeavesSettingInRun | BE/internal/repository/workspace.go:100-147 | every run that has come to a workspace without live machines and with a ready environment goes on, by naming it in a setting and deleting the workspace, to a state with a setting that names a deleted environment |
| Retirement.ClosedTerminalsStay | BE/internal/repository/dev_machine.go:1880-1978 | a terminal session that stopped being active never is again and never has a ticket in active or used |
| Retirement.ConsumedOnce | BE/internal/repository/dev_machine.go:1004-1023 | no access ticket is consumed twice in a run |
| Deletion.DeletionKeyIsFresh | BE/internal/repository/dev_machine.go:1245-1266 | the idempotency lookup of a permanent deletion always misses |
| Deletion.DeletionProgresses | BE/internal/repository/dev_machine.go:1196-1283 | exactly when the request commits, and then either a teardown is pending or leased with desired status destroyed, or the machine is purgeable with no open operation |
| Deletion.DeletionAnswer | BE/internal/repository/dev_machine.go:1236-1243 | the answer "no operation" means that the purge would succeed at once |
| Deletion.PurgeStatusIsSafe | BE/internal/domain/dev_machine.go:511-522 | the status condition of the purge statements accepts exactly the machines the Go predicate accepts |
| Deletion.PurgeExactly | BE/internal/repository/dev_machine.go:1285-1300 | a purge succeeds exactly for a purgeable machine without open operations and removes the machine with its operations, runs, checkouts, sessions and tickets; every other row stays as it is, but for environments that forget their source |
| Deletion.BulkPurgeIsSafe | BE/internal/repository/dev_machine.go:1310-1337 | a bulk purge never takes a machine that still owns a network or a volume or has an open operation |
| Deletion.BulkPurgeIff | BE/internal/repository/dev_machine.go:1310-1337 | it takes exactly the machines a single purge would take that are old enough, on the list if there is one, and destroyed or of a kind asked for |
| Deletion.DeletionWrites | BE/internal/repository/dev_machine.go:1196-1283 | the request marks the machine once and for all; reusing a teardown it only sets the desired status, queueing its own it moves the machine one generation on and queues a teardown of ten attempts there in the name of the requester |
| Deletion.SweepProgresses | BE/internal/machine/manager.go:929-946 | whatever others do between the listing, the purge and the new request of a reconciler round, after it the machine is gone for good, or nothing is left to do but purge it, or a teardown is on its way with desired status destroyed; one that was ready when its purge came is gone |
| Quota.BundleWithinQuotas | BE/internal/repository/dev_machine.go:130-145 | creating a machine keeps every workspace within its cap and every user within theirs, counted as the queries count |
| Quota.RequestWithinQuotasIff | BE/internal/repository/dev_machine.go:382-399 | a fresh lifecycle request keeps the quotas exactly when it is not a start of an uncounted destroyed or expired machine without room |
| Quota.RequestWithinQuotas | BE/internal/domain/dev_machine.go:488-509 | on the statuses ValidOperationForStatus allows no lifecycle request exceeds a quota; a paused machine being resumed is already counted |
| Quota.ExpiredStartExceedsQuota | BE/internal/repository/dev_machine.go:382-399 | in a run from the empty database a start of an expired machine, which the service would refuse, does commit and exceeds a quota that was kept until then |
| Manager.AgentRunsAtMostOnce | BE/internal/machine/manager.go:634-728 | over every interleaving of lease expiry, re-lease, retry, cancellation, crashes and any number of managers, the runtime is asked to execute an agent run at most once |
| Manager.NeverAfterCancellation | BE/internal/machine/manager.go:642-682 | a run that ended before any worker started it is never executed afterwards |
| Manager.CancellationEndsQueuedRun | BE/internal/repository/dev_machine.go:864-893 | cancelling a queued run ends it that way |
| AgentOutcomes.RecordedIsEarned | BE/internal/machine/manager.go:780-790 | in every history, a task that executed a run records succeeded only when the execution neither timed out nor erred nor failed, failed only when it erred or failed in time, timeout only when it timed out, cancelled only when the run was cancelled since |
| AgentOutcomes.RecordedWasExecuted | BE/internal/machine/manager.go:728-855 | and it records such a status for no run but the one it executed |
| AgentOutcomes.EndedForEver | BE/internal/repository/dev_machine.go:907-915 | a run that was active when its end was recorded shows that status ever after, one that had ended before keeps its own |
| AgentOutcomes.TaskEndsRun | BE/internal/machine/manager.go:1202-1232 | any other end a task gives a run is a cancellation, after it found the machine gone, moved on or not meant to run, or a failure, after the operation failed for good; the run was still active |
| AgentOutcomes.ExecutionWasWanted | BE/internal/machine/manager.go:638-682 | before an execution its task had found the run unfinished, then the machine at the generation of the operation and meant to run, and then marked the run, which was queued or starting, as running |
| AgentOutcomes.WorkWasCurrent | BE/internal/machine/manager.go:270-300 | a task works on an operation only after it found the machine there and not ahead of the operation, unless the operation is one to be carried out regardless |
| AgentOutcomes.SpawnWasCurrent | BE/internal/machine/manager.go:300-549 | the runtime builds a machine only for a spawn, or a start of a machine that never came up, after the machine was marked spawning at the generation of the operation |
| SpawnTasks.BuiltIsPublishedOrTornDown | BE/internal/machine/manager.go:523-564 | a spawn that is about to complete its operation after the runtime built the machine had everything torn down, or earlier wrote the very network and volume that were built to the row, at the generation of its operation, which then showed them as running |
| SpawnTasks.BuiltOutcome | BE/internal/machine/manager.go:523-564 | what the runtime built for a task is at every later moment of every history still to be written or torn down by it, or was published or its teardown asked for, or, exactly otherwise, the task crashed or failed on the database before it got to either |
| Recovery.RecoveryUnnamedIff | BE/internal/machine/manager.go:1049-1079 | a recovery spawn of the reconciler leaves the row without the names of what it built exactly when a lifecycle request, a permanent deletion or a purge came between the listing and the write and the row did not have these names already; then it changes nothing |
| Recovery.MovedIffOvertaken | BE/internal/repository/dev_machine.go:529-542 | between two states of a run a machine is gone or has another generation exactly when a fresh lifecycle request, a permanent deletion that raised it, or a purge came between |
| SpawnTasks.SupersededMove | BE/internal/machine/manager.go:551-560 | a superseded spawn leaves the status alone, publishes nothing and goes on to tear down what it built |
| SpawnTasks.OvertakenTask | BE/internal/machine/manager.go:242-245 | once a task is overtaken, none of its later fenced status writes, its failure included, changes the database |
| Repository.DevMachineRepository.RequestPermanentDelete | BE/internal/repository/dev_machine.go:1196-1283 | the three ways of a deletion request, on the open teardown with the newest generation |
| Repository.DevMachineRepository.ReconcileOrphanedEnvironments | BE/internal/repository/dev_machine.go:1654-1721 | fails exactly the environments without a viable snapshot, one after the other, and answers by how many their number fell |
| Repository.DevMachineRepository.CreateCheckout | BE/internal/repository/dev_machine.go:1819-1853 | claims the repository affinity of a running machine, reuses the row of the issue, queues the preparation |
| Repository.DevMachineRepository.ReconcileOrphanedCheckouts | BE/internal/repository/dev_machine.go:1723-1790 | the same for checkouts whose preparation is no longer runnable |
| Repository.DevMachineRepository.ConsumeAccessTicket | BE/internal/repository/dev_machine.go:1004-1023 | the one matching active ticket becomes used, or nothing happens |
| Laws.RequestRepeats | BE/internal/repository/dev_machine.go:329-337 | from a committed lifecycle request on, whatever became of its operation, a request under its key is answered with it and changes nothing exactly if it asks for the same action for the same requester, who counts as none once deleted, and is refused otherwise |
| Laws.LostForGood | BE/internal/repository/dev_machine.go:470-516 | a worker that reported the end of an operation, or whose operation another worker leased, can neither renew nor complete nor fail it at any later time before a lease of its own takes the row |
| Laws.StartsOnce | BE/internal/repository/dev_machine.go:895-905 | once a run was started or its cancellation committed, every later start of it is refused |
| Laws.RunHoldsMachine | BE/internal/repository/dev_machine.go:361-370 | an active run keeps other runs and new pauses, stops and teardowns off its machine |
| Laws.CancellationFreesMachine | BE/internal/repository/dev_machine.go:864-893 | once it is cancelled no new run is refused for its sake |
| Laws.SnapshotExcludesLifecycle | BE/internal/repository/dev_machine.go:353-360 | a queued snapshot keeps new lifecycle requests off its machine |
| Laws.LifecycleExcludesSnapshot | BE/internal/repository/dev_machine.go:1510-1559 | a queued lifecycle request keeps snapshots off it |
| Laws.DeletedIsUnavailable | BE/internal/repository/dev_machine.go:1561-1652 | an environment whose deletion was requested can never again be chosen by a setting or a new machine, let its machine start, or be written by its build |
| Laws.OwnedUntilDestroyed | BE/internal/repository/dev_machine.go:518-542 | a machine that ever had a network or a volume recorded is purged, singly or in bulk, only when it is destroyed |
| Laws.BundleIsLeasable | BE/internal/repository/dev_machine.go:102-251 | the spawn a new machine starts with can be leased at once |
| Laws.ClosedAnswers | BE/internal/repository/dev_machine.go:1880-1946 | a closed terminal session is answered as closed at all later times, and nothing changes |
| Laws.TicketRoundTrip | BE/internal/repository/dev_machine.go:984-1071 | an issued ticket is handed out once, to its hash and host, before it expires; a second request and one after revocation get nothing |
| DockerSpawn.DockerRuntime.Spawn | BE/internal/machine/docker.go:181-272 | a success leaves the closed machine network, the open shared one and the volume, a container of its own for every service, and as connections exactly the old ones, the gateway and every service on the machine network and egress services on the shared one; without faults every buildable machine is built; a failure at any call restores the world before unless that world is endangered, a condition on what the daemon held and on the services asked for; in an endangered one, with calls that fail once the gateway and the container of the service keyed "gateway" are both attached, it fails and leaves exactly the gateway attached; on success every key maps to its own container, terminals to the one of the IDE, all on the machine network if the daemon answers conflicts truthfully |
| DockerSpawn.LoseRecord | BE/internal/machine/docker.go:237-250 | for every endangered world and any position of the service keyed "gateway" there is such a failing spawn, which is run |
| DockerSpawn.LosingIsEndangered | BE/internal/machine/docker.go:237-250 | a record is overwritten only in an endangered world: gateway and container off the network and everything before them compatible |
| DockerSpawn.RollbackIsExact | BE/internal/machine/docker.go:192-210 | the deferred clean-up restores the world exactly when no record of a connection was lost |
| DockerSpawn.DockerRuntime.CleanUp | BE/internal/machine/docker.go:1575-1605 | the clean-up does to the world what the plan says, network and volume only when they can go |
| DockerSpawn.DockerRuntime.ConnectNetwork | BE/internal/machine/docker.go:274-299 | true exactly when this call made the connection; a conflict, whether or not the container is attached, counts as success without a record |
| DockerSpawn.DockerRuntime.EnsureService | BE/internal/machine/docker.go:979-1077 | a container it creates and cannot start is removed again; what it attached is reported even when it fails |
| DockerSpawn.DockerRuntime.EnsureNetwork | BE/internal/machine/docker.go:1223-1239 | reports a network it created, refuses an incompatible one |
| DockerSpawn.DockerRuntime.EnsureVolume | BE/internal/machine/docker.go:1241-1258 | reports a volume it created, removes one that lost its quota, refuses an incompatible one |
| DockerPlans.PlannedStartServices | BE/internal/machine/docker.go:397-433 | each container is started once, through its first service, or through the IDE when that is a terminal; services without one are all kept |
| DockerPlans.StartedIn | BE/internal/machine/docker.go:397-433 | the services started in a container are all of it but agents, and of those the ones that were up when the machine was paused |
| DockerPlans.MergeEnvironment | BE/internal/machine/docker.go:1206-1221 | a process sees the override of every name the overrides define and the base's value of every other |
| GatewayGuard.GatewayAbuseGuard.AllowRouteLookup | BE/internal/machine/gateway_guard.go:44-60 | a lookup passes exactly when both windows have room, so always while fewer than 500 in all and 60 under its key were let through within a second; no half-open second has more than 1000 in all, or 120 under a key since its entry was made; the table stays within 4096 keys |
| GatewayGuard.WindowAllows | BE/internal/machine/gateway_guard.go:101-110 | the counter of a fixed window is the number of calls let through since it started, at most the limit, and no interval of its length has more than twice the limit |
| GatewayGuard.RefusedIsBusy | BE/internal/machine/gateway_guard.go:101-110 | a window refuses a call only when the whole limit was let through in the interval, as long as the window, that ends with it |
| GatewayGuard.AllowedOnceMore | BE/internal/machine/gateway_guard.go:101-110 | why: an interval meets at most the current window and the one before |
| GatewayGuard.GatewayAbuseGuard.NegativeRoute | BE/internal/machine/gateway_guard.go:62-71 | true only for a key remembered less than 30 seconds before, and exactly then while nothing was evicted |
| GatewayGuard.GatewayAbuseGuard.RememberNegativeRoute | BE/internal/machine/gateway_guard.go:73-83 | remembers the key for 30 seconds and evicts only at 8192 keys |
| GatewayGuard.GatewayAbuseGuard.AllowUnknownAudit | BE/internal/machine/gateway_guard.go:85-99 | of all audits let through so far, any two under one key are at least five minutes apart unless the key was evicted in between, and no half-open minute has more than 20; no key is held back for more than five minutes, and one that is not is refused only when ten audits were let through within a minute |
| GatewayGuard.AuditKeepsSpacing | BE/internal/machine/gateway_guard.go:85-99 | an audit that the entry of its key does not forbid comes five minutes after the last one under the key |
| GatewayGuard.StaysBounded | BE/internal/machine/gateway_guard.go:112-142 | with the overflow key and eviction of one entry a table never exceeds its limit, and the entry looked up is never the one evicted |
| RateLimiter.TokensWithinIff | BE/internal/middleware/ratelimit.go:52-74 | after every history of a key its tokens are between zero and the burst exactly when the burst is at least one |
| RateLimiter.IntervalBoundIff | BE/internal/middleware/ratelimit.go:52-74 | no interval admits more than burst + rate * length requests of a key, exactly when the burst is at least one |
| RateLimiter.RefusedIff | BE/internal/middleware/ratelimit.go:52-74 | a request is refused exactly when, since some earlier time, one more request would have been let through than burst + rate * elapsed: nobody is refused a token that flowed in |
| RateLimiter.PatiencePasses | BE/internal/middleware/ratelimit.go:52-74 | a key that asks no faster than the rate is never refused, whatever the clean-up does |
| RateLimiter.WaitingHelpsIff | BE/internal/middleware/ratelimit.go:88-98 | a client that waits as long as Retry-After says is not refused again, exactly when the rate is positive |
| RateLimiter.CleanupInvisibleIff | BE/internal/middleware/ratelimit.go:39-50 | the clean-up changes no decision and no later bucket exactly when the burst is at least one and rate * 180 s is at least the burst |
| RateLimiter.BoundUnderCleanupIff | BE/internal/middleware/ratelimit.go:39-74 | the interval bound survives the clean-up under exactly the same condition |
| RateLimiter.RefusedUnderCleanupIff | BE/internal/middleware/ratelimit.go:39-74 | and so does the exact condition of a refusal |
| RateLimiter.CallsBound | BE/internal/middleware/ratelimit.go:39-74 | under that condition the interval bound holds for every key of all calls, the clean-up included |
| RateLimiter.Limiter.Allow | BE/internal/middleware/ratelimit.go:52-74 | decides and updates the key's bucket as all calls before make of it, and refuses exactly under that condition |
| RateLimiter.Limiter.CleanUp | BE/internal/middleware/ratelimit.go:43-47 | forgets exactly the idle buckets |
| Burndown.SortEvents | BE/internal/repository/cycle.go:235-244 | the in-place insertion sort leaves a sorted permutation in which events of one instant keep their order |
| Burndown.ReplayIsLast | BE/internal/repository/cycle.go:261-276 | replaying events leaves each issue with its last status and its last move in or out of the cycle |
| Burndown.LatestOfSameHistory | BE/internal/repository/cycle.go:235-244 | the latest event of an issue does not depend on how the history was rearranged |
| Burndown.ReplayedState | BE/internal/repository/cycle.go:246-325 | sorting, replay before the start, correction and day walk together give every issue its latest events of the unsorted history |
| Burndown.BurndownData | BE/internal/repository/cycle.go:159-350 | one point for each day up to the last, each the counts of all issues as of the next midnight by a plain look at the history |
| Burndown.TallyOrdered | BE/internal/repository/cycle.go:327-347 | completed <= started <= scope <= number of issues |
| Burndown.StatusCounts | BE/internal/repository/cycle.go:144-155 | completed is done, started is in progress, in review or done, with blanks around and capitals and spaces for underscores allowed, and no other status counts |
| Burndown.BacklogCountsNowhere | BE/internal/repository/cycle.go:246-258 | an issue of which nothing is known yet counts nowhere |
| Burndown.DaysShown | BE/internal/repository/cycle.go:201-308 | a day has a point exactly when it is neither after the end of the cycle nor in the future |
| Burndown.CutOffsAgree | BE/internal/repository/cycle.go:201-210 | the two ways of cutting off the days agree for a start at midnight |
| Burndown.CorrectInitial | BE/internal/repository/cycle.go:278-295 | exactly the current issues without a move start inside the cycle with their current status |
| IssueForest.IssueRepository.WouldCreateCycle | BE/internal/repository/issue.go:444-463 | true exactly when setting the parent would create a cycle |
| IssueForest.Descendants | BE/internal/repository/issue.go:450-461 | on an acyclic map the recursive query terminates with exactly the issues below the root |
| IssueForest.CyclesNeverEnd | BE/internal/repository/issue.go:450-461 | below an issue on a cycle no round of the query is empty |
| IssueForest.ClosesCycleIff | BE/internal/repository/issue.go:444-463 | a new parent closes a cycle exactly when the issue is above it |
| IssueForest.IssueRepository.TriggerRejects | BE/migrations/000024_subissues_enhancement.up.sql:11-45 | the trigger's walk up the ancestors rejects exactly the same writes |
| IssueForest.IssueRepository.UpdateParent | BE/internal/service/issue.go:930-958 | succeeds exactly for an existing parent that closes no cycle, and keeps the links an acyclic forest |
| IssueForest.IssueRepository.BulkUpdateParent | BE/internal/service/issue.go:989-1043 | all checks before all writes are enough: the links stay acyclic |
| IssueForest.ManyLinks | BE/internal/service/issue.go:1000-1034 | links that were each checked on the map before them all close no cycle together |
| IssueForest.IssueRepository.Delete | BE/internal/repository/issue.go:339-342 | the children of a deleted issue become roots |
| Burnup.BucketsPartition | BE/internal/repository/analytics.go:1061-1070 | each bucket of days, weeks or months ends where the next starts, from the first day to the end of the last |
| Burnup.RowsConserve | BE/internal/repository/analytics.go:1071-1118 | a row's totals are those of the row before plus what the row counts |
| Burnup.TotalCompletedIsCount | BE/internal/repository/analytics.go:1100-1116 | for a log that chains, total_completed is the number of issues whose last event left them completed |
| Burnup.TotalCreatedIsCount | BE/internal/repository/analytics.go:1079-1083 | with a created event for each issue, total_created is at least the number of known issues, and equal with exactly one |
| Burnup.ScopeIsOpenIssues | BE/internal/repository/analytics.go:1144-1149 | with created events the difference of the totals is never negative, and with exactly one for each issue it is the number of issues that exist and are not completed |
| Burnup.ClampActsIff | BE/internal/repository/analytics.go:1146-1149 | the clamp hides a negative difference exactly when more issues are completed without a created event than issues with one are open and created events repeated |
| Burnup.ClampHidesMissingCreation | BE/internal/repository/analytics.go:1146-1149 | a completed issue without a created event is such a case |
| Burnup.ValidateRange | BE/internal/repository/analytics.go:330-353 | a range passes exactly when it is not reversed and has at most 366 buckets |
| Burnup.Points | BE/internal/repository/analytics.go:1144-1158 | the scope of each point is the number of issues that exist at the end of its bucket and are not completed then |
| Burnup.IssueLog.ChangeStatus | BE/migrations/000032_issue_lifecycle.up.sql:149-171 | a status change logged by the trigger chains to the issue's category, so the log always chains |
| Burnup.IssueLog.Insert | BE/migrations/000032_issue_lifecycle.up.sql:142-147 | an insert logs the one created event |

## Left out

- Concurrency inside the database: READ COMMITTED snapshots and advisory locks. Each transaction is one atomic step on a shared state with a nondecreasing clock. Which rows an ORDER BY leaves tied in front, and which machines SKIP LOCKED skips, may be anything.
- Leases.LeaseExclusion: assumes renewals before expiry, because the statement does not test it; RenewalKeepsExclusionIff covers the others.
- Repository.DevMachineRepository.CreateBundle: project, issue and machine-name checks and the rows of providers, services, volumes, variables and tokens, which are inserted with the machine.
- Repository.DevMachineRepository.CreateAccessTicket: the joined service and workspace-member rows are a parameter, `Access`.
- Repository.DevMachineRepository.RevokeMachineAccess: access sessions, which are not modelled.
- Repository.DevMachineRepository.BulkPurgeMachines: the age of a row is a parameter, the set `aged`.
- Repository.DevMachineRepository.ReconcileOrphanedEnvironments: the rows its query selects are a parameter; the environments' update times are not modelled.
- A client's idempotency key that imitates one of the program's own; client keys are a constructor of their own.
- Keys of callers other than the service, the gateway and the manager. The service is taken to pair action and desired status, to queue at the generation it read (plus one for lifecycle requests) and to create runs as queued.
- EnqueueInternalOperation, which nothing calls, and the columns that no guard reads: error messages, start and stop times, labels, sizes.
- That a destroyed machine stays destroyed, and a quota that holds over status writes: stale teardowns, the unguarded expiry write and the reconciler's recovery make both false.
- The reconciler as a whole; its deletion round is Deletion.SweepProgresses, its recovery of a machine Recovery, and its other transactions appear as steps of other clients.
- Manager.AgentRunsAtMostOnce: the checks between loading a run and starting it, and secrets, tokens and pull requests after it, are choices the model leaves open.
- SpawnTasks.BuiltOutcome: the tear-down it speaks of was asked for, not confirmed.
- DockerSpawn.DockerRuntime.EnsureVolume: the quota label beside the size.
- DockerSpawn.DockerRuntime.Spawn: the shared egress network, the throw-away volume initializer, the running state of containers that existed before, and failures of the clean-up calls. A failed call has no effect. The gateway's name is resolved once.
- Container configuration, secrets, images, Git and GitHub.
- GatewayGuard.GatewayAbuseGuard.AllowRouteLookup: a bound for each source over any interval, which eviction makes false; the bounds proved are for all sources and for a key between its evictions.
- RateLimiter.Limiter.Allow: floating-point rounding, and the two clock readings of one call.
- Burndown.BurndownData: Unicode in status names, whose trimming and case folding are those of ASCII; the queries that fetch its rows.
- Burnup.RowsConserve: the filter that scopes issues is a set; sessions' time zones; dates before year 0.
- Burnup.TotalCompletedIsCount: logs that do not chain, which an edited status category or the replay of older history can leave behind.
- IssueForest.IssueRepository.UpdateParent: workspaces, and two writers between check and write.
- IssueForest.IssueRepository.TriggerRejects: the trigger's test that parent and child share a workspace.
- HTTP handlers, configuration, proxying, the websocket hub, the collector and egress programs and the user interface: plumbing or easy validators.
- Encryption, hashing, redaction and parsing of agent output.
