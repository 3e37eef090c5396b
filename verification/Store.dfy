/** What each transaction of BE/internal/repository/dev_machine.go does, as a function
    from the database before it to the database after it. Rows the SQL may choose
    freely (ties of an ORDER BY, rows another session has locked) are arguments. */
module Store {
  import opened Wrappers
  import opened Domain

  datatype Error =
    | NoRows | UniqueViolation | ForeignKeyViolation
    | IdempotencyKeyConflict | CheckoutMachineConflict | ActiveAgentRun | MachineStateConflict | MachineQuota
    | EnvironmentInUse | EnvironmentUnavailable | EnvironmentInvalidState | EnvironmentDeletionConflict
    | DailyRunLimit | LeaseLost | WorkspaceHasRuntimes

  /** The value of a transaction that answers nothing. */
  datatype Unit = Unit

  /** A transaction commits a new database or is rolled back. */
  datatype Tx<+T> = Committed(db: Db, value: T) | RolledBack(error: Error)

  function After<T>(db: Db, tx: Tx<T>): Db {
    if tx.Committed? then tx.db else db
  }

  // ---- rows and lookups ----

  predicate MachineRow(db: Db, workspace: Id, id: Id) {
    id in db.machines && db.machines[id].workspace == workspace
  }

  predicate EnvironmentReady(db: Db, workspace: Id, id: Id) {
    id in db.environments && db.environments[id].workspace == workspace && db.environments[id].status.Ready?
  }

  predicate HasActiveRun(runs: map<Id, AgentRun>, machine: Id) {
    exists r :: r in runs && runs[r].machine == machine && runs[r].status.Active()
  }

  predicate HasOpenOperation(ops: map<Id, Operation>, machine: Id, actions: set<Action>) {
    exists o :: o in ops && ops[o].job.machine == machine && ops[o].status.Open() && ops[o].job.action in actions
  }

  const AllActions: set<Action> :=
    {Spawn, Start, Stop, Pause, Teardown, Reconcile, RunAgent, CancelAgent, CheckoutIssue, SnapshotEnvironment, TerminateTerminal}

  function WithKey(ops: map<Id, Operation>, machine: Id, key: Key): set<Id> {
    set o | o in ops && ops[o].job.machine == machine && ops[o].job.key == key
  }

  ghost function FindByKey(ops: map<Id, Operation>, machine: Id, key: Key): (found: Option<Id>)
    ensures found.Some? ==> found.value in ops && ops[found.value].job.machine == machine && ops[found.value].job.key == key
    ensures found.None? ==> forall o :: o in ops ==> ops[o].job.machine != machine || ops[o].job.key != key
  {
    var hits := WithKey(ops, machine, key);
    if hits == {} then assert forall o :: o in ops && ops[o].job.machine == machine && ops[o].job.key == key ==> o in hits; None
    else var o :| o in hits; Some(o)
  }

  function CountedInWorkspace(machines: map<Id, Machine>, workspace: Id): set<Id> {
    set m | m in machines && machines[m].workspace == workspace && Counted(machines[m])
  }

  /** `created_by_user_id = NULL` selects nothing. */
  function CountedForCreator(machines: map<Id, Machine>, workspace: Id, creator: Option<Id>): set<Id> {
    set m | m in machines && machines[m].workspace == workspace && creator.Some? && machines[m].creator == creator && Counted(machines[m])
  }

  predicate QuotaReached(machines: map<Id, Machine>, policy: Policy, workspace: Id, creator: Option<Id>) {
    |CountedInWorkspace(machines, workspace)| >= policy.maxWorkspace ||
    |CountedForCreator(machines, workspace, creator)| >= policy.maxUser
  }

  predicate PolicyEnabled(db: Db, workspace: Id) {
    workspace in db.policies && db.policies[workspace].enabled
  }

  // ---- queueing ----

  function NewOperation(now: Time, job: Job): Operation {
    Operation(job.(maxAttempts := if job.maxAttempts == 0 then 5 else job.maxAttempts), now, OpStatus.Pending, None, None, 0, now, None, None)
  }

  /** Every table but the operations is left alone. */
  predicate OnlyOperations(a: Db, b: Db) {
    b == a.(issued := b.issued, operations := b.operations)
  }

  /** enqueueOperation: a repeated (machine, key) returns the existing row untouched. */
  ghost function Enqueue(db: Db, id: Id, q: Job): (tx: Tx<Id>)
    ensures tx.Committed? ==> OnlyOperations(db, tx.db)
  {
    var existing := FindByKey(db.operations, q.machine, q.key);
    if existing.Some? then Committed(db, existing.value)
    else if id in db.issued then RolledBack(UniqueViolation)
    else if !MachineRow(db, q.workspace, q.machine) then RolledBack(ForeignKeyViolation)
    else Committed(db.(issued := db.issued + {id}, operations := db.operations[id := NewOperation(db.now, q)]), id)
  }

  ghost function CreateBundle(db: Db, id: Id, m: Machine, op: Id, q: Job): (tx: Tx<Id>)
    ensures tx.Committed? ==> tx.db == db.(issued := tx.db.issued, machines := tx.db.machines, operations := tx.db.operations)
  {
    if m.environment.Some? && !EnvironmentReady(db, m.workspace, m.environment.value) then RolledBack(EnvironmentUnavailable)
    else if !PolicyEnabled(db, m.workspace) then RolledBack(NoRows)
    else if QuotaReached(db.machines, db.policies[m.workspace], m.workspace, m.creator) then RolledBack(MachineQuota)
    else if id in db.issued then RolledBack(UniqueViolation)
    else Enqueue(db.(issued := db.issued + {id}, machines := db.machines[id := m]), op, q)
  }

  ghost function SetDesiredAndEnqueue(db: Db, desired: MachineStatus, op: Id, q: Job): (tx: Tx<Id>)
    ensures tx.Committed? ==> tx.db == db.(issued := tx.db.issued, machines := tx.db.machines, operations := tx.db.operations)
  {
    var existing := FindByKey(db.operations, q.machine, q.key);
    if existing.Some? && db.operations[existing.value].job.workspace == q.workspace then
      if db.operations[existing.value].job.action != q.action || db.operations[existing.value].job.requestedBy != q.requestedBy
      then RolledBack(IdempotencyKeyConflict) else Committed(db, existing.value)
    else if !MachineRow(db, q.workspace, q.machine) then RolledBack(NoRows)
    else
      var m := db.machines[q.machine];
      if m.generation >= q.generation then RolledBack(MachineStateConflict)
      else if HasOpenOperation(db.operations, q.machine, {SnapshotEnvironment}) then RolledBack(MachineStateConflict)
      else if q.action in {Pause, Stop, Teardown} && HasActiveRun(db.runs, q.machine) then RolledBack(ActiveAgentRun)
      else if desired.Running? && m.environment.Some? && !EnvironmentReady(db, q.workspace, m.environment.value)
      then RolledBack(EnvironmentUnavailable)
      else if desired.Running? && m.status in {MachineStatus.Stopped, MachineStatus.Failed} && !PolicyEnabled(db, q.workspace)
      then RolledBack(NoRows)
      else if desired.Running? && m.status in {MachineStatus.Stopped, MachineStatus.Failed} &&
              QuotaReached(db.machines, db.policies[q.workspace], q.workspace, m.creator)
      then RolledBack(MachineQuota)
      else Enqueue(db.(machines := db.machines[q.machine := m.(desired := desired, generation := q.generation)]), op, q)
  }

  // ---- leases ----

  /** The WHERE clause of LeaseOperations. */
  predicate Leasable(db: Db, id: Id) {
    id in db.operations &&
    var o := db.operations[id];
    && ((o.status.Pending? && o.availableAt <= db.now) ||
        (o.status.Leased? && o.leaseExpires.Some? && o.leaseExpires.value < db.now))
    && (Priority(o.job.action) ||
        !exists other :: other in db.operations && other != id &&
                         db.operations[other].job.machine == o.job.machine && LiveLease(db.operations[other], db.now))
  }

  /** The ORDER BY of LeaseOperations: cleanup first, newest generation, oldest row. */
  predicate Before(a: Operation, b: Operation) {
    if Priority(a.job.action) != Priority(b.job.action) then Priority(a.job.action)
    else if a.job.generation != b.job.generation then a.job.generation > b.job.generation
    else a.createdAt < b.createdAt
  }

  /** The sets of rows the statement may lease: the first row of each machine, the first
      machines up to the limit, ties broken any way. Machines that another session has
      locked, or whose first row it has, are skipped. */
  ghost predicate LeaseChoice(db: Db, limit: nat, locked: set<Id>, chosen: set<Id>) {
    && |chosen| <= limit
    && (forall c :: c in chosen ==> LeasableNow(db, locked, c))
    && OneOfEach(db, chosen)
    && (forall c, o :: c in chosen && Leasable(db, o) && db.operations[o].job.machine == db.operations[c].job.machine ==>
          !Before(db.operations[o], db.operations[c]))
    && (forall o :: LeasableNow(db, locked, o) && LeftOut(db, chosen, o) ==>
          |chosen| == limit && forall c :: c in chosen ==> !Before(db.operations[o], db.operations[c]))
  }

  predicate LeasableNow(db: Db, locked: set<Id>, id: Id) {
    Leasable(db, id) && db.operations[id].job.machine !in locked
  }

  ghost predicate OneOfEach(db: Db, chosen: set<Id>) {
    forall c, d :: c in chosen && d in chosen && c in db.operations && d in db.operations && db.operations[c].job.machine == db.operations[d].job.machine ==> c == d
  }

  /** No chosen row belongs to the machine of this row. */
  predicate LeftOut(db: Db, chosen: set<Id>, o: Id) {
    o in db.operations && forall c :: c in chosen && c in db.operations ==> db.operations[c].job.machine != db.operations[o].job.machine
  }

  /** NOW() + make_interval(secs => seconds). */
  function Later(now: Time, seconds: nat): (later: Time)
    ensures later >= now
  {
    now + seconds * SECOND
  }

  function LeasedRow(o: Operation, now: Time, owner: string, seconds: nat): Operation {
    o.(status := OpStatus.Leased, owner := Some(owner), leaseExpires := Some(Later(now, seconds)), attempts := o.attempts + 1)
  }

  ghost function LeaseOperations(db: Db, owner: string, seconds: nat, chosen: set<Id>): Db {
    db.(operations := map o | o in db.operations ::
          if o in chosen then LeasedRow(db.operations[o], db.now, owner, seconds) else db.operations[o])
  }

  predicate HoldsLease(db: Db, id: Id, owner: string) {
    id in db.operations && db.operations[id].status.Leased? && db.operations[id].owner == Some(owner)
  }

  ghost function RenewOperationLease(db: Db, id: Id, owner: string, seconds: nat): Tx<Unit> {
    if !HoldsLease(db, id, owner) then RolledBack(LeaseLost)
    else Committed(db.(operations := db.operations[id := db.operations[id].(leaseExpires := Some(Later(db.now, seconds)))]), Unit)
  }

  ghost function CompleteOperation(db: Db, id: Id, owner: string): Tx<Unit> {
    if !HoldsLease(db, id, owner) then RolledBack(LeaseLost)
    else Committed(db.(operations := db.operations[id := db.operations[id].(
                         status := OpStatus.Completed, completedAt := Some(db.now), owner := None, leaseExpires := None)]), Unit)
  }

  /** Seconds before a failed attempt may be leased again. */
  function Backoff(attempts: nat): nat {
    if attempts * attempts * 5 < 300 then attempts * attempts * 5 else 300
  }

  function FailedRow(o: Operation, now: Time, code: string, retryable: bool): Operation {
    var retry := retryable && o.attempts < o.job.maxAttempts;
    o.(status := if retry then OpStatus.Pending else OpStatus.Failed, errorCode := Some(code), owner := None, leaseExpires := None,
       availableAt := Later(now, Backoff(o.attempts)), completedAt := if retry then None else Some(now))
  }

  /** Answers whether the operation will be retried. */
  ghost function FailOperation(db: Db, id: Id, owner: string, code: string, retryable: bool): Tx<bool> {
    if !(id in db.operations && db.operations[id].owner == Some(owner)) then RolledBack(NoRows)
    else
      var row := FailedRow(db.operations[id], db.now, code, retryable);
      Committed(db.(operations := db.operations[id := row]), row.status.Pending?)
  }

  // ---- machine status ----

  function Coalesce<T>(a: Option<T>, b: Option<T>): Option<T> { if a.Some? then a else b }

  ghost function SetMachineState(db: Db, id: Id, status: MachineStatus, network: Option<string>, volume: Option<string>): Db {
    if id !in db.machines then db
    else
      var m := db.machines[id];
      db.(machines := db.machines[id := m.(status := status, network := Coalesce(network, m.network), volume := Coalesce(volume, m.volume))])
  }

  /** The fenced write: without allowStale it needs the machine still at the operation's generation. */
  predicate StatusWriteApplies(db: Db, id: Id, generation: int, allowStale: bool) {
    id in db.machines && (allowStale || db.machines[id].generation == generation)
  }

  ghost function SetMachineStateForOperation(
    db: Db, id: Id, generation: int, allowStale: bool, status: MachineStatus, network: Option<string>, volume: Option<string>): Db
  {
    if StatusWriteApplies(db, id, generation, allowStale) then SetMachineState(db, id, status, network, volume) else db
  }

  // ---- agent runs ----

  function RunsToday(runs: map<Id, AgentRun>, workspace: Id, midnight: Time): set<Id> {
    set r | r in runs && runs[r].workspace == workspace && runs[r].createdAt >= midnight
  }

  ghost function CreateAgentRun(db: Db, id: Id, machine: Id, workspace: Id, checkout: Option<Id>, op: Id, q: Job): (tx: Tx<Id>)
    ensures tx.Committed? ==> tx.db == db.(issued := tx.db.issued, runs := tx.db.runs, operations := tx.db.operations)
  {
    if !MachineRow(db, workspace, machine) then RolledBack(MachineStateConflict)
    else
      var m := db.machines[machine];
      if !m.status.Running? || !m.desired.Running? || m.generation != q.generation then RolledBack(MachineStateConflict)
      else if !PolicyEnabled(db, workspace) then RolledBack(NoRows)
      else if |RunsToday(db.runs, workspace, Midnight(db.now))| >= db.policies[workspace].maxDailyRuns then RolledBack(DailyRunLimit)
      else if HasActiveRun(db.runs, machine) then RolledBack(ActiveAgentRun)
      else if id in db.issued then RolledBack(UniqueViolation)
      else Enqueue(db.(issued := db.issued + {id},
                       runs := db.runs[id := AgentRun(machine, workspace, checkout, RunStatus.Queued, db.now, None, None)]),
                   op, q.(run := Some(id)))
  }

  /** Some(operation) when the run was active and is now cancelled, None when it had already finished. */
  ghost function CancelAgentRun(db: Db, workspace: Id, id: Id, op: Id, q: Job): (tx: Tx<Option<Id>>)
    ensures tx.Committed? ==> tx.db == db.(issued := tx.db.issued, runs := tx.db.runs, operations := tx.db.operations)
  {
    if !(id in db.runs && db.runs[id].workspace == workspace) then RolledBack(NoRows)
    else if !db.runs[id].status.Active() then Committed(db, None)
    else
      var cancelled := db.runs[id].(status := RunStatus.Cancelled, completedAt := Some(db.now));
      match Enqueue(db.(runs := db.runs[id := cancelled]), op, q.(run := Some(id)))
      case RolledBack(e) => RolledBack(e)
      case Committed(after, operation) => Committed(after, Some(operation))
  }

  ghost function UpdateAgentRunStarted(db: Db, id: Id): Tx<Unit> {
    if !(id in db.runs && db.runs[id].status.Startable()) then RolledBack(NoRows)
    else Committed(db.(runs := db.runs[id := db.runs[id].(status := RunStatus.Running,
                                                          startedAt := Coalesce(db.runs[id].startedAt, Some(db.now)))]), Unit)
  }

  ghost function CompleteAgentRun(db: Db, id: Id, status: RunStatus): Db {
    if id in db.runs && (db.runs[id].status.Active() || db.runs[id].status == status)
    then db.(runs := db.runs[id := db.runs[id].(status := status, completedAt := Some(db.now))]) else db
  }

  // ---- permanent deletion ----

  predicate OpenTeardown(db: Db, workspace: Id, machine: Id, o: Id) {
    o in db.operations && db.operations[o].job.workspace == workspace && db.operations[o].job.machine == machine &&
    db.operations[o].job.action == Teardown && db.operations[o].status.Open()
  }

  /** `active` is a row the query for an open teardown may return: newest generation, oldest first. */
  ghost predicate ActiveTeardown(db: Db, workspace: Id, machine: Id, active: Option<Id>) {
    if active.None? then forall o :: !OpenTeardown(db, workspace, machine, o)
    else OpenTeardown(db, workspace, machine, active.value) &&
         forall o :: OpenTeardown(db, workspace, machine, o) ==>
           db.operations[o].job.generation <= db.operations[active.value].job.generation
  }

  /** The machine row the query locks: NULL asks for no particular creator. */
  predicate Deletable(db: Db, workspace: Id, machine: Id, requester: Option<Id>) {
    MachineRow(db, workspace, machine) && (requester.None? || db.machines[machine].creator == requester)
  }

  function DeleteRequest(m: Machine, machine: Id, requester: Option<Id>): Job {
    Job(machine, m.workspace, Teardown, m.generation + 1, PermanentDeleteKey(m.generation + 1), requester, None, None, None, None, 10)
  }

  function Max(a: int, b: int): int { if a > b then a else b }

  function MarkDeleted(m: Machine, now: Time): (marked: Machine)
    ensures marked.deleteRequested.Some? && marked == m.(deleteRequested := marked.deleteRequested)
  {
    m.(deleteRequested := Coalesce(m.deleteRequested, Some(now)))
  }

  function TornDown(m: Machine, now: Time, generation: int): (torn: Machine)
    ensures torn.deleteRequested.Some? && torn.desired.Destroyed?
  {
    MarkDeleted(m, now).(desired := MachineStatus.Destroyed, generation := generation)
  }

  function WriteMachine(db: Db, id: Id, m: Machine): Db {
    db.(machines := db.machines[id := m])
  }

  function Queued(tx: Tx<Id>): Tx<Option<Id>> {
    match tx
    case RolledBack(e) => RolledBack(e)
    case Committed(after, operation) => Committed(after, Some(operation))
  }

  /** The branch that queues a teardown of its own. */
  ghost function QueueDeletion(db: Db, machine: Id, requester: Option<Id>, minted: Id): (tx: Tx<Option<Id>>)
    requires machine in db.machines
  {
    var m := db.machines[machine];
    var q := DeleteRequest(m, machine, requester);
    var existing := FindByKey(db.operations, machine, q.key);
    if existing.Some? then
      if db.operations[existing.value].job.action != q.action || db.operations[existing.value].job.requestedBy != requester
      then RolledBack(IdempotencyKeyConflict) else Committed(WriteMachine(db, machine, MarkDeleted(m, db.now)), existing)
    else Queued(Enqueue(WriteMachine(db, machine, TornDown(m, db.now, q.generation)), minted, q))
  }

  /** Only the machine's row and the operations are written. */
  ghost predicate WritesOne<T>(db: Db, tx: Tx<T>, machine: Id) {
    tx.Committed? ==>
      && tx.db == db.(issued := tx.db.issued, machines := tx.db.machines, operations := tx.db.operations)
      && machine in tx.db.machines && tx.db.machines == db.machines[machine := tx.db.machines[machine]]
  }

  lemma WrittenOne<T>(db: Db, machine: Id, m: Machine, value: T)
    ensures WritesOne(db, Committed(WriteMachine(db, machine, m), value), machine)
  {}

  lemma EnqueuedOne(db: Db, machine: Id, m: Machine, minted: Id, q: Job)
    ensures WritesOne(db, Queued(Enqueue(WriteMachine(db, machine, m), minted, q)), machine)
  {
    hide Enqueue;
  }

  lemma QueueDeletionWrites(db: Db, machine: Id, requester: Option<Id>, minted: Id)
    requires machine in db.machines
    ensures WritesOne(db, QueueDeletion(db, machine, requester, minted), machine)
  {
    hide WritesOne, Enqueue, MarkDeleted, TornDown, FindByKey;
    var m := db.machines[machine];
    var q := DeleteRequest(m, machine, requester);
    EnqueuedOne(db, machine, TornDown(m, db.now, q.generation), minted, q);
    WrittenOne(db, machine, MarkDeleted(m, db.now), FindByKey(db.operations, machine, q.key));
    if QueueDeletion(db, machine, requester, minted).RolledBack? {
      RolledBackWrites(db, QueueDeletion(db, machine, requester, minted), machine);
    }
  }

  lemma RolledBackWrites<T>(db: Db, tx: Tx<T>, machine: Id)
    requires tx.RolledBack?
    ensures WritesOne(db, tx, machine)
  {}

  ghost function RequestPermanentDelete(
    db: Db, workspace: Id, machine: Id, requester: Option<Id>, active: Option<Id>, minted: Id): (tx: Tx<Option<Id>>)
    ensures tx.Committed? ==> tx.db == db.(issued := tx.db.issued, machines := tx.db.machines, operations := tx.db.operations)
    ensures tx.Committed? ==> machine in tx.db.machines && tx.db.machines == db.machines[machine := tx.db.machines[machine]]
  {
    if !Deletable(db, workspace, machine, requester) then RolledBack(NoRows)
    else
      var m := db.machines[machine];
      if active.Some? && active.value in db.operations then
        if m.desired.Destroyed? then Committed(WriteMachine(db, machine, MarkDeleted(m, db.now)), active)
        else Committed(WriteMachine(db, machine, TornDown(m, db.now, Max(m.generation, db.operations[active.value].job.generation))), active)
      else if SafelyPurgeable(m) && !HasOpenOperation(db.operations, machine, AllActions)
      then Committed(WriteMachine(db, machine, MarkDeleted(m, db.now)), None)
      else QueueDeletionWrites(db, machine, requester, minted); QueueDeletion(db, machine, requester, minted)
  }

  /** DELETE FROM dev_machines with the foreign keys' cascades. */
  function DropMachines(db: Db, gone: set<Id>): (after: Db)
    ensures after == db.(machines := after.machines, operations := after.operations, runs := after.runs, checkouts := after.checkouts,
                         sessions := after.sessions, tickets := after.tickets, environments := after.environments)
  {
    db.(machines := map m | m in db.machines && m !in gone :: db.machines[m],
        operations := map o | o in db.operations && db.operations[o].job.machine !in gone :: db.operations[o],
        runs := map r | r in db.runs && db.runs[r].machine !in gone :: db.runs[r],
        checkouts := map c | c in db.checkouts && db.checkouts[c].machine !in gone :: db.checkouts[c],
        sessions := map s | s in db.sessions && db.sessions[s].machine !in gone :: db.sessions[s],
        tickets := map t | t in db.tickets && db.tickets[t].machine !in gone :: db.tickets[t],
        environments := map e | e in db.environments ::
          if db.environments[e].source.Some? && db.environments[e].source.value in gone
          then db.environments[e].(source := None) else db.environments[e])
  }

  /** The status condition of both purge statements. */
  predicate PurgeStatus(m: Machine) {
    m.status.Destroyed? || (m.status in {MachineStatus.Expired, MachineStatus.Failed} && m.network.None? && m.volume.None?)
  }

  ghost function PurgePermanentDeleteRequest(db: Db, workspace: Id, machine: Id): Tx<Unit> {
    if MachineRow(db, workspace, machine) && PurgeStatus(db.machines[machine]) && !HasOpenOperation(db.operations, machine, AllActions)
    then Committed(DropMachines(db, {machine}), Unit) else RolledBack(NoRows)
  }

  /** `aged` are the rows old enough; `only` is the list of identifiers when one was given. */
  function BulkPurged(
    db: Db, workspace: Id, only: Option<set<Id>>, aged: set<Id>, failed: bool, expired: bool): set<Id>
  {
    set m | m in db.machines && db.machines[m].workspace == workspace && m in aged && (only.None? || m in only.value)
         && (db.machines[m].status.Destroyed? || (failed && db.machines[m].status.Failed?) || (expired && db.machines[m].status.Expired?))
         && (db.machines[m].status.Destroyed? || (db.machines[m].network.None? && db.machines[m].volume.None?))
         && !HasOpenOperation(db.operations, m, AllActions)
  }

  ghost function BulkPurgeMachines(
    db: Db, workspace: Id, only: Option<set<Id>>, aged: set<Id>, failed: bool, expired: bool): Db
  {
    DropMachines(db, BulkPurged(db, workspace, only, aged, failed, expired))
  }

  // ---- environments and settings ----

  const DeletionRequestedCode: string := "environment_deletion_requested"
  const SnapshotOrphanedCode: string := "environment_snapshot_orphaned"
  const PreparationOrphanedCode: string := "checkout_preparation_orphaned"

  ghost function UpsertScopeSetting(db: Db, scope: Scope, s: Setting): (tx: Tx<Unit>)
    ensures tx.Committed? ==> tx.db == db.(settings := tx.db.settings)
  {
    if s.environment.Some? && !EnvironmentReady(db, s.workspace, s.environment.value) then RolledBack(EnvironmentUnavailable)
    else if scope in db.settings && db.settings[scope].workspace != s.workspace then RolledBack(NoRows)
    else Committed(db.(settings := db.settings[scope := s]), Unit)
  }

  ghost function DeleteScopeSetting(db: Db, workspace: Id, scope: Scope): (after: Db)
    ensures after == db.(settings := after.settings)
  {
    if scope in db.settings && db.settings[scope].workspace == workspace then db.(settings := db.settings - {scope}) else db
  }

  /** Desired and actual status agree on paused or stopped. */
  predicate StableForSnapshot(m: Machine) {
    m.status == m.desired && m.status in {MachineStatus.Paused, MachineStatus.Stopped}
  }

  const LifecycleActions: set<Action> := {Spawn, Start, Stop, Pause, Teardown, Reconcile}

  ghost function CreateEnvironment(db: Db, id: Id, e: Environment, op: Id, q: Job): (tx: Tx<Id>)
    ensures tx.Committed? ==> tx.db == db.(issued := tx.db.issued, environments := tx.db.environments, operations := tx.db.operations)
  {
    if !(e.source == Some(q.machine) && q.workspace == e.workspace && q.action == SnapshotEnvironment && q.environment == Some(id))
    then RolledBack(MachineStateConflict)
    else if !MachineRow(db, e.workspace, q.machine) then RolledBack(MachineStateConflict)
    else if !db.machines[q.machine].builder || !StableForSnapshot(db.machines[q.machine]) || db.machines[q.machine].generation != q.generation
    then RolledBack(MachineStateConflict)
    else if HasOpenOperation(db.operations, q.machine, LifecycleActions) then RolledBack(MachineStateConflict)
    else if id in db.issued then RolledBack(UniqueViolation)
    else Enqueue(db.(issued := db.issued + {id}, environments := db.environments[id := e]), op, q)
  }

  predicate EnvironmentInUseBy(db: Db, id: Id) {
    || (exists s :: s in db.settings && db.settings[s].environment == Some(id))
    || (exists m :: m in db.machines && db.machines[m].environment == Some(id) &&
          (!db.machines[m].status.Destroyed? || db.machines[m].desired.Running? ||
           HasOpenOperation(db.operations, m, {Spawn, Start, Reconcile, SnapshotEnvironment})))
  }

  predicate SnapshotOf(o: Operation, environment: Id) {
    o.job.environment == Some(environment) && o.job.action == SnapshotEnvironment
  }

  predicate BuildActive(db: Db, id: Id) {
    exists o :: o in db.operations && SnapshotOf(db.operations[o], id) && db.operations[o].status.Leased? &&
                (db.operations[o].leaseExpires.None? || db.operations[o].leaseExpires.value >= db.now)
  }

  function CancelledRow(o: Operation, now: Time, code: string): Operation {
    o.(status := OpStatus.Cancelled, errorCode := Some(code), owner := None, leaseExpires := None, completedAt := Some(now))
  }

  /** Pending, or leased with the lease lapsed. */
  predicate Abandoned(o: Operation, now: Time) {
    o.status.Pending? || (o.status.Leased? && (o.leaseExpires.None? || o.leaseExpires.value < now))
  }

  function CancelSnapshots(db: Db, id: Id, code: string): map<Id, Operation> {
    map o | o in db.operations ::
      if SnapshotOf(db.operations[o], id) && Abandoned(db.operations[o], db.now)
      then CancelledRow(db.operations[o], db.now, code) else db.operations[o]
  }

  ghost function RequestEnvironmentDeletion(db: Db, workspace: Id, id: Id): (tx: Tx<Unit>)
    ensures tx.Committed? ==> tx.db == db.(environments := tx.db.environments, operations := tx.db.operations)
  {
    if !(id in db.environments && db.environments[id].workspace == workspace) then RolledBack(NoRows)
    else if db.environments[id].status.DeleteRequested? then Committed(db, Unit)
    else if EnvironmentInUseBy(db, id) then RolledBack(EnvironmentInUse)
    else if BuildActive(db, id) then RolledBack(EnvironmentDeletionConflict)
    else Committed(db.(operations := CancelSnapshots(db, id, DeletionRequestedCode),
                       environments := db.environments[id := db.environments[id].(
                         status := EnvironmentStatus.DeleteRequested,
                         deleteRequested := Coalesce(db.environments[id].deleteRequested, Some(db.now)))]), Unit)
  }

  /** Foreign keys: machines and settings forget the environment, its operations go. */
  ghost function DeleteEnvironment(db: Db, workspace: Id, id: Id): (tx: Tx<Unit>)
    ensures tx.Committed? ==>
              tx.db == db.(environments := tx.db.environments, machines := tx.db.machines, settings := tx.db.settings, operations := tx.db.operations)
  {
    if !(id in db.environments && db.environments[id].workspace == workspace && db.environments[id].status.DeleteRequested?)
    then RolledBack(NoRows)
    else Committed(db.(
           environments := db.environments - {id},
           machines := map m | m in db.machines ::
             if db.machines[m].environment == Some(id) then db.machines[m].(environment := None) else db.machines[m],
           settings := map s | s in db.settings ::
             if db.settings[s].environment == Some(id) then db.settings[s].(environment := None) else db.settings[s],
           operations := map o | o in db.operations && db.operations[o].job.environment != Some(id) :: db.operations[o]), Unit)
  }

  ghost function UpdateEnvironmentState(db: Db, id: Id, status: EnvironmentStatus, imageRef: string, digest: Option<string>): (tx: Tx<Unit>)
    ensures tx.Committed? ==> tx.db == db.(environments := tx.db.environments)
  {
    if !(id in db.environments && !db.environments[id].status.DeleteRequested?) then RolledBack(EnvironmentDeletionConflict)
    else
      var e := db.environments[id];
      Committed(db.(environments := db.environments[id := e.(
                      status := status, imageRef := if imageRef == "" then e.imageRef else imageRef, digest := Coalesce(digest, e.digest))]), Unit)
  }

  /** A snapshot operation that keeps its environment's build alive. */
  predicate ViableSnapshot(db: Db, o: Operation) {
    LiveLease(o, db.now) ||
    (o.status.Pending? && o.job.machine in db.machines && o.job.generation == db.machines[o.job.machine].generation &&
     StableForSnapshot(db.machines[o.job.machine]))
  }

  predicate OrphanedEnvironment(db: Db, id: Id) {
    id in db.environments && db.environments[id].status in {EnvironmentStatus.Pending, EnvironmentStatus.Building} &&
    !exists o :: o in db.operations && SnapshotOf(db.operations[o], id) && ViableSnapshot(db, db.operations[o])
  }

  ghost function ReconcileEnvironment(db: Db, id: Id): (after: Db)
    ensures after == db.(operations := after.operations, environments := after.environments) && after.operations.Keys == db.operations.Keys
  {
    if !OrphanedEnvironment(db, id) then db
    else db.(operations := CancelSnapshots(db, id, SnapshotOrphanedCode),
             environments := db.environments[id := db.environments[id].(status := EnvironmentStatus.Failed)])
  }

  /** The rows are visited one after the other; `ids` are the ones the query locked. */
  ghost function ReconcileOrphanedEnvironments(db: Db, ids: seq<Id>): (after: Db)
    ensures after == db.(operations := after.operations, environments := after.environments)
  {
    if ids == [] then db
    else ReconcileEnvironment(ReconcileOrphanedEnvironments(db, ids[..|ids| - 1]), ids[|ids| - 1])
  }

  // ---- checkouts ----

  predicate CheckoutOf(c: Checkout, machine: Id, issue: Id) {
    c.machine == machine && c.issue == issue
  }

  ghost function CheckoutFor(db: Db, machine: Id, issue: Id): (found: Option<Id>)
    ensures found.Some? ==> found.value in db.checkouts && CheckoutOf(db.checkouts[found.value], machine, issue)
    ensures found.None? ==> forall c :: c in db.checkouts ==> !CheckoutOf(db.checkouts[c], machine, issue)
  {
    if exists c :: c in db.checkouts && CheckoutOf(db.checkouts[c], machine, issue)
    then var c :| c in db.checkouts && CheckoutOf(db.checkouts[c], machine, issue); Some(c)
    else None
  }

  /** The machine runs, and on no other repository. */
  predicate Claimable(db: Db, c: Checkout) {
    MachineRow(db, c.workspace, c.machine) &&
    (db.machines[c.machine].affinity.None? || db.machines[c.machine].affinity == Some(c.repository)) &&
    db.machines[c.machine].status.Running? && db.machines[c.machine].desired.Running?
  }

  function Claimed(db: Db, c: Checkout): (after: Db)
    requires Claimable(db, c)
    ensures after == db.(machines := after.machines)
  {
    db.(machines := db.machines[c.machine := db.machines[c.machine].(affinity := Some(c.repository))])
  }

  ghost function CreateCheckout(db: Db, id: Id, c: Checkout, op: Id, q: Job): (tx: Tx<Id>)
    ensures tx.Committed? ==> tx.db == db.(issued := tx.db.issued, machines := tx.db.machines, checkouts := tx.db.checkouts, operations := tx.db.operations)
    ensures tx.Committed? ==> Claimable(db, c) && tx.db.machines == Claimed(db, c).machines
  {
    if !Claimable(db, c) then RolledBack(CheckoutMachineConflict)
    else
      var claimed := Claimed(db, c);
      var existing := CheckoutFor(db, c.machine, c.issue);
      if existing.Some? then
        Enqueue(claimed.(checkouts := db.checkouts[existing.value := db.checkouts[existing.value].(status := c.status)]),
                op, q.(checkout := existing))
      else if id in db.issued then RolledBack(UniqueViolation)
      else Enqueue(claimed.(issued := db.issued + {id}, checkouts := db.checkouts[id := c]), op, q.(checkout := Some(id)))
  }

  ghost function UpdateCheckoutState(db: Db, id: Id, status: CheckoutStatus): (after: Db)
    ensures after == db.(checkouts := after.checkouts)
  {
    if id !in db.checkouts then db else db.(checkouts := db.checkouts[id := db.checkouts[id].(status := status)])
  }

  predicate PreparationOf(o: Operation, checkout: Id) {
    o.job.checkout == Some(checkout) && o.job.action == CheckoutIssue
  }

  predicate ViablePreparation(db: Db, o: Operation) {
    LiveLease(o, db.now) ||
    (o.status.Pending? && o.job.machine in db.machines && o.job.generation == db.machines[o.job.machine].generation &&
     db.machines[o.job.machine].status.Running? && db.machines[o.job.machine].desired.Running?)
  }

  predicate OrphanedCheckout(db: Db, id: Id) {
    id in db.checkouts && db.checkouts[id].status in {CheckoutStatus.Queued, CheckoutStatus.Preparing} &&
    !exists o :: o in db.operations && PreparationOf(db.operations[o], id) && ViablePreparation(db, db.operations[o])
  }

  ghost function ReconcileCheckout(db: Db, id: Id): (after: Db)
    ensures after == db.(operations := after.operations, checkouts := after.checkouts) && after.operations.Keys == db.operations.Keys
  {
    if !OrphanedCheckout(db, id) then db
    else db.(operations := map o | o in db.operations ::
               if PreparationOf(db.operations[o], id) && Abandoned(db.operations[o], db.now)
               then CancelledRow(db.operations[o], db.now, PreparationOrphanedCode) else db.operations[o],
             checkouts := db.checkouts[id := db.checkouts[id].(status := CheckoutStatus.Failed)])
  }

  ghost function ReconcileOrphanedCheckouts(db: Db, ids: seq<Id>): (after: Db)
    ensures after == db.(operations := after.operations, checkouts := after.checkouts)
  {
    if ids == [] then db
    else ReconcileCheckout(ReconcileOrphanedCheckouts(db, ids[..|ids| - 1]), ids[|ids| - 1])
  }

  // ---- terminals and tickets ----

  ghost function CreateTerminalSession(db: Db, id: Id, s: Session): (tx: Tx<Unit>)
    ensures tx.Committed? ==> tx.db == db.(issued := tx.db.issued, sessions := tx.db.sessions)
  {
    if id in db.issued then RolledBack(UniqueViolation)
    else if !MachineRow(db, s.workspace, s.machine) then RolledBack(ForeignKeyViolation)
    else Committed(db.(issued := db.issued + {id}, sessions := db.sessions[id := s]), Unit)
  }

  /** Revoke the tickets of a terminal session. */
  function RevokeSessionTickets(tickets: map<Id, Ticket>, session: Id): map<Id, Ticket> {
    map t | t in tickets ::
      if tickets[t].session == Some(session) && tickets[t].status in {TicketStatus.Active, TicketStatus.Used}
      then tickets[t].(status := TicketStatus.Revoked) else tickets[t]
  }

  /** A finished close operation is queued again from scratch. */
  function ResetRow(o: Operation, now: Time): Operation {
    o.(status := OpStatus.Pending, attempts := 0, owner := None, leaseExpires := None,
       availableAt := now, completedAt := None, errorCode := None)
  }

  /** INSERT of a terminal close: a finished row under the same key is reset, an open one kept. */
  ghost function EnqueueAgain(db: Db, id: Id, q: Job): (tx: Tx<Id>)
    ensures tx.Committed? ==> OnlyOperations(db, tx.db)
  {
    var existing := FindByKey(db.operations, q.machine, q.key);
    if existing.Some? && db.operations[existing.value].status.Final()
    then Committed(db.(operations := db.operations[existing.value := ResetRow(db.operations[existing.value], db.now)]), existing.value)
    else Enqueue(db, id, q)
  }

  predicate SessionRow(db: Db, workspace: Id, machine: Id, user: Id, session: Id) {
    session in db.sessions && db.sessions[session].workspace == workspace &&
    db.sessions[session].machine == machine && db.sessions[session].user == user
  }

  ghost function RequestTerminalSessionClose(db: Db, workspace: Id, machine: Id, user: Id, session: Id, op: Id, q: Job): (tx: Tx<Option<SessionStatus>>)
    ensures tx.Committed? ==> tx.db == db.(issued := tx.db.issued, sessions := tx.db.sessions, tickets := tx.db.tickets, operations := tx.db.operations)
  {
    if !SessionRow(db, workspace, machine, user, session) then Committed(db, None)
    else if db.sessions[session].status.Closed? then Committed(db, Some(SessionStatus.Closed))
    else if !MachineRow(db, workspace, machine) then RolledBack(NoRows)
    else
      var closing := db.(sessions := db.sessions[session := db.sessions[session].(status := SessionStatus.Closing)],
                         tickets := RevokeSessionTickets(db.tickets, session));
      match EnqueueAgain(closing, op, q.(generation := db.machines[machine].generation, session := Some(session)))
      case RolledBack(e) => RolledBack(e)
      case Committed(after, _) => Committed(after, Some(SessionStatus.Closing))
  }

  ghost function CompleteTerminalSessionClose(db: Db, session: Id): (after: Db)
    ensures after == db.(tickets := after.tickets, sessions := after.sessions)
  {
    db.(tickets := RevokeSessionTickets(db.tickets, session),
        sessions := if session in db.sessions
                    then db.sessions[session := db.sessions[session].(status := SessionStatus.Closed)] else db.sessions)
  }

  ghost function FailTerminalSessionClose(db: Db, session: Id): (after: Db)
    ensures after == db.(sessions := after.sessions)
  {
    if session in db.sessions && db.sessions[session].status.Closing?
    then db.(sessions := db.sessions[session := db.sessions[session].(status := SessionStatus.CloseFailed)]) else db
  }

  /** What the joined service and membership rows say. */
  datatype Access = Access(serviceRunning: bool, serviceIsTerminal: bool, member: bool)

  predicate MachineAccessible(db: Db, workspace: Id, machine: Id, user: Id) {
    MachineRow(db, workspace, machine) && db.machines[machine].creator == Some(user) &&
    db.machines[machine].status.Running? && db.machines[machine].desired.Running? && db.machines[machine].expiresAt > db.now
  }

  predicate ActiveSession(db: Db, t: Ticket) {
    t.session.Some? && SessionRow(db, t.workspace, t.machine, t.user, t.session.value) && db.sessions[t.session.value].status.Active?
  }

  ghost function CreateAccessTicket(db: Db, id: Id, t: Ticket, a: Access): (tx: Tx<Unit>)
    ensures tx.Committed? ==> tx.db == db.(issued := tx.db.issued, tickets := tx.db.tickets)
  {
    if id in db.issued || (exists other :: other in db.tickets && db.tickets[other].tokenHash == t.tokenHash)
    then RolledBack(UniqueViolation)
    else if !(MachineAccessible(db, t.workspace, t.machine, t.user) && a.serviceRunning && a.member &&
         db.now < t.expiresAt <= db.machines[t.machine].expiresAt &&
         (t.session.None? || (a.serviceIsTerminal && ActiveSession(db, t))))
    then RolledBack(NoRows)
    else Committed(db.(issued := db.issued + {id}, tickets := db.tickets[id := t]), Unit)
  }

  predicate Consumable(db: Db, id: Id, tokenHash: string, host: string, a: Access) {
    id in db.tickets &&
    var t := db.tickets[id];
    && t.tokenHash == tokenHash && t.host == host && t.status.Active? && t.expiresAt > db.now
    && MachineAccessible(db, t.workspace, t.machine, t.user) && a.serviceRunning && a.member
    && (t.session.None? || ActiveSession(db, t))
  }

  /** token_hash is unique, so at most one ticket matches; None when there is none. */
  ghost function ConsumeAccessTicket(db: Db, tokenHash: string, host: string, a: Access): (r: (Db, Option<Id>))
    ensures r.0 == db.(tickets := r.0.tickets)
  {
    if exists id :: Consumable(db, id, tokenHash, host, a) then
      var id :| Consumable(db, id, tokenHash, host, a);
      (db.(tickets := db.tickets[id := db.tickets[id].(status := TicketStatus.Used)]), Some(id))
    else (db, None)
  }

  ghost function RevokeMachineAccess(db: Db, machine: Id): (after: Db)
    ensures after == db.(tickets := after.tickets)
  {
    db.(tickets := map t | t in db.tickets ::
          if db.tickets[t].machine == machine && db.tickets[t].status.Active?
          then db.tickets[t].(status := TicketStatus.Revoked) else db.tickets[t])
  }

  // ---- deleting a workspace, and what else the foreign keys delete ----

  const WorkspaceDeletionCode: string := "workspace_deletion_requested"

  predicate HasRuntimes(db: Db, workspace: Id) {
    exists m :: m in db.machines && db.machines[m].workspace == workspace && !db.machines[m].status.Destroyed?
  }

  predicate HasEnvironments(db: Db, workspace: Id) {
    exists e :: e in db.environments && db.environments[e].workspace == workspace
  }

  /** Snapshots of the workspace that are pending, or leased with the lease lapsed. */
  predicate CancelledWith(o: Operation, workspace: Id, now: Time) {
    o.job.workspace == workspace && o.job.environment.Some? && o.job.action == SnapshotEnvironment &&
    (o.status.Pending? || (o.status.Leased? && o.leaseExpires.Some? && o.leaseExpires.value < now))
  }

  function CancelWorkspaceSnapshots(db: Db, workspace: Id): map<Id, Operation> {
    map o | o in db.operations ::
      if CancelledWith(db.operations[o], workspace, db.now) then CancelledRow(db.operations[o], db.now, WorkspaceDeletionCode)
      else db.operations[o]
  }

  function DeletionMarked(e: Environment, now: Time): Environment {
    e.(status := EnvironmentStatus.DeleteRequested, deleteRequested := Coalesce(e.deleteRequested, Some(now)))
  }

  /** Every environment of the workspace that is not being built; neither settings nor
      machines are asked whether they use it. */
  function MarkEnvironments(db: Db, workspace: Id): map<Id, Environment> {
    map e | e in db.environments ::
      if db.environments[e].workspace == workspace && !BuildActive(db, e)
      then DeletionMarked(db.environments[e], db.now) else db.environments[e]
  }

  function MachinesOf(db: Db, workspace: Id): set<Id> {
    set m | m in db.machines && db.machines[m].workspace == workspace
  }

  /** DELETE FROM workspaces, once it has no environments left. */
  function DropWorkspace(db: Db, workspace: Id): Db {
    DropMachines(db, MachinesOf(db, workspace)).(settings := OtherSettings(db, workspace), policies := db.policies - {workspace})
  }

  function OtherSettings(db: Db, workspace: Id): (rows: map<Scope, Setting>)
    ensures forall s :: s in rows ==> s in db.settings && rows[s] == db.settings[s]
  {
    map s | s in db.settings && db.settings[s].workspace != workspace :: db.settings[s]
  }

  /** WorkspaceRepository.Delete: whether the workspace is gone; while it has environments
      they are marked for deletion instead, and that is committed. */
  function DeleteWorkspace(db: Db, workspace: Id): (tx: Tx<bool>)
    ensures tx.Committed? ==> tx.db.policies == if tx.value then db.policies - {workspace} else db.policies
  {
    if HasRuntimes(db, workspace) then RolledBack(WorkspaceHasRuntimes)
    else if HasEnvironments(db, workspace)
    then Committed(db.(operations := CancelWorkspaceSnapshots(db, workspace), environments := MarkEnvironments(db, workspace)), false)
    else Committed(DropWorkspace(db, workspace), true)
  }

  /** The rows that go with an issue, a team, a project, a repository or a user, and the
      users and repositories themselves. */
  datatype Erased = Erased(
    operations: set<Id>, checkouts: set<Id>, sessions: set<Id>, tickets: set<Id>, settings: set<Scope>, users: set<Id>, repositories: set<Id>)

  /** The tickets of a session go with it, the operations of a checkout or a session too. */
  predicate ClosedErasure(db: Db, gone: Erased) {
    && (forall t :: t in db.tickets && db.tickets[t].session.Some? && db.tickets[t].session.value in gone.sessions ==> t in gone.tickets)
    && (forall o :: o in db.operations && Refers(db.operations[o].job.checkout, gone.checkouts) ==> o in gone.operations)
    && (forall o :: o in db.operations && Refers(db.operations[o].job.session, gone.sessions) ==> o in gone.operations)
  }

  predicate Refers(column: Option<Id>, gone: set<Id>) {
    column.Some? && column.value in gone
  }

  /** ON DELETE SET NULL. */
  function Cleared(column: Option<Id>, gone: set<Id>): Option<Id> {
    if Refers(column, gone) then None else column
  }

  function ForgetRequester(o: Operation, users: set<Id>): Operation {
    o.(job := o.job.(requestedBy := Cleared(o.job.requestedBy, users)))
  }

  function ForgetOwner(m: Machine, users: set<Id>, repositories: set<Id>): Machine {
    m.(creator := Cleared(m.creator, users), affinity := Cleared(m.affinity, repositories))
  }

  function EraseRows(db: Db, gone: Erased): (after: Db)
    ensures after == db.(machines := after.machines, operations := after.operations, runs := after.runs, checkouts := after.checkouts,
                         sessions := after.sessions, tickets := after.tickets, settings := after.settings)
  {
    db.(machines := map m | m in db.machines :: ForgetOwner(db.machines[m], gone.users, gone.repositories),
        operations := map o | o in db.operations && o !in gone.operations :: ForgetRequester(db.operations[o], gone.users),
        runs := map r | r in db.runs :: db.runs[r].(checkout := Cleared(db.runs[r].checkout, gone.checkouts)),
        checkouts := db.checkouts - gone.checkouts, sessions := db.sessions - gone.sessions, tickets := db.tickets - gone.tickets,
        settings := db.settings - gone.settings)
  }
}
