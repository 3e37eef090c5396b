/** The rows and enumerations of the dev-machine control plane
    (BE/internal/domain/dev_machine.go and migration 000033). */
module Domain {
  import opened Wrappers

  type Id = nat

  /** Microseconds, the resolution of the database clock. */
  type Time = nat

  const SECOND: nat := 1_000_000
  const DAY: nat := 86_400 * SECOND

  datatype MachineStatus =
    | Configuring | Queued | Spawning | Running | Paused | Stopping
    | Stopped | TearingDown | Destroyed | Failed | Expired

  datatype Action =
    | Spawn | Start | Stop | Pause | Teardown | Reconcile
    | RunAgent | CancelAgent | CheckoutIssue | SnapshotEnvironment | TerminateTerminal

  datatype OpStatus = Pending | Leased | Completed | Failed | Cancelled {
    predicate Final() { Completed? || Failed? || Cancelled? }
    predicate Open() { Pending? || Leased? }
  }

  datatype RunStatus =
    | Queued | Starting | Running | WaitingInput
    | Succeeded | Failed | Cancelled | Timeout
  {
    predicate Active() { Queued? || Starting? || Running? || WaitingInput? }
    predicate Startable() { Queued? || Starting? }
  }

  datatype EnvironmentStatus = Pending | Building | Ready | Failed | DeleteRequested

  datatype CheckoutStatus = Queued | Preparing | Ready | Failed

  datatype SessionStatus = Active | Closing | CloseFailed | Closed

  datatype TicketStatus = Active | Used | Expired | Revoked

  /** The idempotency keys the program builds, one constructor a format string;
      ClientKey is a key a client chose for a lifecycle request. */
  datatype Key =
    | LifecycleKey(action: Action, generation: int)
    | ClientKey(text: string)
    | IdlePauseKey(generation: int)
    | TtlTeardownKey(generation: int)
    | DiskQuotaKey(generation: int)
    | PermanentDeleteKey(generation: int)
    | RunAgentKey(run: Id)
    | CancelAgentKey(run: Id)
    | CheckoutKey(issue: Id)
    | CheckoutRetryKey(issue: Id, nonce: Id)
    | SnapshotKey(environment: Id)
    | TerminalCloseKey(session: Id)

  datatype Machine = Machine(
    workspace: Id, creator: Option<Id>, status: MachineStatus, desired: MachineStatus, generation: int,
    environment: Option<Id>, affinity: Option<Id>, builder: bool, deleteRequested: Option<Time>,
    network: Option<string>, volume: Option<string>, expiresAt: Time)

  /** The columns of an operation that never change after it is queued. */
  datatype Job = Job(
    machine: Id, workspace: Id, action: Action, generation: int, key: Key, requestedBy: Option<Id>,
    run: Option<Id>, checkout: Option<Id>, environment: Option<Id>, session: Option<Id>, maxAttempts: nat)

  datatype Operation = Operation(
    job: Job, createdAt: Time, status: OpStatus, owner: Option<string>, leaseExpires: Option<Time>,
    attempts: nat, availableAt: Time, completedAt: Option<Time>, errorCode: Option<string>)

  datatype AgentRun = AgentRun(
    machine: Id, workspace: Id, checkout: Option<Id>, status: RunStatus,
    createdAt: Time, startedAt: Option<Time>, completedAt: Option<Time>)

  datatype Environment = Environment(
    workspace: Id, status: EnvironmentStatus, imageRef: string, digest: Option<string>,
    source: Option<Id>, deleteRequested: Option<Time>)

  datatype Checkout = Checkout(machine: Id, workspace: Id, issue: Id, repository: Id, status: CheckoutStatus)

  datatype Session = Session(workspace: Id, machine: Id, user: Id, status: SessionStatus)

  datatype Ticket = Ticket(
    workspace: Id, machine: Id, service: Id, user: Id, tokenHash: string, host: string,
    status: TicketStatus, session: Option<Id>, expiresAt: Time)

  datatype Policy = Policy(enabled: bool, maxWorkspace: nat, maxUser: nat, maxDailyRuns: nat)

  /** The four unique scopes a development setting can have. */
  datatype Scope = WorkspaceScope(id: Id) | TeamScope(id: Id) | ProjectScope(id: Id) | IssueScope(id: Id)

  datatype Setting = Setting(workspace: Id, environment: Option<Id>)

  /** The database: one map a table, the clock, and every identifier ever
      generated (a version-4 UUID is taken never to repeat). */
  datatype Db = Db(
    now: Time,
    issued: set<Id>,
    machines: map<Id, Machine>,
    operations: map<Id, Operation>,
    runs: map<Id, AgentRun>,
    environments: map<Id, Environment>,
    checkouts: map<Id, Checkout>,
    settings: map<Scope, Setting>,
    sessions: map<Id, Session>,
    tickets: map<Id, Ticket>,
    policies: map<Id, Policy>)

  predicate ValidOperationForStatus(action: Action, status: MachineStatus) {
    match action
    case Spawn => status in {MachineStatus.Configuring, MachineStatus.Queued, MachineStatus.Failed}
    case Start => status in {MachineStatus.Stopped, MachineStatus.Paused, MachineStatus.Failed}
    case Stop => status in {MachineStatus.Running, MachineStatus.Paused}
    case Pause => status == MachineStatus.Running
    case Teardown => status !in {MachineStatus.Destroyed, MachineStatus.TearingDown}
    case Reconcile => status != MachineStatus.Destroyed
    case RunAgent => status == MachineStatus.Running
    case CancelAgent => status == MachineStatus.Running
    case CheckoutIssue => status == MachineStatus.Running
    case SnapshotEnvironment => status in {MachineStatus.Paused, MachineStatus.Stopped}
    case TerminateTerminal => false
  }

  predicate SafelyPurgeable(m: Machine) {
    if m.status == MachineStatus.Destroyed then true
    else if m.status in {MachineStatus.Failed, MachineStatus.Expired} then m.network.None? && m.volume.None?
    else false
  }

  /** Cleanup actions bypass the one-lease-a-machine rule of LeaseOperations. */
  predicate Priority(action: Action) {
    action in {Teardown, CancelAgent, TerminateTerminal}
  }

  /** `lease_expires_at >= NOW()` on a leased row. */
  predicate LiveLease(o: Operation, now: Time) {
    o.status.Leased? && o.leaseExpires.Some? && o.leaseExpires.value >= now
  }

  /** The quota queries count a machine by this condition. */
  predicate Counted(m: Machine) {
    m.status !in {MachineStatus.Destroyed, MachineStatus.Failed, MachineStatus.Expired, MachineStatus.Stopped}
    || m.desired == MachineStatus.Running
  }

  function Midnight(t: Time): Time { t / DAY * DAY }
}
