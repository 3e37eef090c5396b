/** Runs of the control plane: any interleaving of transactions by any number of
    API servers, gateways and managers, under one clock. */
module Runs {
  import opened Wrappers
  import opened Domain
  import opened Store
  import opened Invariants
  import opened Safety
  import opened TransactionSafety

  datatype Event =
    | ClockAdvanced(later: Time)
    | BundleCreated(id: Id, row: Machine, op: Id, job: Job)
    | DesiredSet(op: Id, job: Job)
    | OperationsLeased(owner: string, seconds: nat, limit: nat, locked: set<Id>, chosen: set<Id>)
    | LeaseRenewed(id: Id, owner: string, seconds: nat)
    | OperationCompleted(id: Id, owner: string)
    | OperationFailed(id: Id, owner: string, code: string, retryable: bool)
    | StateSet(id: Id, status: MachineStatus, network: Option<string>, volume: Option<string>)
    | StateSetForOperation(id: Id, generation: int, allowStale: bool, status: MachineStatus, network: Option<string>, volume: Option<string>)
    | RunCreated(id: Id, machine: Id, workspace: Id, checkout: Option<Id>, op: Id, job: Job)
    | RunCancelled(workspace: Id, id: Id, op: Id, job: Job)
    | RunStarted(id: Id)
    | RunCompleted(id: Id, runStatus: RunStatus)
    | DeletionRequested(workspace: Id, machine: Id, requester: Option<Id>, active: Option<Id>, op: Id)
    | MachinePurged(workspace: Id, machine: Id)
    | MachinesPurged(workspace: Id, only: Option<set<Id>>, aged: set<Id>, failed: bool, expired: bool)
    | SettingUpserted(scope: Scope, setting: Setting)
    | SettingDeleted(workspace: Id, scope: Scope)
    | EnvironmentCreated(id: Id, environment: Environment, op: Id, job: Job)
    | EnvironmentDeletionRequested(workspace: Id, id: Id)
    | EnvironmentDeleted(workspace: Id, id: Id)
    | EnvironmentUpdated(id: Id, envStatus: EnvironmentStatus, imageRef: string, digest: Option<string>)
    | EnvironmentsReconciled(ids: seq<Id>)
    | CheckoutCreated(id: Id, checkoutRow: Checkout, op: Id, job: Job)
    | CheckoutUpdated(id: Id, checkoutStatus: CheckoutStatus)
    | CheckoutsReconciled(ids: seq<Id>)
    | SessionCreated(id: Id, session: Session)
    | SessionCloseRequested(workspace: Id, machine: Id, user: Id, terminal: Id, op: Id, job: Job)
    | SessionClosed(terminal: Id)
    | SessionCloseFailed(terminal: Id)
    | TicketCreated(id: Id, ticket: Ticket, access: Access)
    | TicketConsumed(tokenHash: string, host: string, access: Access)
    | AccessRevoked(machine: Id)
    | PolicyUpserted(workspace: Id, policy: Policy)
    | WorkspaceDeleted(workspace: Id)
    | RowsErased(gone: Erased)

  /** What the callers send, and which rows a statement may choose. */
  ghost predicate Allowed(db: Db, e: Event) {
    match e
    case ClockAdvanced(later) => db.now <= later
    case BundleCreated(id, row, _, job) => BundleRequest(id, row, job)
    case DesiredSet(_, job) => LifecycleRequest(job)
    case OperationsLeased(_, _, limit, locked, chosen) => LeaseChoice(db, limit, locked, chosen)
    case RunCreated(id, machine, workspace, _, _, job) => RunRequest(id, machine, workspace, job)
    case RunCancelled(_, id, _, job) => CancelRequest(db, id, job)
    case RunCompleted(_, runStatus) => !runStatus.Active()
    case DeletionRequested(workspace, machine, _, active, _) => ActiveTeardown(db, workspace, machine, active)
    case EnvironmentCreated(id, environment, _, job) => SnapshotRequest(id, environment, job)
    case EnvironmentUpdated(_, envStatus, _, _) => !envStatus.DeleteRequested?
    case CheckoutCreated(_, row, _, job) => CheckoutRequest(db, row, job)
    case SessionCloseRequested(_, machine, _, terminal, _, job) => CloseRequest(machine, terminal, job)
    case RowsErased(gone) => ClosedErasure(db, gone)
    case _ => true
  }

  /** Events on settings, environments and checkouts. */
  predicate OnEnvironments(e: Event) {
    e.SettingUpserted? || e.SettingDeleted? || e.EnvironmentCreated? || e.EnvironmentDeletionRequested? || e.EnvironmentDeleted? ||
    e.EnvironmentUpdated? || e.EnvironmentsReconciled? || e.CheckoutCreated? || e.CheckoutUpdated? || e.CheckoutsReconciled?
  }

  predicate OnCheckouts(e: Event) {
    e.CheckoutCreated? || e.CheckoutUpdated? || e.CheckoutsReconciled?
  }

  /** Events on terminals and policies. */
  predicate OnTerminals(e: Event) {
    e.SessionCreated? || e.SessionCloseRequested? || e.SessionClosed? || e.SessionCloseFailed? ||
    e.TicketCreated? || e.TicketConsumed? || e.AccessRevoked? || e.PolicyUpserted?
  }

  /** The deletion of a workspace, and rows deleted with an issue, a team, a project, a
      repository or a user. */
  predicate OnDeletions(e: Event) {
    e.WorkspaceDeleted? || e.RowsErased?
  }

  ghost function ApplyToMachines(db: Db, e: Event): Db
    requires Allowed(db, e)
  {
    match e
    case ClockAdvanced(later) => db.(now := later)
    case BundleCreated(id, row, op, job) => After(db, CreateBundle(db, id, row, op, job))
    case DesiredSet(op, job) => After(db, SetDesiredAndEnqueue(db, DesiredFor(job.action), op, job))
    case OperationsLeased(owner, seconds, _, _, chosen) => LeaseOperations(db, owner, seconds, chosen)
    case LeaseRenewed(id, owner, seconds) => After(db, RenewOperationLease(db, id, owner, seconds))
    case OperationCompleted(id, owner) => After(db, CompleteOperation(db, id, owner))
    case OperationFailed(id, owner, code, retryable) => After(db, FailOperation(db, id, owner, code, retryable))
    case StateSet(id, status, network, volume) => SetMachineState(db, id, status, network, volume)
    case StateSetForOperation(id, generation, allowStale, status, network, volume) =>
      SetMachineStateForOperation(db, id, generation, allowStale, status, network, volume)
    case RunCreated(id, machine, workspace, checkout, op, job) => After(db, CreateAgentRun(db, id, machine, workspace, checkout, op, job))
    case RunCancelled(workspace, id, op, job) => After(db, CancelAgentRun(db, workspace, id, op, job))
    case RunStarted(id) => After(db, UpdateAgentRunStarted(db, id))
    case RunCompleted(id, runStatus) => CompleteAgentRun(db, id, runStatus)
    case DeletionRequested(workspace, machine, requester, active, op) =>
      After(db, RequestPermanentDelete(db, workspace, machine, requester, active, op))
    case MachinePurged(workspace, machine) => After(db, PurgePermanentDeleteRequest(db, workspace, machine))
    case MachinesPurged(workspace, only, aged, failed, expired) => BulkPurgeMachines(db, workspace, only, aged, failed, expired)
    case _ => db
  }

  ghost function ApplyToEnvironments(db: Db, e: Event): Db {
    match e
    case SettingUpserted(scope, setting) => After(db, UpsertScopeSetting(db, scope, setting))
    case SettingDeleted(workspace, scope) => DeleteScopeSetting(db, workspace, scope)
    case EnvironmentCreated(id, environment, op, job) => After(db, CreateEnvironment(db, id, environment, op, job))
    case EnvironmentDeletionRequested(workspace, id) => After(db, RequestEnvironmentDeletion(db, workspace, id))
    case EnvironmentDeleted(workspace, id) => After(db, DeleteEnvironment(db, workspace, id))
    case EnvironmentUpdated(id, envStatus, imageRef, digest) => After(db, UpdateEnvironmentState(db, id, envStatus, imageRef, digest))
    case EnvironmentsReconciled(ids) => ReconcileOrphanedEnvironments(db, ids)
    case CheckoutCreated(id, row, op, job) => After(db, CreateCheckout(db, id, row, op, job))
    case CheckoutUpdated(id, checkoutStatus) => UpdateCheckoutState(db, id, checkoutStatus)
    case CheckoutsReconciled(ids) => ReconcileOrphanedCheckouts(db, ids)
    case _ => db
  }

  ghost function ApplyToTerminals(db: Db, e: Event): Db {
    match e
    case SessionCreated(id, session) => After(db, CreateTerminalSession(db, id, session))
    case SessionCloseRequested(workspace, machine, user, terminal, op, job) =>
      After(db, RequestTerminalSessionClose(db, workspace, machine, user, terminal, op, job))
    case SessionClosed(terminal) => CompleteTerminalSessionClose(db, terminal)
    case SessionCloseFailed(terminal) => FailTerminalSessionClose(db, terminal)
    case TicketCreated(id, ticket, access) => After(db, CreateAccessTicket(db, id, ticket, access))
    case TicketConsumed(tokenHash, host, access) => ConsumeAccessTicket(db, tokenHash, host, access).0
    case AccessRevoked(machine) => RevokeMachineAccess(db, machine)
    case PolicyUpserted(workspace, policy) => db.(policies := db.policies[workspace := policy])
    case _ => db
  }

  ghost function ApplyDeletions(db: Db, e: Event): Db {
    match e
    case WorkspaceDeleted(workspace) => After(db, DeleteWorkspace(db, workspace))
    case RowsErased(gone) => EraseRows(db, gone)
    case _ => db
  }

  ghost function Apply(db: Db, e: Event): Db
    requires Allowed(db, e)
  {
    if OnDeletions(e) then ApplyDeletions(db, e)
    else if OnEnvironments(e) then ApplyToEnvironments(db, e)
    else if OnTerminals(e) then ApplyToTerminals(db, e)
    else ApplyToMachines(db, e)
  }

  /** Only these events may lease, renew or reset an operation, or forget who requested it. */
  function MovesOf(e: Event): Moves {
    Moves(e.OperationsLeased?, e.LeaseRenewed?, e.SessionCloseRequested?, e.RowsErased?)
  }

  /** Events on leases and operations. */
  predicate OnLeases(e: Event) {
    e.OperationsLeased? || e.LeaseRenewed? || e.OperationCompleted? || e.OperationFailed?
  }

  /** Events on agent runs. */
  predicate OnRuns(e: Event) {
    e.RunCreated? || e.RunCancelled? || e.RunStarted? || e.RunCompleted?
  }

  lemma LeaseStepSafe(db: Db, e: Event) returns (after: Db)
    requires Inv(db) && Allowed(db, e) && OnLeases(e)
    ensures after == ApplyToMachines(db, e) && Safe(db, after, MovesOf(e))
  {
    hide Safe, Inv, LeaseOperations, RenewOperationLease, CompleteOperation, FailOperation;
    after := ApplyToMachines(db, e);
    match e
    case OperationsLeased(owner, seconds, _, _, chosen) => LeaseOperationsSafe(db, owner, seconds, chosen);
    case LeaseRenewed(id, owner, seconds) => RenewOperationLeaseSafe(db, id, owner, seconds);
    case OperationCompleted(id, owner) => CompleteOperationSafe(db, id, owner);
    case OperationFailed(id, owner, code, retryable) => FailOperationSafe(db, id, owner, code, retryable);
  }

  lemma RunEventSafe(db: Db, e: Event) returns (after: Db)
    requires Inv(db) && Allowed(db, e) && OnRuns(e)
    ensures after == ApplyToMachines(db, e) && Safe(db, after, MovesOf(e))
  {
    hide Safe, Inv, CreateAgentRun, CancelAgentRun, UpdateAgentRunStarted, CompleteAgentRun;
    after := ApplyToMachines(db, e);
    match e
    case RunCreated(id, machine, workspace, checkout, op, job) => CreateAgentRunSafe(db, id, machine, workspace, checkout, op, job);
    case RunCancelled(workspace, id, op, job) => CancelAgentRunSafe(db, workspace, id, op, job);
    case RunStarted(id) => UpdateAgentRunStartedSafe(db, id);
    case RunCompleted(id, runStatus) => CompleteAgentRunSafe(db, id, runStatus);
  }

  lemma MachineStepSafe(db: Db, e: Event) returns (after: Db)
    requires Inv(db) && Allowed(db, e) && !OnEnvironments(e) && !OnTerminals(e) && !OnDeletions(e) && !OnLeases(e) && !OnRuns(e)
    ensures after == ApplyToMachines(db, e) && Safe(db, after, MovesOf(e))
  {
    hide Safe, Inv, CreateBundle, SetDesiredAndEnqueue, SetMachineState, SetMachineStateForOperation, RequestPermanentDelete,
         PurgePermanentDeleteRequest, DropMachines;
    after := ApplyToMachines(db, e);
    match e
    case ClockAdvanced(later) => TickSafe(db, later);
    case BundleCreated(id, row, op, job) => CreateBundleSafe(db, id, row, op, job);
    case DesiredSet(op, job) => SetDesiredAndEnqueueSafe(db, op, job);
    case StateSet(id, status, network, volume) => SetMachineStateSafe(db, id, status, network, volume);
    case StateSetForOperation(id, generation, allowStale, status, network, volume) =>
      SetMachineStateForOperationSafe(db, id, generation, allowStale, status, network, volume);
    case DeletionRequested(workspace, machine, requester, active, op) =>
      RequestPermanentDeleteSafe(db, workspace, machine, requester, active, op);
    case MachinePurged(workspace, machine) => PurgeSafe(db, workspace, machine);
    case MachinesPurged(workspace, only, aged, failed, expired) =>
      DropMachinesSafe(db, BulkPurged(db, workspace, only, aged, failed, expired));
  }

  /** What is allowed of the events whose safety depends on it. */
  lemma AllowedEnvironment(db: Db, e: Event)
    requires Allowed(db, e)
    ensures e.EnvironmentCreated? ==> SnapshotRequest(e.id, e.environment, e.job)
    ensures e.EnvironmentUpdated? ==> !e.envStatus.DeleteRequested?
    ensures e.CheckoutCreated? ==> CheckoutRequest(db, e.checkoutRow, e.job)
  {}

  lemma EnvironmentStepSafe(db: Db, e: Event) returns (after: Db)
    requires Inv(db) && Allowed(db, e) && OnEnvironments(e) && !OnCheckouts(e)
    ensures after == ApplyToEnvironments(db, e) && Safe(db, after, MovesOf(e))
  {
    hide Safe, Inv, Allowed, SnapshotRequest, UpsertScopeSetting, DeleteScopeSetting, CreateEnvironment, RequestEnvironmentDeletion,
         DeleteEnvironment, UpdateEnvironmentState, ReconcileOrphanedEnvironments, CreateCheckout, UpdateCheckoutState,
         ReconcileOrphanedCheckouts;
    AllowedEnvironment(db, e);
    after := ApplyToEnvironments(db, e);
    assert MovesOf(e) == Quiet;
    hide MovesOf;
    match e
    case SettingUpserted(scope, setting) => UpsertScopeSettingSafe(db, scope, setting);
    case SettingDeleted(workspace, scope) => DeleteScopeSettingSafe(db, workspace, scope);
    case EnvironmentCreated(id, environment, op, job) => CreateEnvironmentSafe(db, id, environment, op, job);
    case EnvironmentDeletionRequested(workspace, id) => RequestEnvironmentDeletionSafe(db, workspace, id);
    case EnvironmentDeleted(workspace, id) => DeleteEnvironmentSafe(db, workspace, id);
    case EnvironmentUpdated(id, envStatus, imageRef, digest) => UpdateEnvironmentStateSafe(db, id, envStatus, imageRef, digest);
    case EnvironmentsReconciled(ids) => var _ := ReconcileOrphanedEnvironmentsSafe(db, ids);
  }

  lemma CheckoutStepSafe(db: Db, e: Event) returns (after: Db)
    requires Inv(db) && Allowed(db, e) && OnCheckouts(e)
    ensures after == ApplyToEnvironments(db, e) && Safe(db, after, MovesOf(e))
  {
    hide Safe, Inv, Allowed, CheckoutRequest, CreateCheckout, UpdateCheckoutState, ReconcileOrphanedCheckouts;
    AllowedEnvironment(db, e);
    after := ApplyToEnvironments(db, e);
    match e
    case CheckoutCreated(id, row, op, job) => CreateCheckoutSafe(db, id, row, op, job);
    case CheckoutUpdated(id, checkoutStatus) => UpdateCheckoutStateSafe(db, id, checkoutStatus);
    case CheckoutsReconciled(ids) => var _ := ReconcileOrphanedCheckoutsSafe(db, ids);
  }

  lemma SessionCloseSafe(db: Db, e: Event)
    requires Inv(db) && Allowed(db, e) && e.SessionCloseRequested?
    ensures Safe(db, After(db, RequestTerminalSessionClose(db, e.workspace, e.machine, e.user, e.terminal, e.op, e.job)), Resetting)
  {
    hide Safe, Inv, RequestTerminalSessionClose;
    RequestTerminalSessionCloseSafe(db, e.workspace, e.machine, e.user, e.terminal, e.op, e.job);
  }

  lemma TicketStepSafe(db: Db, e: Event) returns (after: Db)
    requires Inv(db) && (e.TicketCreated? || e.TicketConsumed? || e.AccessRevoked? || e.PolicyUpserted?)
    ensures after == ApplyToTerminals(db, e) && Safe(db, after, Quiet)
  {
    hide Safe, Inv, CreateAccessTicket, ConsumeAccessTicket, RevokeMachineAccess;
    after := ApplyToTerminals(db, e);
    match e
    case TicketCreated(id, ticket, access) => CreateAccessTicketSafe(db, id, ticket, access);
    case TicketConsumed(tokenHash, host, access) => ConsumeAccessTicketSafe(db, tokenHash, host, access);
    case AccessRevoked(machine) => RevokeMachineAccessSafe(db, machine);
    case PolicyUpserted(workspace, policy) => PoliciesWriteSafe(db, db.policies[workspace := policy]);
  }

  lemma SessionStepSafe(db: Db, e: Event) returns (after: Db)
    requires Inv(db) && (e.SessionCreated? || e.SessionClosed? || e.SessionCloseFailed?)
    ensures after == ApplyToTerminals(db, e) && Safe(db, after, Quiet)
  {
    hide Safe, Inv, CreateTerminalSession, CompleteTerminalSessionClose, FailTerminalSessionClose;
    after := ApplyToTerminals(db, e);
    match e
    case SessionCreated(id, session) => CreateTerminalSessionSafe(db, id, session);
    case SessionClosed(terminal) => CompleteTerminalSessionCloseSafe(db, terminal);
    case SessionCloseFailed(terminal) => FailTerminalSessionCloseSafe(db, terminal);
  }

  lemma TerminalStepSafe(db: Db, e: Event) returns (after: Db)
    requires Inv(db) && Allowed(db, e) && OnTerminals(e)
    ensures after == ApplyToTerminals(db, e) && Safe(db, after, MovesOf(e))
  {
    hide Safe, Inv, Allowed, RequestTerminalSessionClose;
    assert MovesOf(e) == if e.SessionCloseRequested? then Resetting else Quiet;
    if e.SessionCloseRequested? {
      after := ApplyToTerminals(db, e);
      SessionCloseSafe(db, e);
    } else if e.SessionCreated? || e.SessionClosed? || e.SessionCloseFailed? {
      after := SessionStepSafe(db, e);
    } else {
      after := TicketStepSafe(db, e);
    }
  }

  lemma DeletionStepSafe(db: Db, e: Event) returns (after: Db)
    requires Inv(db) && Allowed(db, e) && OnDeletions(e)
    ensures after == ApplyDeletions(db, e) && Safe(db, after, MovesOf(e))
  {
    hide Safe, Inv, DeleteWorkspace, EraseRows;
    after := ApplyDeletions(db, e);
    match e
    case WorkspaceDeleted(workspace) => DeleteWorkspaceSafe(db, workspace);
    case RowsErased(gone) => EraseRowsSafe(db, gone);
  }

  /** One step of the system, whichever it is, is safe. */
  lemma StepSafe(a: Db, e: Event, b: Db)
    requires Inv(a) && Step(a, e, b)
    ensures Safe(a, b, MovesOf(e))
  {
    hide Safe, Inv, Allowed, ApplyToMachines, ApplyToEnvironments, ApplyToTerminals, ApplyDeletions, MovesOf;
    if OnDeletions(e) {
      var _ := DeletionStepSafe(a, e);
    } else if OnCheckouts(e) {
      var _ := CheckoutStepSafe(a, e);
    } else if OnEnvironments(e) {
      var _ := EnvironmentStepSafe(a, e);
    } else if OnTerminals(e) {
      var _ := TerminalStepSafe(a, e);
    } else if OnLeases(e) {
      var _ := LeaseStepSafe(a, e);
    } else if OnRuns(e) {
      var _ := RunEventSafe(a, e);
    } else {
      var _ := MachineStepSafe(a, e);
    }
  }

  // ---- runs ----

  ghost predicate Fresh(db: Db) {
    db.machines == map[] && db.operations == map[] && db.runs == map[] && db.environments == map[] && db.checkouts == map[] &&
    db.settings == map[] && db.sessions == map[] && db.tickets == map[]
  }

  ghost predicate Step(a: Db, e: Event, b: Db) {
    Allowed(a, e) && b == Apply(a, e)
  }

  /** A run from an empty database: its successive states and the events between them. */
  ghost predicate IsRun(states: seq<Db>, events: seq<Event>) {
    && |states| == |events| + 1
    && Fresh(states[0])
    && forall i {:trigger events[i]} :: 0 <= i < |events| ==> Step(states[i], events[i], states[i + 1])
  }

  // ---- single steps ----

  lemma BundleIsStep(db: Db, id: Id, row: Machine, op: Id, job: Job)
    requires BundleRequest(id, row, job)
    ensures Step(db, BundleCreated(id, row, op, job), After(db, CreateBundle(db, id, row, op, job)))
  {
    hide CreateBundle;
  }

  lemma LeaseIsStep(db: Db, owner: string, seconds: nat, limit: nat, chosen: set<Id>)
    requires LeaseChoice(db, limit, {}, chosen)
    ensures Step(db, OperationsLeased(owner, seconds, limit, {}, chosen), LeaseOperations(db, owner, seconds, chosen))
  {
    hide LeaseChoice, LeaseOperations;
  }

  lemma DesiredIsStep(db: Db, op: Id, job: Job)
    requires LifecycleRequest(job)
    ensures Step(db, DesiredSet(op, job), After(db, SetDesiredAndEnqueue(db, DesiredFor(job.action), op, job)))
  {
    hide SetDesiredAndEnqueue;
  }

  lemma PolicyIsStep(db: Db, workspace: Id, policy: Policy)
    ensures Step(db, PolicyUpserted(workspace, policy), db.(policies := db.policies[workspace := policy]))
  {}

  lemma ClockIsStep(db: Db, later: Time)
    requires db.now <= later
    ensures Step(db, ClockAdvanced(later), db.(now := later))
  {}

  lemma StatusIsStep(db: Db, id: Id, status: MachineStatus)
    ensures Step(db, StateSet(id, status, None, None), SetMachineState(db, id, status, None, None))
  {
    hide SetMachineState;
  }

  lemma UpsertIsStep(db: Db, scope: Scope, s: Setting)
    ensures Step(db, SettingUpserted(scope, s), After(db, UpsertScopeSetting(db, scope, s)))
  {
    hide UpsertScopeSetting;
  }

  lemma DeletionIsStep(db: Db, workspace: Id)
    ensures Step(db, WorkspaceDeleted(workspace), After(db, DeleteWorkspace(db, workspace)))
  {
    hide DeleteWorkspace;
  }

  /** A run goes on with any step. */
  lemma RunGoesOn(states: seq<Db>, events: seq<Event>, e: Event, b: Db)
    requires IsRun(states, events) && Step(states[|events|], e, b)
    ensures IsRun(states + [b], events + [e])
  {
    hide Step;
    var longer, all := states + [b], events + [e];
    forall i {:trigger all[i]} | 0 <= i < |all|
      ensures Step(longer[i], all[i], longer[i + 1])
    {
      if i < |events| {
        assert Step(states[i], events[i], states[i + 1]);
      }
    }
  }

  // ---- all states of a run ----

  /** Every state of a run satisfies the invariant. */
  lemma {:induction false} RunKeepsInv(states: seq<Db>, events: seq<Event>, i: nat)
    requires IsRun(states, events) && i < |states|
    ensures Inv(states[i])
  {
    hide Step, Inv;
    if i == 0 {
      FreshInv(states[0]);
    } else {
      RunKeepsInv(states, events, i - 1);
      assert Step(states[i - 1], events[i - 1], states[i]);
      StepSafe(states[i - 1], events[i - 1], states[i]);
    }
  }

  lemma FreshInv(db: Db)
    requires Fresh(db)
    ensures Inv(db)
  {}

  /** Every step of a run is safe. */
  lemma RunStepSafe(states: seq<Db>, events: seq<Event>, i: nat)
    requires IsRun(states, events) && i < |events|
    ensures Inv(states[i]) && Safe(states[i], states[i + 1], MovesOf(events[i]))
  {
    RunKeepsInv(states, events, i);
    StepSafe(states[i], events[i], states[i + 1]);
  }

  /** Two successive states of a run. */
  ghost predicate Linked(states: seq<Db>, k: nat)
    requires k + 1 < |states|
  {
    IdsIssued(states[k]) && Evolves(states[k], states[k + 1])
  }

  lemma RunIsLinked(states: seq<Db>, events: seq<Event>)
    requires IsRun(states, events)
    ensures forall k: nat :: k + 1 < |states| ==> Linked(states, k)
  {
    forall k: nat | k + 1 < |states|
      ensures Linked(states, k)
    {
      RunStepSafe(states, events, k);
    }
  }

  lemma {:induction false} LinkedEvolves(states: seq<Db>, i: nat, j: nat)
    requires i <= j < |states| && forall k: nat :: k + 1 < |states| ==> Linked(states, k)
    ensures Evolves(states[i], states[j])
    decreases j - i
  {
    if i == j {
      EvolvesReflexive(states[i]);
    } else {
      assert Linked(states, i);
      LinkedEvolves(states, i + 1, j);
      EvolvesTransitive(states[i], states[i + 1], states[j]);
    }
  }

  /** Any two states of a run are related. */
  lemma RunEvolves(states: seq<Db>, events: seq<Event>, i: nat, j: nat)
    requires IsRun(states, events) && i <= j < |states|
    ensures Evolves(states[i], states[j])
  {
    RunIsLinked(states, events);
    LinkedEvolves(states, i, j);
  }
}
