/** One lemma a transaction: it is safe whenever its caller sends what the service,
    the gateway and the manager send. */
module TransactionSafety {
  import opened Wrappers
  import opened Domain
  import opened Store
  import opened Invariants
  import opened Safety

  const Leasing := Moves(true, false, false, false)
  const Renewing := Moves(false, true, false, false)

  // ---- machines ----

  predicate BundleRequest(id: Id, m: Machine, q: Job) {
    q.machine == id && q.workspace == m.workspace && q.action == Spawn && q.generation == m.generation &&
    q.key == LifecycleKey(Spawn, m.generation)
  }

  lemma CreateBundleSafe(db: Db, id: Id, m: Machine, op: Id, q: Job)
    requires Inv(db) && BundleRequest(id, m, q)
    ensures Safe(db, After(db, CreateBundle(db, id, m, op, q)), Quiet)
  {
    hide Evolves, OpsMoved, OperationsInv, RunsInv, EnvironmentsInv, TerminalsInv, RetirementKept;
    if CreateBundle(db, id, m, op, q).Committed? {
      var inserted := db.(issued := db.issued + {id}, machines := db.machines[id := m]);
      MachineWriteSafe(db, id, m);
      EnqueueSafe(inserted, op, q);
      Compose(db, inserted, After(inserted, Enqueue(inserted, op, q)), Quiet);
    } else {
      Unchanged(db, Quiet);
    }
  }

  lemma SetDesiredAndEnqueueSafe(db: Db, op: Id, q: Job)
    requires Inv(db) && LifecycleRequest(q)
    ensures Safe(db, After(db, SetDesiredAndEnqueue(db, DesiredFor(q.action), op, q)), Quiet)
  {
    hide Evolves, OpsMoved, OperationsInv, RunsInv, EnvironmentsInv, TerminalsInv, RetirementKept;
    var tx := SetDesiredAndEnqueue(db, DesiredFor(q.action), op, q);
    if tx.RolledBack? || tx.db == db {
      Unchanged(db, Quiet);
    } else {
      var m := db.machines[q.machine].(desired := DesiredFor(q.action), generation := q.generation);
      var moved := db.(machines := db.machines[q.machine := m]);
      assert moved == db.(issued := db.issued + {q.machine}, machines := db.machines[q.machine := m]);
      MachineWriteSafe(db, q.machine, m);
      EnqueueSafe(moved, op, q);
      Compose(db, moved, After(moved, Enqueue(moved, op, q)), Quiet);
    }
  }

  lemma SetMachineStateSafe(db: Db, id: Id, status: MachineStatus, network: Option<string>, volume: Option<string>)
    requires Inv(db)
    ensures Safe(db, SetMachineState(db, id, status, network, volume), Quiet)
  {
    var after := SetMachineState(db, id, status, network, volume);
    if id in db.machines {
      assert after == db.(issued := db.issued + {id}, machines := db.machines[id := after.machines[id]]);
      MachineWriteSafe(db, id, after.machines[id]);
    } else {
      Unchanged(db, Quiet);
    }
  }

  lemma SetMachineStateForOperationSafe(
    db: Db, id: Id, generation: int, allowStale: bool, status: MachineStatus, network: Option<string>, volume: Option<string>)
    requires Inv(db)
    ensures Safe(db, SetMachineStateForOperation(db, id, generation, allowStale, status, network, volume), Quiet)
  {
    if StatusWriteApplies(db, id, generation, allowStale) {
      SetMachineStateSafe(db, id, status, network, volume);
    } else {
      Unchanged(db, Quiet);
    }
  }

  // ---- leases ----

  lemma LeasedRowMoves(db: Db, id: Id, owner: string, seconds: nat)
    requires Leasable(db, id) && LedgerRow(db.operations[id])
    ensures var row := LeasedRow(db.operations[id], db.now, owner, seconds);
      LedgerRow(row) && OpMoved(db.operations[id], row, db.now, Leasing)
  {}

  lemma LeaseOperationsSafe(db: Db, owner: string, seconds: nat, chosen: set<Id>)
    requires Inv(db) && forall c :: c in chosen ==> Leasable(db, c)
    ensures Safe(db, LeaseOperations(db, owner, seconds, chosen), Leasing)
  {
    hide Leasable, LeasedRow, LedgerRow, OpMoved, Safe;
    var rows := LeaseOperations(db, owner, seconds, chosen).operations;
    forall o | o in rows
      ensures LedgerRow(rows[o]) && OpMoved(db.operations[o], rows[o], db.now, Leasing)
    {
      InLedger(db, o);
      if o in chosen {
        LeasedRowMoves(db, o, owner, seconds);
      } else {
        RowStays(rows[o], db.now, Leasing);
      }
    }
    OperationsWriteSafe(db, rows, Leasing);
  }

  lemma RowStays(row: Operation, now: Time, allow: Moves)
    ensures OpMoved(row, row, now, allow)
  {}

  /** Writing one row of the ledger. */
  lemma OperationRowSafe(db: Db, id: Id, row: Operation, allow: Moves)
    requires Inv(db) && id in db.operations && LedgerRow(row) && OpMoved(db.operations[id], row, db.now, allow)
    ensures Safe(db, db.(operations := db.operations[id := row]), allow)
  {
    hide LedgerRow, Finished, Retried, Taken, Renewed, Reset, Safe, KeysUnique, Fenced, RunsInv, EnvironmentsInv, TerminalsInv;
    OperationsWriteSafe(db, db.operations[id := row], allow);
  }

  lemma InLedger(db: Db, id: Id)
    requires Inv(db) && id in db.operations
    ensures LedgerRow(db.operations[id])
  {}

  /** The row was left alone, or it was open and is cancelled now. */
  ghost predicate CancelledOrSame(a: Operation, b: Operation, now: Time) {
    b == a || (a.status.Open() && b.errorCode.Some? && b == CancelledRow(a, now, b.errorCode.value))
  }

  lemma CancelledRowMoves(a: Operation, b: Operation, now: Time)
    requires LedgerRow(a) && CancelledOrSame(a, b, now)
    ensures LedgerRow(b) && OpMoved(a, b, now, Quiet)
  {}

  lemma CancelledRowsSafe(db: Db, rows: map<Id, Operation>)
    requires Inv(db) && rows.Keys == db.operations.Keys
    requires forall o :: o in rows ==> CancelledOrSame(db.operations[o], rows[o], db.now)
    ensures Safe(db, db.(operations := rows), Quiet)
  {
    hide LedgerRow, OpMoved, Safe, CancelledOrSame;
    forall o | o in rows
      ensures LedgerRow(rows[o]) && OpMoved(db.operations[o], rows[o], db.now, Quiet)
    {
      InLedger(db, o);
      CancelledRowMoves(db.operations[o], rows[o], db.now);
    }
    OperationsWriteSafe(db, rows, Quiet);
  }

  lemma RenewOperationLeaseSafe(db: Db, id: Id, owner: string, seconds: nat)
    requires Inv(db)
    ensures Safe(db, After(db, RenewOperationLease(db, id, owner, seconds)), Renewing)
  {
    hide Inv, Safe, Later;
    if HoldsLease(db, id, owner) {
      InLedger(db, id);
      OperationRowSafe(db, id, db.operations[id].(leaseExpires := Some(Later(db.now, seconds))), Renewing);
    } else {
      Unchanged(db, Renewing);
    }
  }

  lemma CompleteOperationSafe(db: Db, id: Id, owner: string)
    requires Inv(db)
    ensures Safe(db, After(db, CompleteOperation(db, id, owner)), Quiet)
  {
    hide Inv, Safe;
    if HoldsLease(db, id, owner) {
      InLedger(db, id);
      var row := db.operations[id].(status := OpStatus.Completed, completedAt := Some(db.now), owner := None, leaseExpires := None);
      OperationRowSafe(db, id, row, Quiet);
    } else {
      Unchanged(db, Quiet);
    }
  }

  lemma FailOperationSafe(db: Db, id: Id, owner: string, code: string, retryable: bool)
    requires Inv(db)
    ensures Safe(db, After(db, FailOperation(db, id, owner, code, retryable)), Quiet)
  {
    hide Inv, Safe, Later, Backoff;
    if id in db.operations && db.operations[id].owner == Some(owner) {
      InLedger(db, id);
      OperationRowSafe(db, id, FailedRow(db.operations[id], db.now, code, retryable), Quiet);
    } else {
      Unchanged(db, Quiet);
    }
  }

  // ---- agent runs ----

  predicate RunRequest(id: Id, machine: Id, workspace: Id, q: Job) {
    q.machine == machine && q.workspace == workspace && q.action == RunAgent && q.key == RunAgentKey(id)
  }

  lemma CreateAgentRunSafe(db: Db, id: Id, machine: Id, workspace: Id, checkout: Option<Id>, op: Id, q: Job)
    requires Inv(db) && RunRequest(id, machine, workspace, q)
    ensures Safe(db, After(db, CreateAgentRun(db, id, machine, workspace, checkout, op, q)), Quiet)
  {
    hide Evolves, OpsMoved, OperationsInv, RunsInv, EnvironmentsInv, TerminalsInv, RetirementKept;
    if CreateAgentRun(db, id, machine, workspace, checkout, op, q).Committed? {
      var run := AgentRun(machine, workspace, checkout, RunStatus.Queued, db.now, None, None);
      var inserted := db.(issued := db.issued + {id}, runs := db.runs[id := run]);
      RunWriteSafe(db, id, run);
      EnqueueSafe(inserted, op, q.(run := Some(id)));
      Compose(db, inserted, After(inserted, Enqueue(inserted, op, q.(run := Some(id)))), Quiet);
    } else {
      Unchanged(db, Quiet);
    }
  }

  lemma RunRowSafe(db: Db, id: Id, r: AgentRun)
    requires Inv(db) && id in db.runs && RunMoved(db.runs[id], r)
    requires r.status.Active() ==> db.runs[id].status.Active()
    ensures Safe(db, db.(runs := db.runs[id := r]), Quiet)
  {
    assert db.(runs := db.runs[id := r]) == db.(issued := db.issued + {id}, runs := db.runs[id := r]);
    RunWriteSafe(db, id, r);
  }

  ghost predicate CancelRequest(db: Db, id: Id, q: Job) {
    q.action == CancelAgent && q.key == CancelAgentKey(id) && ReadGeneration(db, q)
  }

  lemma CancelAgentRunSafe(db: Db, workspace: Id, id: Id, op: Id, q: Job)
    requires Inv(db) && CancelRequest(db, id, q)
    ensures Safe(db, After(db, CancelAgentRun(db, workspace, id, op, q)), Quiet)
  {
    hide Evolves, OpsMoved, OperationsInv, RunsInv, EnvironmentsInv, TerminalsInv, RetirementKept;
    if CancelAgentRun(db, workspace, id, op, q).Committed? && db.runs[id].status.Active() {
      var r := db.runs[id].(status := RunStatus.Cancelled, completedAt := Some(db.now));
      var cancelled := db.(runs := db.runs[id := r]);
      RunRowSafe(db, id, r);
      EnqueueSafe(cancelled, op, q.(run := Some(id)));
      Compose(db, cancelled, After(cancelled, Enqueue(cancelled, op, q.(run := Some(id)))), Quiet);
    } else {
      Unchanged(db, Quiet);
    }
  }

  lemma UpdateAgentRunStartedSafe(db: Db, id: Id)
    requires Inv(db)
    ensures Safe(db, After(db, UpdateAgentRunStarted(db, id)), Quiet)
  {
    var tx := UpdateAgentRunStarted(db, id);
    if tx.Committed? {
      RunRowSafe(db, id, tx.db.runs[id]);
    } else {
      Unchanged(db, Quiet);
    }
  }

  lemma CompleteAgentRunSafe(db: Db, id: Id, status: RunStatus)
    requires Inv(db) && !status.Active()
    ensures Safe(db, CompleteAgentRun(db, id, status), Quiet)
  {
    var after := CompleteAgentRun(db, id, status);
    if after != db {
      RunRowSafe(db, id, after.runs[id]);
    } else {
      Unchanged(db, Quiet);
    }
  }

  // ---- permanent deletion ----

  lemma MachineRowSafe(db: Db, id: Id, m: Machine)
    requires Inv(db) && id in db.machines && MachineMoved(db.machines[id], m)
    requires m.desired == db.machines[id].desired || (!m.desired.Running? && m.deleteRequested.Some?)
    requires m.environment == db.machines[id].environment
    ensures Safe(db, db.(machines := db.machines[id := m]), Quiet)
  {
    assert db.(machines := db.machines[id := m]) == db.(issued := db.issued + {id}, machines := db.machines[id := m]);
    MachineWriteSafe(db, id, m);
  }

  lemma QueueDeletionSafe(db: Db, machine: Id, requester: Option<Id>, minted: Id)
    requires Inv(db) && machine in db.machines
    ensures Safe(db, After(db, QueueDeletion(db, machine, requester, minted)), Quiet)
  {
    hide Evolves, OpsMoved, OperationsInv, RunsInv, EnvironmentsInv, TerminalsInv, RetirementKept;
    var m := db.machines[machine];
    var q := DeleteRequest(m, machine, requester);
    if QueueDeletion(db, machine, requester, minted).RolledBack? {
      Unchanged(db, Quiet);
    } else if FindByKey(db.operations, machine, q.key).Some? {
      MachineRowSafe(db, machine, MarkDeleted(m, db.now));
    } else {
      var written := WriteMachine(db, machine, TornDown(m, db.now, q.generation));
      MachineRowSafe(db, machine, TornDown(m, db.now, q.generation));
      EnqueueSafe(written, minted, q);
      Compose(db, written, After(written, Enqueue(written, minted, q)), Quiet);
    }
  }

  lemma RequestPermanentDeleteSafe(db: Db, workspace: Id, machine: Id, requester: Option<Id>, active: Option<Id>, minted: Id)
    requires Inv(db)
    ensures Safe(db, After(db, RequestPermanentDelete(db, workspace, machine, requester, active, minted)), Quiet)
  {
    if !Deletable(db, workspace, machine, requester) {
      Unchanged(db, Quiet);
      return;
    }
    var m := db.machines[machine];
    MachineRowSafe(db, machine, MarkDeleted(m, db.now));
    if active.Some? && active.value in db.operations {
      MachineRowSafe(db, machine, TornDown(m, db.now, Max(m.generation, db.operations[active.value].job.generation)));
    } else {
      QueueDeletionSafe(db, machine, requester, minted);
    }
  }

  lemma DroppedRuns(db: Db, gone: set<Id>)
    requires Inv(db)
    ensures var after := DropMachines(db, gone);
      OneActiveRun(after.runs) && RunsAttached(db.now, after.machines, after.runs) && RunsMoved(db.issued, db.runs, after.runs)
  {}

  lemma DroppedOperations(db: Db, gone: set<Id>)
    requires Inv(db)
    ensures var after := DropMachines(db, gone);
      && OperationsInv(after.machines, after.operations)
      && OperationsMoved(db.issued, db.operations, after.operations) && OpsMoved(db, after, Quiet)
  {
    hide RunsInv, EnvironmentsInv, TerminalsInv, LedgerRow, KeysUnique, Fenced, OperationsMoved, OpsMoved;
    FewerOperations(db, DropMachines(db, gone));
    DroppedLinks(db, gone);
  }

  lemma DroppedLinks(db: Db, gone: set<Id>)
    requires OperationsInv(db.machines, db.operations)
    ensures Fenced(DropMachines(db, gone).machines, DropMachines(db, gone).operations)
  {}

  lemma DroppedTerminals(db: Db, gone: set<Id>)
    requires Inv(db)
    ensures var after := DropMachines(db, gone);
      && SessionsAttached(after.machines, after.sessions) && ClosedTerminals(after.sessions, after.tickets) && HashesUnique(after.tickets)
      && SessionsMoved(db.issued, db.sessions, after.sessions) && TicketsMoved(db.issued, db.tickets, after.tickets)
  {}

  lemma DroppedEnvironments(db: Db, gone: set<Id>)
    requires Inv(db)
    ensures var after := DropMachines(db, gone);
      && EnvironmentsInv(after) && RetirementKept(db, after) && SameUsable(db, after)
      && EnvironmentsMoved(db.issued, db.environments, after.environments)
  {
    hide OperationsInv, RunsInv, TerminalsInv;
    var after := DropMachines(db, gone);
    assert forall e :: Usable(after.environments, e) <==> Usable(db.environments, e);
    forall e | Unnamed(db, e)
      ensures Unnamed(after, e)
    {}
    hide Unnamed, Usable;
  }

  lemma DropMachinesSafe(db: Db, gone: set<Id>)
    requires Inv(db)
    ensures Safe(db, DropMachines(db, gone), Quiet)
  {
    DroppedRuns(db, gone);
    DroppedOperations(db, gone);
    DroppedTerminals(db, gone);
    DroppedEnvironments(db, gone);
  }

  lemma PurgeSafe(db: Db, workspace: Id, machine: Id)
    requires Inv(db)
    ensures Safe(db, After(db, PurgePermanentDeleteRequest(db, workspace, machine)), Quiet)
  {
    if PurgePermanentDeleteRequest(db, workspace, machine).Committed? {
      DropMachinesSafe(db, {machine});
    } else {
      Unchanged(db, Quiet);
    }
  }

  // ---- environments ----

  lemma SettingInUse(db: Db, scope: Scope, s: Setting)
    requires s.environment.Some? ==> EnvironmentReady(db, s.workspace, s.environment.value)
    ensures NoNewUse(db, db.settings[scope := s])
  {}

  lemma UpsertScopeSettingSafe(db: Db, scope: Scope, s: Setting)
    requires Inv(db)
    ensures Safe(db, After(db, UpsertScopeSetting(db, scope, s)), Quiet)
  {
    hide Safe, Inv, NoNewUse;
    if UpsertScopeSetting(db, scope, s).Committed? {
      SettingInUse(db, scope, s);
      SettingsWriteSafe(db, db.settings[scope := s]);
    } else {
      Unchanged(db, Quiet);
    }
  }

  lemma DeleteScopeSettingSafe(db: Db, workspace: Id, scope: Scope)
    requires Inv(db)
    ensures Safe(db, DeleteScopeSetting(db, workspace, scope), Quiet)
  {
    hide Safe, Inv, NoNewUse;
    if scope in db.settings && db.settings[scope].workspace == workspace {
      FewerSettings(db, db.settings - {scope});
      SettingsWriteSafe(db, db.settings - {scope});
    } else {
      Unchanged(db, Quiet);
    }
  }

  predicate SnapshotRequest(id: Id, e: Environment, q: Job) {
    q.key == SnapshotKey(id) && e.status.Pending?
  }

  lemma CreateEnvironmentSafe(db: Db, id: Id, e: Environment, op: Id, q: Job)
    requires Inv(db) && SnapshotRequest(id, e, q)
    ensures Safe(db, After(db, CreateEnvironment(db, id, e, op, q)), Quiet)
  {
    hide Evolves, OpsMoved, OperationsInv, RunsInv, EnvironmentsInv, TerminalsInv, RetirementKept;
    if CreateEnvironment(db, id, e, op, q).Committed? {
      var inserted := db.(issued := db.issued + {id}, environments := db.environments[id := e]);
      EnvironmentWriteSafe(db, id, e);
      EnqueueSafe(inserted, op, q);
      Compose(db, inserted, After(inserted, Enqueue(inserted, op, q)), Quiet);
    } else {
      Unchanged(db, Quiet);
    }
  }

  lemma EnvironmentRowSafe(db: Db, id: Id, e: Environment)
    requires Inv(db) && id in db.environments && !db.environments[id].status.DeleteRequested?
    requires e.workspace == db.environments[id].workspace
    requires e.status.DeleteRequested? ==> SnapshotsOver(db.operations, id)
    ensures Safe(db, db.(environments := db.environments[id := e]), Quiet)
  {
    assert db.(environments := db.environments[id := e]) == db.(issued := db.issued + {id}, environments := db.environments[id := e]);
    hide Safe;
    EnvironmentWriteSafe(db, id, e);
  }

  lemma CancelSnapshotsSafe(db: Db, id: Id, code: string)
    requires Inv(db)
    ensures Safe(db, db.(operations := CancelSnapshots(db, id, code)), Quiet)
  {
    hide Safe, Inv;
    CancelledRowsSafe(db, CancelSnapshots(db, id, code));
  }

  /** When no build is active all snapshots are over once the abandoned ones are cancelled. */
  lemma CancelledIsOver(db: Db, id: Id, code: string)
    requires Inv(db) && !BuildActive(db, id)
    ensures SnapshotsOver(CancelSnapshots(db, id, code), id)
  {}

  lemma RequestEnvironmentDeletionSafe(db: Db, workspace: Id, id: Id)
    requires Inv(db)
    ensures Safe(db, After(db, RequestEnvironmentDeletion(db, workspace, id)), Quiet)
  {
    hide Evolves, OpsMoved, OperationsInv, RunsInv, EnvironmentsInv, TerminalsInv, RetirementKept;
    var tx := RequestEnvironmentDeletion(db, workspace, id);
    if tx.Committed? && !db.environments[id].status.DeleteRequested? {
      var cancelled := db.(operations := CancelSnapshots(db, id, DeletionRequestedCode));
      CancelledIsOver(db, id, DeletionRequestedCode);
      CancelSnapshotsSafe(db, id, DeletionRequestedCode);
      EnvironmentRowSafe(cancelled, id, tx.db.environments[id]);
      ComposeLast(db, cancelled, tx.db, Quiet);
    } else {
      Unchanged(db, Quiet);
    }
  }

  lemma ForgottenEnvironment(db: Db, workspace: Id, id: Id)
    requires EnvironmentsInv(db) && DeleteEnvironment(db, workspace, id).Committed?
    ensures var after := DeleteEnvironment(db, workspace, id).db;
      EnvironmentsInv(after) && RetirementKept(db, after)
  {
    var after := DeleteEnvironment(db, workspace, id).db;
    forall e
      ensures Usable(after.environments, e) <==> Usable(db.environments, e)
      ensures Unnamed(db, e) || e == id ==> Unnamed(after, e)
    {}
    assert forall e :: SnapshotsOver(db.operations, e) ==> SnapshotsOver(after.operations, e);
    hide Unnamed, Usable, SnapshotsOver;
  }

  lemma ForgottenOperations(db: Db, workspace: Id, id: Id)
    requires Inv(db) && DeleteEnvironment(db, workspace, id).Committed?
    ensures var after := DeleteEnvironment(db, workspace, id).db;
      && OperationsInv(after.machines, after.operations) && OperationsMoved(db.issued, db.operations, after.operations)
      && OpsMoved(db, after, Quiet) && after.operations.Keys <= db.operations.Keys
  {
    hide RunsInv, EnvironmentsInv, TerminalsInv, LedgerRow, KeysUnique, Fenced, OperationsMoved, OpsMoved;
    var after := DeleteEnvironment(db, workspace, id).db;
    FewerOperations(db, after);
    SameFences(db.machines, after.machines, after.operations);
  }

  /** Operations that go take nothing with them that the others need. */
  lemma FewerOperations(db: Db, after: Db)
    requires OperationsInv(db.machines, db.operations)
    requires forall o :: o in after.operations ==> o in db.operations && after.operations[o] == db.operations[o]
    ensures OperationsInv(db.machines, after.operations)
    ensures OperationsMoved(db.issued, db.operations, after.operations) && OpsMoved(db, after, Quiet)
  {}

  lemma SameFences(machines: map<Id, Machine>, after: map<Id, Machine>, ops: map<Id, Operation>)
    requires Fenced(machines, ops)
    requires forall m :: m in machines ==> m in after && after[m].workspace == machines[m].workspace && after[m].generation == machines[m].generation
    ensures Fenced(after, ops)
  {}

  lemma ForgottenMachines(db: Db, workspace: Id, id: Id)
    requires Inv(db) && DeleteEnvironment(db, workspace, id).Committed?
    ensures var after := DeleteEnvironment(db, workspace, id).db;
      && RunsInv(db.now, after.machines, db.runs) && TerminalsInv(after.machines, db.sessions, db.tickets)
      && MachinesMoved(db.issued, db.machines, after.machines) && after.machines.Keys == db.machines.Keys
  {
    hide OperationsInv, EnvironmentsInv, OneActiveRun, ClosedTerminals, HashesUnique;
  }

  lemma ForgottenRow(db: Db, workspace: Id, id: Id)
    requires DeleteEnvironment(db, workspace, id).Committed?
    ensures var after := DeleteEnvironment(db, workspace, id).db;
      && EnvironmentsMoved(db.issued, db.environments, after.environments) && after.environments.Keys <= db.environments.Keys
      && after == db.(machines := after.machines, operations := after.operations, environments := after.environments, settings := after.settings)
  {}

  lemma DeleteEnvironmentSafe(db: Db, workspace: Id, id: Id)
    requires Inv(db)
    ensures Safe(db, After(db, DeleteEnvironment(db, workspace, id)), Quiet)
  {
    hide OperationsInv, RunsInv, EnvironmentsInv, TerminalsInv, OpsMoved, RetirementKept,
         MachinesMoved, OperationsMoved, RunsMoved, EnvironmentsMoved, SessionsMoved, TicketsMoved;
    if DeleteEnvironment(db, workspace, id).Committed? {
      ForgottenEnvironment(db, workspace, id);
      ForgottenOperations(db, workspace, id);
      ForgottenMachines(db, workspace, id);
      ForgottenRow(db, workspace, id);
      TablesStay(db, db.issued);
      hide DeleteEnvironment;
    } else {
      Unchanged(db, Quiet);
    }
  }

  lemma UpdateEnvironmentStateSafe(db: Db, id: Id, status: EnvironmentStatus, imageRef: string, digest: Option<string>)
    requires Inv(db) && !status.DeleteRequested?
    ensures Safe(db, After(db, UpdateEnvironmentState(db, id, status, imageRef, digest)), Quiet)
  {
    var tx := UpdateEnvironmentState(db, id, status, imageRef, digest);
    if tx.Committed? {
      EnvironmentRowSafe(db, id, tx.db.environments[id]);
    } else {
      Unchanged(db, Quiet);
    }
  }

  lemma ReconcileEnvironmentSafe(db: Db, id: Id)
    requires Inv(db)
    ensures Safe(db, ReconcileEnvironment(db, id), Quiet)
  {
    hide Evolves, OpsMoved, OperationsInv, RunsInv, EnvironmentsInv, TerminalsInv, RetirementKept;
    if OrphanedEnvironment(db, id) {
      var cancelled := db.(operations := CancelSnapshots(db, id, SnapshotOrphanedCode));
      CancelSnapshotsSafe(db, id, SnapshotOrphanedCode);
      EnvironmentRowSafe(cancelled, id, db.environments[id].(status := EnvironmentStatus.Failed));
      ComposeLast(db, cancelled, ReconcileEnvironment(db, id), Quiet);
    } else {
      Unchanged(db, Quiet);
    }
  }

  // ---- checkouts ----

  ghost predicate CheckoutRequest(db: Db, c: Checkout, q: Job) {
    q.machine == c.machine && q.workspace == c.workspace && q.action == CheckoutIssue &&
    (q.key.CheckoutKey? || q.key.CheckoutRetryKey?) && ReadGeneration(db, q)
  }

  /** The machine takes the repository and the checkout is stored. */
  lemma StoreCheckoutSafe(db: Db, key: Id, row: Checkout, m: Machine, machine: Id)
    requires Inv(db) && machine in db.machines && m == db.machines[machine].(affinity := m.affinity)
    ensures var stored := db.(machines := db.machines[machine := m], issued := db.issued + {key}, checkouts := db.checkouts[key := row]);
      Safe(db, stored, Quiet) && SameUsable(db, stored)
  {
    hide Safe, Inv;
    var claimed := db.(machines := db.machines[machine := m]);
    MachineRowSafe(db, machine, m);
    KeepsInv(db, claimed, Quiet);
    CheckoutWriteSafe(claimed, key, row);
    Compose(db, claimed, claimed.(issued := db.issued + {key}, checkouts := db.checkouts[key := row]), Quiet);
  }

  /** The row a checkout is stored under, and what is stored. */
  ghost function CheckoutKey(db: Db, id: Id, c: Checkout): Id {
    var existing := CheckoutFor(db, c.machine, c.issue);
    if existing.Some? then existing.value else id
  }

  ghost function CheckoutRow(db: Db, c: Checkout): Checkout {
    var existing := CheckoutFor(db, c.machine, c.issue);
    if existing.Some? then db.checkouts[existing.value].(status := c.status) else c
  }

  ghost function StoredCheckout(db: Db, id: Id, c: Checkout): Db
    requires c.machine in db.machines
  {
    db.(machines := db.machines[c.machine := db.machines[c.machine].(affinity := Some(c.repository))],
        issued := db.issued + {CheckoutKey(db, id, c)}, checkouts := db.checkouts[CheckoutKey(db, id, c) := CheckoutRow(db, c)])
  }

  lemma CreateCheckoutIs(db: Db, id: Id, c: Checkout, op: Id, q: Job)
    requires IdsIssued(db) && CreateCheckout(db, id, c, op, q).Committed?
    ensures c.machine in db.machines
    ensures CreateCheckout(db, id, c, op, q) == Enqueue(StoredCheckout(db, id, c), op, q.(checkout := Some(CheckoutKey(db, id, c))))
  {
    hide Enqueue;
    var existing := CheckoutFor(db, c.machine, c.issue);
    assert existing.Some? ==> db.issued + {existing.value} == db.issued;
  }

  lemma CreateCheckoutSafe(db: Db, id: Id, c: Checkout, op: Id, q: Job)
    requires Inv(db) && CheckoutRequest(db, c, q)
    ensures Safe(db, After(db, CreateCheckout(db, id, c, op, q)), Quiet)
  {
    hide Safe, SameUsable, OperationsInv, RunsInv, EnvironmentsInv, TerminalsInv, Enqueue, CreateCheckout, CheckoutKey, CheckoutRow;
    if CreateCheckout(db, id, c, op, q).Committed? {
      CreateCheckoutIs(db, id, c, op, q);
      var stored := StoredCheckout(db, id, c);
      StoreCheckoutSafe(db, CheckoutKey(db, id, c), CheckoutRow(db, c), stored.machines[c.machine], c.machine);
      KeepsInv(db, stored, Quiet);
      EnqueueSafe(stored, op, q.(checkout := Some(CheckoutKey(db, id, c))));
      Compose(db, stored, After(stored, Enqueue(stored, op, q.(checkout := Some(CheckoutKey(db, id, c))))), Quiet);
    } else {
      Unchanged(db, Quiet);
    }
  }

  lemma UpdateCheckoutStateSafe(db: Db, id: Id, status: CheckoutStatus)
    requires Inv(db)
    ensures Safe(db, UpdateCheckoutState(db, id, status), Quiet)
  {
    if id in db.checkouts {
      assert db.issued + {id} == db.issued;
      CheckoutWriteSafe(db, id, db.checkouts[id].(status := status));
    } else {
      Unchanged(db, Quiet);
    }
  }

  lemma CancelPreparationsSafe(db: Db, id: Id)
    requires Inv(db)
    ensures Safe(db, db.(operations := ReconcileCheckout(db, id).operations), Quiet)
  {
    hide Safe, Inv, ViablePreparation;
    CancelledRowsSafe(db, ReconcileCheckout(db, id).operations);
  }

  lemma ReconcileCheckoutSafe(db: Db, id: Id)
    requires Inv(db)
    ensures Safe(db, ReconcileCheckout(db, id), Quiet)
  {
    hide Evolves, OpsMoved, OperationsInv, RunsInv, EnvironmentsInv, TerminalsInv, RetirementKept;
    if OrphanedCheckout(db, id) {
      var after := ReconcileCheckout(db, id);
      var cancelled := db.(operations := after.operations);
      CancelPreparationsSafe(db, id);
      UpdateCheckoutStateSafe(cancelled, id, CheckoutStatus.Failed);
      ComposeLast(db, cancelled, after, Quiet);
    } else {
      Unchanged(db, Quiet);
    }
  }

  // ---- terminals ----

  lemma InsertedSession(db: Db, id: Id, s: Session)
    requires TerminalsInv(db.machines, db.sessions, db.tickets) && db.sessions.Keys <= db.issued
    requires CreateTerminalSession(db, id, s).Committed?
    ensures var sessions := db.sessions[id := s];
      && TerminalsInv(db.machines, sessions, db.tickets) && SessionsMoved(db.issued, db.sessions, sessions)
      && TicketsMoved(db.issued, db.tickets, db.tickets)
  {}

  lemma CreateTerminalSessionSafe(db: Db, id: Id, s: Session)
    requires Inv(db)
    ensures Safe(db, After(db, CreateTerminalSession(db, id, s)), Quiet)
  {
    hide Safe, TerminalsInv, SessionsMoved, TicketsMoved, EnvironmentsInv, RunsInv, OperationsInv;
    var tx := CreateTerminalSession(db, id, s);
    if tx.Committed? {
      InsertedSession(db, id, s);
      TerminalsWriteSafe(db, tx.db.issued, tx.db.sessions, db.tickets);
    } else {
      Unchanged(db, Quiet);
    }
  }

  lemma EndedSession(
    issued: set<Id>, machines: map<Id, Machine>, sessions: map<Id, Session>, tickets: map<Id, Ticket>, session: Id, status: SessionStatus)
    requires session in sessions && !status.Active? && TerminalsInv(machines, sessions, tickets)
    requires sessions[session].status.Closed? ==> status.Closed?
    ensures var ended := sessions[session := sessions[session].(status := status)];
      var revoked := RevokeSessionTickets(tickets, session);
      && ended.Keys == sessions.Keys && revoked.Keys == tickets.Keys
      && TerminalsInv(machines, ended, revoked)
      && SessionsMoved(issued, sessions, ended) && TicketsMoved(issued, tickets, revoked)
  {}

  /** Ending a session together with its tickets keeps closed terminals closed. */
  lemma EndSessionSafe(db: Db, session: Id, status: SessionStatus)
    requires Inv(db) && session in db.sessions && !status.Active? && (db.sessions[session].status.Closed? ==> status.Closed?)
    ensures Safe(db, db.(sessions := db.sessions[session := db.sessions[session].(status := status)],
                         tickets := RevokeSessionTickets(db.tickets, session)), Quiet)
  {
    hide Safe, TerminalsInv, SessionsMoved, TicketsMoved, EnvironmentsInv, RunsInv, OperationsInv, RevokeSessionTickets;
    EndedSession(db.issued, db.machines, db.sessions, db.tickets, session, status);
    TerminalsWriteSafe(db, db.issued, db.sessions[session := db.sessions[session].(status := status)],
                       RevokeSessionTickets(db.tickets, session));
  }

  ghost predicate CloseRequest(machine: Id, session: Id, q: Job) {
    q.machine == machine && q.action == TerminateTerminal && q.key == TerminalCloseKey(session)
  }

  const Resetting := Moves(false, false, true, false)

  lemma EnqueueAgainSafe(db: Db, id: Id, q: Job)
    requires Inv(db) && KeyFits(q) && q.key.TerminalCloseKey? && ReadGeneration(db, q)
    ensures Safe(db, After(db, EnqueueAgain(db, id, q)), Resetting)
  {
    hide Safe, Inv, Enqueue;
    var existing := FindByKey(db.operations, q.machine, q.key);
    if existing.Some? && db.operations[existing.value].status.Final() {
      InLedger(db, existing.value);
      OperationRowSafe(db, existing.value, ResetRow(db.operations[existing.value], db.now), Resetting);
    } else {
      EnqueueSafe(db, id, q);
      QuietIsAllowed(db, After(db, Enqueue(db, id, q)), Resetting);
    }
  }

  lemma QuietIsAllowed(a: Db, b: Db, allow: Moves)
    requires Safe(a, b, Quiet)
    ensures Safe(a, b, allow)
  {
    hide Inv, Evolves, RetirementKept;
  }

  lemma RequestTerminalSessionCloseSafe(db: Db, workspace: Id, machine: Id, user: Id, session: Id, op: Id, q: Job)
    requires Inv(db) && CloseRequest(machine, session, q)
    ensures Safe(db, After(db, RequestTerminalSessionClose(db, workspace, machine, user, session, op, q)), Resetting)
  {
    hide Evolves, OpsMoved, OperationsInv, RunsInv, EnvironmentsInv, TerminalsInv, RetirementKept;
    var tx := RequestTerminalSessionClose(db, workspace, machine, user, session, op, q);
    if tx.RolledBack? || tx.db == db {
      Unchanged(db, Resetting);
    } else {
      var closing := db.(sessions := db.sessions[session := db.sessions[session].(status := SessionStatus.Closing)],
                         tickets := RevokeSessionTickets(db.tickets, session));
      var r := q.(generation := db.machines[machine].generation, session := Some(session));
      EndSessionSafe(db, session, SessionStatus.Closing);
      EnqueueAgainSafe(closing, op, r);
      assert tx.db == After(closing, EnqueueAgain(closing, op, r));
      Compose(db, closing, After(closing, EnqueueAgain(closing, op, r)), Resetting);
    }
  }

  lemma CompleteTerminalSessionCloseSafe(db: Db, session: Id)
    requires Inv(db)
    ensures Safe(db, CompleteTerminalSessionClose(db, session), Quiet)
  {
    if session in db.sessions {
      EndSessionSafe(db, session, SessionStatus.Closed);
    } else {
      assert RevokeSessionTickets(db.tickets, session) == db.tickets;
      Unchanged(db, Quiet);
    }
  }

  /** Sessions that stay on their machine and as active as they were. */
  lemma SessionsAlike(issued: set<Id>, machines: map<Id, Machine>, sessions: map<Id, Session>, after: map<Id, Session>, tickets: map<Id, Ticket>)
    requires TerminalsInv(machines, sessions, tickets) && after.Keys == sessions.Keys
    requires forall s :: s in sessions ==>
               SessionMoved(sessions[s], after[s]) && (after[s].status.Active? <==> sessions[s].status.Active?)
    ensures TerminalsInv(machines, after, tickets) && SessionsMoved(issued, sessions, after)
  {
    hide HashesUnique;
  }

  lemma FailTerminalSessionCloseSafe(db: Db, session: Id)
    requires Inv(db)
    ensures Safe(db, FailTerminalSessionClose(db, session), Quiet)
  {
    if session in db.sessions && db.sessions[session].status.Closing? {
      var after := db.sessions[session := db.sessions[session].(status := SessionStatus.CloseFailed)];
      TablesStay(db, db.issued);
      SessionsAlike(db.issued, db.machines, db.sessions, after, db.tickets);
      hide Safe, TerminalsInv, SessionsMoved, TicketsMoved, EnvironmentsInv, RunsInv, OperationsInv;
      assert after.Keys == db.sessions.Keys;
      TerminalsWriteSafe(db, db.issued, after, db.tickets);
    } else {
      Unchanged(db, Quiet);
    }
  }

  lemma InsertedTicket(db: Db, id: Id, t: Ticket, a: Access)
    requires TerminalsInv(db.machines, db.sessions, db.tickets) && db.tickets.Keys <= db.issued
    requires CreateAccessTicket(db, id, t, a).Committed?
    ensures var tickets := db.tickets[id := t];
      && TerminalsInv(db.machines, db.sessions, tickets) && TicketsMoved(db.issued, db.tickets, tickets)
      && SessionsMoved(db.issued, db.sessions, db.sessions)
  {}

  lemma CreateAccessTicketSafe(db: Db, id: Id, t: Ticket, a: Access)
    requires Inv(db)
    ensures Safe(db, After(db, CreateAccessTicket(db, id, t, a)), Quiet)
  {
    hide Safe, TerminalsInv, SessionsMoved, TicketsMoved, EnvironmentsInv, RunsInv, OperationsInv;
    var tx := CreateAccessTicket(db, id, t, a);
    if tx.Committed? {
      InsertedTicket(db, id, t, a);
      TerminalsWriteSafe(db, tx.db.issued, db.sessions, tx.db.tickets);
    } else {
      Unchanged(db, Quiet);
    }
  }

  predicate MayBeUsed(sessions: map<Id, Session>, t: Ticket) {
    t.session.None? || (t.session.value in sessions && sessions[t.session.value].status.Active?)
  }

  lemma WrittenTicket(issued: set<Id>, machines: map<Id, Machine>, sessions: map<Id, Session>, tickets: map<Id, Ticket>, id: Id, status: TicketStatus)
    requires TerminalsInv(machines, sessions, tickets) && id in tickets && !status.Active?
    requires status.Used? ==> MayBeUsed(sessions, tickets[id])
    ensures var after := tickets[id := tickets[id].(status := status)];
      TerminalsInv(machines, sessions, after) && TicketsMoved(issued, tickets, after) && SessionsMoved(issued, sessions, sessions)
  {}

  lemma TicketRowSafe(db: Db, id: Id, status: TicketStatus)
    requires Inv(db) && id in db.tickets && !status.Active?
    requires status.Used? ==> MayBeUsed(db.sessions, db.tickets[id])
    ensures Safe(db, db.(tickets := db.tickets[id := db.tickets[id].(status := status)]), Quiet)
  {
    hide Safe, TerminalsInv, SessionsMoved, TicketsMoved, EnvironmentsInv, RunsInv, OperationsInv, MayBeUsed;
    var tickets := db.tickets[id := db.tickets[id].(status := status)];
    assert tickets.Keys == db.tickets.Keys;
    WrittenTicket(db.issued, db.machines, db.sessions, db.tickets, id, status);
    TerminalsWriteSafe(db, db.issued, db.sessions, tickets);
  }

  lemma ConsumeAccessTicketSafe(db: Db, tokenHash: string, host: string, a: Access)
    requires Inv(db)
    ensures Safe(db, ConsumeAccessTicket(db, tokenHash, host, a).0, Quiet)
  {
    hide Safe, Inv;
    var consumed := ConsumeAccessTicket(db, tokenHash, host, a).1;
    if consumed.Some? {
      TicketRowSafe(db, consumed.value, TicketStatus.Used);
    } else {
      Unchanged(db, Quiet);
    }
  }

  lemma RevokedTickets(db: Db, machine: Id)
    requires TerminalsInv(db.machines, db.sessions, db.tickets)
    ensures var after := RevokeMachineAccess(db, machine);
      && TerminalsInv(db.machines, db.sessions, after.tickets) && TicketsMoved(db.issued, db.tickets, after.tickets)
      && SessionsMoved(db.issued, db.sessions, db.sessions)
  {}

  lemma RevokeMachineAccessSafe(db: Db, machine: Id)
    requires Inv(db)
    ensures Safe(db, RevokeMachineAccess(db, machine), Quiet)
  {
    hide Safe, TerminalsInv, SessionsMoved, TicketsMoved, EnvironmentsInv, RunsInv, OperationsInv;
    var after := RevokeMachineAccess(db, machine);
    RevokedTickets(db, machine);
    assert after.tickets.Keys == db.tickets.Keys;
    TerminalsWriteSafe(db, db.issued, db.sessions, after.tickets);
  }

  // ---- transactions that visit several rows ----

  lemma QuietTransitive(a: Db, b: Db, c: Db)
    requires Inv(a) && Safe(a, b, Quiet) && Safe(b, c, Quiet) && a.now == b.now && a.operations.Keys == b.operations.Keys
    requires SameUsable(b, c)
    ensures Safe(a, c, Quiet)
  {
    EvolvesTransitive(a, b, c);
    QuietMovesTransitive(a, b, c);
    RetirementTransitive(a, b, c);
  }

  lemma ReconcileKeepsUsable(db: Db, id: Id)
    ensures SameUsable(db, ReconcileEnvironment(db, id)) && SameUsable(db, ReconcileCheckout(db, id))
  {
    hide OrphanedEnvironment, CancelSnapshots, ReconcileCheckout;
    if OrphanedEnvironment(db, id) {
      OrphanStored(db, id);
    }
  }

  lemma OrphanStored(db: Db, id: Id)
    requires OrphanedEnvironment(db, id)
    ensures id in db.environments && !db.environments[id].status.DeleteRequested?
  {}

  lemma QuietMovesTransitive(a: Db, b: Db, c: Db)
    requires OpsMoved(a, b, Quiet) && OpsMoved(b, c, Quiet) && a.now == b.now
    requires OperationsMoved(a.issued, a.operations, b.operations) && OperationsMoved(b.issued, b.operations, c.operations)
    requires a.issued <= b.issued && a.operations.Keys == b.operations.Keys
    ensures OpsMoved(a, c, Quiet)
  {
    forall o | o in a.operations && o in c.operations
      ensures OpMoved(a.operations[o], c.operations[o], a.now, Quiet)
    {
      assert o in b.operations;
    }
  }

  lemma VisitEnvironment(a: Db, b: Db, id: Id) returns (c: Db)
    requires Inv(a) && Safe(a, b, Quiet) && a.now == b.now && a.operations.Keys == b.operations.Keys
    ensures c == ReconcileEnvironment(b, id) && Safe(a, c, Quiet) && a.now == c.now && a.operations.Keys == c.operations.Keys
  {
    hide Inv, Evolves, OpsMoved, RetirementKept, SameUsable, ReconcileEnvironment;
    c := ReconcileEnvironment(b, id);
    ReconcileKeepsUsable(b, id);
    ReconcileEnvironmentSafe(b, id);
    QuietTransitive(a, b, c);
  }

  lemma {:induction false} ReconcileOrphanedEnvironmentsSafe(db: Db, ids: seq<Id>) returns (after: Db)
    requires Inv(db)
    ensures after == ReconcileOrphanedEnvironments(db, ids) && Safe(db, after, Quiet)
    ensures after.now == db.now && after.operations.Keys == db.operations.Keys
  {
    if ids == [] {
      after := db;
      Unchanged(db, Quiet);
    } else {
      after := ReconcileOrphanedEnvironmentsSafe(db, ids[..|ids| - 1]);
      after := VisitEnvironment(db, after, ids[|ids| - 1]);
    }
  }

  lemma VisitCheckout(a: Db, b: Db, id: Id) returns (c: Db)
    requires Inv(a) && Safe(a, b, Quiet) && a.now == b.now && a.operations.Keys == b.operations.Keys
    ensures c == ReconcileCheckout(b, id) && Safe(a, c, Quiet) && a.now == c.now && a.operations.Keys == c.operations.Keys
  {
    hide Inv, Evolves, OpsMoved, RetirementKept, SameUsable, ReconcileCheckout;
    c := ReconcileCheckout(b, id);
    ReconcileKeepsUsable(b, id);
    ReconcileCheckoutSafe(b, id);
    QuietTransitive(a, b, c);
  }

  lemma {:induction false} ReconcileOrphanedCheckoutsSafe(db: Db, ids: seq<Id>) returns (after: Db)
    requires Inv(db)
    ensures after == ReconcileOrphanedCheckouts(db, ids) && Safe(db, after, Quiet)
    ensures after.now == db.now && after.operations.Keys == db.operations.Keys
  {
    if ids == [] {
      after := db;
      Unchanged(db, Quiet);
    } else {
      after := ReconcileOrphanedCheckoutsSafe(db, ids[..|ids| - 1]);
      after := VisitCheckout(db, after, ids[|ids| - 1]);
    }
  }

  // ---- deleting a workspace, and rows that go with others ----

  lemma CancelWorkspaceSnapshotsSafe(db: Db, workspace: Id)
    requires Inv(db)
    ensures Safe(db, db.(operations := CancelWorkspaceSnapshots(db, workspace)), Quiet)
  {
    hide Safe, Inv;
    CancelledRowsSafe(db, CancelWorkspaceSnapshots(db, workspace));
  }

  /** An environment the statement marks has no snapshot going on once the workspace's
      abandoned ones are cancelled. */
  lemma MarkedIsOver(db: Db, workspace: Id, e: Id)
    requires Inv(db) && e in db.environments && db.environments[e].workspace == workspace && !BuildActive(db, e)
    ensures SnapshotsOver(CancelWorkspaceSnapshots(db, workspace), e)
  {
    assert SnapshotsAttached(db.environments, db.operations) && Ledger(db.operations);
    hide Inv;
  }

  lemma MarkedAreWritten(db: Db, workspace: Id)
    requires Inv(db)
    ensures EnvironmentsWritten(db.(operations := CancelWorkspaceSnapshots(db, workspace)), MarkEnvironments(db, workspace))
    ensures MarkEnvironments(db, workspace).Keys == db.environments.Keys <= db.issued
  {
    hide OperationsInv, RunsInv, EnvironmentsInv, TerminalsInv, SnapshotsOver, BuildActive, CancelWorkspaceSnapshots;
    forall e | e in db.environments && db.environments[e].workspace == workspace && !BuildActive(db, e)
      ensures SnapshotsOver(CancelWorkspaceSnapshots(db, workspace), e)
    {
      MarkedIsOver(db, workspace, e);
    }
  }

  lemma MarkEnvironmentsSafe(db: Db, workspace: Id)
    requires Inv(db)
    ensures Safe(db, db.(operations := CancelWorkspaceSnapshots(db, workspace), environments := MarkEnvironments(db, workspace)), Quiet)
  {
    hide Evolves, OpsMoved, OperationsInv, RunsInv, EnvironmentsInv, TerminalsInv, RetirementKept, EnvironmentsWritten,
         CancelWorkspaceSnapshots, MarkEnvironments;
    CancelWorkspaceSnapshotsSafe(db, workspace);
    MarkedAreWritten(db, workspace);
    var cancelled := db.(operations := CancelWorkspaceSnapshots(db, workspace));
    EnvironmentsWriteSafe(cancelled, cancelled.issued, MarkEnvironments(db, workspace));
    assert cancelled.(issued := cancelled.issued, environments := MarkEnvironments(db, workspace)) ==
           db.(operations := CancelWorkspaceSnapshots(db, workspace), environments := MarkEnvironments(db, workspace));
    ComposeLast(db, cancelled, cancelled.(environments := MarkEnvironments(db, workspace)), Quiet);
  }

  lemma PoliciesWriteSafe(db: Db, policies: map<Id, Policy>)
    requires Inv(db)
    ensures Safe(db, db.(policies := policies), Quiet)
  {
    hide OpsMoved, OperationsInv, RunsInv, EnvironmentsInv, TerminalsInv, RetirementKept,
         MachinesMoved, OperationsMoved, RunsMoved, EnvironmentsMoved, SessionsMoved, TicketsMoved;
    TablesStay(db, db.issued);
    RetiredByTables(db, db.(policies := policies));
    OperationsStay(db, db.(policies := policies), Quiet);
  }

  lemma FewerSettings(db: Db, settings: map<Scope, Setting>)
    requires forall s :: s in settings ==> s in db.settings && settings[s] == db.settings[s]
    ensures NoNewUse(db, settings)
  {}

  lemma KeepsInv(a: Db, b: Db, allow: Moves)
    requires Safe(a, b, allow)
    ensures Inv(b)
  {}

  /** The settings of the workspace, after its machines. */
  lemma DropSettingsSafe(a: Db, b: Db, settings: map<Scope, Setting>)
    requires Inv(a) && Safe(a, b, Quiet)
    requires forall s :: s in settings ==> s in b.settings && settings[s] == b.settings[s]
    ensures Safe(a, b.(settings := settings), Quiet)
  {
    hide Safe, Inv, NoNewUse, SameUsable;
    KeepsInv(a, b, Quiet);
    FewerSettings(b, settings);
    SettingsWriteSafe(b, settings);
    SameRows(b, b.(settings := settings));
    ComposeLast(a, b, b.(settings := settings), Quiet);
  }

  lemma DropPoliciesSafe(a: Db, b: Db, policies: map<Id, Policy>)
    requires Inv(a) && Safe(a, b, Quiet)
    ensures Safe(a, b.(policies := policies), Quiet)
  {
    hide Safe, Inv, SameUsable;
    KeepsInv(a, b, Quiet);
    PoliciesWriteSafe(b, policies);
    SameRows(b, b.(policies := policies));
    ComposeLast(a, b, b.(policies := policies), Quiet);
  }

  lemma SameRows(a: Db, b: Db)
    requires a.environments == b.environments
    ensures SameUsable(a, b)
  {}

  lemma DropWorkspaceSafe(db: Db, workspace: Id)
    requires Inv(db)
    ensures Safe(db, DropWorkspace(db, workspace), Quiet)
  {
    hide Safe, Inv, DropMachines, MachinesOf, OtherSettings;
    var dropped := DropMachines(db, MachinesOf(db, workspace));
    DropMachinesSafe(db, MachinesOf(db, workspace));
    DropSettingsSafe(db, dropped, OtherSettings(db, workspace));
    DropPoliciesSafe(db, dropped.(settings := OtherSettings(db, workspace)), db.policies - {workspace});
  }

  lemma DeleteWorkspaceSafe(db: Db, workspace: Id)
    requires Inv(db)
    ensures Safe(db, After(db, DeleteWorkspace(db, workspace)), Quiet)
  {
    hide Safe, Inv, CancelWorkspaceSnapshots, MarkEnvironments, DropWorkspace, HasRuntimes, HasEnvironments;
    if HasRuntimes(db, workspace) {
      Unchanged(db, Quiet);
    } else if HasEnvironments(db, workspace) {
      MarkEnvironmentsSafe(db, workspace);
    } else {
      DropWorkspaceSafe(db, workspace);
    }
  }

  const Forgetting := Moves(false, false, false, true)

  lemma ForgetMoves(a: Operation, users: set<Id>, now: Time)
    requires LedgerRow(a)
    ensures LedgerRow(ForgetRequester(a, users)) && JobKept(a, ForgetRequester(a, users))
    ensures OpMoved(a, ForgetRequester(a, users), now, Forgetting)
  {}

  lemma ErasedOperations(db: Db, gone: Erased)
    requires OperationsInv(db.machines, db.operations)
    ensures var after := EraseRows(db, gone);
      && OperationsInv(after.machines, after.operations) && OperationsMoved(db.issued, db.operations, after.operations)
      && OpsMoved(db, after, Forgetting)
  {
    hide LedgerRow, OpMoved;
    forall o | o in db.operations
      ensures LedgerRow(ForgetRequester(db.operations[o], gone.users)) && JobKept(db.operations[o], ForgetRequester(db.operations[o], gone.users))
      ensures OpMoved(db.operations[o], ForgetRequester(db.operations[o], gone.users), db.now, Forgetting)
    {
      ForgetMoves(db.operations[o], gone.users, db.now);
    }
    hide Cleared;
  }

  lemma ErasedMachines(db: Db, gone: Erased)
    requires RunsInv(db.now, db.machines, db.runs)
    ensures var after := EraseRows(db, gone);
      && RunsInv(db.now, after.machines, after.runs)
      && MachinesMoved(db.issued, db.machines, after.machines) && RunsMoved(db.issued, db.runs, after.runs)
  {}

  lemma ErasedTerminals(db: Db, gone: Erased)
    requires TerminalsInv(db.machines, db.sessions, db.tickets) && ClosedErasure(db, gone)
    ensures var after := EraseRows(db, gone);
      && TerminalsInv(after.machines, after.sessions, after.tickets)
      && SessionsMoved(db.issued, db.sessions, after.sessions) && TicketsMoved(db.issued, db.tickets, after.tickets)
  {}

  lemma ErasedNames(db: Db, gone: Erased)
    requires EnvironmentsInv(db)
    ensures EnvironmentsInv(EraseRows(db, gone)) && RetirementKept(db, EraseRows(db, gone))
  {
    var after := EraseRows(db, gone);
    assert forall e :: Unnamed(db, e) ==> Unnamed(after, e);
    assert forall e :: SnapshotsOver(db.operations, e) ==> SnapshotsOver(after.operations, e);
    hide Unnamed, Usable, SnapshotsOver;
  }

  lemma EraseRowsSafe(db: Db, gone: Erased)
    requires Inv(db) && ClosedErasure(db, gone)
    ensures Safe(db, EraseRows(db, gone), Forgetting)
  {
    hide OpsMoved, OperationsInv, RunsInv, EnvironmentsInv, TerminalsInv, RetirementKept, ClosedErasure,
         MachinesMoved, OperationsMoved, RunsMoved, EnvironmentsMoved, SessionsMoved, TicketsMoved;
    TablesStay(db, db.issued);
    ErasedOperations(db, gone);
    ErasedMachines(db, gone);
    ErasedTerminals(db, gone);
    ErasedNames(db, gone);
  }
}
