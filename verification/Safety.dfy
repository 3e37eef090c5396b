/** Transactions as writes to one table at a time: what makes each write safe. */
module Safety {
  import opened Wrappers
  import opened Domain
  import opened Store
  import opened Invariants

  // ---- what the callers send ----

  /** The desired status the service and the reconciler pair with a lifecycle action. */
  function DesiredFor(action: Action): MachineStatus
    requires action in LifecycleActions - {Reconcile}
  {
    match action
    case Spawn => MachineStatus.Running
    case Start => MachineStatus.Running
    case Pause => MachineStatus.Paused
    case Stop => MachineStatus.Stopped
    case Teardown => MachineStatus.Destroyed
  }

  predicate LifecycleRequest(q: Job) {
    q.action in LifecycleActions - {Reconcile} &&
    (q.key.LifecycleKey? || q.key.ClientKey? || q.key.IdlePauseKey? || q.key.TtlTeardownKey? || q.key.DiskQuotaKey?)
  }

  /** The generation was read from the machine row at some earlier time. */
  ghost predicate ReadGeneration(db: Db, q: Job) {
    q.machine in db.machines ==> q.generation <= db.machines[q.machine].generation
  }

  // ---- composing a transaction from two parts ----

  lemma OpsMovedFrom(a: Db, b: Db, c: Db, allow: Moves)
    requires a.operations == b.operations && a.now == b.now && OpsMoved(b, c, allow)
    ensures OpsMoved(a, c, allow)
  {}

  lemma OpsMovedTo(a: Db, b: Db, c: Db, allow: Moves)
    requires OpsMoved(a, b, allow) && b.operations == c.operations
    ensures OpsMoved(a, c, allow)
  {}

  ghost predicate SameUsable(a: Db, b: Db) {
    forall e :: Usable(a.environments, e) <==> Usable(b.environments, e)
  }

  lemma RetirementTransitive(a: Db, b: Db, c: Db)
    requires RetirementKept(a, b) && RetirementKept(b, c) && (SameUsable(a, b) || SameUsable(b, c))
    ensures RetirementKept(a, c)
  {
    hide Unnamed, Usable;
  }

  lemma Compose(a: Db, b: Db, c: Db, allow: Moves)
    requires Inv(a) && Safe(a, b, Quiet) && a.operations == b.operations && a.now == b.now && Safe(b, c, allow)
    requires SameUsable(a, b) || SameUsable(b, c)
    ensures Safe(a, c, allow)
  {
    hide Evolves, OpsMoved, OperationsInv, RunsInv, EnvironmentsInv, TerminalsInv, RetirementKept, SameUsable;
    EvolvesTransitive(a, b, c);
    OpsMovedFrom(a, b, c, allow);
    RetirementTransitive(a, b, c);
  }

  /** As Compose, when it is the second part that leaves the operations alone. */
  lemma ComposeLast(a: Db, b: Db, c: Db, allow: Moves)
    requires Inv(a) && Safe(a, b, allow) && Safe(b, c, Quiet) && b.operations == c.operations
    requires SameUsable(a, b) || SameUsable(b, c)
    ensures Safe(a, c, allow)
  {
    hide Evolves, OpsMoved, OperationsInv, RunsInv, EnvironmentsInv, TerminalsInv, RetirementKept, SameUsable;
    EvolvesTransitive(a, b, c);
    OpsMovedTo(a, b, c, allow);
    RetirementTransitive(a, b, c);
  }

  lemma Unchanged(db: Db, allow: Moves)
    requires Inv(db)
    ensures Safe(db, db, allow)
  {
    hide Inv, Evolves, OpsMoved;
    EvolvesReflexive(db);
    OperationsStay(db, db, allow);
  }

  lemma LaterRuns(now: Time, later: Time, machines: map<Id, Machine>, runs: map<Id, AgentRun>)
    requires RunsInv(now, machines, runs) && now <= later
    ensures RunsInv(later, machines, runs)
  {}

  lemma RetiredByTables(a: Db, b: Db)
    requires EnvironmentsInv(a)
    requires a.environments == b.environments && a.settings == b.settings && a.machines == b.machines && a.operations == b.operations
    ensures EnvironmentsInv(b) && RetirementKept(a, b)
  {
    NamesByTables(a, b);
    hide Unnamed, Usable, SnapshotsOver, SnapshotsAttached;
  }

  /** Who names an environment depends on the settings and the machines alone. */
  lemma NamesByTables(a: Db, b: Db)
    requires a.settings == b.settings && a.machines == b.machines
    ensures forall e :: Unnamed(a, e) <==> Unnamed(b, e)
  {}

  lemma TickSafe(db: Db, later: Time)
    requires Inv(db) && db.now <= later
    ensures Safe(db, db.(now := later), Quiet)
  {
    hide OpsMoved, OperationsInv, RunsInv, EnvironmentsInv, TerminalsInv, RetirementKept,
         MachinesMoved, OperationsMoved, RunsMoved, EnvironmentsMoved, SessionsMoved, TicketsMoved;
    TablesStay(db, db.issued);
    LaterRuns(db.now, later, db.machines, db.runs);
    RetiredByTables(db, db.(now := later));
    OperationsStay(db, db.(now := later), Quiet);
  }

  // ---- one table at a time: operations ----

  lemma UpdatedRows(issued: set<Id>, machines: map<Id, Machine>, ops: map<Id, Operation>, rows: map<Id, Operation>)
    requires OperationsInv(machines, ops) && rows.Keys <= ops.Keys
    requires forall o :: o in rows ==> LedgerRow(rows[o]) && JobKept(ops[o], rows[o])
    ensures OperationsInv(machines, rows) && OperationsMoved(issued, ops, rows)
  {}

  lemma MovedKeepsJob(a: Operation, b: Operation, now: Time, allow: Moves)
    requires OpMoved(a, b, now, allow)
    ensures JobKept(a, b)
  {}

  /** A finished snapshot stays finished: only a terminal close can be reset. */
  lemma SnapshotStaysClosed(a: Operation, b: Operation, now: Time, allow: Moves)
    requires LedgerRow(a) && OpMoved(a, b, now, allow) && a.job.action == SnapshotEnvironment && !a.status.Open()
    ensures !b.status.Open()
  {}

  lemma RetiredAfterUpdate(db: Db, rows: map<Id, Operation>, allow: Moves)
    requires EnvironmentsInv(db) && Ledger(db.operations) && rows.Keys <= db.operations.Keys
    requires forall o :: o in rows ==> OpMoved(db.operations[o], rows[o], db.now, allow)
    ensures EnvironmentsInv(db.(operations := rows)) && RetirementKept(db, db.(operations := rows))
  {
    hide OpMoved, LedgerRow, Unnamed, Usable;
    var after := db.(operations := rows);
    NamesByTables(db, after);
    forall o | o in rows
      ensures rows[o].job == db.operations[o].job.(requestedBy := rows[o].job.requestedBy)
      ensures rows[o].job.action == SnapshotEnvironment && !db.operations[o].status.Open() ==> !rows[o].status.Open()
    {
      MovedKeepsJob(db.operations[o], rows[o], db.now, allow);
      if rows[o].job.action == SnapshotEnvironment && !db.operations[o].status.Open() {
        SnapshotStaysClosed(db.operations[o], rows[o], db.now, allow);
      }
    }
  }

  lemma OperationsWriteSafe(db: Db, rows: map<Id, Operation>, allow: Moves)
    requires Inv(db) && rows.Keys <= db.operations.Keys
    requires forall o :: o in rows ==> LedgerRow(rows[o]) && OpMoved(db.operations[o], rows[o], db.now, allow)
    ensures Safe(db, db.(operations := rows), allow)
  {
    hide OpMoved, LedgerRow, JobKept, RunsInv, EnvironmentsInv, TerminalsInv, RetirementKept, KeysUnique, Fenced,
         MachinesMoved, OperationsMoved, RunsMoved, EnvironmentsMoved, SessionsMoved, TicketsMoved;
    var after := db.(operations := rows);
    forall o | o in rows
      ensures JobKept(db.operations[o], rows[o])
    {
      MovedKeepsJob(db.operations[o], rows[o], db.now, allow);
    }
    TablesStay(db, db.issued);
    UpdatedRows(db.issued, db.machines, db.operations, rows);
    RetiredAfterUpdate(db, rows, allow);
  }

  lemma InsertedRow(issued: set<Id>, machines: map<Id, Machine>, ops: map<Id, Operation>, id: Id, row: Operation)
    requires OperationsInv(machines, ops) && ops.Keys <= issued && id !in issued && LedgerRow(row)
    requires forall o :: o in ops ==> ops[o].job.machine != row.job.machine || ops[o].job.key != row.job.key
    requires row.job.machine in machines && row.job.workspace == machines[row.job.machine].workspace
    requires row.job.generation <= machines[row.job.machine].generation
    ensures OperationsInv(machines, ops[id := row]) && OperationsMoved(issued, ops, ops[id := row])
  {}

  /** A snapshot is queued for an environment that may be used. */
  ghost predicate SnapshotUsable(db: Db, q: Job) {
    q.action == SnapshotEnvironment ==> SnapshotFits(db.environments, q) && Usable(db.environments, q.environment.value)
  }

  lemma RetiredAfterInsert(db: Db, id: Id, row: Operation)
    requires EnvironmentsInv(db) && SnapshotUsable(db, row.job)
    ensures var after := db.(issued := db.issued + {id}, operations := db.operations[id := row]);
      EnvironmentsInv(after) && RetirementKept(db, after)
  {
    var after := db.(issued := db.issued + {id}, operations := db.operations[id := row]);
    NamesByTables(db, after);
    hide Unnamed;
  }

  lemma InsertMoves(db: Db, issued: set<Id>, id: Id, row: Operation)
    requires id !in db.operations && row.status.Pending? && row.attempts == 0
    ensures OpsMoved(db, db.(issued := issued, operations := db.operations[id := row]), Quiet)
  {}

  lemma InsertOperationSafe(db: Db, id: Id, row: Operation)
    requires Inv(db) && id !in db.issued && LedgerRow(row) && row.status.Pending? && row.attempts == 0
    requires forall o :: o in db.operations ==> db.operations[o].job.machine != row.job.machine || db.operations[o].job.key != row.job.key
    requires row.job.machine in db.machines && row.job.workspace == db.machines[row.job.machine].workspace
    requires row.job.generation <= db.machines[row.job.machine].generation
    requires SnapshotUsable(db, row.job)
    ensures Safe(db, db.(issued := db.issued + {id}, operations := db.operations[id := row]), Quiet)
  {
    hide OpsMoved, LedgerRow, OperationsInv, RunsInv, EnvironmentsInv, TerminalsInv, RetirementKept, SnapshotUsable,
         MachinesMoved, OperationsMoved, RunsMoved, EnvironmentsMoved, SessionsMoved, TicketsMoved;
    TablesStay(db, db.issued);
    InsertedRow(db.issued, db.machines, db.operations, id, row);
    RetiredAfterInsert(db, id, row);
    InsertMoves(db, db.issued + {id}, id, row);
  }

  lemma EnqueueSafe(db: Db, id: Id, q: Job)
    requires Inv(db) && KeyFits(q) && ReadGeneration(db, q)
    requires SnapshotUsable(db, q)
    ensures Safe(db, After(db, Enqueue(db, id, q)), Quiet)
  {
    hide Safe, Inv;
    if Enqueue(db, id, q).Committed? && FindByKey(db.operations, q.machine, q.key).None? {
      InsertOperationSafe(db, id, NewOperation(db.now, q));
    } else {
      Unchanged(db, Quiet);
    }
  }

  // ---- one table at a time: machines ----

  /** The environments a machine with desired status running may name. */
  ghost predicate MachineMayRun(db: Db, id: Id, m: Machine) {
    m.desired.Running? && m.environment.Some? ==>
      (id in db.machines && db.machines[id].desired.Running? && m.environment == db.machines[id].environment) ||
      Usable(db.environments, m.environment.value)
  }

  lemma RetiredAfterMachineWrite(db: Db, id: Id, m: Machine)
    requires EnvironmentsInv(db) && MachineMayRun(db, id, m)
    ensures var after := db.(issued := db.issued + {id}, machines := db.machines[id := m]);
      EnvironmentsInv(after) && RetirementKept(db, after)
  {
    var after := db.(issued := db.issued + {id}, machines := db.machines[id := m]);
    forall e | !Usable(db.environments, e) && Unnamed(db, e)
      ensures Unnamed(after, e)
    {}
    hide Unnamed, SnapshotsOver, SnapshotsAttached;
  }

  lemma WrittenMachine(db: Db, id: Id, m: Machine)
    requires Inv(db)
    requires if id in db.machines then MachineMoved(db.machines[id], m) else id !in db.issued
    requires id in db.machines && !m.desired.Running? && db.machines[id].desired.Running? && m.deleteRequested.None? ==>
               !HasActiveRun(db.runs, id)
    ensures var machines := db.machines[id := m];
      && OperationsInv(machines, db.operations) && RunsInv(db.now, machines, db.runs)
      && TerminalsInv(machines, db.sessions, db.tickets) && MachinesMoved(db.issued, db.machines, machines)
  {
    hide EnvironmentsInv, KeysUnique, OneActiveRun, Ledger, ClosedTerminals, HashesUnique;
    var machines := db.machines[id := m];
    assert RunsAttached(db.now, machines, db.runs) by {
      forall r | r in db.runs && db.runs[r].machine == id && db.runs[r].status.Active()
        ensures m.desired.Running? || m.deleteRequested.Some?
      {
        assert id in db.machines;
      }
    }
  }

  /** Inserting a machine or writing its desired status, generation, status or names. */
  lemma MachineWriteSafe(db: Db, id: Id, m: Machine)
    requires Inv(db) && MachineMayRun(db, id, m)
    requires if id in db.machines then MachineMoved(db.machines[id], m) else id !in db.issued
    requires id in db.machines && !m.desired.Running? && db.machines[id].desired.Running? && m.deleteRequested.None? ==>
               !HasActiveRun(db.runs, id)
    ensures Safe(db, db.(issued := db.issued + {id}, machines := db.machines[id := m]), Quiet)
  {
    hide OpsMoved, OperationsInv, RunsInv, EnvironmentsInv, TerminalsInv, RetirementKept, HasActiveRun, MachineMayRun,
         MachinesMoved, OperationsMoved, RunsMoved, EnvironmentsMoved, SessionsMoved, TicketsMoved;
    var after := db.(issued := db.issued + {id}, machines := db.machines[id := m]);
    TablesStay(db, db.issued);
    WrittenMachine(db, id, m);
    RetiredAfterMachineWrite(db, id, m);
    OperationsStay(db, after, Quiet);
  }

  // ---- one table at a time: runs, environments, settings, checkouts, terminals ----

  lemma WrittenRun(db: Db, id: Id, r: AgentRun)
    requires RunsInv(db.now, db.machines, db.runs) && db.runs.Keys <= db.issued
    requires if id in db.runs then RunMoved(db.runs[id], r) else id !in db.issued
    requires r.machine in db.machines && r.workspace == db.machines[r.machine].workspace && r.createdAt <= db.now
    requires r.status.Active() ==> db.machines[r.machine].desired.Running? || db.machines[r.machine].deleteRequested.Some?
    requires r.status.Active() && (id in db.runs ==> !db.runs[id].status.Active()) ==> !HasActiveRun(db.runs, r.machine)
    ensures RunsInv(db.now, db.machines, db.runs[id := r]) && RunsMoved(db.issued, db.runs, db.runs[id := r])
  {}

  lemma RunWriteSafe(db: Db, id: Id, r: AgentRun)
    requires Inv(db)
    requires if id in db.runs then RunMoved(db.runs[id], r) else id !in db.issued
    requires r.machine in db.machines && r.workspace == db.machines[r.machine].workspace && r.createdAt <= db.now
    requires r.status.Active() ==> db.machines[r.machine].desired.Running? || db.machines[r.machine].deleteRequested.Some?
    requires r.status.Active() && (id in db.runs ==> !db.runs[id].status.Active()) ==> !HasActiveRun(db.runs, r.machine)
    ensures Safe(db, db.(issued := db.issued + {id}, runs := db.runs[id := r]), Quiet)
  {
    hide OpsMoved, OperationsInv, RunsInv, EnvironmentsInv, TerminalsInv, RetirementKept, HasActiveRun,
         MachinesMoved, OperationsMoved, RunsMoved, EnvironmentsMoved, SessionsMoved, TicketsMoved;
    var after := db.(issued := db.issued + {id}, runs := db.runs[id := r]);
    TablesStay(db, db.issued);
    WrittenRun(db, id, r);
    RetiredByTables(db, after);
    OperationsStay(db, after, Quiet);
  }

  /** Environments that keep their workspace and never withdraw a deletion; one that is
      newly to be deleted has no snapshot going on. */
  ghost predicate EnvironmentsWritten(db: Db, rows: map<Id, Environment>) {
    && db.environments.Keys <= rows.Keys
    && (forall e :: e in db.environments ==>
          rows[e].workspace == db.environments[e].workspace &&
          (db.environments[e].status.DeleteRequested? ==> rows[e].status.DeleteRequested?))
    && (forall e :: e in rows && rows[e].status.DeleteRequested? && Usable(db.environments, e) ==> SnapshotsOver(db.operations, e))
    && (forall e :: e in rows && e !in db.environments ==> e !in db.issued)
  }

  lemma WrittenEnvironments(db: Db, issued: set<Id>, rows: map<Id, Environment>)
    requires EnvironmentsInv(db) && EnvironmentsWritten(db, rows)
    ensures var after := db.(issued := issued, environments := rows);
      EnvironmentsInv(after) && RetirementKept(db, after) && EnvironmentsMoved(db.issued, db.environments, rows)
  {
    NamesByTables(db, db.(issued := issued, environments := rows));
    hide Unnamed;
  }

  lemma EnvironmentsWriteSafe(db: Db, issued: set<Id>, rows: map<Id, Environment>)
    requires Inv(db) && EnvironmentsWritten(db, rows) && db.issued <= issued && rows.Keys <= issued
    ensures Safe(db, db.(issued := issued, environments := rows), Quiet)
  {
    hide OpsMoved, OperationsInv, RunsInv, EnvironmentsInv, TerminalsInv, RetirementKept, EnvironmentsWritten,
         MachinesMoved, OperationsMoved, RunsMoved, EnvironmentsMoved, SessionsMoved, TicketsMoved;
    var after := db.(issued := issued, environments := rows);
    TablesStay(db, db.issued);
    WrittenEnvironments(db, issued, rows);
    OperationsStay(db, after, Quiet);
  }

  lemma EnvironmentWriteSafe(db: Db, id: Id, e: Environment)
    requires Inv(db)
    requires if id in db.environments
             then e.workspace == db.environments[id].workspace && (db.environments[id].status.DeleteRequested? ==> e.status.DeleteRequested?)
             else id !in db.issued
    requires e.status.DeleteRequested? ==> SnapshotsOver(db.operations, id)
    ensures Safe(db, db.(issued := db.issued + {id}, environments := db.environments[id := e]), Quiet)
  {
    hide OperationsInv, RunsInv, EnvironmentsInv, TerminalsInv, SnapshotsOver, Safe;
    EnvironmentsWriteSafe(db, db.issued + {id}, db.environments[id := e]);
  }

  /** The settings that name an environment nobody may use were there before. */
  ghost predicate NoNewUse(db: Db, rows: map<Scope, Setting>) {
    forall s :: s in rows && rows[s].environment.Some? && !Usable(db.environments, rows[s].environment.value) ==>
      s in db.settings && db.settings[s].environment == rows[s].environment
  }

  lemma WrittenSettings(db: Db, rows: map<Scope, Setting>)
    requires EnvironmentsInv(db) && NoNewUse(db, rows)
    ensures EnvironmentsInv(db.(settings := rows)) && RetirementKept(db, db.(settings := rows))
  {
    forall d | !Usable(db.environments, d) && Unnamed(db, d)
      ensures Unnamed(db.(settings := rows), d)
    {}
    hide Unnamed, SnapshotsOver, SnapshotsAttached;
  }

  lemma SettingsWriteSafe(db: Db, rows: map<Scope, Setting>)
    requires Inv(db) && NoNewUse(db, rows)
    ensures Safe(db, db.(settings := rows), Quiet)
  {
    hide OpsMoved, OperationsInv, RunsInv, EnvironmentsInv, TerminalsInv, RetirementKept, NoNewUse,
         MachinesMoved, OperationsMoved, RunsMoved, EnvironmentsMoved, SessionsMoved, TicketsMoved;
    TablesStay(db, db.issued);
    WrittenSettings(db, rows);
    OperationsStay(db, db.(settings := rows), Quiet);
  }

  lemma CheckoutWriteSafe(db: Db, id: Id, c: Checkout)
    requires Inv(db)
    ensures Safe(db, db.(issued := db.issued + {id}, checkouts := db.checkouts[id := c]), Quiet)
  {
    hide OpsMoved, OperationsInv, RunsInv, EnvironmentsInv, TerminalsInv, RetirementKept,
         MachinesMoved, OperationsMoved, RunsMoved, EnvironmentsMoved, SessionsMoved, TicketsMoved;
    var after := db.(issued := db.issued + {id}, checkouts := db.checkouts[id := c]);
    TablesStay(db, db.issued);
    RetiredByTables(db, after);
    OperationsStay(db, after, Quiet);
  }

  lemma TerminalsWriteSafe(db: Db, issued: set<Id>, sessions: map<Id, Session>, tickets: map<Id, Ticket>)
    requires Inv(db) && db.issued <= issued && sessions.Keys <= issued && tickets.Keys <= issued
    requires SessionsMoved(db.issued, db.sessions, sessions) && TicketsMoved(db.issued, db.tickets, tickets)
    requires TerminalsInv(db.machines, sessions, tickets)
    ensures Safe(db, db.(issued := issued, sessions := sessions, tickets := tickets), Quiet)
  {
    hide OpsMoved, OperationsInv, RunsInv, EnvironmentsInv, TerminalsInv, RetirementKept,
         MachinesMoved, OperationsMoved, RunsMoved, EnvironmentsMoved, SessionsMoved, TicketsMoved;
    var after := db.(issued := issued, sessions := sessions, tickets := tickets);
    TablesStay(db, db.issued);
    RetiredByTables(db, after);
    OperationsStay(db, after, Quiet);
  }
}
