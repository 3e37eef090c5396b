/** What every transaction keeps (one state) and how it may move the rows (two states). */
module Invariants {
  import opened Wrappers
  import opened Domain
  import opened Store

  /** An operation's action and key agree, as the callers of enqueueOperation build them. */
  predicate KeyFits(o: Job) {
    match o.key
    case PermanentDeleteKey(g) => o.action == Teardown && o.generation == g
    case TerminalCloseKey(_) => o.action == TerminateTerminal
    case SnapshotKey(e) => o.action == SnapshotEnvironment && o.environment == Some(e)
    case RunAgentKey(r) => o.action == RunAgent && o.run == Some(r)
    case CancelAgentKey(r) => o.action == CancelAgent
    case CheckoutKey(_) => o.action == CheckoutIssue
    case CheckoutRetryKey(_, _) => o.action == CheckoutIssue
    case _ => o.action in LifecycleActions
  }

  /** The ledger: a row has an owner and a lease exactly while it is leased, and a
      completion time exactly once it is finished. */
  predicate LedgerRow(o: Operation) {
    && (o.owner.Some? <==> o.status.Leased?)
    && (o.leaseExpires.Some? <==> o.status.Leased?)
    && (o.completedAt.Some? <==> o.status.Final())
    && (o.status.Leased? ==> o.attempts >= 1)
    && o.job.maxAttempts >= 1
    && KeyFits(o.job)
  }

  ghost predicate Ledger(ops: map<Id, Operation>) {
    forall o :: o in ops ==> LedgerRow(ops[o])
  }

  ghost predicate KeysUnique(ops: map<Id, Operation>) {
    forall o, p :: o in ops && p in ops && ops[o].job.machine == ops[p].job.machine && ops[o].job.key == ops[p].job.key ==> o == p
  }

  /** Every operation belongs to a machine and was enqueued at or below its generation. */
  ghost predicate Fenced(machines: map<Id, Machine>, ops: map<Id, Operation>) {
    forall o :: o in ops ==>
      ops[o].job.machine in machines && ops[o].job.workspace == machines[ops[o].job.machine].workspace &&
      ops[o].job.generation <= machines[ops[o].job.machine].generation
  }

  ghost predicate OneActiveRun(runs: map<Id, AgentRun>) {
    forall r, s :: r in runs && s in runs && runs[r].machine == runs[s].machine && runs[r].status.Active() && runs[s].status.Active() ==> r == s
  }

  ghost predicate RunsAttached(now: Time, machines: map<Id, Machine>, runs: map<Id, AgentRun>) {
    forall r :: r in runs ==>
      && runs[r].machine in machines && runs[r].workspace == machines[runs[r].machine].workspace
      && runs[r].createdAt <= now
      && (runs[r].status.Active() ==> machines[runs[r].machine].desired.Running? || machines[runs[r].machine].deleteRequested.Some?)
  }

  predicate Usable(environments: map<Id, Environment>, e: Id) {
    e in environments && !environments[e].status.DeleteRequested?
  }

  /** No setting names the environment, and no machine that is meant to be running. */
  ghost predicate Unnamed(db: Db, e: Id) {
    && (forall s :: s in db.settings ==> db.settings[s].environment != Some(e))
    && (forall m :: m in db.machines && db.machines[m].environment == Some(e) ==> !db.machines[m].desired.Running?)
  }

  ghost predicate SnapshotsOver(ops: map<Id, Operation>, e: Id) {
    forall o :: o in ops && SnapshotOf(ops[o], e) ==> !ops[o].status.Open()
  }

  /** Nothing can use the environment any more. */
  ghost predicate Retired(db: Db, e: Id) {
    Unnamed(db, e) && SnapshotsOver(db.operations, e)
  }

  /** The foreign key of a snapshot operation: its environment exists, in its workspace. */
  ghost predicate SnapshotsAttached(environments: map<Id, Environment>, ops: map<Id, Operation>) {
    forall o :: o in ops && ops[o].job.action == SnapshotEnvironment ==> SnapshotFits(environments, ops[o].job)
  }

  predicate SnapshotFits(environments: map<Id, Environment>, q: Job) {
    q.environment.Some? && q.environment.value in environments && environments[q.environment.value].workspace == q.workspace
  }

  /** An environment that is absent is named by nothing, and one that is absent or to be
      deleted has no snapshot going on. */
  ghost predicate EnvironmentsInv(db: Db) {
    && (forall e :: e !in db.environments ==> Unnamed(db, e))
    && (forall e :: !Usable(db.environments, e) ==> SnapshotsOver(db.operations, e))
    && SnapshotsAttached(db.environments, db.operations)
  }

  /** A terminal session that is not active has no usable ticket. */
  ghost predicate ClosedTerminals(sessions: map<Id, Session>, tickets: map<Id, Ticket>) {
    forall t :: t in tickets && tickets[t].session.Some? ==>
      && tickets[t].session.value in sessions
      && sessions[tickets[t].session.value].machine == tickets[t].machine
      && (!sessions[tickets[t].session.value].status.Active? ==> tickets[t].status !in {TicketStatus.Active, TicketStatus.Used})
  }

  ghost predicate SessionsAttached(machines: map<Id, Machine>, sessions: map<Id, Session>) {
    forall s :: s in sessions ==> sessions[s].machine in machines
  }

  ghost predicate HashesUnique(tickets: map<Id, Ticket>) {
    forall t, u :: t in tickets && u in tickets && tickets[t].tokenHash == tickets[u].tokenHash ==> t == u
  }

  ghost predicate IdsIssued(db: Db) {
    && db.machines.Keys <= db.issued && db.operations.Keys <= db.issued && db.runs.Keys <= db.issued
    && db.environments.Keys <= db.issued && db.checkouts.Keys <= db.issued
    && db.sessions.Keys <= db.issued && db.tickets.Keys <= db.issued
  }

  ghost predicate OperationsInv(machines: map<Id, Machine>, ops: map<Id, Operation>) {
    Ledger(ops) && KeysUnique(ops) && Fenced(machines, ops)
  }

  ghost predicate RunsInv(now: Time, machines: map<Id, Machine>, runs: map<Id, AgentRun>) {
    OneActiveRun(runs) && RunsAttached(now, machines, runs)
  }

  ghost predicate TerminalsInv(machines: map<Id, Machine>, sessions: map<Id, Session>, tickets: map<Id, Ticket>) {
    SessionsAttached(machines, sessions) && ClosedTerminals(sessions, tickets) && HashesUnique(tickets)
  }

  ghost predicate Inv(db: Db) {
    && IdsIssued(db)
    && OperationsInv(db.machines, db.operations)
    && RunsInv(db.now, db.machines, db.runs)
    && EnvironmentsInv(db)
    && TerminalsInv(db.machines, db.sessions, db.tickets)
  }

  // ---- how rows move ----

  /** A row is born with a new identifier and its identifier is never used again. */
  ghost predicate NoRevival<T>(issued: set<Id>, before: map<Id, T>, after: map<Id, T>) {
    forall k :: k in after && k in issued ==> k in before
  }

  /** A network or a volume that was recorded stays recorded. */
  ghost predicate MachineMoved(a: Machine, b: Machine) {
    a.workspace == b.workspace && (b.creator == a.creator || b.creator.None?) && a.generation <= b.generation &&
    (a.deleteRequested.Some? ==> b.deleteRequested == a.deleteRequested) &&
    (a.network.Some? ==> b.network.Some?) && (a.volume.Some? ==> b.volume.Some?)
  }

  /** No run goes back to queued or starting, and a finished run keeps its status. */
  ghost predicate RunMoved(a: AgentRun, b: AgentRun) {
    a.machine == b.machine && a.workspace == b.workspace && a.createdAt == b.createdAt &&
    (b.status.Startable() ==> a.status.Startable()) && (!a.status.Active() ==> b.status == a.status)
  }

  ghost predicate SameJob(a: Operation, b: Operation) {
    a.job == b.job && a.createdAt == b.createdAt
  }

  /** The job is the same, unless its requester was deleted. */
  ghost predicate JobKept(a: Operation, b: Operation) {
    a.createdAt == b.createdAt && b.job == a.job.(requestedBy := b.job.requestedBy) &&
    (b.job.requestedBy == a.job.requestedBy || b.job.requestedBy.None?)
  }

  ghost predicate MachinesMoved(issued: set<Id>, a: map<Id, Machine>, b: map<Id, Machine>) {
    NoRevival(issued, a, b) && forall m :: m in a && m in b ==> MachineMoved(a[m], b[m])
  }

  ghost predicate RunsMoved(issued: set<Id>, a: map<Id, AgentRun>, b: map<Id, AgentRun>) {
    NoRevival(issued, a, b) && forall r :: r in a && r in b ==> RunMoved(a[r], b[r])
  }

  ghost predicate OperationsMoved(issued: set<Id>, a: map<Id, Operation>, b: map<Id, Operation>) {
    NoRevival(issued, a, b) && forall o :: o in a && o in b ==> JobKept(a[o], b[o])
  }

  /** Deletion of an environment is never withdrawn. */
  ghost predicate EnvironmentsMoved(issued: set<Id>, a: map<Id, Environment>, b: map<Id, Environment>) {
    NoRevival(issued, a, b) && forall e :: e in a && e in b && a[e].status.DeleteRequested? ==> b[e].status.DeleteRequested?
  }

  /** No terminal session returns to active, and a closed one stays closed. */
  ghost predicate SessionMoved(a: Session, b: Session) {
    b == a.(status := b.status) && (!a.status.Active? ==> !b.status.Active?) && (a.status.Closed? ==> b.status.Closed?)
  }

  ghost predicate SessionsMoved(issued: set<Id>, a: map<Id, Session>, b: map<Id, Session>) {
    NoRevival(issued, a, b) && forall s :: s in a && s in b ==> SessionMoved(a[s], b[s])
  }

  /** No ticket returns to active. */
  ghost predicate TicketsMoved(issued: set<Id>, a: map<Id, Ticket>, b: map<Id, Ticket>) {
    NoRevival(issued, a, b) && forall t :: t in a && t in b && !a[t].status.Active? ==> !b[t].status.Active?
  }

  /** The relation between any two states of one run of the system. */
  ghost predicate Evolves(a: Db, b: Db) {
    && a.now <= b.now && a.issued <= b.issued
    && MachinesMoved(a.issued, a.machines, b.machines)
    && OperationsMoved(a.issued, a.operations, b.operations)
    && RunsMoved(a.issued, a.runs, b.runs)
    && EnvironmentsMoved(a.issued, a.environments, b.environments)
    && SessionsMoved(a.issued, a.sessions, b.sessions)
    && TicketsMoved(a.issued, a.tickets, b.tickets)
  }

  /** Tables a transaction does not touch. */
  lemma TablesStay(db: Db, issued: set<Id>)
    ensures MachinesMoved(issued, db.machines, db.machines) && OperationsMoved(issued, db.operations, db.operations)
    ensures RunsMoved(issued, db.runs, db.runs) && EnvironmentsMoved(issued, db.environments, db.environments)
    ensures SessionsMoved(issued, db.sessions, db.sessions) && TicketsMoved(issued, db.tickets, db.tickets)
  {}

  lemma EvolvesReflexive(a: Db)
    ensures Evolves(a, a)
  {}

  lemma MachinesMovedTransitive(i: set<Id>, j: set<Id>, a: map<Id, Machine>, b: map<Id, Machine>, c: map<Id, Machine>)
    requires a.Keys <= i <= j && MachinesMoved(i, a, b) && MachinesMoved(j, b, c)
    ensures MachinesMoved(i, a, c)
  {}

  lemma OperationsMovedTransitive(i: set<Id>, j: set<Id>, a: map<Id, Operation>, b: map<Id, Operation>, c: map<Id, Operation>)
    requires a.Keys <= i <= j && OperationsMoved(i, a, b) && OperationsMoved(j, b, c)
    ensures OperationsMoved(i, a, c)
  {}

  lemma RunsMovedTransitive(i: set<Id>, j: set<Id>, a: map<Id, AgentRun>, b: map<Id, AgentRun>, c: map<Id, AgentRun>)
    requires a.Keys <= i <= j && RunsMoved(i, a, b) && RunsMoved(j, b, c)
    ensures RunsMoved(i, a, c)
  {}

  lemma EnvironmentsMovedTransitive(
    i: set<Id>, j: set<Id>, a: map<Id, Environment>, b: map<Id, Environment>, c: map<Id, Environment>)
    requires a.Keys <= i <= j && EnvironmentsMoved(i, a, b) && EnvironmentsMoved(j, b, c)
    ensures EnvironmentsMoved(i, a, c)
  {}

  lemma SessionsMovedTransitive(i: set<Id>, j: set<Id>, a: map<Id, Session>, b: map<Id, Session>, c: map<Id, Session>)
    requires a.Keys <= i <= j && SessionsMoved(i, a, b) && SessionsMoved(j, b, c)
    ensures SessionsMoved(i, a, c)
  {}

  lemma TicketsMovedTransitive(i: set<Id>, j: set<Id>, a: map<Id, Ticket>, b: map<Id, Ticket>, c: map<Id, Ticket>)
    requires a.Keys <= i <= j && TicketsMoved(i, a, b) && TicketsMoved(j, b, c)
    ensures TicketsMoved(i, a, c)
  {}

  lemma EvolvesTransitive(a: Db, b: Db, c: Db)
    requires IdsIssued(a) && Evolves(a, b) && Evolves(b, c)
    ensures Evolves(a, c)
  {
    hide MachinesMoved, OperationsMoved, RunsMoved, EnvironmentsMoved, SessionsMoved, TicketsMoved;
    MachinesMovedTransitive(a.issued, b.issued, a.machines, b.machines, c.machines);
    OperationsMovedTransitive(a.issued, b.issued, a.operations, b.operations, c.operations);
    RunsMovedTransitive(a.issued, b.issued, a.runs, b.runs, c.runs);
    EnvironmentsMovedTransitive(a.issued, b.issued, a.environments, b.environments, c.environments);
    SessionsMovedTransitive(a.issued, b.issued, a.sessions, b.sessions, c.sessions);
    TicketsMovedTransitive(a.issued, b.issued, a.tickets, b.tickets, c.tickets);
  }

  // ---- the moves of one operation ----

  /** The kinds of move an event may make on the operations. */
  datatype Moves = Moves(lease: bool, renew: bool, reset: bool, forget: bool)

  const Quiet := Moves(false, false, false, false)

  ghost predicate Taken(a: Operation, b: Operation, now: Time) {
    (a.status.Pending? || (a.status.Leased? && !LiveLease(a, now))) && b.status.Leased? &&
    b.attempts == a.attempts + 1 && SameJob(a, b)
  }

  ghost predicate Renewed(a: Operation, b: Operation) {
    a.status.Leased? && b == a.(leaseExpires := b.leaseExpires)
  }

  ghost predicate Finished(a: Operation, b: Operation) {
    a.status.Open() && b.status.Final() && b.attempts == a.attempts && SameJob(a, b)
  }

  ghost predicate Retried(a: Operation, b: Operation) {
    a.status.Leased? && a.attempts < a.job.maxAttempts && b.status.Pending? && b.attempts == a.attempts && SameJob(a, b)
  }

  ghost predicate Reset(a: Operation, b: Operation) {
    a.status.Final() && a.job.key.TerminalCloseKey? && b.status.Pending? && b.attempts == 0 && SameJob(a, b)
  }

  ghost predicate Forgotten(a: Operation, b: Operation) {
    b == a.(job := a.job.(requestedBy := None))
  }

  ghost predicate OpMoved(a: Operation, b: Operation, now: Time, allow: Moves) {
    || a == b
    || Finished(a, b)
    || Retried(a, b)
    || (allow.lease && Taken(a, b, now))
    || (allow.renew && Renewed(a, b))
    || (allow.reset && Reset(a, b))
    || (allow.forget && Forgotten(a, b))
  }

  ghost predicate OpsMoved(a: Db, b: Db, allow: Moves) {
    && (forall o :: o in a.operations && o in b.operations ==> OpMoved(a.operations[o], b.operations[o], a.now, allow))
    && (forall o :: o in b.operations && o !in a.operations ==> b.operations[o].status.Pending? && b.operations[o].attempts == 0)
  }

  lemma OperationsStay(a: Db, b: Db, allow: Moves)
    requires a.operations == b.operations
    ensures OpsMoved(a, b, allow)
  {}

  /** Nothing begins to use an environment that nothing may use. */
  ghost predicate RetirementKept(a: Db, b: Db) {
    forall e :: !Usable(a.environments, e) && !Usable(b.environments, e) && Unnamed(a, e) ==> Unnamed(b, e)
  }

  /** What is proved of one transaction. */
  ghost predicate Safe(a: Db, b: Db, allow: Moves) {
    Inv(b) && Evolves(a, b) && OpsMoved(a, b, allow) && RetirementKept(a, b)
  }
}
