/** Who is admitted: for each request the control plane can refuse, exactly when it commits,
    and what it leaves behind when it does (BE/internal/repository/dev_machine.go). The
    conditions are read off the rows, not off the order in which the transactions test them. */
module Admission {
  import opened Wrappers
  import opened Domain
  import opened Store
  import opened Invariants
  import opened Safety
  import opened TransactionSafety

  // ---- what the rows say ----

  /** The machine takes up a place: it is on its way up, up, or on its way down, or it is
      meant to run. */
  predicate TakesPlace(m: Machine) {
    m.desired.Running? ||
    match m.status
    case Configuring => true
    case Queued => true
    case Spawning => true
    case Running => true
    case Paused => true
    case Stopping => true
    case TearingDown => true
    case Stopped => false
    case Destroyed => false
    case Failed => false
    case Expired => false
  }

  function Places(machines: map<Id, Machine>, workspace: Id): set<Id> {
    set m | m in machines && machines[m].workspace == workspace && TakesPlace(machines[m])
  }

  function PlacesOf(machines: map<Id, Machine>, workspace: Id, user: Id): set<Id> {
    set m | m in Places(machines, workspace) && machines[m].creator == Some(user)
  }

  /** The workspace has an enabled policy, and one more machine of this creator is within it.
      A machine without creator has none of the places of a user, but a policy that gives
      users no places at all keeps it out too. */
  predicate HasRoom(db: Db, workspace: Id, creator: Option<Id>) {
    && workspace in db.policies && db.policies[workspace].enabled
    && |Places(db.machines, workspace)| < db.policies[workspace].maxWorkspace
    && (if creator.Some? then |PlacesOf(db.machines, workspace, creator.value)| else 0) < db.policies[workspace].maxUser
  }

  lemma TakesPlaceIffCounted(m: Machine)
    ensures TakesPlace(m) <==> Counted(m)
  {}

  lemma RoomIff(db: Db, workspace: Id, creator: Option<Id>)
    ensures HasRoom(db, workspace, creator) <==>
            PolicyEnabled(db, workspace) && !QuotaReached(db.machines, db.policies[workspace], workspace, creator)
  {
    forall m: Machine
      ensures TakesPlace(m) <==> Counted(m)
    {
      TakesPlaceIffCounted(m);
    }
    hide TakesPlace, Counted;
    assert Places(db.machines, workspace) == CountedInWorkspace(db.machines, workspace);
    if creator.Some? {
      assert PlacesOf(db.machines, workspace, creator.value) == CountedForCreator(db.machines, workspace, creator);
    } else {
      assert CountedForCreator(db.machines, workspace, creator) == {};
    }
  }

  predicate IsOpen(o: Operation) {
    o.status == OpStatus.Pending || o.status == OpStatus.Leased
  }

  predicate IsUnderWay(r: AgentRun) {
    r.status == RunStatus.Queued || r.status == RunStatus.Starting || r.status == RunStatus.Running || r.status == RunStatus.WaitingInput
  }

  /** A snapshot of the machine is queued or being taken. */
  predicate BeingSnapshot(db: Db, machine: Id) {
    exists o :: o in db.operations && db.operations[o].job.machine == machine && db.operations[o].job.action == SnapshotEnvironment && IsOpen(db.operations[o])
  }

  predicate HasRunUnderWay(db: Db, machine: Id) {
    exists r :: r in db.runs && db.runs[r].machine == machine && IsUnderWay(db.runs[r])
  }

  /** No request used this key of the machine before. */
  predicate KeyUnused(db: Db, q: Job) {
    forall o :: o in db.operations && db.operations[o].job.machine == q.machine ==> db.operations[o].job.key != q.key
  }

  predicate IsReady(db: Db, workspace: Id, environment: Option<Id>) {
    environment.Some? ==>
      environment.value in db.environments && db.environments[environment.value].workspace == workspace &&
      db.environments[environment.value].status == EnvironmentStatus.Ready
  }

  lemma OpenIff(db: Db, machine: Id)
    ensures HasOpenOperation(db.operations, machine, {SnapshotEnvironment}) <==> BeingSnapshot(db, machine)
    ensures HasActiveRun(db.runs, machine) <==> HasRunUnderWay(db, machine)
  {}

  /** A row that waits for a worker, from now on. */
  predicate WaitsFrom(o: Operation, now: Time, q: Job) {
    && o.status == OpStatus.Pending && o.availableAt == now && o.createdAt == now && o.attempts == 0
    && o.owner == None && o.leaseExpires == None && o.completedAt == None && o.errorCode == None
    && o.job == q.(maxAttempts := o.job.maxAttempts) && o.job.maxAttempts == if q.maxAttempts > 0 then q.maxAttempts else 5
  }

  /** Queueing under an unused key for a machine of the workspace. */
  lemma QueuesIff(db: Db, op: Id, q: Job)
    requires KeyUnused(db, q)
    ensures var tx := Enqueue(db, op, q);
      && (tx.Committed? <==> op !in db.issued && q.machine in db.machines && db.machines[q.machine].workspace == q.workspace)
      && (tx.Committed? ==>
            && tx.value == op && op in tx.db.operations && WaitsFrom(tx.db.operations[op], db.now, q)
            && tx.db == db.(issued := db.issued + {op}, operations := db.operations[op := tx.db.operations[op]]))
  {}

  // ---- lifecycle requests ----

  predicate AsksToRun(action: Action) { action.Spawn? || action.Start? }

  /** A request under a new key is admitted in this state. */
  predicate AdmitsRequest(db: Db, op: Id, q: Job) {
    && op !in db.issued && q.machine in db.machines
    && var m := db.machines[q.machine];
       && m.workspace == q.workspace && m.generation < q.generation
       && !BeingSnapshot(db, q.machine)
       && (!AsksToRun(q.action) ==> !HasRunUnderWay(db, q.machine))
       && (AsksToRun(q.action) ==> IsReady(db, q.workspace, m.environment))
       && (AsksToRun(q.action) && (m.status.Stopped? || m.status.Failed?) ==> HasRoom(db, q.workspace, m.creator))
  }

  /** The machine as the request wants it. */
  function Wished(m: Machine, q: Job): Machine
    requires q.action in LifecycleActions - {Reconcile}
  {
    m.(generation := q.generation,
       desired := match q.action
                  case Spawn => MachineStatus.Running
                  case Start => MachineStatus.Running
                  case Pause => MachineStatus.Paused
                  case Stop => MachineStatus.Stopped
                  case Teardown => MachineStatus.Destroyed)
  }

  /** A lifecycle request under a new key commits exactly when the machine is the workspace's
      and behind the request, no snapshot of it is open, no agent run is in the way of a
      pause, a stop or a teardown, and, for a machine that is to run, its environment is
      ready and, if it is stopped or failed, there is room for it. It leaves the generation
      and the desired status asked for and one operation that waits, and nothing else. */
  lemma RequestAdmittedIff(db: Db, op: Id, q: Job)
    requires LifecycleRequest(q) && KeyUnused(db, q)
    ensures var tx := SetDesiredAndEnqueue(db, DesiredFor(q.action), op, q);
      && (tx.Committed? <==> AdmitsRequest(db, op, q))
      && (tx.Committed? ==>
            && tx.value == op && op in tx.db.operations && WaitsFrom(tx.db.operations[op], db.now, q)
            && tx.db == db.(issued := db.issued + {op}, operations := db.operations[op := tx.db.operations[op]],
                            machines := db.machines[q.machine := Wished(db.machines[q.machine], q)]))
  {
    hide FindByKey, HasOpenOperation, HasActiveRun, BeingSnapshot, HasRunUnderWay, HasRoom, QuotaReached, PolicyEnabled, Enqueue, WaitsFrom, KeyUnused;
    NoneFound(db, q);
    OpenIff(db, q.machine);
    if q.machine in db.machines {
      KeyStaysUnused(db, q);
      RoomIff(db, q.workspace, db.machines[q.machine].creator);
      QueuesIff(db.(machines := db.machines[q.machine := Wished(db.machines[q.machine], q)]), op, q);
    }
  }

  lemma KeyStaysUnused(db: Db, q: Job)
    requires KeyUnused(db, q)
    ensures forall machines :: KeyUnused(db.(machines := machines), q)
  {}

  lemma NoneFound(db: Db, q: Job)
    requires KeyUnused(db, q)
    ensures FindByKey(db.operations, q.machine, q.key).None?
  {}

  /** A paused machine is resumed even when its workspace is full: the place it takes is its
      own. */
  lemma PausedIsResumed(db: Db, op: Id, q: Job)
    requires LifecycleRequest(q) && KeyUnused(db, q) && q.action == Start && op !in db.issued
    requires q.machine in db.machines && db.machines[q.machine].workspace == q.workspace && db.machines[q.machine].generation < q.generation
    requires db.machines[q.machine].status == MachineStatus.Paused && IsReady(db, q.workspace, db.machines[q.machine].environment)
    requires !BeingSnapshot(db, q.machine)
    ensures SetDesiredAndEnqueue(db, MachineStatus.Running, op, q).Committed?
    ensures SetDesiredAndEnqueue(db, MachineStatus.Running, op, q).db.machines[q.machine].desired == MachineStatus.Running
    ensures Places(SetDesiredAndEnqueue(db, MachineStatus.Running, op, q).db.machines, q.workspace) == Places(db.machines, q.workspace)
  {
    RequestAdmittedIff(db, op, q);
    hide SetDesiredAndEnqueue, BeingSnapshot, HasRunUnderWay, KeyUnused;
  }

  // ---- new machines ----

  /** A new machine is admitted exactly when its environment is ready and there is room for
      it; it is stored as asked for, with one operation that spawns it. */
  lemma BundleAdmittedIff(db: Db, id: Id, m: Machine, op: Id, q: Job)
    requires Inv(db) && BundleRequest(id, m, q)
    ensures var tx := CreateBundle(db, id, m, op, q);
      && (tx.Committed? <==> id !in db.issued && op !in db.issued && op != id && IsReady(db, m.workspace, m.environment) && HasRoom(db, m.workspace, m.creator))
      && (tx.Committed? ==>
            && tx.value == op && op in tx.db.operations && WaitsFrom(tx.db.operations[op], db.now, q)
            && tx.db == db.(issued := db.issued + {id, op}, machines := db.machines[id := m], operations := db.operations[op := tx.db.operations[op]]))
  {
    RoomIff(db, m.workspace, m.creator);
    if id !in db.issued {
      NewHasNoKeys(db, id);
      QueuesIff(db.(issued := db.issued + {id}, machines := db.machines[id := m]), op, q);
      assert db.issued + {id} + {op} == db.issued + {id, op};
    }
    hide Inv, HasRoom, QuotaReached, PolicyEnabled, Enqueue, WaitsFrom;
  }

  lemma NewHasNoKeys(db: Db, id: Id)
    requires Inv(db) && id !in db.issued
    ensures forall o :: o in db.operations ==> db.operations[o].job.machine != id
  {
    assert IdsIssued(db) && Fenced(db.machines, db.operations);
    hide Inv;
  }

  // ---- agent runs ----

  /** The runs of the workspace since the last midnight. */
  function RunsSinceMidnight(db: Db, workspace: Id): set<Id> {
    set r | r in db.runs && db.runs[r].workspace == workspace && db.runs[r].createdAt >= db.now - db.now % DAY
  }

  lemma SinceMidnight(db: Db, workspace: Id)
    ensures RunsSinceMidnight(db, workspace) == RunsToday(db.runs, workspace, Midnight(db.now))
  {
    assert db.now - db.now % DAY == Midnight(db.now);
  }

  /** A run is admitted in this state. */
  predicate AdmitsRun(db: Db, id: Id, machine: Id, workspace: Id, op: Id, q: Job) {
    && id !in db.issued && op !in db.issued && op != id
    && machine in db.machines && db.machines[machine].workspace == workspace
    && db.machines[machine].status == MachineStatus.Running && db.machines[machine].desired == MachineStatus.Running
    && db.machines[machine].generation == q.generation && !HasRunUnderWay(db, machine)
    && workspace in db.policies && db.policies[workspace].enabled
    && |RunsSinceMidnight(db, workspace)| < db.policies[workspace].maxDailyRuns
  }

  /** A run is admitted exactly on a running machine that has no other, at the generation the
      client saw, while fewer runs than the policy allows were created since midnight. */
  lemma RunAdmittedIff(db: Db, id: Id, machine: Id, workspace: Id, checkout: Option<Id>, op: Id, q: Job)
    requires RunRequest(id, machine, workspace, q) && KeyUnused(db, q)
    ensures var tx := CreateAgentRun(db, id, machine, workspace, checkout, op, q);
      && (tx.Committed? <==> AdmitsRun(db, id, machine, workspace, op, q))
      && (tx.Committed? ==>
            && tx.value == op && op in tx.db.operations && WaitsFrom(tx.db.operations[op], db.now, q.(run := Some(id)))
            && tx.db == db.(issued := db.issued + {id, op}, operations := db.operations[op := tx.db.operations[op]],
                            runs := db.runs[id := AgentRun(machine, workspace, checkout, RunStatus.Queued, db.now, None, None)]))
  {
    OpenIff(db, machine);
    SinceMidnight(db, workspace);
    var stored := db.(issued := db.issued + {id}, runs := db.runs[id := AgentRun(machine, workspace, checkout, RunStatus.Queued, db.now, None, None)]);
    QueuesIff(stored, op, q.(run := Some(id)));
    assert db.issued + {id} + {op} == db.issued + {id, op};
    hide HasActiveRun, HasRunUnderWay, RunsSinceMidnight, RunsToday, Midnight, Enqueue, WaitsFrom;
  }

  /** Cancelling a run of the workspace for the first time succeeds if its machine is there,
      ends the run if it is under way and queues one cancellation; of a finished run it
      changes nothing. */
  lemma CancelOutcome(db: Db, workspace: Id, id: Id, op: Id, q: Job)
    requires KeyUnused(db, q) && q.machine in db.machines && db.machines[q.machine].workspace == q.workspace && op !in db.issued
    ensures var tx := CancelAgentRun(db, workspace, id, op, q);
      && (tx.Committed? <==> id in db.runs && db.runs[id].workspace == workspace)
      && (tx.Committed? && !IsUnderWay(db.runs[id]) ==> tx == Committed(db, None))
      && (tx.Committed? && IsUnderWay(db.runs[id]) ==>
            && tx.value == Some(op) && op in tx.db.operations && WaitsFrom(tx.db.operations[op], db.now, q.(run := Some(id)))
            && tx.db == db.(issued := db.issued + {op}, operations := db.operations[op := tx.db.operations[op]],
                            runs := db.runs[id := db.runs[id].(status := RunStatus.Cancelled, completedAt := Some(db.now))]))
  {
    if id in db.runs {
      QueuesIff(db.(runs := db.runs[id := db.runs[id].(status := RunStatus.Cancelled, completedAt := Some(db.now))]), op, q.(run := Some(id)));
    }
    hide Enqueue, WaitsFrom;
  }

  // ---- environments ----

  /** No lifecycle work is queued or going on. */
  predicate IsQuiet(db: Db, machine: Id) {
    forall o :: o in db.operations && db.operations[o].job.machine == machine && IsOpen(db.operations[o]) ==>
      var a := db.operations[o].job.action; a.RunAgent? || a.CancelAgent? || a.CheckoutIssue? || a.SnapshotEnvironment? || a.TerminateTerminal?
  }

  lemma QuietIff(db: Db, machine: Id)
    ensures IsQuiet(db, machine) <==> !HasOpenOperation(db.operations, machine, LifecycleActions)
  {}

  /** A snapshot is admitted exactly of a builder machine of the workspace that has come to
      rest paused or stopped, at the generation the client saw, with no lifecycle work open. */
  lemma SnapshotAdmittedIff(db: Db, id: Id, e: Environment, op: Id, q: Job)
    requires KeyUnused(db, q) && q.action == SnapshotEnvironment && q.environment == Some(id) && e.source == Some(q.machine) && q.workspace == e.workspace
    ensures var tx := CreateEnvironment(db, id, e, op, q);
      && (tx.Committed? <==>
            && id !in db.issued && op !in db.issued && op != id && q.machine in db.machines
            && var m := db.machines[q.machine];
               && m.workspace == e.workspace && m.builder && m.generation == q.generation && IsQuiet(db, q.machine)
               && ((m.status.Paused? && m.desired.Paused?) || (m.status.Stopped? && m.desired.Stopped?)))
      && (tx.Committed? ==>
            && tx.value == op && op in tx.db.operations && WaitsFrom(tx.db.operations[op], db.now, q)
            && tx.db == db.(issued := db.issued + {id, op}, environments := db.environments[id := e], operations := db.operations[op := tx.db.operations[op]]))
  {
    QuietIff(db, q.machine);
    QueuesIff(db.(issued := db.issued + {id}, environments := db.environments[id := e]), op, q);
    assert db.issued + {id} + {op} == db.issued + {id, op};
    hide IsQuiet, HasOpenOperation, Enqueue, WaitsFrom;
  }

  /** A machine could still use the environment it names. */
  predicate MayUse(db: Db, machine: Id)
    requires machine in db.machines
  {
    || !db.machines[machine].status.Destroyed? || db.machines[machine].desired.Running?
    || exists o :: o in db.operations && db.operations[o].job.machine == machine && IsOpen(db.operations[o]) &&
                   var a := db.operations[o].job.action; a.Spawn? || a.Start? || a.Reconcile? || a.SnapshotEnvironment?
  }

  predicate IsNamed(db: Db, e: Id) {
    || (exists s :: s in db.settings && db.settings[s].environment == Some(e))
    || (exists m :: m in db.machines && db.machines[m].environment == Some(e) && MayUse(db, m))
  }

  /** Somebody is taking the snapshot of the environment now. */
  predicate IsBeingBuilt(db: Db, e: Id) {
    exists o :: o in db.operations && db.operations[o].job.action == SnapshotEnvironment && db.operations[o].job.environment == Some(e) &&
                db.operations[o].status == OpStatus.Leased && (db.operations[o].leaseExpires.Some? ==> !(db.operations[o].leaseExpires.value < db.now))
  }

  lemma NamedIff(db: Db, e: Id)
    ensures IsNamed(db, e) <==> EnvironmentInUseBy(db, e)
    ensures IsBeingBuilt(db, e) <==> BuildActive(db, e)
  {
    forall m | m in db.machines
      ensures MayUse(db, m) <==> (!db.machines[m].status.Destroyed? || db.machines[m].desired.Running? ||
                                  HasOpenOperation(db.operations, m, {Spawn, Start, Reconcile, SnapshotEnvironment}))
    {}
    hide MayUse, HasOpenOperation;
  }

  /** The deletion of an environment is accepted exactly when it was accepted before or
      nothing names the environment and nobody is building it; then it is marked, and the
      snapshots that wait or were given up are cancelled. */
  lemma EnvironmentDeletionIff(db: Db, workspace: Id, id: Id)
    requires id in db.environments && db.environments[id].workspace == workspace
    ensures var tx, was := RequestEnvironmentDeletion(db, workspace, id), db.environments[id];
      && (tx.Committed? <==> was.status.DeleteRequested? || (!IsNamed(db, id) && !IsBeingBuilt(db, id)))
      && (tx.Committed? && was.status.DeleteRequested? ==> tx.db == db)
      && (tx.Committed? && !was.status.DeleteRequested? ==>
            && tx.db == db.(environments := db.environments[id := tx.db.environments[id]], operations := tx.db.operations)
            && tx.db.environments[id] == was.(status := EnvironmentStatus.DeleteRequested, deleteRequested := tx.db.environments[id].deleteRequested)
            && tx.db.environments[id].deleteRequested == (if was.deleteRequested.Some? then was.deleteRequested else Some(db.now))
            && tx.db.operations.Keys == db.operations.Keys
            && forall o :: o in db.operations ==>
                 tx.db.operations[o] == if IsOpen(db.operations[o]) && db.operations[o].job.action == SnapshotEnvironment && db.operations[o].job.environment == Some(id)
                                        then CancelledRow(db.operations[o], db.now, "environment_deletion_requested") else db.operations[o])
  {
    NamedIff(db, id);
    hide IsNamed, EnvironmentInUseBy;
  }

  /** An environment row is deleted exactly when its deletion was accepted before; settings and
      machines that still name it name none afterwards, and its operations go with it. */
  lemma EnvironmentDroppedIff(db: Db, workspace: Id, e: Id)
    ensures var tx := DeleteEnvironment(db, workspace, e);
      && (tx.Committed? <==> e in db.environments && db.environments[e].workspace == workspace && db.environments[e].status == EnvironmentStatus.DeleteRequested)
      && (tx.Committed? ==>
            && tx.db == db.(environments := db.environments - {e}, machines := tx.db.machines, settings := tx.db.settings, operations := tx.db.operations)
            && tx.db.machines.Keys == db.machines.Keys && tx.db.settings.Keys == db.settings.Keys
            && (forall m :: m in db.machines ==> tx.db.machines[m] == db.machines[m].(environment := tx.db.machines[m].environment))
            && (forall m :: m in db.machines ==>
                  tx.db.machines[m].environment == if db.machines[m].environment == Some(e) then None else db.machines[m].environment)
            && (forall s :: s in db.settings ==>
                  tx.db.settings[s] == Setting(db.settings[s].workspace, if db.settings[s].environment == Some(e) then None else db.settings[s].environment))
            && (forall o :: o in tx.db.operations <==> o in db.operations && db.operations[o].job.environment != Some(e))
            && (forall o :: o in tx.db.operations ==> tx.db.operations[o] == db.operations[o]))
  {}

  /** The result of a build is written unless the environment is to be deleted; what it does
      not say stays. */
  lemma EnvironmentUpdatedIff(db: Db, e: Id, status: EnvironmentStatus, imageRef: string, digest: Option<string>)
    ensures var tx := UpdateEnvironmentState(db, e, status, imageRef, digest);
      && (tx.Committed? <==> e in db.environments && db.environments[e].status != EnvironmentStatus.DeleteRequested)
      && (tx.Committed? ==>
            && tx.db == db.(environments := db.environments[e := tx.db.environments[e]])
            && tx.db.environments[e] == db.environments[e].(
                 status := status, imageRef := if |imageRef| > 0 then imageRef else db.environments[e].imageRef,
                 digest := if digest.Some? then digest else db.environments[e].digest))
  {}

  /** A setting may name an environment exactly when it is ready, and stays in its workspace. */
  lemma SettingAdmittedIff(db: Db, scope: Scope, s: Setting)
    ensures var tx := UpsertScopeSetting(db, scope, s);
      && (tx.Committed? <==> IsReady(db, s.workspace, s.environment) && (scope in db.settings ==> db.settings[scope].workspace == s.workspace))
      && (tx.Committed? ==> tx.db == db.(settings := db.settings[scope := s]))
  {}

  // ---- checkouts ----

  predicate HasCheckout(db: Db, machine: Id, issue: Id) {
    exists c :: c in db.checkouts && db.checkouts[c].machine == machine && db.checkouts[c].issue == issue
  }

  /** The machine is up, is meant to be, and works on no other repository. */
  predicate WorksOn(m: Machine, repository: Id) {
    m.status == MachineStatus.Running && m.desired == MachineStatus.Running && (m.affinity.Some? ==> m.affinity.value == repository)
  }

  /** The checkout that is stored: the machine's checkout of the issue if it has one. */
  predicate StoredAs(db: Db, after: Db, stored: Id, id: Id, c: Checkout) {
    if HasCheckout(db, c.machine, c.issue)
    then stored in db.checkouts && db.checkouts[stored].machine == c.machine && db.checkouts[stored].issue == c.issue &&
         after.checkouts == db.checkouts[stored := db.checkouts[stored].(status := c.status)]
    else stored == id && after.checkouts == db.checkouts[id := c]
  }

  lemma ClaimableIff(db: Db, c: Checkout)
    ensures Claimable(db, c) <==>
            c.machine in db.machines && db.machines[c.machine].workspace == c.workspace && WorksOn(db.machines[c.machine], c.repository)
    ensures Claimable(db, c) ==>
              Claimed(db, c) == db.(machines := db.machines[c.machine := db.machines[c.machine].(affinity := Some(c.repository))])
  {}

  /** What a checkout leaves: the row, the claim and the operation that prepares it. */
  predicate CheckedOut(db: Db, after: Db, id: Id, c: Checkout, op: Id, q: Job) {
    && op in after.operations && after.operations == db.operations[op := after.operations[op]]
    && after.operations[op].job.checkout.Some? && StoredAs(db, after, after.operations[op].job.checkout.value, id, c)
    && WaitsFrom(after.operations[op], db.now, q.(checkout := after.operations[op].job.checkout))
    && c.machine in db.machines && after.machines == db.machines[c.machine := db.machines[c.machine].(affinity := Some(c.repository))]
  }

  lemma CheckoutRepeated(db: Db, id: Id, c: Checkout, op: Id, q: Job)
    requires KeyUnused(db, q) && q.machine == c.machine && q.workspace == c.workspace && Claimable(db, c) && HasCheckout(db, c.machine, c.issue)
    ensures var tx := CreateCheckout(db, id, c, op, q);
      (tx.Committed? <==> op !in db.issued) && (tx.Committed? ==> tx.value == op && CheckedOut(db, tx.db, id, c, op, q))
  {
    ClaimableIff(db, c);
    var existing := CheckoutFor(db, c.machine, c.issue);
    hide CheckoutFor, Claimable, Claimed;
    QueuesIff(Claimed(db, c).(checkouts := db.checkouts[existing.value := db.checkouts[existing.value].(status := c.status)]), op, q.(checkout := existing));
    hide Enqueue, WaitsFrom;
  }

  lemma CheckoutNew(db: Db, id: Id, c: Checkout, op: Id, q: Job)
    requires KeyUnused(db, q) && q.machine == c.machine && q.workspace == c.workspace && Claimable(db, c) && !HasCheckout(db, c.machine, c.issue)
    ensures var tx := CreateCheckout(db, id, c, op, q);
      (tx.Committed? <==> op !in db.issued && id !in db.issued && op != id) && (tx.Committed? ==> tx.value == op && CheckedOut(db, tx.db, id, c, op, q))
  {
    ClaimableIff(db, c);
    assert CheckoutFor(db, c.machine, c.issue).None?;
    hide CheckoutFor, Claimable, Claimed;
    QueuesIff(Claimed(db, c).(issued := db.issued + {id}, checkouts := db.checkouts[id := c]), op, q.(checkout := Some(id)));
    hide Enqueue, WaitsFrom, HasCheckout;
  }

  /** A checkout is admitted exactly on a running machine of the workspace that works on the
      repository or on none; the machine works on it from then on. */
  lemma CheckoutAdmittedIff(db: Db, id: Id, c: Checkout, op: Id, q: Job)
    requires KeyUnused(db, q) && q.machine == c.machine && q.workspace == c.workspace
    ensures var tx := CreateCheckout(db, id, c, op, q);
      && (tx.Committed? <==>
            && op !in db.issued && (!HasCheckout(db, c.machine, c.issue) ==> id !in db.issued && op != id)
            && c.machine in db.machines && db.machines[c.machine].workspace == c.workspace && WorksOn(db.machines[c.machine], c.repository))
      && (tx.Committed? ==> tx.value == op && CheckedOut(db, tx.db, id, c, op, q))
  {
    ClaimableIff(db, c);
    if !Claimable(db, c) {
      NotClaimed(db, id, c, op, q);
    } else if HasCheckout(db, c.machine, c.issue) {
      CheckoutRepeated(db, id, c, op, q);
    } else {
      CheckoutNew(db, id, c, op, q);
    }
    hide CreateCheckout, CheckedOut, HasCheckout, WorksOn;
  }

  lemma NotClaimed(db: Db, id: Id, c: Checkout, op: Id, q: Job)
    requires !Claimable(db, c)
    ensures CreateCheckout(db, id, c, op, q).RolledBack?
  {
    hide Claimable;
  }

  // ---- access tickets ----

  /** The machine lets its owner in. */
  predicate LetsIn(db: Db, machine: Id, workspace: Id, user: Id) {
    machine in db.machines && var m := db.machines[machine];
    && m.workspace == workspace && m.creator.Some? && m.creator.value == user
    && m.status == MachineStatus.Running && m.desired == MachineStatus.Running && db.now < m.expiresAt
  }

  /** The terminal session of the ticket is this user's on this machine, and active. */
  predicate SessionLetsIn(db: Db, t: Ticket) {
    t.session.Some? ==>
      t.session.value in db.sessions && db.sessions[t.session.value] == Session(t.workspace, t.machine, t.user, SessionStatus.Active)
  }

  /** A ticket is issued exactly to the owner of a running machine, for a running service of
      it, while the user is a member; it ends with the machine at the latest, and one for a
      terminal session needs the session to be active and the service to be a terminal. */
  lemma TicketAdmittedIff(db: Db, id: Id, t: Ticket, a: Access)
    ensures var tx := CreateAccessTicket(db, id, t, a);
      && (tx.Committed? <==>
            && id !in db.issued && (forall u :: u in db.tickets ==> db.tickets[u].tokenHash != t.tokenHash)
            && LetsIn(db, t.machine, t.workspace, t.user) && a.serviceRunning && a.member
            && db.now < t.expiresAt && t.expiresAt <= db.machines[t.machine].expiresAt
            && SessionLetsIn(db, t) && (t.session.Some? ==> a.serviceIsTerminal))
      && (tx.Committed? ==> tx.db == db.(issued := db.issued + {id}, tickets := db.tickets[id := t]))
  {}

  /** A ticket opens the door exactly while it is active and unexpired, for the host it names,
      the machine lets its user in and its session is active. */
  predicate Opens(db: Db, id: Id, tokenHash: string, host: string, a: Access) {
    id in db.tickets && var t := db.tickets[id];
    && t.tokenHash == tokenHash && t.host == host && t.status == TicketStatus.Active && db.now < t.expiresAt
    && LetsIn(db, t.machine, t.workspace, t.user) && a.serviceRunning && a.member && SessionLetsIn(db, t)
  }

  /** Consuming finds the one ticket that opens the door, if there is one, and uses it up. */
  lemma TicketConsumedIff(db: Db, tokenHash: string, host: string, a: Access, id: Id)
    requires Inv(db)
    ensures var r := ConsumeAccessTicket(db, tokenHash, host, a);
      && (r.1 == Some(id) <==> Opens(db, id, tokenHash, host, a))
      && (r.1 == Some(id) ==> r.0 == db.(tickets := db.tickets[id := db.tickets[id].(status := TicketStatus.Used)]))
      && (r.1 == None ==> r.0 == db)
  {
    assert HashesUnique(db.tickets);
    hide Inv;
    forall i
      ensures Consumable(db, i, tokenHash, host, a) <==> Opens(db, i, tokenHash, host, a)
    {}
    OnlyOneOpens(db, tokenHash, host, a);
    hide Opens, Consumable;
  }

  lemma OnlyOneOpens(db: Db, tokenHash: string, host: string, a: Access)
    requires HashesUnique(db.tickets)
    ensures forall i, j :: Opens(db, i, tokenHash, host, a) && Opens(db, j, tokenHash, host, a) ==> i == j
    ensures forall i :: Opens(db, i, tokenHash, host, a) ==> i in db.tickets
  {}

  // ---- closing a terminal ----

  predicate IsSessionOf(db: Db, workspace: Id, machine: Id, user: Id, session: Id) {
    session in db.sessions && db.sessions[session] == Session(workspace, machine, user, db.sessions[session].status)
  }

  /** The tickets after the session was closed to them: those still good are revoked. */
  predicate Shut(before: map<Id, Ticket>, after: map<Id, Ticket>, session: Id) {
    after.Keys == before.Keys &&
    forall t :: t in before ==>
      after[t] == if before[t].session == Some(session) && (before[t].status.Active? || before[t].status.Used?)
                  then before[t].(status := TicketStatus.Revoked) else before[t]
  }

  /** The user's own session is closed unless it is closed already: it is marked, its tickets
      are revoked at once, and one open operation of the machine will end it. */
  lemma CloseOutcome(db: Db, workspace: Id, machine: Id, user: Id, session: Id, op: Id, q: Job)
    requires Inv(db) && CloseRequest(machine, session, q) && q.workspace == workspace && op !in db.issued
    requires machine in db.machines && db.machines[machine].workspace == workspace
    ensures var tx := RequestTerminalSessionClose(db, workspace, machine, user, session, op, q);
      && tx.Committed?
      && (!IsSessionOf(db, workspace, machine, user, session) ==> tx == Committed(db, None))
      && (IsSessionOf(db, workspace, machine, user, session) && db.sessions[session].status.Closed? ==> tx == Committed(db, Some(SessionStatus.Closed)))
      && (IsSessionOf(db, workspace, machine, user, session) && !db.sessions[session].status.Closed? ==>
            && tx.value == Some(SessionStatus.Closing) && Shut(db.tickets, tx.db.tickets, session)
            && tx.db.sessions == db.sessions[session := db.sessions[session].(status := SessionStatus.Closing)]
            && WillClose(tx.db, machine, session))
  {
    hide Inv, EnqueueAgain, WillClose;
    if IsSessionOf(db, workspace, machine, user, session) && !db.sessions[session].status.Closed? {
      var closing := db.(sessions := db.sessions[session := db.sessions[session].(status := SessionStatus.Closing)],
                         tickets := RevokeSessionTickets(db.tickets, session));
      QueuesClose(closing, machine, session, op, q.(generation := db.machines[machine].generation, session := Some(session)));
    }
  }

  ghost predicate WillClose(db: Db, machine: Id, session: Id) {
    exists o :: o in db.operations && db.operations[o].job.machine == machine && db.operations[o].job.key == TerminalCloseKey(session) && IsOpen(db.operations[o])
  }

  lemma QueuesClose(db: Db, machine: Id, session: Id, op: Id, q: Job)
    requires CloseRequest(machine, session, q) && op !in db.issued && machine in db.machines && db.machines[machine].workspace == q.workspace
    ensures EnqueueAgain(db, op, q).Committed? && WillClose(EnqueueAgain(db, op, q).db, machine, session)
    ensures OnlyOperations(db, EnqueueAgain(db, op, q).db)
  {
    hide WillClose;
    var existing := FindByKey(db.operations, machine, q.key);
    if existing.None? {
      QueuesIff(db, op, q);
      hide Enqueue;
      ClosesWith(EnqueueAgain(db, op, q).db, machine, session, op);
    } else {
      hide FindByKey;
      ClosesWith(EnqueueAgain(db, op, q).db, machine, session, existing.value);
    }
  }

  lemma ClosesWith(db: Db, machine: Id, session: Id, o: Id)
    requires o in db.operations && db.operations[o].job.machine == machine && db.operations[o].job.key == TerminalCloseKey(session) && IsOpen(db.operations[o])
    ensures WillClose(db, machine, session)
  {}

  /** The end of a close leaves the session closed for good and none of its tickets usable; a
      failed one leaves it marked as such, unless it was closed meanwhile. */
  lemma CloseEnds(db: Db, session: Id)
    requires session in db.sessions
    ensures var after := CompleteTerminalSessionClose(db, session);
      && after == db.(sessions := db.sessions[session := db.sessions[session].(status := SessionStatus.Closed)], tickets := after.tickets)
      && Shut(db.tickets, after.tickets, session)
    ensures FailTerminalSessionClose(db, session) ==
            if db.sessions[session].status == SessionStatus.Closing
            then db.(sessions := db.sessions[session := db.sessions[session].(status := SessionStatus.CloseFailed)]) else db
  {}

  // ---- what the reconciler gives up ----

  /** A worker is on it, or one still may be: it is queued at the generation its machine is at. */
  predicate StillHopeful(db: Db, o: Operation, rests: bool) {
    || (o.status == OpStatus.Leased && o.leaseExpires.Some? && db.now <= o.leaseExpires.value)
    || (o.status == OpStatus.Pending && o.job.machine in db.machines && var m := db.machines[o.job.machine];
        && m.generation == o.job.generation
        && if rests then (m.status.Paused? && m.desired.Paused?) || (m.status.Stopped? && m.desired.Stopped?) else m.status.Running? && m.desired.Running?)
  }

  /** A row whose operation nobody will finish any more. */
  predicate Lapsed(o: Operation, now: Time) {
    o.status == OpStatus.Pending || (o.status == OpStatus.Leased && (o.leaseExpires.Some? ==> o.leaseExpires.value < now))
  }

  /** The operations after those of one kind that lapsed were given up. */
  ghost predicate SnapshotsGivenUp(db: Db, after: map<Id, Operation>, e: Id) {
    after.Keys == db.operations.Keys &&
    forall o :: o in db.operations ==>
      after[o] == if db.operations[o].job.action == SnapshotEnvironment && db.operations[o].job.environment == Some(e) && Lapsed(db.operations[o], db.now)
                  then CancelledRow(db.operations[o], db.now, "environment_snapshot_orphaned") else db.operations[o]
  }

  ghost predicate PreparationsGivenUp(db: Db, after: map<Id, Operation>, c: Id) {
    after.Keys == db.operations.Keys &&
    forall o :: o in db.operations ==>
      after[o] == if db.operations[o].job.action == CheckoutIssue && db.operations[o].job.checkout == Some(c) && Lapsed(db.operations[o], db.now)
                  then CancelledRow(db.operations[o], db.now, "checkout_preparation_orphaned") else db.operations[o]
  }

  /** Nobody can finish what was begun. */
  predicate NoSnapshotLeft(db: Db, e: Id) {
    forall o :: o in db.operations && db.operations[o].job.action == SnapshotEnvironment && db.operations[o].job.environment == Some(e) ==>
      !StillHopeful(db, db.operations[o], true)
  }

  predicate NoPreparationLeft(db: Db, c: Id) {
    forall o :: o in db.operations && db.operations[o].job.action == CheckoutIssue && db.operations[o].job.checkout == Some(c) ==>
      !StillHopeful(db, db.operations[o], false)
  }

  lemma HopefulIff(db: Db, o: Operation)
    ensures ViableSnapshot(db, o) <==> StillHopeful(db, o, true)
    ensures ViablePreparation(db, o) <==> StillHopeful(db, o, false)
  {}

  lemma OrphanIff(db: Db, id: Id)
    ensures OrphanedEnvironment(db, id) <==>
            id in db.environments && (db.environments[id].status.Pending? || db.environments[id].status.Building?) && NoSnapshotLeft(db, id)
    ensures OrphanedCheckout(db, id) <==>
            id in db.checkouts && (db.checkouts[id].status.Queued? || db.checkouts[id].status.Preparing?) && NoPreparationLeft(db, id)
  {
    forall o | o in db.operations
      ensures ViableSnapshot(db, db.operations[o]) <==> StillHopeful(db, db.operations[o], true)
      ensures ViablePreparation(db, db.operations[o]) <==> StillHopeful(db, db.operations[o], false)
    {
      HopefulIff(db, db.operations[o]);
    }
    hide StillHopeful, ViableSnapshot, ViablePreparation;
  }

  lemma SnapshotsCancelled(db: Db, e: Id)
    ensures SnapshotsGivenUp(db, CancelSnapshots(db, e, "environment_snapshot_orphaned"), e)
  {}

  /** An unfinished environment is given up exactly when no snapshot that could still finish
      it is there; then it fails and the snapshots that lapsed are cancelled. */
  lemma EnvironmentGivenUpIff(db: Db, e: Id)
    requires e in db.environments
    ensures var after, was := ReconcileEnvironment(db, e), db.environments[e];
      if (was.status.Pending? || was.status.Building?) && NoSnapshotLeft(db, e)
      then after == db.(environments := db.environments[e := was.(status := EnvironmentStatus.Failed)], operations := after.operations) &&
           SnapshotsGivenUp(db, after.operations, e)
      else after == db
  {
    OrphanIff(db, e);
    SnapshotsCancelled(db, e);
    hide OrphanedEnvironment, OrphanedCheckout, NoSnapshotLeft, NoPreparationLeft, SnapshotsGivenUp, CancelSnapshots;
  }

  /** And a checkout exactly when no preparation that could still finish it is there. */
  lemma CheckoutGivenUpIff(db: Db, c: Id)
    requires c in db.checkouts
    ensures var after, was := ReconcileCheckout(db, c), db.checkouts[c];
      if (was.status.Queued? || was.status.Preparing?) && NoPreparationLeft(db, c)
      then after == db.(checkouts := db.checkouts[c := was.(status := CheckoutStatus.Failed)], operations := after.operations) &&
           PreparationsGivenUp(db, after.operations, c)
      else after == db
  {
    OrphanIff(db, c);
    hide OrphanedEnvironment, OrphanedCheckout, NoSnapshotLeft, NoPreparationLeft;
  }
}
