/** Generation fencing: which steps raise a machine's generation, and what that does to
    the status writes of operations queued earlier. */
module Fencing {
  import opened Wrappers
  import opened Domain
  import opened Store
  import opened Invariants
  import opened Safety
  import opened TransactionSafety
  import opened Runs

  /** A lifecycle request that was not a repetition of an earlier one has committed. */
  ghost predicate FreshRequest(db: Db, e: Event, machine: Id) {
    e.DesiredSet? && LifecycleRequest(e.job) && e.job.machine == machine &&
    FindByKey(db.operations, e.job.machine, e.job.key).None? &&
    SetDesiredAndEnqueue(db, DesiredFor(e.job.action), e.op, e.job).Committed?
  }

  ghost predicate DeletionOf(e: Event, machine: Id) {
    e.DeletionRequested? && e.machine == machine
  }

  ghost predicate Raises(a: Db, b: Db, machine: Id) {
    machine in a.machines && machine in b.machines && a.machines[machine].generation < b.machines[machine].generation
  }

  /** A lifecycle request that commits strictly raises the generation, unless it repeats
      an idempotency key, and then it changes nothing. */
  lemma RequestRaises(db: Db, op: Id, q: Job)
    requires Inv(db) && LifecycleRequest(q)
    ensures var tx := SetDesiredAndEnqueue(db, DesiredFor(q.action), op, q);
      tx.Committed? ==>
        if FindByKey(db.operations, q.machine, q.key).Some? then tx.db == db
        else Raises(db, tx.db, q.machine) && tx.db.machines[q.machine].generation == q.generation &&
             tx.value in tx.db.operations && tx.db.operations[tx.value].job.generation == q.generation
  {}

  ghost predicate SameGeneration(a: Db, b: Db, machine: Id) {
    machine in a.machines && machine in b.machines ==> a.machines[machine].generation == b.machines[machine].generation
  }

  lemma EnvironmentEventKeepsGeneration(db: Db, e: Event, machine: Id)
    requires OnEnvironments(e)
    ensures SameGeneration(db, ApplyToEnvironments(db, e), machine)
  {
    hide CreateEnvironment, RequestEnvironmentDeletion, ReconcileOrphanedEnvironments, ReconcileOrphanedCheckouts, CreateCheckout,
         UpsertScopeSetting, DeleteScopeSetting, UpdateEnvironmentState, UpdateCheckoutState;
  }

  lemma BundleKeepsGeneration(db: Db, id: Id, row: Machine, op: Id, q: Job, machine: Id)
    requires IdsIssued(db)
    ensures SameGeneration(db, After(db, CreateBundle(db, id, row, op, q)), machine)
  {
    hide Enqueue, QuotaReached, PolicyEnabled, EnvironmentReady;
  }

  /** Transactions on operations and runs do not write machine rows. */
  lemma OtherEventsKeepMachines(db: Db, e: Event)
    requires Allowed(db, e) && !OnDeletions(e) && !OnEnvironments(e) && !OnTerminals(e) && !e.BundleCreated? && !e.DesiredSet? && !e.DeletionRequested?
    requires !e.StateSet? && !e.StateSetForOperation? && !e.MachinePurged? && !e.MachinesPurged?
    ensures ApplyToMachines(db, e).machines == db.machines
  {
    hide Allowed, CreateAgentRun, CancelAgentRun, LeasedRow, FailedRow, HoldsLease;
  }

  lemma DeletionKeepsOthers(
    db: Db, workspace: Id, doomed: Id, requester: Option<Id>, active: Option<Id>, minted: Id, machine: Id)
    requires machine != doomed
    ensures SameGeneration(db, After(db, RequestPermanentDelete(db, workspace, doomed, requester, active, minted)), machine)
  {
    hide RequestPermanentDelete;
  }

  lemma MachineEventKeepsGeneration(db: Db, e: Event, machine: Id)
    requires Inv(db) && Allowed(db, e) && !OnDeletions(e) && !OnEnvironments(e) && !OnTerminals(e)
    requires !FreshRequest(db, e, machine) && !DeletionOf(e, machine)
    ensures SameGeneration(db, ApplyToMachines(db, e), machine)
  {
    assert IdsIssued(db);
    hide Inv, Allowed, FindByKey, HasOpenOperation, Enqueue, CreateBundle, SetDesiredAndEnqueue, RequestPermanentDelete, LifecycleRequest,
         CreateAgentRun, CancelAgentRun, LeaseOperations, BulkPurged;
    if e.BundleCreated? {
      BundleKeepsGeneration(db, e.id, e.row, e.op, e.job, machine);
    } else if e.DesiredSet? {
      RequestRaises(db, e.op, e.job);
    } else if e.DeletionRequested? {
      DeletionKeepsOthers(db, e.workspace, e.machine, e.requester, e.active, e.op, machine);
    } else if !e.StateSet? && !e.StateSetForOperation? && !e.MachinePurged? && !e.MachinesPurged? {
      OtherEventsKeepMachines(db, e);
    }
  }

  lemma DeletionEventKeepsGeneration(db: Db, e: Event, machine: Id)
    requires OnDeletions(e)
    ensures SameGeneration(db, ApplyDeletions(db, e), machine)
  {
    hide HasRuntimes, HasEnvironments, MarkEnvironments, CancelWorkspaceSnapshots, OtherSettings, MachinesOf;
  }

  /** The other events leave a machine's generation alone. */
  lemma GenerationStays(db: Db, e: Event, after: Db, machine: Id)
    requires Inv(db) && Step(db, e, after) && !FreshRequest(db, e, machine) && !DeletionOf(e, machine)
    requires machine in db.machines && machine in after.machines
    ensures after.machines[machine].generation == db.machines[machine].generation
  {
    hide Inv, ApplyToMachines, ApplyToEnvironments, ApplyDeletions;
    if OnDeletions(e) {
      DeletionEventKeepsGeneration(db, e, machine);
    } else if OnEnvironments(e) {
      EnvironmentEventKeepsGeneration(db, e, machine);
    } else if !OnTerminals(e) {
      MachineEventKeepsGeneration(db, e, machine);
    }
  }

  /** A generation never falls while the row exists, so it is raised somewhere between two
      states exactly when it differs between them. */
  lemma {:induction false} RaisedBetween(states: seq<Db>, events: seq<Event>, i: nat, j: nat, machine: Id)
    requires IsRun(states, events) && i <= j < |states|
    requires machine in states[i].machines && machine in states[j].machines
    ensures (exists k: nat :: i <= k < j && Raises(states[k], states[k + 1], machine)) <==>
            states[i].machines[machine].generation < states[j].machines[machine].generation
    decreases j - i
  {
    hide IsRun, Inv;
    if i < j {
      StaysPresent(states, events, i, i + 1, j, machine);
      RaisedBetween(states, events, i + 1, j, machine);
      RunEvolves(states, events, i, i + 1);
      RunEvolves(states, events, i + 1, j);
    }
  }

  /** A row that exists in two states exists in all the states between them. */
  lemma StaysPresent(states: seq<Db>, events: seq<Event>, i: nat, k: nat, j: nat, machine: Id)
    requires IsRun(states, events) && i <= k <= j < |states|
    requires machine in states[i].machines && machine in states[j].machines
    ensures machine in states[k].machines
  {
    RunKeepsInv(states, events, i);
    hide IsRun;
    RunEvolves(states, events, i, k);
    RunEvolves(states, events, k, j);
  }

  /** The steps that raise a generation: a fresh lifecycle request, which always does, and
      a permanent deletion. */
  lemma RaisedByRequest(states: seq<Db>, events: seq<Event>, k: nat, machine: Id)
    requires IsRun(states, events) && k < |events|
    ensures Raises(states[k], states[k + 1], machine) ==> FreshRequest(states[k], events[k], machine) || DeletionOf(events[k], machine)
    ensures FreshRequest(states[k], events[k], machine) ==> Raises(states[k], states[k + 1], machine)
  {
    var a, e, b := states[k], events[k], states[k + 1];
    assert Step(a, e, b);
    RunKeepsInv(states, events, k);
    hide IsRun, Inv;
    if Raises(a, b, machine) && !FreshRequest(a, e, machine) && !DeletionOf(e, machine) {
      GenerationStays(a, e, b, machine);
    }
    if FreshRequest(a, e, machine) {
      RequestRaises(a, e.op, e.job);
      assert b == After(a, SetDesiredAndEnqueue(a, DesiredFor(e.job.action), e.op, e.job));
    }
  }

  /** Fencing. Take an operation that is at its machine's generation, as every lifecycle
      operation is when it is queued. Later on its status write without allowStale applies
      exactly when the machine still exists and no step in between raised the generation. */
  lemma StatusWriteFenced(states: seq<Db>, events: seq<Event>, i: nat, j: nat, o: Id)
    requires IsRun(states, events) && i <= j < |states| && o in states[i].operations
    requires AtGeneration(states[i], o)
    ensures var q := states[i].operations[o].job;
      StatusWriteApplies(states[j], q.machine, q.generation, false) <==>
      q.machine in states[j].machines && !(exists k: nat :: i <= k < j && Raises(states[k], states[k + 1], q.machine))
  {
    RunKeepsInv(states, events, i);
    hide IsRun;
    var q := states[i].operations[o].job;
    if q.machine in states[j].machines {
      RaisedBetween(states, events, i, j, q.machine);
      RunEvolves(states, events, i, j);
    }
  }

  ghost predicate AtGeneration(db: Db, o: Id) {
    o in db.operations && db.operations[o].job.machine in db.machines &&
    db.operations[o].job.generation == db.machines[db.operations[o].job.machine].generation
  }

  /** Once a fresh request has committed, no operation queued before it can write the
      machine's status without allowStale, then or ever after. */
  lemma SupersededForEver(states: seq<Db>, events: seq<Event>, k: nat, j: nat, o: Id)
    requires IsRun(states, events) && k < j < |states| && o in states[k].operations
    requires FreshRequest(states[k], events[k], states[k].operations[o].job.machine)
    ensures !StatusWriteApplies(states[j], states[k].operations[o].job.machine, states[k].operations[o].job.generation, false)
  {
    var machine := states[k].operations[o].job.machine;
    RunKeepsInv(states, events, k);
    assert states[k].operations[o].job.generation <= states[k].machines[machine].generation;
    hide Inv;
    RaisedByRequest(states, events, k, machine);
    hide IsRun, FreshRequest;
    RunEvolves(states, events, k + 1, j);
  }
}
