/** BE/internal/repository/dev_machine.go as it runs: statements on a transaction's copy of
    the tables, early returns that roll back, and a commit at the end. */
module Repository {
  import opened Wrappers
  import opened Domain
  import opened Store
  import opened Invariants
  import opened Safety
  import opened TransactionSafety
  import opened Runs
  import opened LeaseOrder

  /** The method did what the transaction's specification says, and answered the same. */
  ghost predicate Executed<T>(tx: Tx<T>, before: Db, after: Db, r: Result<T, Error>) {
    after == After(before, tx) &&
    r == match tx case Committed(_, value) => Success(value) case RolledBack(error) => Failure(error)
  }

  lemma FoundByKey(ops: map<Id, Operation>, machine: Id, key: Key, o: Id)
    requires KeysUnique(ops) && o in ops && ops[o].job.machine == machine && ops[o].job.key == key
    ensures FindByKey(ops, machine, key) == Some(o)
  {}

  /** SELECT by the unique index on (machine_id, idempotency_key). */
  method FindOperation(ops: map<Id, Operation>, machine: Id, key: Key) returns (found: Option<Id>)
    requires KeysUnique(ops)
    ensures found == FindByKey(ops, machine, key)
  {
    if o :| o in ops && ops[o].job.machine == machine && ops[o].job.key == key {
      FoundByKey(ops, machine, key, o);
      return Some(o);
    }
    return None;
  }

  /** enqueueOperation. */
  method EnqueueOperation(tx: Db, id: Id, q: Job) returns (r: Result<(Db, Id), Error>)
    requires KeysUnique(tx.operations)
    ensures r == match Enqueue(tx, id, q) case Committed(after, o) => Success((after, o)) case RolledBack(error) => Failure(error)
  {
    var maxAttempts := q.maxAttempts;
    if maxAttempts == 0 {
      maxAttempts := 5;
    }
    var existing := FindOperation(tx.operations, q.machine, q.key);
    if existing.Some? {
      return Success((tx, existing.value));
    }
    if id in tx.issued {
      return Failure(UniqueViolation);
    }
    if !MachineRow(tx, q.workspace, q.machine) {
      return Failure(ForeignKeyViolation);
    }
    var row := Operation(q.(maxAttempts := maxAttempts), tx.now, OpStatus.Pending, None, None, 0, tx.now, None, None);
    return Success((tx.(issued := tx.issued + {id}, operations := tx.operations[id := row]), id));
  }

  /** The end of RequestPermanentDelete, which queues a teardown of its own. */
  method QueueTeardown(before: Db, machine: Id, requester: Option<Id>, minted: Id) returns (r: Result<(Db, Option<Id>), Error>)
    requires KeysUnique(before.operations) && machine in before.machines
    ensures r == match QueueDeletion(before, machine, requester, minted)
                 case Committed(after, o) => Success((after, o)) case RolledBack(error) => Failure(error)
  {
    var row := before.machines[machine];
    var tx := WriteMachine(before, machine, MarkDeleted(row, before.now));
    var q := DeleteRequest(row, machine, requester);
    var existing := FindOperation(tx.operations, machine, q.key);
    if existing.Some? {
      var job := tx.operations[existing.value].job;
      if job.action != q.action || job.requestedBy != q.requestedBy {
        return Failure(IdempotencyKeyConflict);
      }
      return Success((tx, existing));
    }
    WrittenTwice(before, machine, MarkDeleted(row, before.now), TornDown(row, before.now, q.generation));
    tx := WriteMachine(tx, machine, TornDown(row, before.now, q.generation));
    var queued := EnqueueOperation(tx, minted, q);
    if queued.Failure? {
      return Failure(queued.error);
    }
    return Success((queued.value.0, Some(queued.value.1)));
  }

  /** SELECT of the open teardown with the newest generation. */
  method FindTeardown(db: Db, workspace: Id, machine: Id) returns (active: Option<Id>)
    ensures ActiveTeardown(db, workspace, machine, active)
  {
    active := None;
    var todo := db.operations.Keys;
    while todo != {}
      invariant todo <= db.operations.Keys
      invariant if active.None? then forall o :: o in db.operations && o !in todo ==> !OpenTeardown(db, workspace, machine, o)
                else OpenTeardown(db, workspace, machine, active.value) &&
                     forall o :: o !in todo && OpenTeardown(db, workspace, machine, o) ==>
                       db.operations[o].job.generation <= db.operations[active.value].job.generation
    {
      var o :| o in todo;
      todo := todo - {o};
      if OpenTeardown(db, workspace, machine, o) &&
         (active.None? || db.operations[o].job.generation > db.operations[active.value].job.generation) {
        active := Some(o);
      }
    }
  }

  /** The statements of RequestPermanentDelete; `found` is the open teardown, if there is one. */
  method DeleteForGood(before: Db, workspace: Id, machine: Id, requester: Option<Id>, found: Option<Id>, minted: Id)
    returns (tx: Db, r: Result<Option<Id>, Error>)
    requires KeysUnique(before.operations)
    ensures Executed(RequestPermanentDelete(before, workspace, machine, requester, found, minted), before, tx, r)
  {
    hide HasOpenOperation, SafelyPurgeable, QueueDeletion, WriteMachine, MarkDeleted, TornDown, Max, KeysUnique;
    if !Deletable(before, workspace, machine, requester) {
      return before, Failure(NoRows);
    }
    var row := before.machines[machine];
    tx := WriteMachine(before, machine, MarkDeleted(row, before.now));
    if found.Some? && found.value in before.operations {
      if !row.desired.Destroyed? {
        var torn := TornDown(row, before.now, Max(row.generation, before.operations[found.value].job.generation));
        WrittenTwice(before, machine, MarkDeleted(row, before.now), torn);
        tx := WriteMachine(tx, machine, torn);
      }
      return tx, Success(found);
    }
    if SafelyPurgeable(row) && !HasOpenOperation(before.operations, machine, AllActions) {
      return tx, Success(None);
    }
    var queued := QueueTeardown(before, machine, requester, minted);
    if queued.Failure? {
      return before, Failure(queued.error);
    }
    return queued.value.0, Success(queued.value.1);
  }

  lemma WrittenTwice(db: Db, id: Id, a: Machine, b: Machine)
    ensures WriteMachine(WriteMachine(db, id, a), id, b) == WriteMachine(db, id, b)
  {
    assert db.machines[id := a][id := b] == db.machines[id := b];
  }

  /** The statements of RequestEnvironmentDeletion. */
  method RetireEnvironment(before: Db, workspace: Id, id: Id) returns (tx: Db, r: Result<Unit, Error>)
    ensures Executed(RequestEnvironmentDeletion(before, workspace, id), before, tx, r)
  {
    hide EnvironmentInUseBy, BuildActive, CancelSnapshots;
    tx := before;
    if !(id in tx.environments && tx.environments[id].workspace == workspace) {
      return before, Failure(NoRows);
    }
    if tx.environments[id].status.DeleteRequested? {
      return before, Success(Unit);
    }
    if EnvironmentInUseBy(tx, id) {
      return before, Failure(EnvironmentInUse);
    }
    if BuildActive(tx, id) {
      return before, Failure(EnvironmentDeletionConflict);
    }
    tx := tx.(operations := CancelSnapshots(tx, id, DeletionRequestedCode));
    var row := tx.environments[id].(status := EnvironmentStatus.DeleteRequested);
    if row.deleteRequested.None? {
      row := row.(deleteRequested := Some(tx.now));
    }
    tx := tx.(environments := tx.environments[id := row]);
    return tx, Success(Unit);
  }

  /** The unique index on (machine_id, issue_id). */
  ghost predicate CheckoutsUnique(checkouts: map<Id, Checkout>) {
    forall c, d :: c in checkouts && d in checkouts && CheckoutOf(checkouts[c], checkouts[d].machine, checkouts[d].issue) ==> c == d
  }

  /** SELECT by that index. */
  method FindCheckout(tx: Db, machine: Id, issue: Id) returns (found: Option<Id>)
    requires CheckoutsUnique(tx.checkouts)
    ensures found == CheckoutFor(tx, machine, issue)
  {
    if c :| c in tx.checkouts && CheckoutOf(tx.checkouts[c], machine, issue) {
      return Some(c);
    }
    return None;
  }

  lemma IndexKept(checkouts: map<Id, Checkout>, id: Id, row: Checkout)
    requires CheckoutsUnique(checkouts)
    requires if id in checkouts then CheckoutOf(checkouts[id], row.machine, row.issue)
             else forall c :: c in checkouts ==> !CheckoutOf(checkouts[c], row.machine, row.issue)
    ensures CheckoutsUnique(checkouts[id := row])
  {}

  /** The row of an issue is reused, so the index stays unique. */
  lemma CheckoutsStayUnique(db: Db, id: Id, c: Checkout, op: Id, q: Job)
    requires CheckoutsUnique(db.checkouts) && db.checkouts.Keys <= db.issued
    ensures CheckoutsUnique(After(db, CreateCheckout(db, id, c, op, q)).checkouts)
  {
    hide Enqueue, CheckoutFor, Claimable, Claimed, CheckoutsUnique;
    var existing := CheckoutFor(db, c.machine, c.issue);
    if existing.Some? {
      IndexKept(db.checkouts, existing.value, db.checkouts[existing.value].(status := c.status));
    } else if id !in db.issued {
      IndexKept(db.checkouts, id, c);
    }
  }

  /** The statements of CreateCheckout. */
  method StoreCheckout(before: Db, id: Id, checkout: Checkout, op: Id, q: Job) returns (tx: Db, r: Result<Id, Error>)
    requires KeysUnique(before.operations) && CheckoutsUnique(before.checkouts)
    ensures Executed(CreateCheckout(before, id, checkout, op, q), before, tx, r)
  {
    hide KeysUnique, CheckoutFor, Enqueue, CheckoutsUnique, Claimable, Claimed;
    if !Claimable(before, checkout) {
      return before, Failure(CheckoutMachineConflict);
    }
    tx := Claimed(before, checkout);
    var existing := FindCheckout(before, checkout.machine, checkout.issue);
    var stored := id;
    if existing.Some? {
      stored := existing.value;
      var row := tx.checkouts[stored].(status := checkout.status);
      tx := tx.(checkouts := tx.checkouts[stored := row]);
    } else {
      if id in tx.issued {
        return before, Failure(UniqueViolation);
      }
      tx := tx.(issued := tx.issued + {id}, checkouts := tx.checkouts[id := checkout]);
    }
    var queued := EnqueueOperation(tx, op, q.(checkout := Some(stored)));
    if queued.Failure? {
      return before, Failure(queued.error);
    }
    return queued.value.0, Success(queued.value.1);
  }

  predicate Distinct(ids: seq<Id>) {
    forall i, j :: 0 <= i < j < |ids| ==> ids[i] != ids[j]
  }

  /** The environments whose snapshot is not over. */
  ghost function BeingBuilt(db: Db): set<Id> {
    set e | e in db.environments && db.environments[e].status in {EnvironmentStatus.Pending, EnvironmentStatus.Building}
  }

  /** The checkouts whose preparation is not over. */
  ghost function BeingPrepared(db: Db): set<Id> {
    set c | c in db.checkouts && db.checkouts[c].status in {CheckoutStatus.Queued, CheckoutStatus.Preparing}
  }

  /** The inner loop over an environment's snapshot operations. */
  method HasViableSnapshot(tx: Db, id: Id) returns (viable: bool)
    ensures viable <==> exists o :: o in tx.operations && SnapshotOf(tx.operations[o], id) && ViableSnapshot(tx, tx.operations[o])
  {
    hide SnapshotOf, ViableSnapshot;
    var todo := tx.operations.Keys;
    while todo != {}
      invariant todo <= tx.operations.Keys
      invariant forall o :: o in tx.operations && o !in todo ==> !(SnapshotOf(tx.operations[o], id) && ViableSnapshot(tx, tx.operations[o]))
    {
      var o :| o in todo;
      if SnapshotOf(tx.operations[o], id) && ViableSnapshot(tx, tx.operations[o]) {
        return true;
      }
      todo := todo - {o};
    }
    return false;
  }

  method HasViablePreparation(tx: Db, id: Id) returns (viable: bool)
    ensures viable <==> exists o :: o in tx.operations && PreparationOf(tx.operations[o], id) && ViablePreparation(tx, tx.operations[o])
  {
    hide PreparationOf, ViablePreparation;
    var todo := tx.operations.Keys;
    while todo != {}
      invariant todo <= tx.operations.Keys
      invariant forall o :: o in tx.operations && o !in todo ==> !(PreparationOf(tx.operations[o], id) && ViablePreparation(tx, tx.operations[o]))
    {
      var o :| o in todo;
      if PreparationOf(tx.operations[o], id) && ViablePreparation(tx, tx.operations[o]) {
        return true;
      }
      todo := todo - {o};
    }
    return false;
  }

  /** The loop of ReconcileOrphanedEnvironments, over the rows its query locked. */
  method FailOrphanedEnvironments(before: Db, locked: seq<Id>) returns (tx: Db, reconciled: nat)
    requires Distinct(locked) && forall e :: e in locked ==> e in BeingBuilt(before)
    ensures tx == ReconcileOrphanedEnvironments(before, locked)
    ensures |BeingBuilt(tx)| == |BeingBuilt(before)| - reconciled
  {
    hide CancelSnapshots, ViableSnapshot, SnapshotOf;
    tx, reconciled := before, 0;
    for n := 0 to |locked|
      invariant tx == ReconcileOrphanedEnvironments(before, locked[..n])
      invariant |BeingBuilt(tx)| == |BeingBuilt(before)| - reconciled
      invariant forall k :: n <= k < |locked| ==> locked[k] in BeingBuilt(tx)
    {
      var id := locked[n];
      assert locked[..n + 1][..n] == locked[..n];
      var viable := HasViableSnapshot(tx, id);
      if !viable {
        ghost var building := BeingBuilt(tx);
        tx := tx.(operations := CancelSnapshots(tx, id, SnapshotOrphanedCode),
                  environments := tx.environments[id := tx.environments[id].(status := EnvironmentStatus.Failed)]);
        assert BeingBuilt(tx) == building - {id};
        reconciled := reconciled + 1;
      }
    }
    assert locked[..|locked|] == locked;
  }

  lemma PreparedStored(db: Db, id: Id)
    requires id in BeingPrepared(db)
    ensures id in db.checkouts && db.checkouts[id].status in {CheckoutStatus.Queued, CheckoutStatus.Preparing}
  {}

  lemma ReconciledOne(db: Db, id: Id)
    requires id in BeingPrepared(db)
    ensures ReconcileCheckout(db, id).now == db.now
    ensures BeingPrepared(ReconcileCheckout(db, id)) == BeingPrepared(db) - if OrphanedCheckout(db, id) then {id} else {}
  {
    hide ViablePreparation, PreparationOf, Abandoned, CancelledRow;
  }

  method FailOrphanedCheckouts(before: Db, locked: seq<Id>) returns (tx: Db, reconciled: nat)
    requires Distinct(locked) && forall c :: c in locked ==> c in BeingPrepared(before)
    ensures tx == ReconcileOrphanedCheckouts(before, locked)
    ensures |BeingPrepared(tx)| == |BeingPrepared(before)| - reconciled
  {
    hide ViablePreparation, PreparationOf, Abandoned, CancelledRow, BeingPrepared;
    tx, reconciled := before, 0;
    for n := 0 to |locked|
      invariant tx == ReconcileOrphanedCheckouts(before, locked[..n])
      invariant |BeingPrepared(tx)| == |BeingPrepared(before)| - reconciled
      invariant forall k :: n <= k < |locked| ==> locked[k] in BeingPrepared(tx)
    {
      var id := locked[n];
      assert locked[..n + 1][..n] == locked[..n];
      PreparedStored(tx, id);
      ReconciledOne(tx, id);
      var viable := HasViablePreparation(tx, id);
      if !viable {
        tx := tx.(operations := map o | o in tx.operations ::
                    if PreparationOf(tx.operations[o], id) && Abandoned(tx.operations[o], tx.now)
                    then CancelledRow(tx.operations[o], tx.now, PreparationOrphanedCode) else tx.operations[o],
                  checkouts := tx.checkouts[id := tx.checkouts[id].(status := CheckoutStatus.Failed)]);
        reconciled := reconciled + 1;
      }
    }
    assert locked[..|locked|] == locked;
  }

  lemma BundleKeepsInv(db: Db, id: Id, machine: Machine, op: Id, q: Job)
    requires Inv(db)
    ensures KeysUnique(db.operations) && (BundleRequest(id, machine, q) ==> Inv(After(db, CreateBundle(db, id, machine, op, q))))
  {
    if BundleRequest(id, machine, q) {
      CreateBundleSafe(db, id, machine, op, q);
    }
    hide CreateBundle;
  }

  lemma RequestKeepsInv(db: Db, desired: MachineStatus, op: Id, q: Job)
    requires Inv(db)
    ensures KeysUnique(db.operations)
    ensures LifecycleRequest(q) && desired == DesiredFor(q.action) ==> Inv(After(db, SetDesiredAndEnqueue(db, desired, op, q)))
  {
    if LifecycleRequest(q) && desired == DesiredFor(q.action) {
      SetDesiredAndEnqueueSafe(db, op, q);
    }
    hide SetDesiredAndEnqueue;
  }

  lemma CompletionKeepsInv(db: Db, id: Id, status: RunStatus)
    requires Inv(db)
    ensures !status.Active() ==> Inv(CompleteAgentRun(db, id, status))
  {
    if !status.Active() {
      CompleteAgentRunSafe(db, id, status);
    }
    hide CompleteAgentRun;
  }

  class DevMachineRepository {
    var db: Db

    ghost predicate Valid()
      reads this
    {
      Inv(db)
    }

    // ---- queueing ----

    method CreateBundle(id: Id, machine: Machine, op: Id, q: Job) returns (r: Result<Id, Error>)
      requires Valid()
      modifies this
      ensures Executed(Store.CreateBundle(old(db), id, machine, op, q), old(db), db, r)
      ensures BundleRequest(id, machine, q) ==> Valid()
    {
      BundleKeepsInv(db, id, machine, op, q);
      hide Inv, BundleRequest, Enqueue, EnvironmentReady, KeysUnique;
      var tx := db;
      if machine.environment.Some? && !EnvironmentReady(tx, machine.workspace, machine.environment.value) {
        return Failure(EnvironmentUnavailable);
      }
      if !PolicyEnabled(tx, machine.workspace) {
        return Failure(NoRows);
      }
      var policy := tx.policies[machine.workspace];
      var workspaceCount := |CountedInWorkspace(tx.machines, machine.workspace)|;
      var userCount := |CountedForCreator(tx.machines, machine.workspace, machine.creator)|;
      if workspaceCount >= policy.maxWorkspace || userCount >= policy.maxUser {
        return Failure(MachineQuota);
      }
      if id in tx.issued {
        return Failure(UniqueViolation);
      }
      tx := tx.(issued := tx.issued + {id}, machines := tx.machines[id := machine]);
      var queued := EnqueueOperation(tx, op, q);
      if queued.Failure? {
        return Failure(queued.error);
      }
      db := queued.value.0;
      return Success(queued.value.1);
    }

    method SetDesiredAndEnqueue(desired: MachineStatus, op: Id, q: Job) returns (r: Result<Id, Error>)
      requires Valid()
      modifies this
      ensures Executed(Store.SetDesiredAndEnqueue(old(db), desired, op, q), old(db), db, r)
      ensures LifecycleRequest(q) && desired == DesiredFor(q.action) ==> Valid()
    {
      RequestKeepsInv(db, desired, op, q);
      hide Inv, LifecycleRequest, Enqueue, HasOpenOperation, HasActiveRun, EnvironmentReady, KeysUnique, FindByKey;
      var tx := db;
      var existing := FindOperation(tx.operations, q.machine, q.key);
      if existing.Some? && tx.operations[existing.value].job.workspace == q.workspace {
        var job := tx.operations[existing.value].job;
        if job.action != q.action || job.requestedBy != q.requestedBy {
          return Failure(IdempotencyKeyConflict);
        }
        return Success(existing.value);
      }
      if !MachineRow(tx, q.workspace, q.machine) {
        return Failure(NoRows);
      }
      var machine := tx.machines[q.machine];
      if machine.generation >= q.generation {
        return Failure(MachineStateConflict);
      }
      if HasOpenOperation(tx.operations, q.machine, {SnapshotEnvironment}) {
        return Failure(MachineStateConflict);
      }
      if q.action == Pause || q.action == Stop || q.action == Teardown {
        if HasActiveRun(tx.runs, q.machine) {
          return Failure(ActiveAgentRun);
        }
      }
      if desired.Running? {
        if machine.environment.Some? && !EnvironmentReady(tx, q.workspace, machine.environment.value) {
          return Failure(EnvironmentUnavailable);
        }
        if machine.status.Stopped? || machine.status.Failed? {
          if !PolicyEnabled(tx, q.workspace) {
            return Failure(NoRows);
          }
          var policy := tx.policies[q.workspace];
          if |CountedInWorkspace(tx.machines, q.workspace)| >= policy.maxWorkspace ||
             |CountedForCreator(tx.machines, q.workspace, machine.creator)| >= policy.maxUser {
            return Failure(MachineQuota);
          }
        }
      }
      tx := tx.(machines := tx.machines[q.machine := machine.(desired := desired, generation := q.generation)]);
      var queued := EnqueueOperation(tx, op, q);
      if queued.Failure? {
        return Failure(queued.error);
      }
      db := queued.value.0;
      return Success(queued.value.1);
    }

    // ---- leases ----

    /** The lease statement, row by row: whichever machines still have nothing taken offer
        their rows, and one that comes first among all of these is next. */
    method LeaseOperations(owner: string, limit: nat, seconds: nat, locked: set<Id>) returns (chosen: set<Id>)
      requires Valid()
      modifies this
      ensures LeaseChoice(old(db), limit, locked, chosen) && FairChoice(old(db), limit, locked, chosen)
      ensures db == Store.LeaseOperations(old(db), owner, seconds, chosen)
      ensures Valid()
    {
      chosen := {};
      var open := Offered(db, locked, chosen);
      while open != {} && |chosen| < limit
        invariant open == Offered(db, locked, chosen) && db == old(db)
        invariant chosen <= LeasableRows(db, locked) && |chosen| <= limit && PartialChoice(db, locked, chosen)
        decreases limit - |chosen|
      {
        ghost var _ := FirstExists(db, open);
        var c :| c in open && First(db, open, c);
        TakesFirst(db, locked, chosen, c);
        chosen := chosen + {c};
        open := Offered(db, locked, chosen);
      }
      ChoiceComplete(db, limit, locked, chosen);
      ChoiceIffFair(db, limit, locked, chosen);
      LeaseOperationsSafe(db, owner, seconds, chosen);
      hide LeaseChoice, FairChoice, PartialChoice, First, LeasableRows, Offered;
      db := db.(operations := map o | o in db.operations ::
                  if o in chosen then LeasedRow(db.operations[o], db.now, owner, seconds) else db.operations[o]);
    }

    method RenewOperationLease(id: Id, owner: string, seconds: nat) returns (r: Result<Unit, Error>)
      requires Valid()
      modifies this
      ensures Executed(Store.RenewOperationLease(old(db), id, owner, seconds), old(db), db, r)
      ensures Valid()
    {
      RenewOperationLeaseSafe(db, id, owner, seconds);
      var tx := db;
      if !(id in tx.operations && tx.operations[id].status.Leased? && tx.operations[id].owner == Some(owner)) {
        return Failure(LeaseLost);
      }
      db := tx.(operations := tx.operations[id := tx.operations[id].(leaseExpires := Some(Later(tx.now, seconds)))]);
      return Success(Unit);
    }

    method CompleteOperation(id: Id, owner: string) returns (r: Result<Unit, Error>)
      requires Valid()
      modifies this
      ensures Executed(Store.CompleteOperation(old(db), id, owner), old(db), db, r)
      ensures Valid()
    {
      CompleteOperationSafe(db, id, owner);
      var tx := db;
      if !(id in tx.operations && tx.operations[id].status.Leased? && tx.operations[id].owner == Some(owner)) {
        return Failure(LeaseLost);
      }
      var row := tx.operations[id].(status := OpStatus.Completed, completedAt := Some(tx.now), owner := None, leaseExpires := None);
      db := tx.(operations := tx.operations[id := row]);
      return Success(Unit);
    }

    /** The statement tests the owner only, so that it works on a lapsed lease too. */
    method FailOperation(id: Id, owner: string, code: string, retryable: bool) returns (r: Result<bool, Error>)
      requires Valid()
      modifies this
      ensures Executed(Store.FailOperation(old(db), id, owner, code, retryable), old(db), db, r)
      ensures Valid()
    {
      FailOperationSafe(db, id, owner, code, retryable);
      var tx := db;
      if !(id in tx.operations && tx.operations[id].owner == Some(owner)) {
        return Failure(NoRows);
      }
      var row := tx.operations[id];
      row := row.(errorCode := Some(code), owner := None, leaseExpires := None, availableAt := Later(tx.now, Backoff(row.attempts)));
      if retryable && row.attempts < row.job.maxAttempts {
        row := row.(status := OpStatus.Pending, completedAt := None);
      } else {
        row := row.(status := OpStatus.Failed, completedAt := Some(tx.now));
      }
      db := tx.(operations := tx.operations[id := row]);
      return Success(row.status.Pending?);
    }

    // ---- machine status ----

    method SetMachineState(id: Id, status: MachineStatus, network: Option<string>, volume: Option<string>)
      requires Valid()
      modifies this
      ensures db == Store.SetMachineState(old(db), id, status, network, volume)
      ensures Valid()
    {
      SetMachineStateSafe(db, id, status, network, volume);
      var tx := db;
      if id in tx.machines {
        var row := tx.machines[id].(status := status);
        if network.Some? {
          row := row.(network := network);
        }
        if volume.Some? {
          row := row.(volume := volume);
        }
        db := tx.(machines := tx.machines[id := row]);
      }
    }

    /** Answers whether the write applied. */
    method SetMachineStateForOperation(
      id: Id, generation: int, allowStale: bool, status: MachineStatus, network: Option<string>, volume: Option<string>)
      returns (updated: bool)
      requires Valid()
      modifies this
      ensures db == Store.SetMachineStateForOperation(old(db), id, generation, allowStale, status, network, volume)
      ensures updated == StatusWriteApplies(old(db), id, generation, allowStale)
      ensures Valid()
    {
      if id in db.machines && (allowStale || db.machines[id].generation == generation) {
        SetMachineState(id, status, network, volume);
        return true;
      }
      return false;
    }

    // ---- agent runs ----

    method CreateAgentRun(id: Id, machine: Id, workspace: Id, checkout: Option<Id>, op: Id, q: Job) returns (r: Result<Id, Error>)
      requires Valid()
      modifies this
      ensures Executed(Store.CreateAgentRun(old(db), id, machine, workspace, checkout, op, q), old(db), db, r)
      ensures RunRequest(id, machine, workspace, q) ==> Valid()
    {
      if RunRequest(id, machine, workspace, q) {
        CreateAgentRunSafe(db, id, machine, workspace, checkout, op, q);
      }
      assert KeysUnique(db.operations);
      var tx := db;
      if !MachineRow(tx, workspace, machine) {
        return Failure(MachineStateConflict);
      }
      var row := tx.machines[machine];
      if !row.status.Running? || !row.desired.Running? || row.generation != q.generation {
        return Failure(MachineStateConflict);
      }
      if !PolicyEnabled(tx, workspace) {
        return Failure(NoRows);
      }
      var dailyRuns := |RunsToday(tx.runs, workspace, Midnight(tx.now))|;
      if dailyRuns >= tx.policies[workspace].maxDailyRuns {
        return Failure(DailyRunLimit);
      }
      if HasActiveRun(tx.runs, machine) {
        return Failure(ActiveAgentRun);
      }
      if id in tx.issued {
        return Failure(UniqueViolation);
      }
      var run := AgentRun(machine, workspace, checkout, RunStatus.Queued, tx.now, None, None);
      tx := tx.(issued := tx.issued + {id}, runs := tx.runs[id := run]);
      var queued := EnqueueOperation(tx, op, q.(run := Some(id)));
      if queued.Failure? {
        return Failure(queued.error);
      }
      db := queued.value.0;
      return Success(queued.value.1);
    }

    method CancelAgentRun(workspace: Id, id: Id, op: Id, q: Job) returns (r: Result<Option<Id>, Error>)
      requires Valid()
      modifies this
      ensures Executed(Store.CancelAgentRun(old(db), workspace, id, op, q), old(db), db, r)
      ensures CancelRequest(old(db), id, q) ==> Valid()
    {
      ghost var before := db;
      if CancelRequest(before, id, q) {
        CancelAgentRunSafe(db, workspace, id, op, q);
      }
      assert KeysUnique(db.operations);
      var tx := db;
      if !(id in tx.runs && tx.runs[id].workspace == workspace) {
        return Failure(NoRows);
      }
      if !tx.runs[id].status.Active() {
        return Success(None);
      }
      tx := tx.(runs := tx.runs[id := tx.runs[id].(status := RunStatus.Cancelled, completedAt := Some(tx.now))]);
      var queued := EnqueueOperation(tx, op, q.(run := Some(id)));
      if queued.Failure? {
        return Failure(queued.error);
      }
      db := queued.value.0;
      return Success(Some(queued.value.1));
    }

    method UpdateAgentRunStarted(id: Id) returns (r: Result<Unit, Error>)
      requires Valid()
      modifies this
      ensures Executed(Store.UpdateAgentRunStarted(old(db), id), old(db), db, r)
      ensures Valid()
    {
      UpdateAgentRunStartedSafe(db, id);
      var tx := db;
      if !(id in tx.runs && (tx.runs[id].status.Queued? || tx.runs[id].status.Starting?)) {
        return Failure(NoRows);
      }
      var row := tx.runs[id].(status := RunStatus.Running);
      if row.startedAt.None? {
        row := row.(startedAt := Some(tx.now));
      }
      db := tx.(runs := tx.runs[id := row]);
      return Success(Unit);
    }

    method CompleteAgentRun(id: Id, status: RunStatus)
      requires Valid()
      modifies this
      ensures db == Store.CompleteAgentRun(old(db), id, status)
      ensures !status.Active() ==> Valid()
    {
      CompletionKeepsInv(db, id, status);
      hide Inv;
      var tx := db;
      if id in tx.runs && (tx.runs[id].status !in {RunStatus.Succeeded, RunStatus.Failed, RunStatus.Cancelled, RunStatus.Timeout} ||
                           tx.runs[id].status == status) {
        db := tx.(runs := tx.runs[id := tx.runs[id].(status := status, completedAt := Some(tx.now))]);
      }
    }

    // ---- permanent deletion ----

    method RequestPermanentDelete(workspace: Id, machine: Id, requester: Option<Id>, minted: Id)
      returns (r: Result<Option<Id>, Error>, ghost active: Option<Id>)
      requires Valid()
      modifies this
      ensures ActiveTeardown(old(db), workspace, machine, active)
      ensures Executed(Store.RequestPermanentDelete(old(db), workspace, machine, requester, active, minted), old(db), db, r)
      ensures Valid()
    {
      var found := FindTeardown(db, workspace, machine);
      active := found;
      RequestPermanentDeleteSafe(db, workspace, machine, requester, active, minted);
      var tx;
      tx, r := DeleteForGood(db, workspace, machine, requester, found, minted);
      db := tx;
    }

    method PurgePermanentDeleteRequest(workspace: Id, machine: Id) returns (r: Result<Unit, Error>)
      requires Valid()
      modifies this
      ensures Executed(Store.PurgePermanentDeleteRequest(old(db), workspace, machine), old(db), db, r)
      ensures Valid()
    {
      PurgeSafe(db, workspace, machine);
      hide DropMachines;
      var tx := db;
      if !(MachineRow(tx, workspace, machine) && PurgeStatus(tx.machines[machine]) &&
           !HasOpenOperation(tx.operations, machine, AllActions)) {
        return Failure(NoRows);
      }
      db := DropMachines(tx, {machine});
      return Success(Unit);
    }

    method BulkPurgeMachines(workspace: Id, only: Option<set<Id>>, aged: set<Id>, failed: bool, expired: bool) returns (count: nat)
      requires Valid()
      modifies this
      ensures db == Store.BulkPurgeMachines(old(db), workspace, only, aged, failed, expired)
      ensures count == |BulkPurged(old(db), workspace, only, aged, failed, expired)|
      ensures Valid()
    {
      var gone := BulkPurged(db, workspace, only, aged, failed, expired);
      DropMachinesSafe(db, gone);
      hide DropMachines;
      db := DropMachines(db, gone);
      return |gone|;
    }

    // ---- settings and environments ----

    method UpsertScopeSetting(scope: Scope, setting: Setting) returns (r: Result<Unit, Error>)
      requires Valid()
      modifies this
      ensures Executed(Store.UpsertScopeSetting(old(db), scope, setting), old(db), db, r)
      ensures Valid()
    {
      UpsertScopeSettingSafe(db, scope, setting);
      var tx := db;
      if setting.environment.Some? && !EnvironmentReady(tx, setting.workspace, setting.environment.value) {
        return Failure(EnvironmentUnavailable);
      }
      if scope in tx.settings && tx.settings[scope].workspace != setting.workspace {
        return Failure(NoRows);
      }
      db := tx.(settings := tx.settings[scope := setting]);
      return Success(Unit);
    }

    method DeleteScopeSetting(workspace: Id, scope: Scope)
      requires Valid()
      modifies this
      ensures db == Store.DeleteScopeSetting(old(db), workspace, scope)
      ensures Valid()
    {
      DeleteScopeSettingSafe(db, workspace, scope);
      var tx := db;
      if scope in tx.settings && tx.settings[scope].workspace == workspace {
        db := tx.(settings := tx.settings - {scope});
      }
    }

    method CreateEnvironment(id: Id, environment: Environment, op: Id, q: Job) returns (r: Result<Id, Error>)
      requires Valid()
      modifies this
      ensures Executed(Store.CreateEnvironment(old(db), id, environment, op, q), old(db), db, r)
      ensures SnapshotRequest(id, environment, q) ==> Valid()
    {
      if SnapshotRequest(id, environment, q) {
        CreateEnvironmentSafe(db, id, environment, op, q);
      }
      assert KeysUnique(db.operations);
      hide HasOpenOperation;
      var tx := db;
      if environment.source != Some(q.machine) || q.workspace != environment.workspace || q.action != SnapshotEnvironment ||
         q.environment != Some(id) {
        return Failure(MachineStateConflict);
      }
      if !MachineRow(tx, environment.workspace, q.machine) {
        return Failure(MachineStateConflict);
      }
      var row := tx.machines[q.machine];
      var stable := row.status == row.desired && (row.status.Paused? || row.status.Stopped?);
      if !row.builder || !stable || row.generation != q.generation {
        return Failure(MachineStateConflict);
      }
      if HasOpenOperation(tx.operations, q.machine, LifecycleActions) {
        return Failure(MachineStateConflict);
      }
      if id in tx.issued {
        return Failure(UniqueViolation);
      }
      tx := tx.(issued := tx.issued + {id}, environments := tx.environments[id := environment]);
      var queued := EnqueueOperation(tx, op, q);
      if queued.Failure? {
        return Failure(queued.error);
      }
      db := queued.value.0;
      return Success(queued.value.1);
    }

    method RequestEnvironmentDeletion(workspace: Id, id: Id) returns (r: Result<Unit, Error>)
      requires Valid()
      modifies this
      ensures Executed(Store.RequestEnvironmentDeletion(old(db), workspace, id), old(db), db, r)
      ensures Valid()
    {
      RequestEnvironmentDeletionSafe(db, workspace, id);
      var tx;
      tx, r := RetireEnvironment(db, workspace, id);
      db := tx;
    }

    method UpdateEnvironmentState(id: Id, status: EnvironmentStatus, imageRef: string, digest: Option<string>) returns (r: Result<Unit, Error>)
      requires Valid()
      modifies this
      ensures Executed(Store.UpdateEnvironmentState(old(db), id, status, imageRef, digest), old(db), db, r)
      ensures !status.DeleteRequested? ==> Valid()
    {
      if !status.DeleteRequested? {
        UpdateEnvironmentStateSafe(db, id, status, imageRef, digest);
      }
      var tx := db;
      if !(id in tx.environments && !tx.environments[id].status.DeleteRequested?) {
        return Failure(EnvironmentDeletionConflict);
      }
      var row := tx.environments[id].(status := status);
      if imageRef != "" {
        row := row.(imageRef := imageRef);
      }
      if digest.Some? {
        row := row.(digest := digest);
      }
      db := tx.(environments := tx.environments[id := row]);
      return Success(Unit);
    }

    method DeleteEnvironment(workspace: Id, id: Id) returns (r: Result<Unit, Error>)
      requires Valid()
      modifies this
      ensures Executed(Store.DeleteEnvironment(old(db), workspace, id), old(db), db, r)
      ensures Valid()
    {
      DeleteEnvironmentSafe(db, workspace, id);
      if !(id in db.environments && db.environments[id].workspace == workspace && db.environments[id].status.DeleteRequested?) {
        return Failure(NoRows);
      }
      var tx := db.(environments := db.environments - {id});
      tx := tx.(machines := map m | m in tx.machines ::
                  if tx.machines[m].environment == Some(id) then tx.machines[m].(environment := None) else tx.machines[m]);
      tx := tx.(settings := map s | s in tx.settings ::
                  if tx.settings[s].environment == Some(id) then tx.settings[s].(environment := None) else tx.settings[s]);
      db := tx.(operations := map o | o in tx.operations && tx.operations[o].job.environment != Some(id) :: tx.operations[o]);
      return Success(Unit);
    }

    /** `locked` are the rows the query returned: distinct environments being built. The
        answer is by how many their number went down. */
    method ReconcileOrphanedEnvironments(locked: seq<Id>) returns (reconciled: nat)
      requires Valid() && Distinct(locked) && forall e :: e in locked ==> e in BeingBuilt(db)
      modifies this
      ensures db == Store.ReconcileOrphanedEnvironments(old(db), locked)
      ensures |BeingBuilt(db)| == |BeingBuilt(old(db))| - reconciled
      ensures Valid()
    {
      ghost var after := ReconcileOrphanedEnvironmentsSafe(db, locked);
      var tx;
      tx, reconciled := FailOrphanedEnvironments(db, locked);
      db := tx;
    }

    // ---- checkouts ----

    method CreateCheckout(id: Id, checkout: Checkout, op: Id, q: Job) returns (r: Result<Id, Error>)
      requires Valid() && CheckoutsUnique(db.checkouts)
      modifies this
      ensures Executed(Store.CreateCheckout(old(db), id, checkout, op, q), old(db), db, r)
      ensures CheckoutsUnique(db.checkouts)
      ensures CheckoutRequest(old(db), checkout, q) ==> Valid()
    {
      ghost var before := db;
      if CheckoutRequest(before, checkout, q) {
        CreateCheckoutSafe(db, id, checkout, op, q);
      }
      CheckoutsStayUnique(db, id, checkout, op, q);
      hide CheckoutsUnique, Store.CreateCheckout;
      var tx;
      tx, r := StoreCheckout(db, id, checkout, op, q);
      db := tx;
    }

    method UpdateCheckoutState(id: Id, status: CheckoutStatus)
      requires Valid()
      modifies this
      ensures db == Store.UpdateCheckoutState(old(db), id, status)
      ensures Valid()
    {
      UpdateCheckoutStateSafe(db, id, status);
      var tx := db;
      if id in tx.checkouts {
        db := tx.(checkouts := tx.checkouts[id := tx.checkouts[id].(status := status)]);
      }
    }

    method ReconcileOrphanedCheckouts(locked: seq<Id>) returns (reconciled: nat)
      requires Valid() && Distinct(locked) && forall c :: c in locked ==> c in BeingPrepared(db)
      modifies this
      ensures db == Store.ReconcileOrphanedCheckouts(old(db), locked)
      ensures |BeingPrepared(db)| == |BeingPrepared(old(db))| - reconciled
      ensures Valid()
    {
      ghost var after := ReconcileOrphanedCheckoutsSafe(db, locked);
      var tx;
      tx, reconciled := FailOrphanedCheckouts(db, locked);
      db := tx;
    }

    // ---- terminals and tickets ----

    method CreateTerminalSession(id: Id, session: Session) returns (r: Result<Unit, Error>)
      requires Valid()
      modifies this
      ensures Executed(Store.CreateTerminalSession(old(db), id, session), old(db), db, r)
      ensures Valid()
    {
      CreateTerminalSessionSafe(db, id, session);
      var tx := db;
      if id in tx.issued {
        return Failure(UniqueViolation);
      }
      if !MachineRow(tx, session.workspace, session.machine) {
        return Failure(ForeignKeyViolation);
      }
      db := tx.(issued := tx.issued + {id}, sessions := tx.sessions[id := session]);
      return Success(Unit);
    }

    /** Answers the session's status, or None for a session that is not the user's. */
    method RequestTerminalSessionClose(workspace: Id, machine: Id, user: Id, session: Id, op: Id, q: Job)
      returns (r: Result<Option<SessionStatus>, Error>)
      requires Valid()
      modifies this
      ensures Executed(Store.RequestTerminalSessionClose(old(db), workspace, machine, user, session, op, q), old(db), db, r)
      ensures CloseRequest(machine, session, q) ==> Valid()
    {
      ghost var allowed := CloseRequest(machine, session, q);
      if allowed {
        RequestTerminalSessionCloseSafe(db, workspace, machine, user, session, op, q);
      }
      assert KeysUnique(db.operations);
      hide RevokeSessionTickets;
      var tx := db;
      if !SessionRow(tx, workspace, machine, user, session) {
        return Success(None);
      }
      if tx.sessions[session].status.Closed? {
        return Success(Some(SessionStatus.Closed));
      }
      if !MachineRow(tx, workspace, machine) {
        return Failure(NoRows);
      }
      var request := q.(generation := tx.machines[machine].generation, session := Some(session));
      tx := tx.(sessions := tx.sessions[session := tx.sessions[session].(status := SessionStatus.Closing)]);
      tx := tx.(tickets := RevokeSessionTickets(tx.tickets, session));
      var existing := FindOperation(tx.operations, request.machine, request.key);
      if existing.Some? && tx.operations[existing.value].status.Final() {
        var row := tx.operations[existing.value].(
          status := OpStatus.Pending, attempts := 0, owner := None, leaseExpires := None,
          availableAt := tx.now, completedAt := None, errorCode := None);
        db := tx.(operations := tx.operations[existing.value := row]);
        return Success(Some(SessionStatus.Closing));
      }
      var queued := EnqueueOperation(tx, op, request);
      if queued.Failure? {
        return Failure(queued.error);
      }
      db := queued.value.0;
      return Success(Some(SessionStatus.Closing));
    }

    method CompleteTerminalSessionClose(session: Id)
      requires Valid()
      modifies this
      ensures db == Store.CompleteTerminalSessionClose(old(db), session)
      ensures Valid()
    {
      CompleteTerminalSessionCloseSafe(db, session);
      hide RevokeSessionTickets;
      var tx := db.(tickets := RevokeSessionTickets(db.tickets, session));
      if session in tx.sessions && !tx.sessions[session].status.Closed? {
        tx := tx.(sessions := tx.sessions[session := tx.sessions[session].(status := SessionStatus.Closed)]);
      }
      assert session in db.sessions ==> db.sessions[session := db.sessions[session]] == db.sessions;
      db := tx;
    }

    method FailTerminalSessionClose(session: Id)
      requires Valid()
      modifies this
      ensures db == Store.FailTerminalSessionClose(old(db), session)
      ensures Valid()
    {
      FailTerminalSessionCloseSafe(db, session);
      var tx := db;
      if session in tx.sessions && tx.sessions[session].status.Closing? {
        db := tx.(sessions := tx.sessions[session := tx.sessions[session].(status := SessionStatus.CloseFailed)]);
      }
    }

    method CreateAccessTicket(id: Id, ticket: Ticket, access: Access) returns (r: Result<Unit, Error>)
      requires Valid()
      modifies this
      ensures Executed(Store.CreateAccessTicket(old(db), id, ticket, access), old(db), db, r)
      ensures Valid()
    {
      CreateAccessTicketSafe(db, id, ticket, access);
      var tx := db;
      if id in tx.issued || (exists other :: other in tx.tickets && tx.tickets[other].tokenHash == ticket.tokenHash) {
        return Failure(UniqueViolation);
      }
      if !(MachineAccessible(tx, ticket.workspace, ticket.machine, ticket.user) && access.serviceRunning && access.member) {
        return Failure(NoRows);
      }
      if !(tx.now < ticket.expiresAt <= tx.machines[ticket.machine].expiresAt) {
        return Failure(NoRows);
      }
      if ticket.session.Some? && !(access.serviceIsTerminal && ActiveSession(tx, ticket)) {
        return Failure(NoRows);
      }
      db := tx.(issued := tx.issued + {id}, tickets := tx.tickets[id := ticket]);
      return Success(Unit);
    }

    method ConsumeAccessTicket(tokenHash: string, host: string, access: Access) returns (consumed: Option<Id>)
      requires Valid()
      modifies this
      ensures (db, consumed) == Store.ConsumeAccessTicket(old(db), tokenHash, host, access)
      ensures Valid()
    {
      ConsumeAccessTicketSafe(db, tokenHash, host, access);
      assert HashesUnique(db.tickets);
      var tx := db;
      if id :| id in tx.tickets && Consumable(tx, id, tokenHash, host, access) {
        OneConsumable(tx, tokenHash, host, access, id);
        db := tx.(tickets := tx.tickets[id := tx.tickets[id].(status := TicketStatus.Used)]);
        return Some(id);
      }
      NoneConsumable(tx, tokenHash, host, access);
      return None;
    }

    method RevokeMachineAccess(machine: Id)
      requires Valid()
      modifies this
      ensures db == Store.RevokeMachineAccess(old(db), machine)
      ensures Valid()
    {
      RevokeMachineAccessSafe(db, machine);
      var tx := db;
      db := tx.(tickets := map t | t in tx.tickets ::
                  if tx.tickets[t].machine == machine && tx.tickets[t].status.Active?
                  then tx.tickets[t].(status := TicketStatus.Revoked) else tx.tickets[t]);
    }
  }

  /** token_hash is unique. */
  lemma OneConsumable(db: Db, tokenHash: string, host: string, a: Access, id: Id)
    requires HashesUnique(db.tickets) && Consumable(db, id, tokenHash, host, a)
    ensures Store.ConsumeAccessTicket(db, tokenHash, host, a).1 == Some(id)
    ensures Store.ConsumeAccessTicket(db, tokenHash, host, a).0 == db.(tickets := db.tickets[id := db.tickets[id].(status := TicketStatus.Used)])
  {}

  lemma NoneConsumable(db: Db, tokenHash: string, host: string, a: Access)
    requires forall id :: id in db.tickets ==> !Consumable(db, id, tokenHash, host, a)
    ensures Store.ConsumeAccessTicket(db, tokenHash, host, a) == (db, None)
  {
    forall id
      ensures !Consumable(db, id, tokenHash, host, a)
    {}
  }

  // ---- why the lease loop makes a choice the statement could have made ----

  function LeasableRows(db: Db, locked: set<Id>): set<Id> {
    set o | o in db.operations && LeasableNow(db, locked, o)
  }

  /** The rows of machines none of the chosen rows belongs to. */
  function Offered(db: Db, locked: set<Id>, chosen: set<Id>): set<Id> {
    set o | o in LeasableRows(db, locked) && LeftOut(db, chosen, o)
  }

  /** A row of the set that no other comes before. */
  predicate First(db: Db, rows: set<Id>, c: Id) {
    c in rows && forall o :: o in rows ==> o in db.operations && c in db.operations && !Before(db.operations[o], db.operations[c])
  }

  lemma {:induction false} FirstExists(db: Db, rows: set<Id>) returns (c: Id)
    requires rows != {} && rows <= db.operations.Keys
    ensures First(db, rows, c)
  {
    var o :| o in rows;
    if rows == {o} {
      c := o;
    } else {
      var rest := rows - {o};
      assert rows == rest + {o};
      c := FirstExists(db, rest);
      if Before(db.operations[o], db.operations[c]) {
        c := o;
      }
    }
  }

  /** A set of rows that comes first: of different machines, first of their own machine, and
      no row on offer before any of them. */
  ghost predicate PartialChoice(db: Db, locked: set<Id>, chosen: set<Id>) {
    OneOfEach(db, chosen) && forall c, o :: c in chosen && o in LeasableRows(db, locked) && (SameMachine(db, c, o) || LeftOut(db, chosen, o)) ==> NotBefore(db, o, c)
  }

  predicate SameMachine(db: Db, c: Id, d: Id) {
    c in db.operations && d in db.operations && db.operations[c].job.machine == db.operations[d].job.machine
  }

  predicate NotBefore(db: Db, o: Id, c: Id) {
    c in db.operations && o in db.operations && !Before(db.operations[o], db.operations[c])
  }

  lemma TakesFirst(db: Db, locked: set<Id>, chosen: set<Id>, c: Id)
    requires chosen <= LeasableRows(db, locked) && PartialChoice(db, locked, chosen) && First(db, Offered(db, locked, chosen), c)
    ensures chosen + {c} <= LeasableRows(db, locked) && c !in chosen && PartialChoice(db, locked, chosen + {c})
  {
    hide Leasable, Before;
    forall d, o | d in chosen + {c} && o in LeasableRows(db, locked) && (SameMachine(db, d, o) || LeftOut(db, chosen + {c}, o))
      ensures NotBefore(db, o, d)
    {
      if d == c {
        assert o in Offered(db, locked, chosen);
      } else {
        assert LeftOut(db, chosen + {c}, o) ==> LeftOut(db, chosen, o);
      }
    }
  }

  lemma ChoiceComplete(db: Db, limit: nat, locked: set<Id>, chosen: set<Id>)
    requires chosen <= LeasableRows(db, locked) && |chosen| <= limit && PartialChoice(db, locked, chosen)
    requires Offered(db, locked, chosen) == {} || |chosen| == limit
    ensures LeaseChoice(db, limit, locked, chosen)
  {
    LeasableInTable(db);
    hide Leasable, Before, OneOfEach;
    forall c, o | c in chosen && Leasable(db, o) && db.operations[o].job.machine == db.operations[c].job.machine
      ensures !Before(db.operations[o], db.operations[c])
    {
      assert SameMachine(db, c, o) && NotBefore(db, o, c);
    }
    forall o | LeasableNow(db, locked, o) && LeftOut(db, chosen, o)
      ensures |chosen| == limit && forall c :: c in chosen ==> !Before(db.operations[o], db.operations[c])
    {
      assert o in Offered(db, locked, chosen);
      assert forall c :: c in chosen ==> NotBefore(db, o, c);
    }
  }

  lemma LeasableInTable(db: Db)
    ensures forall o :: Leasable(db, o) ==> o in db.operations
  {}
}
