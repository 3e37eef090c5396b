/** Laws that tie operations of BE/internal/repository/dev_machine.go to each other: what one
    call leaves behind for the next, and for every later one of a run. */
module Laws {
  import opened Wrappers
  import opened Domain
  import opened Store
  import opened Invariants
  import opened Safety
  import opened TransactionSafety
  import opened Runs

  // ---- requests with an idempotency key ----

  /** The row is what an earlier request with this key left. */
  ghost predicate LeftBy(db: Db, q: Job, o: Id) {
    o in db.operations &&
    var job := db.operations[o].job;
    job.machine == q.machine && job.key == q.key && job.workspace == q.workspace && job.action == q.action && job.requestedBy == q.requestedBy
  }

  lemma FindsRow(db: Db, q: Job, o: Id)
    requires KeysUnique(db.operations) && o in db.operations && db.operations[o].job.machine == q.machine && db.operations[o].job.key == q.key
    ensures FindByKey(db.operations, q.machine, q.key) == Some(o)
  {}

  /** A committed request leaves its row. */
  lemma RequestLeavesRow(db: Db, op: Id, q: Job)
    requires Inv(db) && LifecycleRequest(q)
    ensures var tx := SetDesiredAndEnqueue(db, DesiredFor(q.action), op, q);
      tx.Committed? ==> LeftBy(tx.db, q, tx.value)
  {
    var existing := FindByKey(db.operations, q.machine, q.key);
    if existing.Some? {
      InFence(db, existing.value);
    }
    hide Inv, HasOpenOperation, HasActiveRun, EnvironmentReady, QuotaReached;
  }

  lemma InFence(db: Db, o: Id)
    requires Inv(db) && o in db.operations
    ensures db.operations[o].job.machine in db.machines
    ensures db.operations[o].job.workspace == db.machines[db.operations[o].job.machine].workspace
  {}

  /** The event is a lifecycle request that commits and is answered with this operation. */
  ghost predicate Requests(db: Db, e: Event, o: Id) {
    e.DesiredSet? && LifecycleRequest(e.job) &&
    var tx := SetDesiredAndEnqueue(db, DesiredFor(e.job.action), e.op, e.job);
    tx.Committed? && tx.value == o
  }

  lemma RequestStep(a: Db, e: Event, b: Db, o: Id)
    requires Inv(a) && Step(a, e, b) && Requests(a, e, o)
    ensures LeftBy(b, e.job, o)
  {
    hide Inv, SetDesiredAndEnqueue, LeftBy;
    RequestLeavesRow(a, e.op, e.job);
  }

  /** The user was deleted by one of the steps. */
  ghost predicate Deleted(events: seq<Event>, from: nat, to: nat, user: Option<Id>)
    requires from <= to <= |events|
  {
    exists m {:trigger events[m]} :: from <= m < to && events[m].RowsErased? && Refers(user, events[m].gone.users)
  }

  lemma RequesterStep(a: Db, e: Event, b: Db, o: Id)
    requires Step(a, e, b) && Safe(a, b, MovesOf(e)) && o in a.operations && o in b.operations
    ensures b.operations[o].job ==
            if e.RowsErased? then a.operations[o].job.(requestedBy := Cleared(a.operations[o].job.requestedBy, e.gone.users))
            else a.operations[o].job
  {
    hide Step, Inv, Evolves, RetirementKept;
    if e.RowsErased? {
      ErasedStep(a, e, b);
      hide Safe, Cleared;
    } else {
      hide Refers;
    }
  }

  lemma ErasedStep(a: Db, e: Event, b: Db)
    requires Step(a, e, b) && e.RowsErased?
    ensures b == EraseRows(a, e.gone)
  {
    hide Allowed, EraseRows;
  }

  lemma RowStays(states: seq<Db>, events: seq<Event>, i: nat, k: nat, j: nat, o: Id)
    requires IsRun(states, events) && i <= k <= j < |states| && o in states[i].operations && o in states[j].operations
    ensures o in states[k].operations
  {
    RunKeepsInv(states, events, i);
    RunEvolves(states, events, i, k);
    RunEvolves(states, events, k, j);
    hide IsRun, OperationsInv, RunsInv, EnvironmentsInv, TerminalsInv;
  }

  /** What a request left stays, but for a requester that is deleted. */
  lemma {:induction false} RowKept(states: seq<Db>, events: seq<Event>, i: nat, j: nat, q: Job, o: Id)
    requires IsRun(states, events) && i <= j < |states| && LeftBy(states[i], q, o) && o in states[j].operations
    ensures LeftBy(states[j], q.(requestedBy := if Deleted(events, i, j, q.requestedBy) then None else q.requestedBy), o)
  {
    hide Step, Inv, Safe, MovesOf;
    if i < j {
      var a, e, b := states[j - 1], events[j - 1], states[j];
      assert Step(a, e, b);
      RowStays(states, events, i, j - 1, j, o);
      RowKept(states, events, i, j - 1, q, o);
      RunStepSafe(states, events, j - 1);
      RequesterStep(a, e, b, o);
      DeletedNext(events, i, j - 1, q.requestedBy);
    }
  }

  lemma DeletedNext(events: seq<Event>, from: nat, to: nat, user: Option<Id>)
    requires from <= to < |events|
    ensures Deleted(events, from, to + 1, user) <==>
            Deleted(events, from, to, user) || (events[to].RowsErased? && Refers(user, events[to].gone.users))
  {}

  /** From a committed request on, for as long as its operation exists and whatever became of
      it, every request under its key is answered with that operation and changes nothing if
      it asks for the same action for the same requester, and is refused otherwise. A requester
      whose account was deleted meanwhile counts as none. */
  lemma RequestRepeats(states: seq<Db>, events: seq<Event>, k: nat, j: nat, o: Id, again: Job, op: Id, desired: MachineStatus)
    requires IsRun(states, events) && k < j < |states| && o in states[j].operations
    requires events[k].DesiredSet? && Requests(states[k], events[k], o)
    requires var q := events[k].job; again.machine == q.machine && again.key == q.key && again.workspace == q.workspace
    ensures var q := events[k].job;
      SetDesiredAndEnqueue(states[j], desired, op, again) ==
      if again.action == q.action && again.requestedBy == (if Deleted(events, k + 1, j, q.requestedBy) then None else q.requestedBy)
      then Committed(states[j], o) else RolledBack(IdempotencyKeyConflict)
  {
    hide Step, Inv, Deleted, Requests;
    RunKeepsInv(states, events, k);
    assert Step(states[k], events[k], states[k + 1]);
    RequestStep(states[k], events[k], states[k + 1], o);
    RowKept(states, events, k + 1, j, events[k].job, o);
    RunKeepsInv(states, events, j);
    InvKeys(states[j]);
    FindsRow(states[j], again, o);
  }

  lemma InvKeys(db: Db)
    requires Inv(db)
    ensures KeysUnique(db.operations)
  {}

  // ---- who may report on an operation ----

  ghost predicate Owns(db: Db, o: Id, owner: string) {
    o in db.operations && db.operations[o].owner == Some(owner)
  }

  ghost predicate LeasesTo(e: Event, o: Id, owner: string) {
    e.OperationsLeased? && e.owner == owner && o in e.chosen
  }

  lemma LeaseRow(a: Db, e: Event, b: Db, o: Id)
    requires Step(a, e, b) && e.OperationsLeased? && o in a.operations
    ensures o in b.operations && b.operations[o].owner == if o in e.chosen then Some(e.owner) else a.operations[o].owner
  {
    hide Step;
    LeasedStep(a, e, b);
  }

  lemma OwnerStays(a: Db, e: Event, b: Db, o: Id)
    requires Inv(a) && Safe(a, b, MovesOf(e)) && !e.OperationsLeased? && o in a.operations && o in b.operations
    ensures b.operations[o].owner == a.operations[o].owner || b.operations[o].owner.None?
  {
    hide Evolves, RetirementKept, RunsInv, EnvironmentsInv, TerminalsInv, KeysUnique, Fenced;
  }

  lemma BornFree(a: Db, b: Db, allow: Moves, o: Id)
    requires Safe(a, b, allow) && o !in a.operations && o in b.operations
    ensures b.operations[o].owner.None?
  {
    hide Evolves, RetirementKept, RunsInv, EnvironmentsInv, TerminalsInv, KeysUnique, Fenced;
  }

  lemma OwnershipStep(a: Db, e: Event, b: Db, o: Id, owner: string)
    requires Inv(a) && Step(a, e, b) && Safe(a, b, MovesOf(e)) && !Owns(a, o, owner) && !LeasesTo(e, o, owner)
    ensures !Owns(b, o, owner)
  {
    hide Step, Safe, Inv, MovesOf;
    if o in b.operations {
      if o !in a.operations {
        BornFree(a, b, MovesOf(e), o);
      } else if e.OperationsLeased? {
        LeaseRow(a, e, b, o);
      } else {
        OwnerStays(a, e, b, o);
      }
    }
  }

  lemma StrangersRefused(db: Db, o: Id, owner: string, seconds: nat, code: string, retryable: bool)
    requires !Owns(db, o, owner)
    ensures RenewOperationLease(db, o, owner, seconds) == RolledBack(LeaseLost) && CompleteOperation(db, o, owner) == RolledBack(LeaseLost)
    ensures FailOperation(db, o, owner, code, retryable) == RolledBack(NoRows)
  {}

  lemma {:induction false} StaysStranger(states: seq<Db>, events: seq<Event>, i: nat, j: nat, o: Id, owner: string)
    requires IsRun(states, events) && i <= j < |states| && !Owns(states[i], o, owner)
    requires forall k {:trigger events[k]} :: i <= k < j ==> !LeasesTo(events[k], o, owner)
    ensures !Owns(states[j], o, owner)
  {
    hide Step, Inv, Safe, Owns, LeasesTo;
    if i < j {
      StaysStranger(states, events, i, j - 1, o, owner);
      RunStepSafe(states, events, j - 1);
      assert Step(states[j - 1], events[j - 1], states[j]);
      OwnershipStep(states[j - 1], events[j - 1], states[j], o, owner);
    }
  }

  /** The worker reports the end of the operation, or another worker leases it. */
  predicate GivesUp(e: Event, o: Id, owner: string) {
    || e == OperationCompleted(o, owner)
    || (e.OperationFailed? && e.id == o && e.owner == owner)
    || (e.OperationsLeased? && e.owner != owner && o in e.chosen)
  }

  lemma GivenUp(a: Db, e: Event, b: Db, o: Id, owner: string)
    requires Inv(a) && Step(a, e, b) && GivesUp(e, o, owner)
    ensures !Owns(b, o, owner)
  {
    hide Step, Inv, Owns;
    if e.OperationsLeased? {
      LeasedStep(a, e, b);
      LeaseGivesUp(a, o, owner, e.owner, e.seconds, e.chosen);
    } else {
      ReportedStep(a, e, b);
      if e.OperationCompleted? {
        OwnedIsLeased(a);
        CompletionGivesUp(a, o, owner);
      } else {
        FailureGivesUp(a, o, owner, e.code, e.retryable);
      }
    }
  }

  lemma LeasedStep(a: Db, e: Event, b: Db)
    requires Step(a, e, b) && e.OperationsLeased?
    ensures b == LeaseOperations(a, e.owner, e.seconds, e.chosen)
  {
    hide LeaseChoice, LeaseOperations;
  }

  lemma ReportedStep(a: Db, e: Event, b: Db)
    requires Step(a, e, b) && (e.OperationCompleted? || e.OperationFailed?)
    ensures b == if e.OperationCompleted? then After(a, CompleteOperation(a, e.id, e.owner))
                 else After(a, FailOperation(a, e.id, e.owner, e.code, e.retryable))
  {
    hide CompleteOperation, FailOperation;
  }

  lemma OwnedIsLeased(db: Db)
    requires Inv(db)
    ensures forall o :: o in db.operations && db.operations[o].owner.Some? ==> db.operations[o].status.Leased?
  {}

  lemma CompletionGivesUp(db: Db, o: Id, owner: string)
    requires o in db.operations && db.operations[o].owner.Some? ==> db.operations[o].status.Leased?
    ensures !Owns(After(db, CompleteOperation(db, o, owner)), o, owner)
  {}

  lemma FailureGivesUp(db: Db, o: Id, owner: string, code: string, retryable: bool)
    ensures !Owns(After(db, FailOperation(db, o, owner, code, retryable)), o, owner)
  {}

  lemma LeaseGivesUp(db: Db, o: Id, owner: string, other: string, seconds: nat, chosen: set<Id>)
    requires o in chosen && other != owner
    ensures !Owns(LeaseOperations(db, other, seconds, chosen), o, owner)
  {}

  /** Once a worker has reported the end of an operation, or another worker has leased it, the
      first can neither renew nor complete nor fail it at any later time until a lease
      statement of its own takes the row again. */
  lemma LostForGood(
    states: seq<Db>, events: seq<Event>, k: nat, j: nat, o: Id, owner: string, seconds: nat, code: string, retryable: bool)
    requires IsRun(states, events) && k < j < |states| && GivesUp(events[k], o, owner)
    requires forall m {:trigger events[m]} :: k < m < j ==> !LeasesTo(events[m], o, owner)
    ensures RenewOperationLease(states[j], o, owner, seconds) == RolledBack(LeaseLost)
    ensures CompleteOperation(states[j], o, owner) == RolledBack(LeaseLost)
    ensures FailOperation(states[j], o, owner, code, retryable) == RolledBack(NoRows)
  {
    hide Step, Inv, Owns, LeasesTo, GivesUp, RenewOperationLease, CompleteOperation, FailOperation;
    RunKeepsInv(states, events, k);
    assert Step(states[k], events[k], states[k + 1]);
    GivenUp(states[k], events[k], states[k + 1], o, owner);
    StaysStranger(states, events, k + 1, j, o, owner);
    StrangersRefused(states[j], o, owner, seconds, code, retryable);
  }

  // ---- agent runs ----

  /** The event starts the run or cancels it. */
  ghost predicate TakesFromQueue(db: Db, e: Event, r: Id) {
    e == RunStarted(r) || (e.RunCancelled? && e.id == r && CancelAgentRun(db, e.workspace, r, e.op, e.job).Committed?)
  }

  /** A run is started at most once, and after a committed cancellation never: from then on
      every start is refused. */
  lemma StartsOnce(states: seq<Db>, events: seq<Event>, k: nat, j: nat, r: Id)
    requires IsRun(states, events) && k < j < |states| && r in states[k].runs && TakesFromQueue(states[k], events[k], r)
    ensures UpdateAgentRunStarted(states[j], r) == RolledBack(NoRows)
  {
    hide Step, Inv, Evolves, TakesFromQueue, UpdateAgentRunStarted;
    assert Step(states[k], events[k], states[k + 1]);
    LeavesQueue(states[k], events[k], states[k + 1], r);
    RunKeepsInv(states, events, k);
    RunEvolves(states, events, k, k + 1);
    RunEvolves(states, events, k + 1, j);
    NeverQueuedAgain(states[k], states[k + 1], states[j], r);
  }

  lemma NeverQueuedAgain(a: Db, b: Db, c: Db, r: Id)
    requires Inv(a) && Evolves(a, b) && Evolves(b, c) && r in a.runs && (r in b.runs ==> !b.runs[r].status.Startable())
    ensures UpdateAgentRunStarted(c, r) == RolledBack(NoRows)
  {
    assert r in b.issued;
  }

  lemma LeavesQueue(a: Db, e: Event, b: Db, r: Id)
    requires Step(a, e, b) && r in a.runs && TakesFromQueue(a, e, r)
    ensures r in b.runs ==> !b.runs[r].status.Startable()
  {
    hide CancelAgentRun, UpdateAgentRunStarted, CancelRequest;
    if e.RunStarted? {
      StartLeaves(a, r);
    } else {
      CancelLeaves(a, e.workspace, r, e.op, e.job);
    }
  }

  lemma StartLeaves(db: Db, r: Id)
    ensures var after := After(db, UpdateAgentRunStarted(db, r)); r in after.runs ==> !after.runs[r].status.Startable()
  {}

  lemma CancelLeaves(db: Db, workspace: Id, r: Id, op: Id, q: Job)
    requires CancelAgentRun(db, workspace, r, op, q).Committed?
    ensures var after := After(db, CancelAgentRun(db, workspace, r, op, q)); r in after.runs ==> !after.runs[r].status.Startable()
  {
    CancelCommits(db, workspace, r, op, q);
    if db.runs[r].status.Active() {
      CancelledRuns(db, r, op, q);
    } else {
      CancelAnswers(db, workspace, r, op, q);
    }
    hide CancelAgentRun;
  }

  lemma CancelCommits(db: Db, workspace: Id, r: Id, op: Id, q: Job)
    requires CancelAgentRun(db, workspace, r, op, q).Committed?
    ensures r in db.runs && db.runs[r].workspace == workspace
  {
    hide Enqueue;
  }

  lemma CancelAnswers(db: Db, workspace: Id, r: Id, op: Id, q: Job)
    requires r in db.runs && db.runs[r].workspace == workspace && !db.runs[r].status.Active()
    ensures CancelAgentRun(db, workspace, r, op, q) == Committed(db, None)
  {
    hide Enqueue;
  }

  /** While a run is active on a machine no second one is created and no new request pauses,
      stops or tears the machine down; once it is cancelled a new one is not refused for its
      sake. */
  lemma RunHoldsMachine(db: Db, r: Id, id: Id, checkout: Option<Id>, op: Id, q: Job, desired: MachineStatus)
    requires Inv(db) && r in db.runs && db.runs[r].status.Active() && q.machine == db.runs[r].machine
    ensures CreateAgentRun(db, id, q.machine, db.runs[r].workspace, checkout, op, q).RolledBack?
    ensures q.action in {Pause, Stop, Teardown} && FindByKey(db.operations, q.machine, q.key).None? ==>
              SetDesiredAndEnqueue(db, desired, op, q).RolledBack?
  {
    hide Inv, QuotaReached, EnvironmentReady, HasOpenOperation, Enqueue;
    assert HasActiveRun(db.runs, q.machine);
  }

  lemma CancellationFreesMachine(db: Db, r: Id, op: Id, job: Job, id: Id, checkout: Option<Id>, op2: Id, q: Job)
    requires Inv(db) && r in db.runs && db.runs[r].status.Active()
    ensures var tx := CancelAgentRun(db, db.runs[r].workspace, r, op, job);
      tx.Committed? ==>
        !HasActiveRun(tx.db.runs, db.runs[r].machine) &&
        CreateAgentRun(tx.db, id, db.runs[r].machine, db.runs[r].workspace, checkout, op2, q) != RolledBack(ActiveAgentRun)
  {
    var machine := db.runs[r].machine;
    var tx := CancelAgentRun(db, db.runs[r].workspace, r, op, job);
    if tx.Committed? {
      CancelledRuns(db, r, op, job);
      OnlyActive(db, r);
      hide Inv, Enqueue, CancelAgentRun, FindByKey;
    }
  }

  lemma CancelledRuns(db: Db, r: Id, op: Id, job: Job)
    requires r in db.runs && db.runs[r].status.Active() && CancelAgentRun(db, db.runs[r].workspace, r, op, job).Committed?
    ensures CancelAgentRun(db, db.runs[r].workspace, r, op, job).db.runs ==
            db.runs[r := db.runs[r].(status := RunStatus.Cancelled, completedAt := Some(db.now))]
  {
    hide FindByKey;
  }

  lemma OnlyActive(db: Db, r: Id)
    requires Inv(db) && r in db.runs && db.runs[r].status.Active()
    ensures forall s :: s in db.runs && s != r && db.runs[s].machine == db.runs[r].machine ==> !db.runs[s].status.Active()
  {}

  // ---- snapshots and lifecycle requests ----

  /** A snapshot that was queued keeps new lifecycle requests off its machine, and a queued
      lifecycle request keeps snapshots off it. */
  lemma SnapshotExcludesLifecycle(db: Db, id: Id, e: Environment, op: Id, q: Job, desired: MachineStatus, later: Id, r: Job)
    requires FindByKey(db.operations, q.machine, q.key).None? && CreateEnvironment(db, id, e, op, q).Committed?
    requires r.machine == q.machine
    ensures var after := CreateEnvironment(db, id, e, op, q).db;
      && HasOpenOperation(after.operations, q.machine, {SnapshotEnvironment})
      && (FindByKey(after.operations, r.machine, r.key).None? ==> SetDesiredAndEnqueue(after, desired, later, r).RolledBack?)
  {
    var after := CreateEnvironment(db, id, e, op, q).db;
    assert after.operations[op] == NewOperation(db.now, q);
    hide Enqueue, CreateEnvironment, QuotaReached, EnvironmentReady, HasActiveRun;
  }

  lemma LifecycleExcludesSnapshot(db: Db, op: Id, q: Job, id: Id, e: Environment, later: Id, r: Job)
    requires LifecycleRequest(q) && FindByKey(db.operations, q.machine, q.key).None? && r.machine == q.machine
    requires SetDesiredAndEnqueue(db, DesiredFor(q.action), op, q).Committed?
    ensures var after := SetDesiredAndEnqueue(db, DesiredFor(q.action), op, q).db;
      && HasOpenOperation(after.operations, q.machine, LifecycleActions)
      && CreateEnvironment(after, id, e, later, r) == RolledBack(MachineStateConflict)
  {
    var after := SetDesiredAndEnqueue(db, DesiredFor(q.action), op, q).db;
    assert after.operations[op] == NewOperation(db.now, q);
    hide Enqueue, SetDesiredAndEnqueue, QuotaReached, EnvironmentReady, HasActiveRun;
  }

  // ---- environments ----

  /** Once its deletion was requested an environment can at no later time be chosen by a
      setting or a new machine, keep a machine starting, or be written by its build. */
  lemma DeletedIsUnavailable(
    states: seq<Db>, events: seq<Event>, i: nat, j: nat, e: Id, scope: Scope, s: Setting, id: Id, m: Machine, op: Id, q: Job,
    status: EnvironmentStatus, imageRef: string, digest: Option<string>)
    requires IsRun(states, events) && i <= j < |states|
    requires e in states[i].environments && states[i].environments[e].status.DeleteRequested?
    ensures s.environment == Some(e) ==> UpsertScopeSetting(states[j], scope, s) == RolledBack(EnvironmentUnavailable)
    ensures m.environment == Some(e) ==> CreateBundle(states[j], id, m, op, q) == RolledBack(EnvironmentUnavailable)
    ensures UpdateEnvironmentState(states[j], e, status, imageRef, digest) == RolledBack(EnvironmentDeletionConflict)
    ensures q.machine in states[j].machines && states[j].machines[q.machine].environment == Some(e) &&
            FindByKey(states[j].operations, q.machine, q.key).None? ==>
              SetDesiredAndEnqueue(states[j], MachineStatus.Running, op, q).RolledBack?
  {
    hide Step, Inv, Evolves, Usable, UpsertScopeSetting, CreateBundle, UpdateEnvironmentState, SetDesiredAndEnqueue, FindByKey;
    RunKeepsInv(states, events, i);
    RunEvolves(states, events, i, j);
    StaysUnusable(states[i], states[j], e);
    SettingRefused(states[j], e, scope, s);
    BundleRefused(states[j], e, id, m, op, q);
    BuildRefused(states[j], e, status, imageRef, digest);
    StartRefused(states[j], e, op, q);
  }

  lemma SettingRefused(db: Db, e: Id, scope: Scope, s: Setting)
    requires !Usable(db.environments, e)
    ensures s.environment == Some(e) ==> UpsertScopeSetting(db, scope, s) == RolledBack(EnvironmentUnavailable)
  {}

  lemma BundleRefused(db: Db, e: Id, id: Id, m: Machine, op: Id, q: Job)
    requires !Usable(db.environments, e)
    ensures m.environment == Some(e) ==> CreateBundle(db, id, m, op, q) == RolledBack(EnvironmentUnavailable)
  {
    hide Enqueue, QuotaReached;
  }

  lemma BuildRefused(db: Db, e: Id, status: EnvironmentStatus, imageRef: string, digest: Option<string>)
    requires !Usable(db.environments, e)
    ensures UpdateEnvironmentState(db, e, status, imageRef, digest) == RolledBack(EnvironmentDeletionConflict)
  {}

  lemma StartRefused(db: Db, e: Id, op: Id, q: Job)
    requires !Usable(db.environments, e)
    ensures q.machine in db.machines && db.machines[q.machine].environment == Some(e) &&
            FindByKey(db.operations, q.machine, q.key).None? ==>
              SetDesiredAndEnqueue(db, MachineStatus.Running, op, q).RolledBack?
  {
    hide Enqueue, QuotaReached, HasActiveRun, HasOpenOperation;
  }

  lemma StaysUnusable(a: Db, b: Db, e: Id)
    requires Inv(a) && Evolves(a, b) && e in a.environments && a.environments[e].status.DeleteRequested?
    ensures !Usable(b.environments, e)
  {}

  // ---- resources ----

  /** The network and the volume recorded for a machine are never forgotten, so a machine that
      ever had one is purged only when it is destroyed. */
  lemma OwnedUntilDestroyed(states: seq<Db>, events: seq<Event>, i: nat, j: nat, m: Id)
    requires IsRun(states, events) && i <= j < |states| && m in states[i].machines && m in states[j].machines
    requires states[i].machines[m].network.Some? || states[i].machines[m].volume.Some?
    ensures PurgeStatus(states[j].machines[m]) ==> states[j].machines[m].status.Destroyed?
    ensures !states[j].machines[m].status.Destroyed? ==>
              PurgePermanentDeleteRequest(states[j], states[j].machines[m].workspace, m).RolledBack?
    ensures forall workspace, only, aged, failed, expired ::
              !states[j].machines[m].status.Destroyed? ==> m !in BulkPurged(states[j], workspace, only, aged, failed, expired)
  {
    RunEvolves(states, events, i, j);
    hide IsRun;
  }

  /** The spawn a new machine starts with can be leased at once. */
  lemma BundleIsLeasable(db: Db, id: Id, m: Machine, op: Id, q: Job)
    requires Inv(db) && BundleRequest(id, m, q) && CreateBundle(db, id, m, op, q).Committed?
    ensures var tx := CreateBundle(db, id, m, op, q);
      tx.value == op && Leasable(tx.db, op) && tx.db.operations[op].job.action == Spawn && tx.db.machines[id] == m
  {
    var tx := CreateBundle(db, id, m, op, q);
    NoneBefore(db, id);
    assert FindByKey(db.operations, id, q.key).None?;
    hide Inv, QuotaReached, EnvironmentReady;
  }

  lemma NoneBefore(db: Db, id: Id)
    requires Inv(db)
    ensures id !in db.issued ==> forall o :: o in db.operations ==> db.operations[o].job.machine != id
  {}

  // ---- terminals and tickets ----

  /** A closed session is answered as closed for ever after, and nothing changes; only when
      its row is gone is there no answer. */
  lemma ClosedAnswers(states: seq<Db>, events: seq<Event>, i: nat, j: nat, session: Id, op: Id, q: Job)
    requires IsRun(states, events) && i <= j < |states| && session in states[i].sessions && states[i].sessions[session].status.Closed?
    ensures var s := states[i].sessions[session];
      RequestTerminalSessionClose(states[j], s.workspace, s.machine, s.user, session, op, q) ==
      Committed(states[j], if session in states[j].sessions then Some(SessionStatus.Closed) else None)
  {
    RunEvolves(states, events, i, j);
    hide IsRun;
  }

  lemma OnlyTicket(db: Db, id: Id, host: string, a: Access)
    requires HashesUnique(db.tickets) && id in db.tickets && Consumable(db, id, db.tickets[id].tokenHash, host, a)
    ensures var (after, given) := ConsumeAccessTicket(db, db.tickets[id].tokenHash, host, a);
      given == Some(id) && after == db.(tickets := db.tickets[id := db.tickets[id].(status := TicketStatus.Used)])
  {
    hide MachineAccessible, ActiveSession;
    assert Consumable(db, id, db.tickets[id].tokenHash, host, a);
  }

  /** A ticket round trip: what was issued is handed out once, to a request with its hash and
      host before it expires, while nothing it depends on has changed; the second request and
      any request after the machine's access was revoked get nothing. */
  lemma TicketRoundTrip(db: Db, id: Id, t: Ticket, a: Access, later: Time)
    requires Inv(db) && CreateAccessTicket(db, id, t, a).Committed? && t.status.Active? && db.now <= later < t.expiresAt
    ensures var issued := CreateAccessTicket(db, id, t, a).db.(now := later);
      var (once, given) := ConsumeAccessTicket(issued, t.tokenHash, t.host, a);
      && given == Some(id) && once.tickets[id].status.Used?
      && ConsumeAccessTicket(once, t.tokenHash, t.host, a) == (once, None)
      && ConsumeAccessTicket(RevokeMachineAccess(issued, t.machine), t.tokenHash, t.host, a).1.None?
  {
    hide Inv, HashesUnique, Consumable, CreateAccessTicket, ConsumeAccessTicket;
    var issued := CreateAccessTicket(db, id, t, a).db.(now := later);
    IssuedTicket(db, id, t, a, later);
    OnlyTicket(issued, id, t.host, a);
    var once := ConsumeAccessTicket(issued, t.tokenHash, t.host, a).0;
    StatusKeepsHashes(issued.tickets, once.tickets);
    SpentHash(once, id, t.tokenHash, t.host, a);
    var revoked := RevokeMachineAccess(issued, t.machine);
    StatusKeepsHashes(issued.tickets, revoked.tickets);
    SpentHash(revoked, id, t.tokenHash, t.host, a);
  }

  /** What issuing leaves, and that it can be consumed until it expires. */
  lemma IssuedTicket(db: Db, id: Id, t: Ticket, a: Access, later: Time)
    requires Inv(db) && CreateAccessTicket(db, id, t, a).Committed? && t.status.Active? && db.now <= later < t.expiresAt
    ensures var issued := CreateAccessTicket(db, id, t, a).db.(now := later);
      && issued.tickets == db.tickets[id := t] && HashesUnique(issued.tickets) && Consumable(issued, id, t.tokenHash, t.host, a)
  {
    HashesOf(db);
    hide Inv, ActiveSession;
  }

  lemma HashesOf(db: Db)
    requires Inv(db)
    ensures HashesUnique(db.tickets)
  {}

  lemma StatusKeepsHashes(before: map<Id, Ticket>, after: map<Id, Ticket>)
    requires HashesUnique(before) && after.Keys == before.Keys && forall t :: t in after ==> after[t].tokenHash == before[t].tokenHash
    ensures HashesUnique(after)
  {}

  lemma SpentHash(db: Db, id: Id, tokenHash: string, host: string, a: Access)
    requires HashesUnique(db.tickets) && id in db.tickets && db.tickets[id].tokenHash == tokenHash && !db.tickets[id].status.Active?
    ensures ConsumeAccessTicket(db, tokenHash, host, a) == (db, None)
  {}
}
