/** Permanent deletion: a request always leaves a way forward, and purges are safe. */
module Deletion {
  import opened Wrappers
  import opened Domain
  import opened Store
  import opened Invariants
  import opened Safety
  import opened Runs

  /** No operation can have the idempotency key of the teardown a deletion would queue:
      it carries a generation the machine has not reached. */
  lemma DeletionKeyIsFresh(db: Db, machine: Id)
    requires Inv(db) && machine in db.machines
    ensures FindByKey(db.operations, machine, PermanentDeleteKey(db.machines[machine].generation + 1)).None?
  {
    var key := PermanentDeleteKey(db.machines[machine].generation + 1);
    forall o | o in db.operations && db.operations[o].job.machine == machine
      ensures db.operations[o].job.key != key
    {
      assert LedgerRow(db.operations[o]);
    }
  }

  /** Nothing is left to do but purge. */
  ghost predicate ReadyToPurge(db: Db, machine: Id) {
    machine in db.machines && SafelyPurgeable(db.machines[machine]) && !HasOpenOperation(db.operations, machine, AllActions)
  }

  /** A teardown is on its way and the machine is meant to be destroyed. */
  ghost predicate BeingTornDown(db: Db, machine: Id) {
    machine in db.machines && db.machines[machine].desired.Destroyed? && HasOpenOperation(db.operations, machine, {Teardown})
  }

  /** Whether the request has to queue a teardown of its own. */
  ghost predicate QueuesTeardown(db: Db, machine: Id, active: Option<Id>) {
    active.None? && !ReadyToPurge(db, machine)
  }

  /** A new key of an existing machine is queued, unless the identifier was used before. */
  lemma EnqueuesFresh(db: Db, id: Id, q: Job)
    requires FindByKey(db.operations, q.machine, q.key).None? && MachineRow(db, q.workspace, q.machine)
    ensures var tx := Enqueue(db, id, q);
      if id in db.issued then tx == RolledBack(UniqueViolation)
      else tx.Committed? && tx.value == id && id in tx.db.operations && tx.db.operations[id] == NewOperation(db.now, q)
  {}

  lemma OpenTeardownCounts(db: Db, machine: Id, o: Id)
    requires o in db.operations && db.operations[o].job.machine == machine && db.operations[o].job.action == Teardown
    requires db.operations[o].status.Open() && machine in db.machines && db.machines[machine].desired.Destroyed?
    ensures BeingTornDown(db, machine)
  {}

  lemma QueuedDeletion(db: Db, machine: Id, requester: Option<Id>, minted: Id)
    requires Inv(db) && machine in db.machines
    ensures var tx := QueueDeletion(db, machine, requester, minted);
      && (tx.Committed? <==> minted !in db.issued)
      && (minted in db.issued ==> tx == RolledBack(UniqueViolation))
      && (tx.Committed? ==> BeingTornDown(tx.db, machine) && tx.db.machines[machine].deleteRequested.Some? && tx.value == Some(minted))
  {
    hide Inv, FindByKey, Enqueue, BeingTornDown;
    DeletionKeyIsFresh(db, machine);
    var q := DeleteRequest(db.machines[machine], machine, requester);
    var written := WriteMachine(db, machine, TornDown(db.machines[machine], db.now, q.generation));
    EnqueuesFresh(written, minted, q);
    if minted !in db.issued {
      OpenTeardownCounts(Enqueue(written, minted, q).db, machine, minted);
    }
  }

  lemma MarkedForDeletion(db: Db, machine: Id)
    requires machine in db.machines && ReadyToPurge(db, machine)
    ensures ReadyToPurge(WriteMachine(db, machine, MarkDeleted(db.machines[machine], db.now)), machine)
  {}

  lemma ActiveIsOpen(db: Db, workspace: Id, machine: Id, active: Option<Id>)
    requires ActiveTeardown(db, workspace, machine, active) && active.Some?
    ensures OpenTeardown(db, workspace, machine, active.value)
  {}

  lemma TeardownWritten(db: Db, workspace: Id, machine: Id, active: Id, m: Machine)
    requires OpenTeardown(db, workspace, machine, active) && m.desired.Destroyed?
    ensures BeingTornDown(WriteMachine(db, machine, m), machine)
  {
    assert OpenTeardown(WriteMachine(db, machine, m), workspace, machine, active);
  }

  /** A committed request leaves either a teardown pending or leased with desired status
      destroyed, or a machine with nothing left to do but purge. It fails only when the
      machine is not the requester's, never over its own idempotency key. */
  lemma DeletionProgresses(db: Db, workspace: Id, machine: Id, requester: Option<Id>, active: Option<Id>, minted: Id)
    requires Inv(db) && ActiveTeardown(db, workspace, machine, active)
    ensures var tx := RequestPermanentDelete(db, workspace, machine, requester, active, minted);
      && (tx.Committed? <==> Deletable(db, workspace, machine, requester) && (QueuesTeardown(db, machine, active) ==> minted !in db.issued))
      && (tx.Committed? ==>
            && machine in tx.db.machines && tx.db.machines[machine].deleteRequested.Some?
            && (if active.None? && ReadyToPurge(db, machine)
                then tx.value.None? && ReadyToPurge(tx.db, machine)
                else tx.value.Some? && BeingTornDown(tx.db, machine)))
  {
    hide Inv, RequestPermanentDelete, QueueDeletion, BeingTornDown, ReadyToPurge, ActiveTeardown, MarkDeleted, TornDown, Max, OpenTeardown;
    if !Deletable(db, workspace, machine, requester) {
      NotDeletable(db, workspace, machine, requester, active, minted);
    } else if active.Some? {
      ActiveIsOpen(db, workspace, machine, active);
      ReusesTeardown(db, workspace, machine, requester, active.value, minted);
      TeardownWritten(db, workspace, machine, active.value, Reused(db, machine, active.value));
    } else if ReadyToPurge(db, machine) {
      NothingToQueue(db, workspace, machine, requester, minted);
      MarkedForDeletion(db, machine);
    } else {
      QueuesOwn(db, workspace, machine, requester, minted);
      QueuedDeletion(db, machine, requester, minted);
    }
  }

  lemma NotDeletable(db: Db, workspace: Id, machine: Id, requester: Option<Id>, active: Option<Id>, minted: Id)
    requires !Deletable(db, workspace, machine, requester)
    ensures RequestPermanentDelete(db, workspace, machine, requester, active, minted) == RolledBack(NoRows)
  {
    hide Deletable, QueueDeletion, HasOpenOperation, SafelyPurgeable;
  }

  /** The machine row when an open teardown is reused. */
  function Reused(db: Db, machine: Id, active: Id): (m: Machine)
    requires machine in db.machines && active in db.operations
    ensures m.desired.Destroyed? && m.deleteRequested.Some?
  {
    var m := db.machines[machine];
    if m.desired.Destroyed? then MarkDeleted(m, db.now)
    else TornDown(m, db.now, Max(m.generation, db.operations[active].job.generation))
  }

  lemma ReusesTeardown(db: Db, workspace: Id, machine: Id, requester: Option<Id>, active: Id, minted: Id)
    requires Deletable(db, workspace, machine, requester) && OpenTeardown(db, workspace, machine, active)
    ensures RequestPermanentDelete(db, workspace, machine, requester, Some(active), minted) ==
            Committed(WriteMachine(db, machine, Reused(db, machine, active)), Some(active))
  {
    hide QueueDeletion, HasOpenOperation, SafelyPurgeable, MarkDeleted, TornDown, Max;
  }

  lemma NothingToQueue(db: Db, workspace: Id, machine: Id, requester: Option<Id>, minted: Id)
    requires Deletable(db, workspace, machine, requester) && ReadyToPurge(db, machine)
    ensures RequestPermanentDelete(db, workspace, machine, requester, None, minted) ==
            Committed(WriteMachine(db, machine, MarkDeleted(db.machines[machine], db.now)), None)
  {
    hide QueueDeletion, HasOpenOperation, SafelyPurgeable, MarkDeleted;
  }

  lemma QueuesOwn(db: Db, workspace: Id, machine: Id, requester: Option<Id>, minted: Id)
    requires Deletable(db, workspace, machine, requester) && !ReadyToPurge(db, machine)
    ensures RequestPermanentDelete(db, workspace, machine, requester, None, minted) == QueueDeletion(db, machine, requester, minted)
  {
    hide QueueDeletion, HasOpenOperation, SafelyPurgeable;
  }

  /** The purge statements and the Go predicate accept the same rows. */
  lemma PurgeStatusIsSafe(m: Machine)
    ensures PurgeStatus(m) <==> SafelyPurgeable(m)
  {}

  /** The rows of one table that belong to other machines, unchanged. */
  ghost predicate KeepsOthers<T>(before: map<Id, T>, after: map<Id, T>, isOwn: T -> bool) {
    forall k :: (k in after <==> k in before && !isOwn(before[k])) && (k in after ==> after[k] == before[k])
  }

  /** The machine is gone with everything of it, and nothing else is; an environment that was
      taken from it forgets where it came from. */
  ghost predicate PurgedOnly(db: Db, after: Db, machine: Id) {
    && after == db.(machines := after.machines, operations := after.operations, runs := after.runs, checkouts := after.checkouts,
                    sessions := after.sessions, tickets := after.tickets, environments := after.environments)
    && after.machines == db.machines - {machine}
    && KeepsOthers(db.operations, after.operations, (o: Operation) => o.job.machine == machine)
    && KeepsOthers(db.runs, after.runs, (r: AgentRun) => r.machine == machine)
    && KeepsOthers(db.checkouts, after.checkouts, (c: Checkout) => c.machine == machine)
    && KeepsOthers(db.sessions, after.sessions, (s: Session) => s.machine == machine)
    && KeepsOthers(db.tickets, after.tickets, (t: Ticket) => t.machine == machine)
    && after.environments.Keys == db.environments.Keys
    && forall e :: e in db.environments ==>
         after.environments[e] == db.environments[e].(source := if db.environments[e].source == Some(machine) then None else db.environments[e].source)
  }

  /** A purge deletes the machine exactly when it is ready, and then everything of it and
      nothing else. */
  lemma PurgeExactly(db: Db, workspace: Id, machine: Id)
    requires MachineRow(db, workspace, machine)
    ensures var tx := PurgePermanentDeleteRequest(db, workspace, machine);
      && (tx.Committed? <==> ReadyToPurge(db, machine))
      && (tx.Committed? ==> PurgedOnly(db, tx.db, machine))
  {
    DroppedOne(db, machine);
    hide DropMachines, PurgedOnly, HasOpenOperation;
  }

  lemma DroppedOne(db: Db, machine: Id)
    requires machine in db.machines
    ensures PurgedOnly(db, DropMachines(db, {machine}), machine)
  {}

  /** The answer "no operation" means the purge would succeed right away. */
  lemma DeletionAnswer(db: Db, workspace: Id, machine: Id, requester: Option<Id>, active: Option<Id>, minted: Id)
    requires Inv(db) && ActiveTeardown(db, workspace, machine, active)
    requires RequestPermanentDelete(db, workspace, machine, requester, active, minted).Committed?
    ensures var tx := RequestPermanentDelete(db, workspace, machine, requester, active, minted);
      tx.value.None? ==> PurgePermanentDeleteRequest(tx.db, workspace, machine).Committed?
  {
    DeletionProgresses(db, workspace, machine, requester, active, minted);
    hide Inv, HasOpenOperation;
  }

  /** A bulk purge never takes a machine that still owns a network, a volume or work. */
  lemma BulkPurgeIsSafe(db: Db, workspace: Id, only: Option<set<Id>>, aged: set<Id>, failed: bool, expired: bool, machine: Id)
    requires machine in db.machines && machine !in BulkPurgeMachines(db, workspace, only, aged, failed, expired).machines
    ensures ReadyToPurge(db, machine) && db.machines[machine].workspace == workspace && machine in aged
  {}

  /** It takes exactly the machines that a single purge would take and that were asked for:
      old enough, on the list if there is one, and destroyed, or failed or expired when those
      are to go too. */
  lemma BulkPurgeIff(db: Db, workspace: Id, only: Option<set<Id>>, aged: set<Id>, failed: bool, expired: bool, machine: Id)
    requires machine in db.machines && db.machines[machine].workspace == workspace
    ensures machine !in BulkPurgeMachines(db, workspace, only, aged, failed, expired).machines <==>
            && PurgePermanentDeleteRequest(db, workspace, machine).Committed? && machine in aged && (only.Some? ==> machine in only.value)
            && (db.machines[machine].status == MachineStatus.Failed ==> failed) && (db.machines[machine].status == MachineStatus.Expired ==> expired)
  {}

  // ---- what a request writes ----

  /** The machine's row after a request for its deletion: marked at the first request, and,
      once a teardown is on its way, meant to be destroyed at the generation given. */
  predicate RowAsked(was: Machine, row: Machine, now: Time, torn: bool, generation: int) {
    && row == was.(deleteRequested := row.deleteRequested, desired := row.desired, generation := row.generation)
    && row.deleteRequested == (if was.deleteRequested.Some? then was.deleteRequested else Some(now))
    && row.desired == (if torn then MachineStatus.Destroyed else was.desired)
    && row.generation == generation
  }

  /** The teardown of a permanent deletion: ten attempts at the next generation, in the name
      of whoever asked. */
  predicate DeletionTeardown(o: Operation, now: Time, machine: Id, workspace: Id, generation: int, requester: Option<Id>) {
    && o.job == Job(machine, workspace, Teardown, generation, PermanentDeleteKey(generation), requester, None, None, None, None, 10)
    && o.status == OpStatus.Pending && o.availableAt == now && o.createdAt == now && o.attempts == 0 && o.owner.None? && o.leaseExpires.None?
  }

  /** A request that reuses a teardown, or finds nothing left to tear down, writes the
      machine's row alone; otherwise it moves the machine one generation on and queues a
      teardown there. */
  lemma DeletionWrites(db: Db, workspace: Id, machine: Id, requester: Option<Id>, active: Option<Id>, minted: Id)
    requires Inv(db) && ActiveTeardown(db, workspace, machine, active)
    requires RequestPermanentDelete(db, workspace, machine, requester, active, minted).Committed?
    ensures var tx := RequestPermanentDelete(db, workspace, machine, requester, active, minted);
      && machine in db.machines && machine in tx.db.machines && tx.db.machines == db.machines[machine := tx.db.machines[machine]]
      && var was, row := db.machines[machine], tx.db.machines[machine];
      if QueuesTeardown(db, machine, active) then
        && RowAsked(was, row, db.now, true, was.generation + 1)
        && minted in tx.db.operations && DeletionTeardown(tx.db.operations[minted], db.now, machine, workspace, was.generation + 1, requester)
        && tx.db == db.(issued := db.issued + {minted}, machines := tx.db.machines, operations := db.operations[minted := tx.db.operations[minted]])
      else
        && RowAsked(was, row, db.now, active.Some?, was.generation)
        && tx.db == db.(machines := tx.db.machines)
  {
    hide Inv, RequestPermanentDelete, ReadyToPurge, ActiveTeardown, OpenTeardown, QueueDeletion;
    if !Deletable(db, workspace, machine, requester) {
      NotDeletable(db, workspace, machine, requester, active, minted);
    } else if active.Some? {
      ActiveIsOpen(db, workspace, machine, active);
      ReusesTeardown(db, workspace, machine, requester, active.value, minted);
      ReusedAsked(db, workspace, machine, active.value);
    } else if ReadyToPurge(db, machine) {
      NothingToQueue(db, workspace, machine, requester, minted);
    } else {
      QueuesOwn(db, workspace, machine, requester, minted);
      QueuedRow(db, machine, requester, minted);
    }
  }

  lemma ReusedAsked(db: Db, workspace: Id, machine: Id, active: Id)
    requires Inv(db) && machine in db.machines && OpenTeardown(db, workspace, machine, active)
    ensures RowAsked(db.machines[machine], Reused(db, machine, active), db.now, true, db.machines[machine].generation)
  {
    assert Fenced(db.machines, db.operations);
    hide Inv;
  }

  lemma QueuedRow(db: Db, machine: Id, requester: Option<Id>, minted: Id)
    requires Inv(db) && machine in db.machines && QueueDeletion(db, machine, requester, minted).Committed?
    ensures var tx, was := QueueDeletion(db, machine, requester, minted), db.machines[machine];
      && machine in tx.db.machines && minted in tx.db.operations
      && RowAsked(was, tx.db.machines[machine], db.now, true, was.generation + 1)
      && DeletionTeardown(tx.db.operations[minted], db.now, machine, was.workspace, was.generation + 1, requester)
      && tx.db == db.(issued := db.issued + {minted}, machines := db.machines[machine := tx.db.machines[machine]],
                      operations := db.operations[minted := tx.db.operations[minted]])
  {
    hide Inv, FindByKey;
    DeletionKeyIsFresh(db, machine);
  }

  // ---- the manager's reconciler ----

  /** The request the reconciler makes, which asks for no particular creator. */
  ghost predicate AsksAgain(e: Event, workspace: Id, machine: Id) {
    e.DeletionRequested? && e.workspace == workspace && e.machine == machine && e.requester.None?
  }

  /** One round of the reconciler over a machine whose deletion was requested, in a run where
      anyone may act between its transactions: the machine is listed at `i`; when the listed
      row looks purgeable the machine is purged at `p`, and when that fails, or the row does
      not look purgeable, its deletion is asked for again at `q`. */
  ghost predicate Round(states: seq<Db>, events: seq<Event>, i: nat, p: nat, q: nat, machine: Id)
    requires |states| == |events| + 1
  {
    && i <= p <= q < |events| && machine in states[i].machines
    && var row := states[i].machines[machine];
       && (SafelyPurgeable(row) ==> events[p] == MachinePurged(row.workspace, machine))
       && if SafelyPurgeable(row) && ReadyToPurge(states[p], machine) then q == p
          else (SafelyPurgeable(row) ==> p < q) && AsksAgain(events[q], row.workspace, machine)
  }

  lemma RowOfWorkspace(states: seq<Db>, events: seq<Event>, i: nat, j: nat, machine: Id)
    requires IsRun(states, events) && i <= j < |states| && machine in states[i].machines
    ensures Inv(states[j]) && machine in states[i].issued && states[i].issued <= states[j].issued
    ensures machine in states[j].machines ==> MachineRow(states[j], states[i].machines[machine].workspace, machine)
  {
    RunKeepsInv(states, events, i);
    RunKeepsInv(states, events, j);
    RunEvolves(states, events, i, j);
    hide IsRun, OperationsInv, RunsInv, EnvironmentsInv, TerminalsInv;
  }

  /** A machine that is gone never returns. */
  lemma GoneForEver(states: seq<Db>, events: seq<Event>, i: nat, j: nat, machine: Id)
    requires IsRun(states, events) && i <= j < |states| && machine in states[i].issued && machine !in states[i].machines
    ensures machine !in states[j].machines
  {
    RunEvolves(states, events, i, j);
    hide IsRun;
  }

  lemma PurgeStep(a: Db, workspace: Id, machine: Id, b: Db)
    requires Step(a, MachinePurged(workspace, machine), b) && MachineRow(a, workspace, machine) && ReadyToPurge(a, machine)
    ensures machine !in b.machines
  {
    hide Step, ReadyToPurge, PurgePermanentDeleteRequest;
    PurgedStep(a, workspace, machine, b);
    PurgeExactly(a, workspace, machine);
  }

  lemma PurgedStep(a: Db, workspace: Id, machine: Id, b: Db)
    requires Step(a, MachinePurged(workspace, machine), b)
    ensures b == After(a, PurgePermanentDeleteRequest(a, workspace, machine))
  {
    hide PurgePermanentDeleteRequest;
  }

  lemma RequestStep(a: Db, e: Event, workspace: Id, machine: Id, b: Db)
    requires Inv(a) && Step(a, e, b) && AsksAgain(e, workspace, machine) && MachineRow(a, workspace, machine) && e.op !in a.issued
    ensures if ReadyToPurge(a, machine) then ReadyToPurge(b, machine) else BeingTornDown(b, machine)
  {
    StepOfRequest(a, e, b);
    hide Inv, RequestPermanentDelete, BeingTornDown, ReadyToPurge, ActiveTeardown, Step;
    DeletionProgresses(a, workspace, machine, None, e.active, e.op);
    if ReadyToPurge(a, machine) {
      ReadyHasNoTeardown(a, workspace, machine, e.active);
    }
  }

  lemma StepOfRequest(a: Db, e: Event, b: Db)
    requires Step(a, e, b) && e.DeletionRequested?
    ensures ActiveTeardown(a, e.workspace, e.machine, e.active)
    ensures b == After(a, RequestPermanentDelete(a, e.workspace, e.machine, e.requester, e.active, e.op))
  {}

  lemma ReadyHasNoTeardown(db: Db, workspace: Id, machine: Id, active: Option<Id>)
    requires ReadyToPurge(db, machine) && ActiveTeardown(db, workspace, machine, active)
    ensures active.None?
  {
    if active.Some? {
      ActiveIsOpen(db, workspace, machine, active);
    }
  }

  lemma AbsentStep(a: Db, e: Event, workspace: Id, machine: Id, b: Db)
    requires Step(a, e, b) && AsksAgain(e, workspace, machine) && machine !in a.machines
    ensures machine !in b.machines
  {}

  /** Whatever others did meanwhile, after a round the machine is gone for good, or nothing
      is left to do but purge it, or a teardown of it is on its way with desired status
      destroyed; and a machine that was ready when its purge came is gone. */
  lemma SweepProgresses(states: seq<Db>, events: seq<Event>, i: nat, p: nat, q: nat, machine: Id)
    requires IsRun(states, events) && Round(states, events, i, p, q, machine)
    requires events[q].DeletionRequested? ==> events[q].op !in states[q].issued
    ensures machine in states[q + 1].machines ==>
              if ReadyToPurge(states[q], machine) then ReadyToPurge(states[q + 1], machine) else BeingTornDown(states[q + 1], machine)
    ensures machine !in states[q + 1].machines ==> forall j :: q < j < |states| ==> machine !in states[j].machines
    ensures SafelyPurgeable(states[i].machines[machine]) && ReadyToPurge(states[p], machine) ==> machine !in states[q + 1].machines
  {
    hide Step, Inv, ReadyToPurge, BeingTornDown, SafelyPurgeable, MachineRow, AsksAgain;
    var workspace := states[i].machines[machine].workspace;
    assert q < |events| && i <= q;
    hide IsRun, Round;
    StepAt(states, events, q);
    RowOfWorkspace(states, events, i, q, machine);
    RowOfWorkspace(states, events, i, q + 1, machine);
    LastOfRound(states, events, i, p, q, machine);
    if machine in states[q].machines {
      if events[q].MachinePurged? {
        PurgeStep(states[q], workspace, machine, states[q + 1]);
      } else {
        RequestStep(states[q], events[q], workspace, machine, states[q + 1]);
      }
    } else if events[q].DeletionRequested? {
      AbsentStep(states[q], events[q], workspace, machine, states[q + 1]);
    }
    forall j | q < j < |states| && machine !in states[q + 1].machines
      ensures machine !in states[j].machines
    {
      GoneForEver(states, events, q + 1, j, machine);
    }
  }

  lemma StepAt(states: seq<Db>, events: seq<Event>, q: nat)
    requires IsRun(states, events) && q < |events|
    ensures Step(states[q], events[q], states[q + 1])
  {
    hide Step;
  }

  /** The last transaction of a round: the purge, of a machine that is ready, or the request. */
  lemma LastOfRound(states: seq<Db>, events: seq<Event>, i: nat, p: nat, q: nat, machine: Id)
    requires |states| == |events| + 1 && Round(states, events, i, p, q, machine)
    ensures var row := states[i].machines[machine];
      && (events[q].MachinePurged? || events[q].DeletionRequested?)
      && (events[q].DeletionRequested? ==> AsksAgain(events[q], row.workspace, machine))
      && (events[q].MachinePurged? ==>
            events[q] == MachinePurged(row.workspace, machine) && machine in states[q].machines && ReadyToPurge(states[q], machine))
      && (SafelyPurgeable(row) && ReadyToPurge(states[p], machine) ==> q == p && events[q].MachinePurged?)
  {
    hide SafelyPurgeable, HasOpenOperation;
  }
}
