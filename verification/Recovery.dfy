/** The reconciler's recovery of a machine that should be running and is not
    (BE/internal/machine/manager.go:1049-1079): it spawns outside of any operation, writes what
    it built at the generation it listed, and moves on when the write is refused. */
module Recovery {
  import opened Wrappers
  import opened Domain
  import opened Store
  import opened Invariants
  import opened Safety
  import opened TransactionSafety
  import opened Runs
  import opened Fencing

  /** The machine is listed at `i`, and `p` writes the network and the volume that were built
      for it in between. */
  ghost predicate Recovers(states: seq<Db>, events: seq<Event>, i: nat, p: nat, machine: Id, network: string, volume: string)
    requires |states| == |events| + 1
  {
    && i <= p < |events| && machine in states[i].machines
    && events[p] == StateSetForOperation(machine, states[i].machines[machine].generation, false, MachineStatus.Running, Some(network), Some(volume))
  }

  predicate Purges(e: Event) {
    e.MachinePurged? || e.MachinesPurged? || e.WorkspaceDeleted?
  }

  /** A fresh lifecycle request, a permanent deletion that raised the generation, or the end
      of the row. */
  ghost predicate Overtakes(a: Db, e: Event, b: Db, machine: Id) {
    || FreshRequest(a, e, machine)
    || (DeletionOf(e, machine) && Raises(a, b, machine))
    || (Purges(e) && machine in a.machines && machine !in b.machines)
  }

  ghost predicate Overtaken(states: seq<Db>, events: seq<Event>, i: nat, p: nat, machine: Id)
    requires |states| == |events| + 1 && p <= |events|
  {
    exists k: nat {:trigger events[k]} :: i <= k < p && Overtakes(states[k], events[k], states[k + 1], machine)
  }

  /** The row names what was built. */
  predicate Names(db: Db, machine: Id, network: string, volume: string) {
    machine in db.machines && db.machines[machine].network == Some(network) && db.machines[machine].volume == Some(volume)
  }

  // ---- machines end by purges alone ----

  lemma EnvironmentEventsKeepMachines(db: Db, e: Event)
    requires OnEnvironments(e)
    ensures db.machines.Keys <= ApplyToEnvironments(db, e).machines.Keys
  {
    hide CreateEnvironment, RequestEnvironmentDeletion, ReconcileOrphanedEnvironments, ReconcileOrphanedCheckouts, CreateCheckout,
         UpsertScopeSetting, DeleteScopeSetting, UpdateEnvironmentState, UpdateCheckoutState, Claimable;
  }

  lemma MachineEventsKeepMachines(db: Db, e: Event)
    requires Allowed(db, e) && !OnDeletions(e) && !OnEnvironments(e) && !OnTerminals(e) && !Purges(e)
    ensures db.machines.Keys <= ApplyToMachines(db, e).machines.Keys
  {
    hide Allowed, CreateAgentRun, CancelAgentRun, LeasedRow, FailedRow, HoldsLease, RequestPermanentDelete, CreateBundle, SetDesiredAndEnqueue;
    if e.BundleCreated? {
      BundleKeepsMachines(db, e.id, e.row, e.op, e.job);
    } else if e.DesiredSet? {
      DesiredSetKeepsMachines(db, e);
    }
  }

  lemma DesiredSetKeepsMachines(db: Db, e: Event)
    requires Allowed(db, e) && e.DesiredSet?
    ensures db.machines.Keys <= ApplyToMachines(db, e).machines.Keys
  {
    hide SetDesiredAndEnqueue;
    RequestKeepsMachines(db, DesiredFor(e.job.action), e.op, e.job);
  }

  lemma BundleKeepsMachines(db: Db, id: Id, row: Machine, op: Id, q: Job)
    ensures db.machines.Keys <= After(db, CreateBundle(db, id, row, op, q)).machines.Keys
  {
    hide Enqueue, QuotaReached, PolicyEnabled, EnvironmentReady;
  }

  lemma RequestKeepsMachines(db: Db, desired: MachineStatus, op: Id, q: Job)
    ensures db.machines.Keys <= After(db, SetDesiredAndEnqueue(db, desired, op, q)).machines.Keys
  {
    hide Enqueue, QuotaReached, PolicyEnabled, EnvironmentReady, HasActiveRun, HasOpenOperation, FindByKey;
  }

  lemma DeletionEventsKeepMachines(db: Db, e: Event)
    requires e.RowsErased?
    ensures ApplyDeletions(db, e).machines.Keys == db.machines.Keys
  {}

  lemma EndsByPurge(a: Db, e: Event, b: Db, machine: Id)
    requires Step(a, e, b) && machine in a.machines && machine !in b.machines
    ensures Purges(e)
  {
    hide Allowed, ApplyToMachines, ApplyToEnvironments, ApplyDeletions;
    if e.RowsErased? {
      DeletionEventsKeepMachines(a, e);
    } else if OnEnvironments(e) {
      EnvironmentEventsKeepMachines(a, e);
    } else if !Purges(e) && !OnTerminals(e) {
      MachineEventsKeepMachines(a, e);
    }
  }

  // ---- when the write is refused ----

  /** Between two states of a run a machine that was there is gone or has another generation
      exactly when it was overtaken. */
  lemma {:induction false} MovedIffOvertaken(states: seq<Db>, events: seq<Event>, i: nat, p: nat, machine: Id)
    requires IsRun(states, events) && i <= p < |states| && machine in states[i].machines
    ensures Overtaken(states, events, i, p, machine) <==>
            !(machine in states[p].machines && states[p].machines[machine].generation == states[i].machines[machine].generation)
  {
    hide Step, Inv, Evolves, Overtakes;
    if i < p {
      var k := p - 1;
      MovedIffOvertaken(states, events, i, k, machine);
      RunKeepsInv(states, events, k);
      RunKeepsInv(states, events, i);
      RunEvolves(states, events, k, p);
      RunEvolves(states, events, i, k);
      assert Step(states[k], events[k], states[p]);
      OvertakenNext(states, events, i, k, machine);
      Moves(states[i], states[k], states[p], machine);
      if machine in states[k].machines {
        StepMoves(states, events, k, machine);
      }
    }
  }

  lemma OvertakenNext(states: seq<Db>, events: seq<Event>, i: nat, k: nat, machine: Id)
    requires |states| == |events| + 1 && i <= k < |events|
    ensures Overtaken(states, events, i, k + 1, machine) <==>
            Overtaken(states, events, i, k, machine) || Overtakes(states[k], events[k], states[k + 1], machine)
  {
    hide Overtakes;
  }

  /** A generation that moved on, or a row that ended, does not come back. */
  lemma Moves(a: Db, b: Db, c: Db, machine: Id)
    requires Inv(a) && Inv(b) && Evolves(a, b) && Evolves(b, c) && machine in a.machines
    ensures machine in b.machines ==> a.machines[machine].generation <= b.machines[machine].generation
    ensures machine in c.machines ==> machine in b.machines && b.machines[machine].generation <= c.machines[machine].generation
  {}

  lemma StepMoves(states: seq<Db>, events: seq<Event>, k: nat, machine: Id)
    requires IsRun(states, events) && k < |events| && machine in states[k].machines
    ensures Overtakes(states[k], events[k], states[k + 1], machine) <==>
            machine !in states[k + 1].machines || Raises(states[k], states[k + 1], machine)
  {
    hide Step, FreshRequest;
    var a, e, b := states[k], events[k], states[k + 1];
    assert Step(a, e, b);
    RaisedByRequest(states, events, k, machine);
    if machine !in b.machines {
      EndsByPurge(a, e, b, machine);
    }
  }

  lemma WriteStep(a: Db, machine: Id, generation: int, network: string, volume: string, b: Db)
    requires Step(a, StateSetForOperation(machine, generation, false, MachineStatus.Running, Some(network), Some(volume)), b)
    ensures if StatusWriteApplies(a, machine, generation, false)
            then Names(b, machine, network, volume) && b.machines[machine].status.Running? else b == a
  {}

  /** A recovery leaves the machine's row without the names of what it built exactly when a
      lifecycle request, a permanent deletion or a purge came between the listing and the
      write and the row did not have these names already; and then it changes nothing. */
  lemma RecoveryUnnamedIff(states: seq<Db>, events: seq<Event>, i: nat, p: nat, machine: Id, network: string, volume: string)
    requires IsRun(states, events) && Recovers(states, events, i, p, machine, network, volume)
    ensures !Names(states[p + 1], machine, network, volume) <==>
            Overtaken(states, events, i, p, machine) && !Names(states[p], machine, network, volume)
    ensures if Overtaken(states, events, i, p, machine) then states[p + 1] == states[p] else states[p + 1].machines[machine].status.Running?
  {
    hide Step, Overtaken, Names;
    assert Step(states[p], events[p], states[p + 1]);
    WriteStep(states[p], machine, states[i].machines[machine].generation, network, volume, states[p + 1]);
    MovedIffOvertaken(states, events, i, p, machine);
  }
}
