/** Leases: one machine, one live lease. */
module Leases {
  import opened Wrappers
  import opened Domain
  import opened Store
  import opened Invariants
  import opened Safety
  import opened TransactionSafety
  import opened Runs

  // ---- mutual exclusion ----

  /** The lease that keeps other lifecycle work off a machine. */
  ghost predicate Holds(db: Db, o: Id, machine: Id) {
    o in db.operations && db.operations[o].job.machine == machine &&
    !Priority(db.operations[o].job.action) && LiveLease(db.operations[o], db.now)
  }

  ghost predicate Exclusive(db: Db) {
    forall o, p, m :: Holds(db, o, m) && Holds(db, p, m) ==> o == p
  }

  /** Renewals happen before the lease expires. */
  ghost predicate Prompt(db: Db, e: Event) {
    e.LeaseRenewed? && HoldsLease(db, e.id, e.owner) ==> LiveLease(db.operations[e.id], db.now)
  }

  /** Only a lease statement or a late renewal makes a lease live. */
  lemma LiveBefore(a: Db, e: Event, b: Db, o: Id, m: Id)
    requires Step(a, e, b) && Prompt(a, e) && Safe(a, b, MovesOf(e)) && !e.OperationsLeased? && Holds(b, o, m)
    ensures Holds(a, o, m)
  {
    hide Inv, Allowed, ApplyToEnvironments, ApplyToTerminals;
    assert o in a.operations;
  }

  /** What was live before a lease statement, or is in it. */
  lemma LeaseStatementKeepsExclusion(db: Db, owner: string, seconds: nat, limit: nat, locked: set<Id>, chosen: set<Id>)
    requires Exclusive(db) && LeaseChoice(db, limit, locked, chosen)
    ensures Exclusive(LeaseOperations(db, owner, seconds, chosen))
  {
    var after := LeaseOperations(db, owner, seconds, chosen);
    forall o, p, m | Holds(after, o, m) && Holds(after, p, m)
      ensures o == p
    {
      assert o in chosen ==> Leasable(db, o);
      assert p in chosen ==> Leasable(db, p);
      assert o !in chosen ==> Holds(db, o, m);
      assert p !in chosen ==> Holds(db, p, m);
    }
  }

  lemma StepKeepsExclusion(a: Db, e: Event, b: Db)
    requires Inv(a) && Step(a, e, b) && Prompt(a, e) && Exclusive(a)
    ensures Exclusive(b)
  {
    hide Inv, Safe, Holds, LeaseChoice, LeaseOperations, ApplyToEnvironments, ApplyToTerminals, HoldsLease;
    if e.OperationsLeased? {
      LeaseStatementKeepsExclusion(a, e.owner, e.seconds, e.limit, e.locked, e.chosen);
    } else {
      StepSafe(a, e, b);
      forall o, p, m | Holds(b, o, m) && Holds(b, p, m)
        ensures o == p
      {
        LiveBefore(a, e, b, o, m);
        LiveBefore(a, e, b, p, m);
      }
    }
  }

  /** In every state of every run whose renewals are prompt, a machine has at most one
      live lease on an operation other than a cleanup. */
  lemma {:induction false} LeaseExclusion(states: seq<Db>, events: seq<Event>, i: nat)
    requires IsRun(states, events) && i < |states|
    requires forall k {:trigger events[k]} :: 0 <= k < |events| ==> Prompt(states[k], events[k])
    ensures Exclusive(states[i])
  {
    hide Inv;
    if i > 0 {
      LeaseExclusion(states, events, i - 1);
      RunKeepsInv(states, events, i - 1);
      StepKeepsExclusion(states[i - 1], events[i - 1], states[i]);
    }
  }

  /** The statement does not ask whether the lease it renews is still live. It is harmless
      exactly when the row is a cleanup or nobody else holds the machine by now. */
  lemma RenewalKeepsExclusionIff(db: Db, id: Id, owner: string, seconds: nat)
    requires Exclusive(db) && HoldsLease(db, id, owner)
    ensures var o := db.operations[id];
      Exclusive(After(db, RenewOperationLease(db, id, owner, seconds))) <==>
      (Priority(o.job.action) || forall p :: Holds(db, p, o.job.machine) ==> p == id)
  {
    var after := After(db, RenewOperationLease(db, id, owner, seconds));
    var machine := db.operations[id].job.machine;
    forall p, m | p != id
      ensures Holds(after, p, m) <==> Holds(db, p, m)
    {}
    if !Priority(db.operations[id].job.action) {
      assert Holds(after, id, machine);
    }
  }

  /** The event renews the lease of a lifecycle operation while another one holds the machine. */
  ghost predicate Revives(db: Db, e: Event) {
    e.LeaseRenewed? && HoldsLease(db, e.id, e.owner) && !Priority(db.operations[e.id].job.action) &&
    exists p :: p != e.id && Holds(db, p, db.operations[e.id].job.machine)
  }

  /** In an exclusive state the lease such a renewal revives has expired. */
  lemma RevivedIsExpired(db: Db, e: Event)
    requires Exclusive(db) && Revives(db, e)
    ensures !LiveLease(db.operations[e.id], db.now) && !Prompt(db, e)
  {
    var machine := db.operations[e.id].job.machine;
    assert LiveLease(db.operations[e.id], db.now) ==> Holds(db, e.id, machine);
  }

  lemma RenewedStep(a: Db, e: Event, b: Db)
    requires Step(a, e, b) && e.LeaseRenewed?
    ensures b == After(a, RenewOperationLease(a, e.id, e.owner, e.seconds))
  {
    hide RenewOperationLease;
  }

  lemma StepExclusiveIff(a: Db, e: Event, b: Db)
    requires Inv(a) && Step(a, e, b) && Exclusive(a)
    ensures Exclusive(b) <==> !Revives(a, e)
  {
    hide Inv, Step, Exclusive, Holds;
    if e.LeaseRenewed? {
      RenewedStep(a, e, b);
      if HoldsLease(a, e.id, e.owner) {
        RenewalKeepsExclusionIff(a, e.id, e.owner, e.seconds);
      }
    } else {
      StepKeepsExclusion(a, e, b);
    }
  }

  /** A machine never has two live leases on lifecycle operations, up to a state of a run,
      exactly when no renewal before it revived an expired lease on a machine that another
      operation held by then. */
  lemma {:induction false} ExclusiveThroughoutIff(states: seq<Db>, events: seq<Event>, i: nat)
    requires IsRun(states, events) && i < |states|
    ensures (forall j: nat :: j <= i ==> Exclusive(states[j])) <==>
            (forall k: nat :: k < i ==> !Revives(states[k], events[k]))
  {
    hide Step, Inv, Exclusive, Revives;
    if i == 0 {
      NoneHeld(states[0]);
    } else {
      var k := i - 1;
      ExclusiveThroughoutIff(states, events, k);
      if Exclusive(states[k]) {
        assert Step(states[k], events[k], states[k + 1]);
        RunKeepsInv(states, events, k);
        StepExclusiveIff(states[k], events[k], states[k + 1]);
      }
    }
  }

  lemma NoneHeld(db: Db)
    requires Fresh(db)
    ensures Exclusive(db)
  {}

  // ---- a run that ends with two holders ----

  const SpawnJob: Job := Job(0, 0, Spawn, 1, LifecycleKey(Spawn, 1), None, None, None, None, None, 5)

  const StopJob: Job := Job(0, 0, Stop, 2, LifecycleKey(Stop, 2), None, None, None, None, None, 5)

  const NewMachine: Machine :=
    Machine(0, None, MachineStatus.Queued, MachineStatus.Running, 1, None, None, false, None, None, None, DAY)

  const AmplePolicy: Policy := Policy(true, 9, 9, 9)

  /** The worker "a" leases the spawn, publishes the machine and then stalls; its lease
      lapses, the worker "b" leases the stop that was asked for meanwhile, and the renewal of
      "a" comes after all. */
  function LateRenewal(): seq<Event> {
    [PolicyUpserted(0, AmplePolicy),
     BundleCreated(0, NewMachine, 1, SpawnJob),
     OperationsLeased("a", 120, 1, {}, {1}),
     StateSetForOperation(0, 1, false, MachineStatus.Running, Some("n"), Some("v")),
     DesiredSet(2, StopJob),
     ClockAdvanced(121 * SECOND),
     OperationsLeased("b", 120, 1, {}, {2}),
     LeaseRenewed(1, "a", 120)]
  }

  const PublishedMachine: Machine := NewMachine.(status := MachineStatus.Running, network := Some("n"), volume := Some("v"))

  const OlderRow: Operation := LeasedRow(NewOperation(0, SpawnJob), 0, "a", 120)

  const NewerRow: Operation := NewOperation(0, StopJob)

  /** The states of that run. */
  function Late(k: nat): Db {
    match k
    case 0 => Db(0, {}, map[], map[], map[], map[], map[], map[], map[], map[], map[])
    case 1 => Late(0).(policies := map[0 := AmplePolicy])
    case 2 => Late(1).(issued := {0, 1}, machines := map[0 := NewMachine], operations := map[1 := NewOperation(0, SpawnJob)])
    case 3 => Late(2).(operations := map[1 := OlderRow])
    case 4 => Late(3).(machines := map[0 := PublishedMachine])
    case 5 => Late(4).(issued := {0, 1, 2}, machines := map[0 := PublishedMachine.(desired := MachineStatus.Stopped, generation := 2)],
                       operations := map[1 := OlderRow, 2 := NewerRow])
    case 6 => Late(5).(now := 121 * SECOND)
    case 7 => Late(6).(operations := map[1 := OlderRow, 2 := LeasedRow(NewerRow, 121 * SECOND, "b", 120)])
    case _ => Late(7).(operations := map[1 := OlderRow.(leaseExpires := Some(241 * SECOND)), 2 := LeasedRow(NewerRow, 121 * SECOND, "b", 120)])
  }

  lemma WriteIsStep(db: Db, id: Id, generation: int, network: string, volume: string)
    ensures var e := StateSetForOperation(id, generation, false, MachineStatus.Running, Some(network), Some(volume));
      Step(db, e, SetMachineStateForOperation(db, id, generation, false, MachineStatus.Running, Some(network), Some(volume)))
  {
    hide SetMachineStateForOperation;
  }

  lemma RenewalIsStep(db: Db, id: Id, owner: string, seconds: nat)
    ensures Step(db, LeaseRenewed(id, owner, seconds), After(db, RenewOperationLease(db, id, owner, seconds)))
  {
    hide RenewOperationLease;
  }

  lemma BundleStep()
    ensures Step(Late(1), BundleCreated(0, NewMachine, 1, SpawnJob), Late(2))
  {
    hide Step;
    BundleIsStep(Late(1), 0, NewMachine, 1, SpawnJob);
    assert CountedInWorkspace(Late(1).machines, 0) == {} && CountedForCreator(Late(1).machines, 0, None) == {};
    assert FindByKey(Late(1).operations, 0, LifecycleKey(Spawn, 1)).None?;
    assert {} + {0} + {1} == {0, 1};
  }

  lemma FirstLeaseStep()
    ensures Step(Late(2), OperationsLeased("a", 120, 1, {}, {1}), Late(3))
  {
    hide Step;
    assert Leasable(Late(2), 1);
    LeaseIsStep(Late(2), "a", 120, 1, {1});
    assert LeaseOperations(Late(2), "a", 120, {1}).operations == map[1 := OlderRow];
  }

  lemma StopStep()
    ensures Step(Late(4), DesiredSet(2, StopJob), Late(5))
  {
    hide Step;
    DesiredIsStep(Late(4), 2, StopJob);
    assert FindByKey(Late(4).operations, 0, LifecycleKey(Stop, 2)).None?;
    assert Late(4).machines[0 := Late(5).machines[0]] == Late(5).machines;
    assert Late(4).operations[2 := NewerRow] == Late(5).operations;
    assert {0, 1} + {2} == {0, 1, 2};
  }

  lemma SecondChoice(db: Db)
    requires db.operations == map[1 := OlderRow, 2 := NewerRow] && db.now == 121 * SECOND
    ensures LeaseChoice(db, 1, {}, {2})
  {
    hide Leasable, Before;
    NewerIsLeasable(db);
    assert Before(NewerRow, OlderRow) && !Before(OlderRow, NewerRow) && !Before(NewerRow, NewerRow) by { NewerFirst(); }
    assert db.operations[1] == OlderRow && db.operations[2] == NewerRow;
    forall o | Leasable(db, o)
      ensures !Before(db.operations[o], NewerRow) && !LeftOut(db, {2}, o)
    {
      assert o == 1 || o == 2;
      assert 2 in {2} && 2 in db.operations;
    }
  }

  lemma NewerFirst()
    ensures Before(NewerRow, OlderRow) && !Before(OlderRow, NewerRow) && !Before(NewerRow, NewerRow)
  {}

  lemma NewerIsLeasable(db: Db)
    requires db.operations == map[1 := OlderRow, 2 := NewerRow] && db.now == 121 * SECOND
    ensures Leasable(db, 2) && forall o :: Leasable(db, o) ==> o in {1, 2}
  {
    assert !LiveLease(OlderRow, db.now);
  }

  lemma SecondLeaseStep()
    ensures Step(Late(6), OperationsLeased("b", 120, 1, {}, {2}), Late(7))
  {
    hide Step, LeaseChoice;
    var db := Late(6);
    SecondChoice(db);
    LeaseIsStep(db, "b", 120, 1, {2});
    assert LeaseOperations(db, "b", 120, {2}).operations == Late(7).operations;
  }

  lemma PolicyStep()
    ensures Step(Late(0), PolicyUpserted(0, AmplePolicy), Late(1))
  {
    hide Step;
    PolicyIsStep(Late(0), 0, AmplePolicy);
    assert Late(0).policies[0 := AmplePolicy] == Late(1).policies;
  }

  lemma PublishStep()
    ensures Step(Late(3), StateSetForOperation(0, 1, false, MachineStatus.Running, Some("n"), Some("v")), Late(4))
  {
    hide Step;
    WriteIsStep(Late(3), 0, 1, "n", "v");
    assert Late(3).machines[0 := PublishedMachine] == Late(4).machines;
  }

  lemma ClockStep()
    ensures Step(Late(5), ClockAdvanced(121 * SECOND), Late(6))
  {
    hide Step;
    ClockIsStep(Late(5), 121 * SECOND);
  }

  lemma RenewalStep()
    ensures Step(Late(7), LeaseRenewed(1, "a", 120), Late(8))
  {
    hide Step;
    RenewalIsStep(Late(7), 1, "a", 120);
    assert Late(7).operations[1] == OlderRow;
    assert Late(7).operations[1 := OlderRow.(leaseExpires := Some(241 * SECOND))] == Late(8).operations;
  }

  lemma LateStep(k: nat)
    requires k < 8
    ensures Step(Late(k), LateRenewal()[k], Late(k + 1))
  {
    hide Step, Late;
    BundleStep();
    FirstLeaseStep();
    StopStep();
    SecondLeaseStep();
    PolicyStep();
    PublishStep();
    ClockStep();
    RenewalStep();
    assert k == 0 || k == 1 || k == 2 || k == 3 || k == 4 || k == 5 || k == 6 || k == 7;
  }

  /** A renewal that comes too late breaks exclusion: this is a run from the empty database,
      its renewal is its only step that is not prompt, and at its end two leases on one
      machine are live. */
  lemma LateRenewalBreaksExclusion()
    ensures var states := seq(9, (k: nat) => Late(k));
      && IsRun(states, LateRenewal())
      && (forall k: nat :: k < 7 ==> Prompt(states[k], LateRenewal()[k]))
      && Exclusive(states[7]) && !Exclusive(states[8])
  {
    hide Step, LateRenewal;
    var states := seq(9, (k: nat) => Late(k));
    LateIsPrompt();
    LateIsShared();
    forall k {:trigger LateRenewal()[k]} | 0 <= k < 8
      ensures Step(states[k], LateRenewal()[k], states[k + 1])
    {
      LateStep(k);
    }
  }

  lemma LateIsPrompt()
    ensures |LateRenewal()| == 8 && forall k: nat :: k < 7 ==> !LateRenewal()[k].LeaseRenewed?
  {}

  lemma LateIsShared()
    ensures Exclusive(Late(7)) && !Exclusive(Late(8))
  {
    assert !LiveLease(OlderRow, 121 * SECOND);
    assert Holds(Late(8), 1, 0) && Holds(Late(8), 2, 0);
  }
}
