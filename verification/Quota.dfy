/** Machine quotas, counted as the admission queries count. */
module Quota {
  import opened Wrappers
  import opened Domain
  import opened Store
  import opened Invariants
  import opened Safety
  import opened TransactionSafety
  import opened Runs

  /** No more counted machines than the policy of the workspace allows in all and for any user. */
  ghost predicate WithinQuota(machines: map<Id, Machine>, policy: Policy, workspace: Id) {
    && |CountedInWorkspace(machines, workspace)| <= policy.maxWorkspace
    && forall user: Id :: |CountedForCreator(machines, workspace, Some(user))| <= policy.maxUser
  }

  ghost predicate WithinQuotas(db: Db) {
    forall w :: w in db.policies ==> WithinQuota(db.machines, db.policies[w], w)
  }

  /** Room for one more machine of this creator; a machine without creator counts for no user. */
  ghost predicate Room(machines: map<Id, Machine>, policy: Policy, workspace: Id, creator: Option<Id>) {
    && |CountedInWorkspace(machines, workspace)| < policy.maxWorkspace
    && (creator.Some? ==> |CountedForCreator(machines, workspace, creator)| < policy.maxUser)
  }

  /** Writing one row adds that row to the counts, removes it, or leaves them alone. */
  lemma WorkspaceCount(machines: map<Id, Machine>, id: Id, m: Machine, workspace: Id)
    ensures var before, after := CountedInWorkspace(machines, workspace), CountedInWorkspace(machines[id := m], workspace);
      && (m.workspace == workspace && Counted(m) ==> after == before + {id})
      && (!(m.workspace == workspace && Counted(m)) ==> after == before - {id})
  {}

  lemma CreatorCount(machines: map<Id, Machine>, id: Id, m: Machine, workspace: Id, user: Id)
    ensures var before := CountedForCreator(machines, workspace, Some(user));
      var after := CountedForCreator(machines[id := m], workspace, Some(user));
      && (m.workspace == workspace && m.creator == Some(user) && Counted(m) ==> after == before + {id})
      && (!(m.workspace == workspace && m.creator == Some(user) && Counted(m)) ==> after == before - {id})
  {}

  /** The row is counted after the write but was not before. */
  ghost predicate NewlyCounted(machines: map<Id, Machine>, id: Id, m: Machine) {
    Counted(m) && (id in machines ==> !Counted(machines[id]))
  }

  /** A write of one row keeps a quota exactly when it adds nothing to the count or there was room. */
  lemma WriteKeepsQuotaIff(machines: map<Id, Machine>, policy: Policy, id: Id, m: Machine)
    requires WithinQuota(machines, policy, m.workspace)
    requires id in machines ==> machines[id].workspace == m.workspace && machines[id].creator == m.creator
    ensures WithinQuota(machines[id := m], policy, m.workspace) <==>
            (NewlyCounted(machines, id, m) ==> Room(machines, policy, m.workspace, m.creator))
  {
    WorkspaceCount(machines, id, m, m.workspace);
    forall user: Id
      ensures |CountedForCreator(machines[id := m], m.workspace, Some(user))| ==
              |CountedForCreator(machines, m.workspace, Some(user))|
              + (if m.creator == Some(user) && NewlyCounted(machines, id, m) then 1 else 0)
              - (if m.creator == Some(user) && !Counted(m) && id in machines && Counted(machines[id]) then 1 else 0)
    {
      CreatorCount(machines, id, m, m.workspace, user);
    }
  }

  lemma OtherQuotas(machines: map<Id, Machine>, policy: Policy, id: Id, m: Machine, workspace: Id)
    requires WithinQuota(machines, policy, workspace) && workspace != m.workspace
    requires id in machines ==> machines[id].workspace == m.workspace
    ensures WithinQuota(machines[id := m], policy, workspace)
  {
    WorkspaceCount(machines, id, m, workspace);
    forall user: Id
      ensures |CountedForCreator(machines[id := m], workspace, Some(user))| <= policy.maxUser
    {
      CreatorCount(machines, id, m, workspace, user);
    }
  }

  lemma WriteKeepsQuotasIff(db: Db, id: Id, m: Machine)
    requires WithinQuotas(db)
    requires id in db.machines ==> db.machines[id].workspace == m.workspace && db.machines[id].creator == m.creator
    ensures WithinQuotas(db.(machines := db.machines[id := m])) <==>
            (m.workspace in db.policies && NewlyCounted(db.machines, id, m) ==>
               Room(db.machines, db.policies[m.workspace], m.workspace, m.creator))
  {
    hide WithinQuota, Room, NewlyCounted;
    var after := db.(machines := db.machines[id := m]);
    forall w | w in db.policies && w != m.workspace
      ensures WithinQuota(after.machines, db.policies[w], w)
    {
      OtherQuotas(db.machines, db.policies[w], id, m, w);
    }
    if m.workspace in db.policies {
      WriteKeepsQuotaIff(db.machines, db.policies[m.workspace], id, m);
    }
  }

  /** Creating a machine never exceeds a quota. */
  lemma BundleWithinQuotas(db: Db, id: Id, m: Machine, op: Id, q: Job)
    requires Inv(db) && WithinQuotas(db) && CreateBundle(db, id, m, op, q).Committed?
    ensures WithinQuotas(CreateBundle(db, id, m, op, q).db)
  {
    assert IdsIssued(db);
    hide Inv, WithinQuota, NewlyCounted, Enqueue, EnvironmentReady;
    WriteKeepsQuotasIff(db, id, m);
  }

  /** A machine that is neither stopped nor failed and yet is not counted: start requests
      on it would not be checked. */
  predicate Unchecked(m: Machine) {
    m.status in {MachineStatus.Destroyed, MachineStatus.Expired} && !m.desired.Running?
  }

  /** A lifecycle request keeps the quotas exactly when it is not a start of an unchecked
      machine that there is no room for. */
  lemma RequestWithinQuotasIff(db: Db, op: Id, q: Job)
    requires Inv(db) && WithinQuotas(db) && LifecycleRequest(q)
    requires SetDesiredAndEnqueue(db, DesiredFor(q.action), op, q).Committed? && FindByKey(db.operations, q.machine, q.key).None?
    ensures q.machine in db.machines
    ensures var m := db.machines[q.machine];
      WithinQuotas(SetDesiredAndEnqueue(db, DesiredFor(q.action), op, q).db) <==>
      (DesiredFor(q.action).Running? && Unchecked(m) && m.workspace in db.policies ==>
         Room(db.machines, db.policies[m.workspace], m.workspace, m.creator))
  {
    var m := db.machines[q.machine];
    var desired := DesiredFor(q.action);
    hide Inv, WithinQuota, Enqueue, EnvironmentReady;
    WriteKeepsQuotasIff(db, q.machine, m.(desired := desired, generation := q.generation));
  }

  /** On the statuses for which the service lets an operation through no quota is exceeded.
      A paused machine being resumed is counted already. */
  lemma RequestWithinQuotas(db: Db, op: Id, q: Job)
    requires Inv(db) && WithinQuotas(db) && LifecycleRequest(q)
    requires SetDesiredAndEnqueue(db, DesiredFor(q.action), op, q).Committed?
    requires q.machine in db.machines ==> ValidOperationForStatus(q.action, db.machines[q.machine].status)
    ensures WithinQuotas(SetDesiredAndEnqueue(db, DesiredFor(q.action), op, q).db)
  {
    if FindByKey(db.operations, q.machine, q.key).None? {
      RequestWithinQuotasIff(db, op, q);
    }
  }

  // ---- a run that exceeds a quota ----

  const OneMachine: Policy := Policy(true, 1, 1, 9)

  function Fresh7(expiresAt: Time): Machine {
    Machine(0, Some(7), MachineStatus.Queued, MachineStatus.Running, 1, None, None, false, None, None, None, expiresAt)
  }

  function Request(machine: Id, action: Action, generation: int): Job {
    Job(machine, 0, action, generation, LifecycleKey(action, generation), Some(7), None, None, None, None, 5)
  }

  /** One machine is allowed. The first expires and its teardown is queued, so that there is
      room for the second; then the first is started again. */
  function Exceeding(): seq<Event> {
    [PolicyUpserted(0, OneMachine),
     BundleCreated(1, Fresh7(3), 2, Request(1, Spawn, 1)),
     StateSet(1, MachineStatus.Expired, None, None),
     DesiredSet(3, Request(1, Teardown, 2)),
     BundleCreated(4, Fresh7(9), 5, Request(4, Spawn, 1)),
     DesiredSet(6, Request(1, Start, 3))]
  }

  const Expired: Machine := Fresh7(3).(status := MachineStatus.Expired)
  const TornDown: Machine := Expired.(desired := MachineStatus.Destroyed, generation := 2)

  /** The states of that run. */
  function Filling(k: nat): Db {
    match k
    case 0 => Db(0, {}, map[], map[], map[], map[], map[], map[], map[], map[], map[])
    case 1 => Filling(0).(policies := map[0 := OneMachine])
    case 2 => Filling(1).(issued := {1, 2}, machines := map[1 := Fresh7(3)], operations := map[2 := NewOperation(0, Request(1, Spawn, 1))])
    case 3 => Filling(2).(machines := map[1 := Expired])
    case 4 => Filling(3).(issued := {1, 2, 3}, machines := map[1 := TornDown],
                          operations := map[2 := NewOperation(0, Request(1, Spawn, 1)), 3 := NewOperation(0, Request(1, Teardown, 2))])
    case 5 => Filling(4).(issued := {1, 2, 3, 4, 5}, machines := map[1 := TornDown, 4 := Fresh7(9)],
                          operations := Filling(4).operations[5 := NewOperation(0, Request(4, Spawn, 1))])
    case _ => Filling(5).(issued := {1, 2, 3, 4, 5, 6},
                          machines := map[1 := Restarted, 4 := Fresh7(9)],
                          operations := Filling(5).operations[6 := NewOperation(0, Request(1, Start, 3))])
  }

  lemma PolicyStep()
    ensures Step(Filling(0), PolicyUpserted(0, OneMachine), Filling(1))
  {
    hide Step;
    PolicyIsStep(Filling(0), 0, OneMachine);
    assert Filling(0).policies[0 := OneMachine] == Filling(1).policies;
  }

  lemma FirstBundleStep()
    ensures Step(Filling(1), BundleCreated(1, Fresh7(3), 2, Request(1, Spawn, 1)), Filling(2))
  {
    hide Step;
    var db := Filling(1);
    BundleIsStep(db, 1, Fresh7(3), 2, Request(1, Spawn, 1));
    assert CountedInWorkspace(db.machines, 0) == {} && CountedForCreator(db.machines, 0, Some(7)) == {};
    assert FindByKey(db.operations, 1, LifecycleKey(Spawn, 1)).None?;
    assert {} + {1} + {2} == {1, 2};
  }

  lemma ExpiryStep()
    ensures Step(Filling(2), StateSet(1, MachineStatus.Expired, None, None), Filling(3))
  {
    hide Step;
    StatusIsStep(Filling(2), 1, MachineStatus.Expired);
    assert Filling(2).machines[1 := Expired] == Filling(3).machines;
  }

  lemma TeardownStep()
    ensures Step(Filling(3), DesiredSet(3, Request(1, Teardown, 2)), Filling(4))
  {
    hide Step;
    DesiredIsStep(Filling(3), 3, Request(1, Teardown, 2));
    assert FindByKey(Filling(3).operations, 1, LifecycleKey(Teardown, 2)).None?;
    assert Filling(3).machines[1 := TornDown] == Filling(4).machines;
    assert Filling(3).operations[3 := NewOperation(0, Request(1, Teardown, 2))] == Filling(4).operations;
    assert {1, 2} + {3} == {1, 2, 3};
  }

  lemma BundlesSecond(db: Db)
    requires db.machines == map[1 := TornDown] && db.policies == map[0 := OneMachine] && db.issued == {1, 2, 3} && db.now == 0
    requires forall o :: o in db.operations ==> db.operations[o].job.machine != 4
    ensures CreateBundle(db, 4, Fresh7(9), 5, Request(4, Spawn, 1)) ==
            Committed(db.(issued := {1, 2, 3, 4, 5}, machines := map[1 := TornDown, 4 := Fresh7(9)],
                          operations := db.operations[5 := NewOperation(0, Request(4, Spawn, 1))]), 5)
  {
    assert CountedInWorkspace(db.machines, 0) == {} && CountedForCreator(db.machines, 0, Some(7)) == {};
    assert FindByKey(db.operations, 4, LifecycleKey(Spawn, 1)).None?;
    assert db.machines[4 := Fresh7(9)] == map[1 := TornDown, 4 := Fresh7(9)];
    assert {1, 2, 3} + {4} + {5} == {1, 2, 3, 4, 5};
  }

  lemma SecondBundleStep()
    ensures Step(Filling(4), BundleCreated(4, Fresh7(9), 5, Request(4, Spawn, 1)), Filling(5))
  {
    hide Step, CreateBundle;
    BundleIsStep(Filling(4), 4, Fresh7(9), 5, Request(4, Spawn, 1));
    BundlesSecond(Filling(4));
  }

  const Restarted: Machine := TornDown.(desired := MachineStatus.Running, generation := 3)

  lemma NoSnapshots(db: Db)
    requires forall o :: o in db.operations ==> db.operations[o].job.action != SnapshotEnvironment
    ensures !HasOpenOperation(db.operations, 1, {SnapshotEnvironment})
  {}

  lemma StartsExpired(db: Db)
    requires db.machines == map[1 := TornDown, 4 := Fresh7(9)] && db.issued == {1, 2, 3, 4, 5} && db.now == 0
    requires forall o :: o in db.operations ==> db.operations[o].job.key != LifecycleKey(Start, 3) && db.operations[o].job.action != SnapshotEnvironment
    ensures SetDesiredAndEnqueue(db, MachineStatus.Running, 6, Request(1, Start, 3)) ==
            Committed(db.(issued := {1, 2, 3, 4, 5, 6}, machines := map[1 := Restarted, 4 := Fresh7(9)],
                          operations := db.operations[6 := NewOperation(0, Request(1, Start, 3))]), 6)
  {
    hide HasOpenOperation, QuotaReached;
    assert FindByKey(db.operations, 1, LifecycleKey(Start, 3)).None?;
    assert !HasOpenOperation(db.operations, 1, {SnapshotEnvironment}) by { NoSnapshots(db); }
    assert db.machines[1 := Restarted] == map[1 := Restarted, 4 := Fresh7(9)];
    assert {1, 2, 3, 4, 5} + {6} == {1, 2, 3, 4, 5, 6};
  }

  lemma StartStep()
    ensures Step(Filling(5), DesiredSet(6, Request(1, Start, 3)), Filling(6))
  {
    hide Step, SetDesiredAndEnqueue;
    DesiredIsStep(Filling(5), 6, Request(1, Start, 3));
    FifthState();
    StartsExpired(Filling(5));
  }

  lemma FifthState()
    ensures var db := Filling(5);
      && db.machines == map[1 := TornDown, 4 := Fresh7(9)] && db.issued == {1, 2, 3, 4, 5} && db.now == 0
      && forall o :: o in db.operations ==> db.operations[o].job.key != LifecycleKey(Start, 3) && db.operations[o].job.action != SnapshotEnvironment
  {}

  lemma FillingStep(k: nat)
    requires k < 6
    ensures Step(Filling(k), Exceeding()[k], Filling(k + 1))
  {
    hide Step, Filling;
    PolicyStep();
    FirstBundleStep();
    ExpiryStep();
    TeardownStep();
    SecondBundleStep();
    StartStep();
    assert k == 0 || k == 1 || k == 2 || k == 3 || k == 4 || k == 5;
  }

  lemma OneIsWithin()
    ensures WithinQuota(map[1 := TornDown, 4 := Fresh7(9)], OneMachine, 0)
  {
    var machines := map[1 := TornDown, 4 := Fresh7(9)];
    assert CountedInWorkspace(machines, 0) == {4};
    forall user: Id
      ensures |CountedForCreator(machines, 0, Some(user))| <= 1
    {
      assert CountedForCreator(machines, 0, Some(user)) == if user == 7 then {4} else {};
    }
  }

  lemma TwoAreOver()
    ensures !WithinQuota(map[1 := Restarted, 4 := Fresh7(9)], OneMachine, 0)
  {
    assert CountedInWorkspace(map[1 := Restarted, 4 := Fresh7(9)], 0) == {1, 4};
  }

  lemma FillingQuotas()
    ensures WithinQuotas(Filling(5)) && !WithinQuotas(Filling(6))
  {
    hide WithinQuota;
    OneIsWithin();
    TwoAreOver();
    assert Filling(5).policies == map[0 := OneMachine] == Filling(6).policies;
    assert 0 in Filling(6).policies;
  }

  /** The repository itself does not refuse a start of an expired machine, which the service
      has to do: in a run from the empty database such a request commits and exceeds a quota
      that was kept until then. */
  lemma ExpiredStartExceedsQuota()
    ensures var states := seq(7, (k: nat) => Filling(k));
      IsRun(states, Exceeding()) && WithinQuotas(states[5]) && !WithinQuotas(states[6])
    ensures |Exceeding()| == 6 && Exceeding()[5] == DesiredSet(6, Request(1, Start, 3))
    ensures 1 in Filling(5).machines && Filling(5).machines[1].status.Expired?
  {
    hide Step, Exceeding, WithinQuotas, Filling;
    FillingQuotas();
    FillingShape();
    var states := seq(7, (k: nat) => Filling(k));
    forall k {:trigger Exceeding()[k]} | 0 <= k < 6
      ensures Step(states[k], Exceeding()[k], states[k + 1])
    {
      FillingStep(k);
    }
  }

  lemma FillingShape()
    ensures |Exceeding()| == 6 && Fresh(Filling(0)) && Exceeding()[5] == DesiredSet(6, Request(1, Start, 3))
    ensures 1 in Filling(5).machines && Filling(5).machines[1].status.Expired?
  {}
}
