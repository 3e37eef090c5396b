/** Spawn tasks: what was built is published or torn down, and a superseded task never
    touches the machine's row again. */
module SpawnTasks {
  import opened Wrappers
  import opened Domain
  import opened Store
  import opened Invariants
  import opened Runs
  import opened Manager

  // ---- what a task built, when the task completes its operation ----

  /** Where a task can be once the runtime was asked to build for it. */
  predicate Settling(pc: Pc) {
    pc.SpawnBuilt? || pc.SpawnSuperseded? || pc == Completing(Published) || pc == Completing(ToreDown) ||
    pc.Failing? || pc.MachineFailing? || pc.RunFailing? || pc.Done?
  }

  ghost predicate Accounted(w: World, t: nat)
    requires t < |w.tasks|
  {
    && (SpawnCall(t) in w.calls ==> Settling(w.tasks[t].pc))
    && (w.tasks[t].pc == Completing(ToreDown) ==> TeardownCall(t) in w.calls)
  }

  ghost predicate AllAccounted(w: World) {
    && (forall t: nat :: t < |w.tasks| ==> Accounted(w, t))
    && (forall t: nat :: SpawnCall(t) in w.calls ==> t < |w.tasks|)
  }

  lemma MoveKeepsAccount(db: Db, t: nat, task: Task, act: Act)
    requires May(db, t, task, act)
    ensures Settling(task.pc) ==> Settling(act.next)
    ensures act.call.Some? && act.call.value.SpawnCall? ==> act.call == Some(SpawnCall(t)) && Settling(act.next)
    ensures act.next == Completing(ToreDown) ==> act.call == Some(TeardownCall(t))
  {}

  lemma StepKeepsAccounts(a: World, l: Label, b: World)
    requires WorldStep(a, l, b) && AllAccounted(a)
    ensures AllAccounted(b)
  {
    hide Step, May, Settling;
    match l
    case TaskMoves(t, act) =>
      MoveKeepsAccount(a.db, t, a.tasks[t], act);
      forall u: nat | u < |b.tasks|
        ensures Accounted(b, u)
      {
        assert Accounted(a, u);
      }
    case Batch(_, batch) =>
      forall u: nat | u < |b.tasks|
        ensures Accounted(b, u)
      {
        if u < |a.tasks| {
          assert b.tasks[u] == b.tasks[..|a.tasks|][u];
          assert Accounted(a, u);
        } else {
          assert batch[u - |a.tasks|] in batch;
          assert b.tasks[u] == b.tasks[|a.tasks| + (u - |a.tasks|)];
        }
      }
    case Outside(_) =>
      forall u: nat | u < |b.tasks|
        ensures Accounted(b, u)
      {
        assert Accounted(a, u);
      }
  }

  lemma {:induction false} HistoryAccounted(worlds: seq<World>, labels: seq<Label>, i: nat)
    requires IsHistory(worlds, labels) && i < |worlds|
    ensures AllAccounted(worlds[i])
  {
    hide WorldStep;
    if i > 0 {
      HistoryAccounted(worlds, labels, i - 1);
      StepKeepsAccounts(worlds[i - 1], labels[i - 1], worlds[i]);
    }
  }

  /** The move that brought a task where it is. */
  lemma {:induction false} Arrived(worlds: seq<World>, labels: seq<Label>, i: nat, t: nat) returns (k: nat)
    requires IsHistory(worlds, labels) && i < |worlds| && t < |worlds[i].tasks| && worlds[i].tasks[t].pc != Fetched
    ensures k < i && labels[k].TaskMoves? && labels[k].t == t && TaskStep(worlds[k], t, labels[k].act, worlds[k + 1])
    ensures t < |worlds[k].tasks| && worlds[k].tasks[t].job == worlds[i].tasks[t].job && labels[k].act.next == worlds[i].tasks[t].pc
  {
    hide WorldStep, TaskStep;
    k := i - 1;
    var a, l, b := worlds[k], labels[k], worlds[k + 1];
    assert WorldStep(a, l, b);
    if l.TaskMoves? && l.t == t {
      StepOfTask(a, l, b);
      MovedThere(a, t, l.act, b);
    } else {
      StaysPut(a, l, b, t);
      k := Arrived(worlds, labels, i - 1, t);
    }
  }

  lemma MovedThere(a: World, t: nat, act: Act, b: World)
    requires TaskStep(a, t, act, b)
    ensures t < |a.tasks| && t < |b.tasks| && b.tasks[t].pc == act.next && b.tasks[t].job == a.tasks[t].job
  {
    hide May, Step;
  }

  lemma StaysPut(a: World, l: Label, b: World, t: nat)
    requires WorldStep(a, l, b) && t < |b.tasks| && b.tasks[t].pc != Fetched && !(l.TaskMoves? && l.t == t)
    ensures t < |a.tasks| && b.tasks[t] == a.tasks[t]
  {
    hide Step, May;
    if l.Batch? {
      NewTasksFetched(a, l, b);
      assert b.tasks[t] == b.tasks[..|a.tasks|][t];
    }
  }

  lemma NewTasksFetched(a: World, l: Label, b: World)
    requires WorldStep(a, l, b) && l.Batch?
    ensures forall u :: |a.tasks| <= u < |b.tasks| ==> b.tasks[u].pc == Fetched
  {
    hide Step;
    forall u | |a.tasks| <= u < |b.tasks|
      ensures b.tasks[u].pc == Fetched
    {
      assert l.batch[u - |a.tasks|] in l.batch;
      assert b.tasks[u] == b.tasks[|a.tasks| + (u - |a.tasks|)];
    }
  }

  /** The task's call to the runtime answered this network and this volume. */
  predicate BuiltAt(labels: seq<Label>, j: nat, t: nat, network: string, volume: string) {
    j < |labels| && labels[j] == TaskMoves(t, Act(None, Some(SpawnCall(t)), SpawnBuilt(network, volume)))
  }

  predicate Shows(db: Db, machine: Id, network: string, volume: string) {
    machine in db.machines && db.machines[machine].status == MachineStatus.Running &&
    db.machines[machine].network == Some(network) && db.machines[machine].volume == Some(volume)
  }

  /** The step at which the task wrote what it built to its machine's row, at the generation
      of its operation: the row did not refuse the write and shows it afterwards. */
  ghost predicate PublishedAt(worlds: seq<World>, labels: seq<Label>, k: nat, t: nat, network: string, volume: string)
    requires |worlds| == |labels| + 1
  {
    && k < |labels| && labels[k].TaskMoves? && labels[k].t == t && t < |worlds[k].tasks|
    && var job := worlds[k].tasks[t].job;
       && labels[k].act.event == Some(StatusWrite(job, MachineStatus.Running, Some(network), Some(volume)))
       && job.machine in worlds[k].db.machines && worlds[k].db.machines[job.machine].generation == job.generation
       && Shows(worlds[k + 1].db, job.machine, network, volume)
  }

  lemma MoveToPublished(a: World, t: nat, act: Act, b: World)
    requires TaskStep(a, t, act, b) && act.next == Completing(Published)
    ensures var task := a.tasks[t];
      && task.pc.SpawnBuilt? && StatusApplies(a.db, task.job)
      && act.event == Some(StatusWrite(task.job, MachineStatus.Running, Some(task.pc.network), Some(task.pc.volume)))
      && Step(a.db, act.event.value, b.db)
  {
    hide Step;
  }

  lemma MoveToBuilt(a: World, t: nat, act: Act, b: World)
    requires TaskStep(a, t, act, b) && act.next.SpawnBuilt?
    ensures act == Act(None, Some(SpawnCall(t)), act.next)
  {
    hide Step;
  }

  lemma WriteShows(db: Db, job: Job, network: string, volume: string, after: Db)
    requires Step(db, StatusWrite(job, MachineStatus.Running, Some(network), Some(volume)), after) && StatusApplies(db, job)
    ensures Shows(after, job.machine, network, volume)
  {}

  lemma PublishedWrote(worlds: seq<World>, labels: seq<Label>, i: nat, t: nat) returns (j: nat, k: nat, network: string, volume: string)
    requires IsHistory(worlds, labels) && i < |worlds| && t < |worlds[i].tasks| && worlds[i].tasks[t].pc == Completing(Published)
    ensures j < k < i && BuiltAt(labels, j, t, network, volume) && PublishedAt(worlds, labels, k, t, network, volume)
  {
    hide TaskStep, WorldStep, Step, Shows;
    k := Arrived(worlds, labels, i, t);
    var a, act, b := worlds[k], labels[k].act, worlds[k + 1];
    MoveToPublished(a, t, act, b);
    network, volume := a.tasks[t].pc.network, a.tasks[t].pc.volume;
    WriteShows(a.db, a.tasks[t].job, network, volume, b.db);
    j := Arrived(worlds, labels, k, t);
    MoveToBuilt(worlds[j], t, labels[j].act, worlds[j + 1]);
  }

  /** A spawn that is to complete its operation after the runtime built the machine either
      wrote the network and the volume that were built to the machine's row, which no newer
      request had overtaken and which then showed them as running, or had everything torn
      down again. */
  lemma BuiltIsPublishedOrTornDown(worlds: seq<World>, labels: seq<Label>, i: nat, t: nat)
    requires IsHistory(worlds, labels) && i < |worlds| && t < |worlds[i].tasks|
    requires SpawnCall(t) in worlds[i].calls && worlds[i].tasks[t].pc.Completing?
    ensures TeardownCall(t) in worlds[i].calls ||
            exists j: nat, k: nat, network, volume ::
              j < k < i && BuiltAt(labels, j, t, network, volume) && PublishedAt(worlds, labels, k, t, network, volume)
  {
    HistoryAccounted(worlds, labels, i);
    assert Accounted(worlds[i], t);
    hide IsHistory, PublishedAt;
    if worlds[i].tasks[t].pc == Completing(Published) {
      var j, k, network, volume := PublishedWrote(worlds, labels, i, t);
    }
  }

  // ---- what becomes of everything that was built ----

  /** The task has yet to write what it built, or to tear it down. */
  predicate Waiting(pc: Pc, network: string, volume: string) {
    pc == SpawnBuilt(network, volume) || pc == SpawnSuperseded
  }

  /** The task is past the point where it writes or tears down what it built. */
  predicate Spent(pc: Pc) {
    pc.Completing? || pc.Failing? || pc.RunFailing? || pc.MachineFailing? || pc.Done?
  }

  /** The task crashed, or failed on the database, before it wrote what it had built or tore
      it down. */
  predicate BreaksOff(pc: Pc, act: Act) {
    (pc.SpawnBuilt? || pc == SpawnSuperseded) && act in {Goto(Failing(true)), Goto(Done)}
  }

  ghost predicate BrokeOffAt(worlds: seq<World>, labels: seq<Label>, k: nat, t: nat)
    requires |worlds| == |labels| + 1
  {
    k < |labels| && labels[k].TaskMoves? && labels[k].t == t && t < |worlds[k].tasks| && BreaksOff(worlds[k].tasks[t].pc, labels[k].act)
  }

  ghost predicate PublishedBy(worlds: seq<World>, labels: seq<Label>, j: nat, i: nat, t: nat, network: string, volume: string)
    requires |worlds| == |labels| + 1
  {
    exists k: nat :: j < k < i && PublishedAt(worlds, labels, k, t, network, volume)
  }

  ghost predicate BrokeOff(worlds: seq<World>, labels: seq<Label>, j: nat, i: nat, t: nat)
    requires |worlds| == |labels| + 1
  {
    exists k: nat :: j < k < i && BrokeOffAt(worlds, labels, k, t)
  }

  /** The moves of a task that built something. */
  lemma MoveOfBuilder(db: Db, t: nat, task: Task, act: Act, network: string, volume: string)
    requires May(db, t, task, act) && (Waiting(task.pc, network, volume) || Spent(task.pc))
    ensures Spent(task.pc) ==> Spent(act.next) && act.call.None?
    ensures act.call == Some(TeardownCall(t)) <==> task.pc == SpawnSuperseded && !BreaksOff(task.pc, act)
    ensures Waiting(act.next, network, volume) || Spent(act.next)
    ensures task.pc.SpawnBuilt? && !BreaksOff(task.pc, act) ==>
              && act.event == Some(StatusWrite(task.job, MachineStatus.Running, Some(network), Some(volume)))
              && (StatusApplies(db, task.job) <==> !Waiting(act.next, network, volume))
    ensures task.pc == SpawnSuperseded || BreaksOff(task.pc, act) ==> Spent(act.next)
    ensures !task.pc.SpawnBuilt? ==> act.event != Some(StatusWrite(task.job, MachineStatus.Running, Some(network), Some(volume)))
  {}

  lemma CallOfTask(db: Db, u: nat, task: Task, act: Act, t: nat)
    requires May(db, u, task, act) && act.call == Some(TeardownCall(t))
    ensures u == t
  {}

  /** A step of anyone else. */
  lemma OthersStep(a: World, l: Label, b: World, t: nat)
    requires WorldStep(a, l, b) && t < |a.tasks| && !(l.TaskMoves? && l.t == t)
    ensures t < |b.tasks| && b.tasks[t] == a.tasks[t] && (TeardownCall(t) in b.calls <==> TeardownCall(t) in a.calls)
  {
    hide Step, May;
    if l.Batch? {
      assert b.tasks[t] == b.tasks[..|a.tasks|][t];
    } else if l.TaskMoves? && l.act.call == Some(TeardownCall(t)) {
      CallOfTask(a.db, l.t, a.tasks[l.t], l.act, t);
    }
  }

  /** A task whose teardown was asked for is past that point. */
  ghost predicate TornIsSpent(w: World) {
    (forall t: nat :: TeardownCall(t) in w.calls ==> t < |w.tasks|) &&
    (forall t: nat :: t < |w.tasks| && TeardownCall(t) in w.calls ==> Spent(w.tasks[t].pc))
  }

  lemma MoveOfSpent(db: Db, t: nat, task: Task, act: Act)
    requires May(db, t, task, act)
    ensures Spent(task.pc) ==> Spent(act.next)
    ensures act.call == Some(TeardownCall(t)) ==> Spent(act.next)
  {}

  lemma StepTornIsSpent(a: World, l: Label, b: World)
    requires WorldStep(a, l, b) && TornIsSpent(a)
    ensures TornIsSpent(b)
  {
    hide WorldStep, Spent;
    forall t: nat | TeardownCall(t) in b.calls
      ensures t < |b.tasks| && Spent(b.tasks[t].pc)
    {
      if l.TaskMoves? && l.t == t {
        OwnStep(a, t, l.act, b, l);
        MoveOfSpent(a.db, t, a.tasks[t], l.act);
      } else {
        OthersCalls(a, l, b, t);
        OthersStep(a, l, b, t);
      }
    }
  }

  lemma OthersCalls(a: World, l: Label, b: World, t: nat)
    requires WorldStep(a, l, b) && !(l.TaskMoves? && l.t == t)
    ensures TeardownCall(t) in b.calls ==> TeardownCall(t) in a.calls
  {
    hide Step, May;
    if l.TaskMoves? && l.act.call == Some(TeardownCall(t)) {
      CallOfTask(a.db, l.t, a.tasks[l.t], l.act, t);
    }
  }

  lemma OwnStep(a: World, t: nat, act: Act, b: World, l: Label)
    requires WorldStep(a, l, b) && l == TaskMoves(t, act)
    ensures t < |a.tasks| && May(a.db, t, a.tasks[t], act) && |b.tasks| == |a.tasks| && b.tasks[t] == a.tasks[t].(pc := act.next)
    ensures act.event.Some? ==> Step(a.db, act.event.value, b.db)
    ensures TeardownCall(t) in b.calls <==> TeardownCall(t) in a.calls || act.call == Some(TeardownCall(t))
  {
    hide Step, May;
  }

  lemma {:induction false} HistoryTornIsSpent(worlds: seq<World>, labels: seq<Label>, i: nat)
    requires IsHistory(worlds, labels) && i < |worlds|
    ensures TornIsSpent(worlds[i])
  {
    hide WorldStep;
    if i > 0 {
      HistoryTornIsSpent(worlds, labels, i - 1);
      hide TornIsSpent;
      assert WorldStep(worlds[i - 1], labels[i - 1], worlds[i]);
      StepTornIsSpent(worlds[i - 1], labels[i - 1], worlds[i]);
    }
  }

  lemma PublishedNext(worlds: seq<World>, labels: seq<Label>, j: nat, i: nat, t: nat, network: string, volume: string)
    requires |worlds| == |labels| + 1 && j < i < |labels|
    ensures PublishedBy(worlds, labels, j, i + 1, t, network, volume) <==>
            PublishedBy(worlds, labels, j, i, t, network, volume) || PublishedAt(worlds, labels, i, t, network, volume)
    ensures BrokeOff(worlds, labels, j, i + 1, t) <==> BrokeOff(worlds, labels, j, i, t) || BrokeOffAt(worlds, labels, i, t)
  {
    hide PublishedAt, BrokeOffAt;
  }

  /** Whether a step of the task publishes what it built. */
  lemma PublishesIff(worlds: seq<World>, labels: seq<Label>, k: nat, t: nat, network: string, volume: string)
    requires IsHistory(worlds, labels) && k < |labels| && t < |worlds[k].tasks|
    requires Waiting(worlds[k].tasks[t].pc, network, volume) || Spent(worlds[k].tasks[t].pc)
    ensures PublishedAt(worlds, labels, k, t, network, volume) <==>
            labels[k].TaskMoves? && labels[k].t == t && worlds[k].tasks[t].pc.SpawnBuilt? &&
            !BreaksOff(worlds[k].tasks[t].pc, labels[k].act) && StatusApplies(worlds[k].db, worlds[k].tasks[t].job)
  {
    hide WorldStep, Step, Shows, May, BreaksOff, Waiting, Spent;
    var a, l, b := worlds[k], labels[k], worlds[k + 1];
    assert WorldStep(a, l, b);
    if l.TaskMoves? && l.t == t {
      OwnStep(a, t, l.act, b, l);
      MoveOfBuilder(a.db, t, a.tasks[t], l.act, network, volume);
      if l.act.event == Some(StatusWrite(a.tasks[t].job, MachineStatus.Running, Some(network), Some(volume))) && StatusApplies(a.db, a.tasks[t].job) {
        WriteShows(a.db, a.tasks[t].job, network, volume, b.db);
      }
      BreakingWritesNothing(a.tasks[t].pc, l.act);
    }
  }

  lemma BreakingWritesNothing(pc: Pc, act: Act)
    ensures BreaksOff(pc, act) ==> act.event.None?
  {}

  /** Whatever happens, what the runtime built for a task is at every later moment either
      still to be written or torn down by it, or it was published on the machine's row or its
      teardown asked for, or, exactly otherwise, the task broke off before it got to either. */
  lemma {:induction false} BuiltOutcome(worlds: seq<World>, labels: seq<Label>, j: nat, i: nat, t: nat, network: string, volume: string)
    requires IsHistory(worlds, labels) && j < i < |worlds| && BuiltAt(labels, j, t, network, volume)
    ensures t < |worlds[i].tasks|
    ensures PublishedBy(worlds, labels, j, i, t, network, volume) || TeardownCall(t) in worlds[i].calls <==>
            !Waiting(worlds[i].tasks[t].pc, network, volume) && !BrokeOff(worlds, labels, j, i, t)
    ensures Waiting(worlds[i].tasks[t].pc, network, volume) ==> !BrokeOff(worlds, labels, j, i, t)
    ensures Waiting(worlds[i].tasks[t].pc, network, volume) || Spent(worlds[i].tasks[t].pc)
  {
    hide WorldStep, Step, May, Waiting, Spent, PublishedAt, BreaksOff, PublishedBy, BrokeOff;
    var k := i - 1;
    assert WorldStep(worlds[k], labels[k], worlds[i]);
    if k == j {
      OwnStep(worlds[j], t, labels[j].act, worlds[i], labels[j]);
      HistoryTornIsSpent(worlds, labels, i);
      JustBuilt(worlds[i], t, network, volume);
      NothingYet(worlds, labels, j, t, network, volume);
    } else {
      BuiltOutcome(worlds, labels, j, k, t, network, volume);
      PublishedNext(worlds, labels, j, k, t, network, volume);
      PublishesIff(worlds, labels, k, t, network, volume);
      if labels[k].TaskMoves? && labels[k].t == t {
        OwnStep(worlds[k], t, labels[k].act, worlds[i], labels[k]);
        MoveOfBuilder(worlds[k].db, t, worlds[k].tasks[t], labels[k].act, network, volume);
        WaitingOrSpent(worlds[k].tasks[t].pc, network, volume);
        WaitingOrSpent(labels[k].act.next, network, volume);
        BreaksFromWaiting(worlds[k].tasks[t].pc, labels[k].act);
      } else {
        OthersStep(worlds[k], labels[k], worlds[i], t);
      }
    }
  }

  lemma JustBuilt(w: World, t: nat, network: string, volume: string)
    requires TornIsSpent(w) && t < |w.tasks| && w.tasks[t].pc == SpawnBuilt(network, volume)
    ensures Waiting(w.tasks[t].pc, network, volume) && TeardownCall(t) !in w.calls
  {}

  lemma NothingYet(worlds: seq<World>, labels: seq<Label>, j: nat, t: nat, network: string, volume: string)
    requires |worlds| == |labels| + 1
    ensures !PublishedBy(worlds, labels, j, j + 1, t, network, volume) && !BrokeOff(worlds, labels, j, j + 1, t)
  {}

  lemma WaitingOrSpent(pc: Pc, network: string, volume: string)
    ensures !(Waiting(pc, network, volume) && Spent(pc))
    ensures Waiting(pc, network, volume) ==> pc.SpawnBuilt? || pc == SpawnSuperseded
    ensures Spent(pc) ==> !pc.SpawnBuilt? && pc != SpawnSuperseded
  {}

  lemma BreaksFromWaiting(pc: Pc, act: Act)
    ensures BreaksOff(pc, act) ==> pc.SpawnBuilt? || pc == SpawnSuperseded
  {}

  // ---- superseded tasks ----

  /** The machine has moved past the task's operation, or is gone for good. */
  ghost predicate Superseded(db: Db, job: Job) {
    job.machine in db.issued && (job.machine in db.machines ==> db.machines[job.machine].generation > job.generation)
  }

  lemma SupersededStays(a: World, l: Label, b: World, t: nat)
    requires Inv(a.db) && WorldStep(a, l, b) && t < |a.tasks| && Superseded(a.db, a.tasks[t].job)
    ensures t < |b.tasks| && b.tasks[t].job == a.tasks[t].job && Superseded(b.db, a.tasks[t].job)
  {
    WorldStepSafe(a, l, b);
    TaskStays(a, l, b, t);
    hide Inv, Evolves, WorldStep;
    GenerationsMove(a.db, b.db, a.tasks[t].job.machine);
  }

  lemma TaskStays(a: World, l: Label, b: World, t: nat)
    requires WorldStep(a, l, b) && t < |a.tasks|
    ensures t < |b.tasks| && b.tasks[t].job == a.tasks[t].job
  {
    hide Step, May;
    if l.Batch? {
      assert b.tasks[t] == b.tasks[..|a.tasks|][t];
    }
  }

  lemma GenerationsMove(a: Db, b: Db, machine: Id)
    requires Inv(a) && Evolves(a, b) && machine in a.issued
    ensures machine in b.issued
    ensures machine in b.machines ==> machine in a.machines && a.machines[machine].generation <= b.machines[machine].generation
  {}

  /** The fenced writes of such a task change nothing, and it publishes nothing. */
  lemma SupersededMove(a: World, t: nat, act: Act, b: World)
    requires TaskStep(a, t, act, b) && Superseded(a.db, a.tasks[t].job)
    ensures act.event.Some? && act.event.value.StateSetForOperation? ==> b.db == a.db
    ensures act.next != Completing(Published)
    ensures a.tasks[t].pc.SpawnBuilt? && act.event.Some? ==> act.next == SpawnSuperseded
    ensures a.tasks[t].pc == SpawnSuperseded && act.next.Completing? ==> act.call == Some(TeardownCall(t))
  {
    var task := a.tasks[t];
    MoveWritesItsJob(a.db, t, task, act);
    if act.event.Some? && act.event.value.StateSetForOperation? {
      WriteRefused(a.db, task.job, act.event.value, b.db);
    }
  }

  /** The only status writes of spawn tasks and failed operations carry the generation the
      operation was queued with and do not allow a stale one. */
  lemma MoveWritesItsJob(db: Db, t: nat, task: Task, act: Act)
    requires May(db, t, task, act)
    ensures act.event.Some? && act.event.value.StateSetForOperation? ==>
              act.event.value == StatusWrite(task.job, act.event.value.status, act.event.value.network, act.event.value.volume)
    ensures act.next == Completing(Published) ==> StatusApplies(db, task.job)
    ensures task.pc.SpawnBuilt? && act.event.Some? && !StatusApplies(db, task.job) ==> act.next == SpawnSuperseded
    ensures task.pc == SpawnSuperseded && act.next.Completing? ==> act.call == Some(TeardownCall(t))
  {}

  lemma WriteRefused(db: Db, job: Job, e: Event, after: Db)
    requires Step(db, e, after) && e.StateSetForOperation? && e == StatusWrite(job, e.status, e.network, e.volume) && Superseded(db, job)
    ensures after == db
  {}

  /** Once a newer lifecycle request, a deletion or a purge has overtaken a task, none of its
      later fenced status writes changes the database and it never publishes its machine. */
  lemma {:induction false} OvertakenTask(worlds: seq<World>, labels: seq<Label>, i: nat, j: nat, t: nat)
    requires IsHistory(worlds, labels) && i <= j < |labels| && t < |worlds[i].tasks|
    requires Superseded(worlds[i].db, worlds[i].tasks[t].job)
    ensures t < |worlds[j].tasks| && Superseded(worlds[j].db, worlds[j].tasks[t].job)
    ensures labels[j].TaskMoves? && labels[j].t == t ==>
              && labels[j].act.next != Completing(Published)
              && (labels[j].act.event.Some? && labels[j].act.event.value.StateSetForOperation? ==> worlds[j + 1].db == worlds[j].db)
  {
    hide WorldStep, Inv, Superseded;
    if i < j {
      OvertakenTask(worlds, labels, i, j - 1, t);
      HistoryAtMostOnce(worlds, labels, j - 1, 0);
      SupersededStays(worlds[j - 1], labels[j - 1], worlds[j], t);
    }
    if labels[j].TaskMoves? && labels[j].t == t {
      StepOfTask(worlds[j], labels[j], worlds[j + 1]);
      SupersededMove(worlds[j], t, labels[j].act, worlds[j + 1]);
    }
  }
}
