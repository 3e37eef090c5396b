/** The workers of BE/internal/machine/manager.go over the shared database: any number of
    managers lease operations and run them as tasks, which crash, fail, retry and interleave
    with each other and with every other client of the database. */
module Manager {
  import opened Wrappers
  import opened Domain
  import opened Store
  import opened Invariants
  import opened Safety
  import opened TransactionSafety
  import opened Runs

  /** What a worker asks of the container runtime. */
  datatype Call =
    | AgentCall(run: Id)
    | SpawnCall(task: nat)
    | TeardownCall(task: nat)

  /** How a task that completes its operation came to the end of it. */
  datatype Ending = Elsewise | Published | ToreDown

  /** Where in its code a task is. */
  datatype Pc =
    | Fetched
    | AgentBegin
    | AgentChecking
    | AgentStarting
    | AgentRejected
    | AgentStarted
    | AgentExecuted(timedOut: bool, errored: bool, failed: bool)
    | AgentRecording(choice: RunStatus)
    | AgentStale
    | SpawnBegin
    | SpawnBuilding
    | SpawnBuilt(network: string, volume: string)
    | SpawnSuperseded
    | OtherWork
    | Completing(ending: Ending)
    | Failing(retryable: bool)
    | RunFailing
    | MachineFailing
    | Done

  /** One leased operation being worked on; the row is the copy the lease returned. */
  datatype Task = Task(op: Id, job: Job, owner: string, pc: Pc)

  datatype World = World(db: Db, tasks: seq<Task>, calls: seq<Call>)

  /** One move of a task: at most one transaction, at most one runtime call. */
  datatype Act = Act(event: Option<Event>, call: Option<Call>, next: Pc)

  function Goto(next: Pc): Act { Act(None, None, next) }

  function StatusWrite(job: Job, status: MachineStatus, network: Option<string>, volume: Option<string>): Event {
    StateSetForOperation(job.machine, job.generation, false, status, network, volume)
  }

  ghost predicate StatusApplies(db: Db, job: Job) {
    StatusWriteApplies(db, job.machine, job.generation, false)
  }

  predicate IsSpawn(job: Job, m: Machine) {
    job.action == Spawn ||
    (job.action == Start && m.status in {MachineStatus.Failed, MachineStatus.Spawning, MachineStatus.Queued})
  }

  /** processOperation up to the dispatch on the action. */
  predicate Dispatches(db: Db, job: Job, act: Act) {
    if job.machine !in db.machines then act == Goto(Failing(true))
    else
      var m := db.machines[job.machine];
      if job.generation < m.generation && job.action !in {Teardown, CancelAgent, TerminateTerminal, SnapshotEnvironment, CheckoutIssue}
      then act == Goto(if job.action == RunAgent && job.run.Some? then AgentStale else Completing(Elsewise))
      else if IsSpawn(job, m) then act == Goto(SpawnBegin)
      else if job.action == RunAgent then act == Goto(AgentBegin)
      else act == Goto(OtherWork)
  }

  predicate FinishedStatus(s: RunStatus) {
    s in {RunStatus.Succeeded, RunStatus.Failed, RunStatus.Cancelled, RunStatus.Timeout}
  }

  function ExecutionStatus(timedOut: bool, failed: bool): RunStatus {
    if timedOut then RunStatus.Timeout else if failed then RunStatus.Failed else RunStatus.Succeeded
  }

  /** The status a finished execution is recorded with; a cancellation counts when the row
      could be read. */
  predicate FinalStatus(db: Db, run: Id, timedOut: bool, failed: bool, choice: RunStatus) {
    choice == ExecutionStatus(timedOut, failed) ||
    (run in db.runs && db.runs[run].status.Cancelled? && choice == RunStatus.Cancelled)
  }

  /** The agent part of a task; `run` is the operation's agent run. */
  predicate AgentMay(db: Db, job: Job, run: Id, pc: Pc, act: Act) {
    match pc
    case AgentBegin =>
      if run !in db.runs || FinishedStatus(db.runs[run].status) then act == Goto(Completing(Elsewise))
      else act in {Goto(Failing(false)), Goto(Failing(true)), Goto(AgentChecking)}
    case AgentChecking =>
      if job.machine in db.machines && db.machines[job.machine].generation == job.generation && db.machines[job.machine].desired.Running?
      then act == Goto(AgentStarting) else act == Goto(AgentStale)
    case AgentStarting =>
      if run in db.runs && db.runs[run].status.Startable() then act == Act(Some(RunStarted(run)), None, AgentStarted)
      else act == Goto(AgentRejected)
    case AgentRejected =>
      act == Goto(if run in db.runs && FinishedStatus(db.runs[run].status) then Completing(Elsewise) else Failing(true))
    case AgentStarted =>
      act.event.None? && act.call == Some(AgentCall(run)) && act.next.AgentExecuted?
    case AgentExecuted(timedOut, errored, failed) =>
      || (timedOut && act == Goto(Failing(true)))
      || (!errored && act == Goto(Completing(Elsewise)))
      || (act.next.AgentRecording? && act == Goto(act.next) && FinalStatus(db, run, timedOut, errored || failed, act.next.choice))
    case AgentRecording(choice) =>
      act in {Act(Some(RunCompleted(run, choice)), None, Completing(Elsewise)), Act(Some(RunCompleted(run, choice)), None, Failing(true))}
    case AgentStale =>
      if run in db.runs && !FinishedStatus(db.runs[run].status)
      then act == Act(Some(RunCompleted(run, RunStatus.Cancelled)), None, Completing(Elsewise))
      else act == Goto(Completing(Elsewise))
    case _ => false
  }

  /** The spawn part. */
  ghost predicate SpawnMay(db: Db, job: Job, t: nat, pc: Pc, act: Act) {
    match pc
    case SpawnBegin =>
      act == Act(Some(StatusWrite(job, MachineStatus.Spawning, None, None)), None,
                 if StatusApplies(db, job) then SpawnBuilding else Completing(Elsewise))
    case SpawnBuilding =>
      act.event.None? && act.call == Some(SpawnCall(t)) && (act.next.SpawnBuilt? || act.next == Failing(true))
    case SpawnBuilt(network, volume) =>
      && act == Act(Some(StatusWrite(job, MachineStatus.Running, Some(network), Some(volume))), None, act.next)
      && if StatusApplies(db, job) then act.next in {Completing(Published), Failing(true)} else act.next == SpawnSuperseded
    case SpawnSuperseded => act == Act(None, Some(TeardownCall(t)), Completing(ToreDown))
    case _ => false
  }

  /** The end of processLeasedOperation. */
  ghost predicate EndMay(db: Db, task: Task, act: Act) {
    match task.pc
    case OtherWork => act.event.None? && act.call.None? && (act.next == Completing(Elsewise) || act.next.Failing?)
    case Completing(_) => act == Act(Some(OperationCompleted(task.op, task.owner)), None, Done)
    case Failing(retryable) =>
      exists code ::
        var tx := FailOperation(db, task.op, task.owner, code, retryable);
        act == Act(Some(OperationFailed(task.op, task.owner, code, retryable)), None,
                   if tx.RolledBack? || tx.value then Done
                   else if task.job.action == RunAgent && task.job.run.Some? then RunFailing
                   else if task.job.action in {Spawn, Start, Stop, Pause, Teardown} then MachineFailing
                   else Done)
    case RunFailing =>
      act == (if task.job.run.Some? && task.job.run.value in db.runs && !FinishedStatus(db.runs[task.job.run.value].status)
              then Act(Some(RunCompleted(task.job.run.value, RunStatus.Failed)), None, Done) else Goto(Done))
    case MachineFailing => act == Act(Some(StatusWrite(task.job, MachineStatus.Failed, None, None)), None, Done)
    case _ => false
  }

  /** Database and context errors, before the operation is reported. */
  predicate Breaks(pc: Pc, act: Act) {
    act == Goto(Failing(true)) && pc != Done && !pc.Completing? && !pc.Failing? && !pc.RunFailing? && !pc.MachineFailing?
  }

  ghost predicate May(db: Db, t: nat, task: Task, act: Act) {
    || act == Goto(Done)
    || Breaks(task.pc, act)
    || (task.pc == Fetched && Dispatches(db, task.job, act))
    || (task.job.run.Some? && AgentMay(db, task.job, task.job.run.value, task.pc, act))
    || (task.pc == AgentBegin && task.job.run.None? && act == Goto(Failing(true)))
    || SpawnMay(db, task.job, t, task.pc, act)
    || EndMay(db, task, act)
  }

  /** A task moves. */
  ghost predicate TaskStep(a: World, t: nat, act: Act, b: World) {
    && t < |a.tasks| && May(a.db, t, a.tasks[t], act)
    && (if act.event.Some? then Step(a.db, act.event.value, b.db) else b.db == a.db)
    && b.tasks == a.tasks[t := a.tasks[t].(pc := act.next)]
    && b.calls == if act.call.Some? then a.calls + [act.call.value] else a.calls
  }

  /** A manager leases a batch and starts a task for each row. */
  ghost predicate LeaseStep(a: World, e: Event, batch: seq<Id>, b: World) {
    && e.OperationsLeased? && Step(a.db, e, b.db) && (set o | o in batch) == e.chosen && |batch| == |e.chosen|
    && (forall k :: 0 <= k < |batch| ==> batch[k] in b.db.operations)
    && |b.tasks| == |a.tasks| + |batch| && b.tasks[..|a.tasks|] == a.tasks
    && (forall k {:trigger batch[k]} :: 0 <= k < |batch| ==>
          b.tasks[|a.tasks| + k] == Task(batch[k], b.db.operations[batch[k]].job, e.owner, Fetched))
    && b.calls == a.calls
  }

  /** Anyone else acts: API servers, gateways, lease renewals, reconcilers, the clock. Only
      tasks start agent runs, and only managers lease. */
  ghost predicate OutsideStep(a: World, e: Event, b: World) {
    !e.RunStarted? && !e.OperationsLeased? && Step(a.db, e, b.db) && b.tasks == a.tasks && b.calls == a.calls
  }

  datatype Label = TaskMoves(t: nat, act: Act) | Batch(lease: Event, batch: seq<Id>) | Outside(event: Event)

  ghost predicate WorldStep(a: World, l: Label, b: World) {
    match l
    case TaskMoves(t, act) => TaskStep(a, t, act, b)
    case Batch(lease, batch) => LeaseStep(a, lease, batch, b)
    case Outside(event) => OutsideStep(a, event, b)
  }

  ghost predicate IsHistory(worlds: seq<World>, labels: seq<Label>) {
    && |worlds| == |labels| + 1
    && Fresh(worlds[0].db) && worlds[0].tasks == [] && worlds[0].calls == []
    && forall i {:trigger labels[i]} :: 0 <= i < |labels| ==> WorldStep(worlds[i], labels[i], worlds[i + 1])
  }

  /** The transaction a step commits, if any. */
  function EventOf(l: Label): Option<Event> {
    match l
    case TaskMoves(_, act) => act.event
    case Batch(lease, _) => Some(lease)
    case Outside(event) => Some(event)
  }

  lemma WorldStepIsStep(a: World, l: Label, b: World)
    requires WorldStep(a, l, b)
    ensures EventOf(l).Some? ==> Step(a.db, EventOf(l).value, b.db)
    ensures EventOf(l).None? ==> b.db == a.db
  {
    hide Step, May;
  }

  lemma StepOfTask(a: World, l: Label, b: World)
    requires WorldStep(a, l, b) && l.TaskMoves?
    ensures TaskStep(a, l.t, l.act, b)
  {}

  lemma WorldStepSafe(a: World, l: Label, b: World)
    requires Inv(a.db) && WorldStep(a, l, b)
    ensures Inv(b.db) && Evolves(a.db, b.db)
  {
    WorldStepIsStep(a, l, b);
    hide WorldStep, Step, Evolves, OperationsInv, RunsInv, EnvironmentsInv, TerminalsInv, IdsIssued;
    if EventOf(l).Some? {
      StepSafe(a.db, EventOf(l).value, b.db);
    } else {
      EvolvesReflexive(a.db);
    }
  }

  // ---- at most one execution of an agent run ----

  /** The executions of the run that have happened. */
  function Executions(calls: seq<Call>, run: Id): nat {
    if calls == [] then 0 else Executions(calls[..|calls| - 1], run) + if calls[|calls| - 1] == AgentCall(run) then 1 else 0
  }

  /** The tasks that hold permission to execute the run: they have just marked it running. */
  function Permits(tasks: seq<Task>, run: Id): nat {
    if tasks == [] then 0
    else Permits(tasks[..|tasks| - 1], run) + if Permitted(tasks[|tasks| - 1], run) then 1 else 0
  }

  predicate Permitted(task: Task, run: Id) {
    task.pc == AgentStarted && task.job.run == Some(run)
  }

  /** A run is executed or about to be at most once, and then it can no longer be started. */
  ghost predicate AtMostOnce(w: World, run: Id) {
    && Executions(w.calls, run) + Permits(w.tasks, run) <= 1
    && (Executions(w.calls, run) + Permits(w.tasks, run) == 1 ==>
          run in w.db.issued && (run in w.db.runs ==> !w.db.runs[run].status.Startable()))
  }

  lemma {:induction false} PermitsAfterMove(tasks: seq<Task>, t: nat, x: Task, run: Id)
    requires t < |tasks|
    ensures Permits(tasks[t := x], run) ==
            Permits(tasks, run) - (if Permitted(tasks[t], run) then 1 else 0) + (if Permitted(x, run) then 1 else 0)
  {
    var last := |tasks| - 1;
    if t == last {
      assert tasks[t := x][..last] == tasks[..last];
    } else {
      assert tasks[t := x][..last] == tasks[..last][t := x];
      PermitsAfterMove(tasks[..last], t, x, run);
    }
  }

  lemma {:induction false} PermitsAfterBatch(a: seq<Task>, b: seq<Task>, run: Id)
    requires |a| <= |b| && b[..|a|] == a && forall k :: |a| <= k < |b| ==> b[k].pc == Fetched
    ensures Permits(b, run) == Permits(a, run)
  {
    if |a| == |b| {
      assert a == b;
    } else {
      assert b[..|b| - 1][..|a|] == a;
      PermitsAfterBatch(a, b[..|b| - 1], run);
    }
  }

  lemma ExecutionsAfterCall(calls: seq<Call>, c: Call, run: Id)
    ensures Executions(calls + [c], run) == Executions(calls, run) + if c == AgentCall(run) then 1 else 0
  {
    assert (calls + [c])[..|calls|] == calls;
  }

  /** The runtime is asked to execute a run only by a task that was permitted to. */
  lemma OnlyPermittedExecute(db: Db, t: nat, task: Task, act: Act, run: Id)
    requires May(db, t, task, act) && act.call == Some(AgentCall(run))
    ensures Permitted(task, run) && act.next.AgentExecuted? && act.event.None?
  {}

  /** Permission is gained only together with the transaction that marks the run running. */
  lemma OnlyStartPermits(db: Db, t: nat, task: Task, act: Act)
    requires May(db, t, task, act) && act.next == AgentStarted
    ensures task.job.run.Some? && act == Act(Some(RunStarted(task.job.run.value)), None, AgentStarted)
    ensures task.job.run.value in db.runs && db.runs[task.job.run.value].status.Startable()
  {}

  lemma StartLeavesQueue(db: Db, run: Id, after: Db)
    requires Step(db, RunStarted(run), after) && run in db.runs && db.runs[run].status.Startable()
    ensures run in after.runs && !after.runs[run].status.Startable()
  {
    hide Step, UpdateAgentRunStarted;
    StartedStep(db, run, after);
    StartingLeavesQueue(db, run);
  }

  lemma StartingLeavesQueue(db: Db, run: Id)
    requires run in db.runs && db.runs[run].status.Startable()
    ensures var after := After(db, UpdateAgentRunStarted(db, run)); run in after.runs && !after.runs[run].status.Startable()
  {}

  lemma StartedStep(db: Db, run: Id, after: Db)
    requires Step(db, RunStarted(run), after)
    ensures after == After(db, UpdateAgentRunStarted(db, run))
  {
    hide UpdateAgentRunStarted;
  }

  lemma TaskKeepsAtMostOnce(a: World, t: nat, act: Act, b: World, run: Id)
    requires Inv(a.db) && Evolves(a.db, b.db) && TaskStep(a, t, act, b) && AtMostOnce(a, run)
    ensures AtMostOnce(b, run)
  {
    assert IdsIssued(a.db) && RunsMoved(a.db.issued, a.db.runs, b.db.runs);
    hide May, Step, Inv, Evolves;
    PermitsAfterMove(a.tasks, t, a.tasks[t].(pc := act.next), run);
    if act.call.Some? {
      ExecutionsAfterCall(a.calls, act.call.value, run);
    }
    if act.call == Some(AgentCall(run)) {
      OnlyPermittedExecute(a.db, t, a.tasks[t], act, run);
    }
    if act.next == AgentStarted {
      OnlyStartPermits(a.db, t, a.tasks[t], act);
      StartLeavesQueue(a.db, a.tasks[t].job.run.value, b.db);
    }
  }

  /** Leases and other clients start no execution. */
  lemma OthersKeepCounts(a: World, l: Label, b: World, run: Id)
    requires WorldStep(a, l, b) && !l.TaskMoves?
    ensures b.calls == a.calls && Permits(b.tasks, run) == Permits(a.tasks, run)
  {
    hide Step;
    if l.Batch? {
      forall k | |a.tasks| <= k < |b.tasks|
        ensures b.tasks[k].pc == Fetched
      {
        assert b.tasks[k] == b.tasks[|a.tasks| + (k - |a.tasks|)];
        assert l.batch[k - |a.tasks|] in l.batch;
      }
      PermitsAfterBatch(a.tasks, b.tasks, run);
    }
  }

  lemma StepKeepsAtMostOnce(a: World, l: Label, b: World, run: Id)
    requires Inv(a.db) && WorldStep(a, l, b) && AtMostOnce(a, run)
    ensures AtMostOnce(b, run)
  {
    hide Inv, Evolves, WorldStep, Executions, Permits;
    WorldStepSafe(a, l, b);
    if l.TaskMoves? {
      StepOfTask(a, l, b);
      TaskKeepsAtMostOnce(a, l.t, l.act, b, run);
    } else {
      OthersKeepCounts(a, l, b, run);
      StaysStarted(a.db, b.db, run);
    }
  }

  /** A run that left the queue stays out of it. */
  lemma StaysStarted(a: Db, b: Db, run: Id)
    requires Inv(a) && Evolves(a, b)
    ensures a.issued <= b.issued
    ensures run in a.issued && (run in a.runs ==> !a.runs[run].status.Startable()) ==> (run in b.runs ==> !b.runs[run].status.Startable())
  {}

  lemma {:induction false} HistoryAtMostOnce(worlds: seq<World>, labels: seq<Label>, i: nat, run: Id)
    requires IsHistory(worlds, labels) && i < |worlds|
    ensures Inv(worlds[i].db) && AtMostOnce(worlds[i], run)
  {
    hide WorldStep, Inv, AtMostOnce;
    if i == 0 {
      StartsEmpty(worlds[0], run);
    } else {
      HistoryAtMostOnce(worlds, labels, i - 1, run);
      StepKeepsAtMostOnce(worlds[i - 1], labels[i - 1], worlds[i], run);
      WorldStepSafe(worlds[i - 1], labels[i - 1], worlds[i]);
    }
  }

  lemma StartsEmpty(w: World, run: Id)
    requires Fresh(w.db) && w.tasks == [] && w.calls == []
    ensures Inv(w.db) && AtMostOnce(w, run)
  {
    assert EnvironmentsInv(w.db);
  }

  /** Over every interleaving of leases that expire, retries, cancellations, crashes and any
      number of managers, the runtime is asked to execute an agent run at most once. */
  lemma AgentRunsAtMostOnce(worlds: seq<World>, labels: seq<Label>, i: nat, run: Id)
    requires IsHistory(worlds, labels) && i < |worlds|
    ensures Executions(worlds[i].calls, run) <= 1
  {
    hide IsHistory;
    HistoryAtMostOnce(worlds, labels, i, run);
  }

  // ---- cancelled while queued ----

  /** The run left the queue without any task getting permission to execute it. */
  ghost predicate NeverStarted(w: World, run: Id) {
    run in w.db.issued && (run in w.db.runs ==> !w.db.runs[run].status.Startable()) &&
    Executions(w.calls, run) == 0 && Permits(w.tasks, run) == 0
  }

  lemma TaskKeepsNeverStarted(a: World, t: nat, act: Act, b: World, run: Id)
    requires Inv(a.db) && Evolves(a.db, b.db) && TaskStep(a, t, act, b) && NeverStarted(a, run)
    ensures NeverStarted(b, run)
  {
    assert IdsIssued(a.db) && RunsMoved(a.db.issued, a.db.runs, b.db.runs);
    hide May, Step, Inv;
    PermitsAfterMove(a.tasks, t, a.tasks[t].(pc := act.next), run);
    if act.call.Some? {
      ExecutionsAfterCall(a.calls, act.call.value, run);
    }
    if act.call == Some(AgentCall(run)) {
      OnlyPermittedExecute(a.db, t, a.tasks[t], act, run);
      NoPermit(a.tasks, t, run);
    }
    if act.next == AgentStarted {
      OnlyStartPermits(a.db, t, a.tasks[t], act);
    }
  }

  lemma {:induction false} NoPermit(tasks: seq<Task>, t: nat, run: Id)
    requires t < |tasks| && Permits(tasks, run) == 0
    ensures !Permitted(tasks[t], run)
  {
    if t < |tasks| - 1 {
      NoPermit(tasks[..|tasks| - 1], t, run);
    }
  }

  lemma StepKeepsNeverStarted(a: World, l: Label, b: World, run: Id)
    requires Inv(a.db) && WorldStep(a, l, b) && NeverStarted(a, run)
    ensures NeverStarted(b, run)
  {
    WorldStepSafe(a, l, b);
    match l
    case TaskMoves(t, act) => TaskKeepsNeverStarted(a, t, act, b, run);
    case _ =>
      assert IdsIssued(a.db) && RunsMoved(a.db.issued, a.db.runs, b.db.runs);
      OthersKeepCounts(a, l, b, run);
      hide WorldStep, Inv, Evolves;
  }

  /** A run that was cancelled, or otherwise ended, before any worker started it is never
      executed afterwards. */
  lemma {:induction false} NeverAfterCancellation(worlds: seq<World>, labels: seq<Label>, i: nat, j: nat, run: Id)
    requires IsHistory(worlds, labels) && i <= j < |worlds| && NeverStarted(worlds[i], run)
    ensures NeverStarted(worlds[j], run)
  {
    hide WorldStep, Inv, NeverStarted;
    if i < j {
      NeverAfterCancellation(worlds, labels, i, j - 1, run);
      HistoryAtMostOnce(worlds, labels, j - 1, run);
      StepKeepsNeverStarted(worlds[j - 1], labels[j - 1], worlds[j], run);
    }
  }

  /** Cancelling a queued run is such an ending. */
  lemma CancellationEndsQueuedRun(worlds: seq<World>, labels: seq<Label>, i: nat, run: Id)
    requires IsHistory(worlds, labels) && i < |labels| && run in worlds[i].db.runs && worlds[i].db.runs[run].status.Startable()
    requires run in worlds[i + 1].db.runs && worlds[i + 1].db.runs[run].status.Cancelled?
    ensures NeverStarted(worlds[i + 1], run)
  {
    hide WorldStep, Inv, Step, Evolves;
    HistoryAtMostOnce(worlds, labels, i, run);
    var a, l, b := worlds[i], labels[i], worlds[i + 1];
    assert WorldStep(a, l, b);
    WorldStepSafe(a, l, b);
    StaysIssued(a.db, b.db, run);
    if l.TaskMoves? {
      StepOfTask(a, l, b);
      CancelledByTask(a, l.t, l.act, b, run);
    } else {
      OthersKeepCounts(a, l, b, run);
    }
  }

  lemma StaysIssued(a: Db, b: Db, run: Id)
    requires Inv(a) && Evolves(a, b) && run in a.runs
    ensures run in b.issued
  {}

  lemma CancelledByTask(a: World, t: nat, act: Act, b: World, run: Id)
    requires TaskStep(a, t, act, b) && AtMostOnce(a, run) && run in a.db.runs && a.db.runs[run].status.Startable()
    requires run in b.db.runs && b.db.runs[run].status.Cancelled?
    ensures Executions(b.calls, run) == 0 && Permits(b.tasks, run) == 0
  {
    hide May, Step;
    PermitsAfterMove(a.tasks, t, a.tasks[t].(pc := act.next), run);
    if act.call.Some? {
      ExecutionsAfterCall(a.calls, act.call.value, run);
    }
    if act.call == Some(AgentCall(run)) {
      OnlyPermittedExecute(a.db, t, a.tasks[t], act, run);
      NoPermit(a.tasks, t, run);
    }
    if act.next == AgentStarted {
      OnlyStartPermits(a.db, t, a.tasks[t], act);
      StartCancelsNone(a.db, a.tasks[t].job.run.value, b.db, run);
    }
  }

  /** Starting a run cancels none. */
  lemma StartCancelsNone(db: Db, started: Id, after: Db, run: Id)
    requires Step(db, RunStarted(started), after) && run in db.runs && db.runs[run].status.Startable()
    ensures run in after.runs && !after.runs[run].status.Cancelled?
  {
    hide Step, UpdateAgentRunStarted;
    StartedStep(db, started, after);
    StartingCancelsNone(db, started, run);
  }

  lemma StartingCancelsNone(db: Db, started: Id, run: Id)
    requires run in db.runs && db.runs[run].status.Startable()
    ensures var after := After(db, UpdateAgentRunStarted(db, started)); run in after.runs && !after.runs[run].status.Cancelled?
  {
    hide Coalesce;
    if run == started {
      assert UpdateAgentRunStarted(db, started).Committed?;
    }
  }
}
