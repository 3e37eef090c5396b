/** What an agent run ends with (BE/internal/machine/manager.go:630-860): the status a task
    records is the one its execution earned, and an execution was wanted when it began. */
module AgentOutcomes {
  import opened Wrappers
  import opened Domain
  import opened Store
  import opened Invariants
  import opened Runs
  import opened Manager
  import opened SpawnTasks

  /** The runtime's answer to the task that executed the run. */
  predicate ExecutedAt(labels: seq<Label>, j: nat, t: nat, run: Id, timedOut: bool, errored: bool, failed: bool) {
    j < |labels| && labels[j] == TaskMoves(t, Act(None, Some(AgentCall(run)), AgentExecuted(timedOut, errored, failed)))
  }

  /** The task records a status for the run it executed. */
  predicate RecordedAt(worlds: seq<World>, labels: seq<Label>, i: nat, t: nat, run: Id, status: RunStatus)
    requires |worlds| == |labels| + 1
  {
    && i < |labels| && labels[i].TaskMoves? && labels[i].t == t && t < |worlds[i].tasks| && worlds[i].tasks[t].pc.AgentRecording?
    && labels[i].act.event == Some(RunCompleted(run, status))
  }

  predicate CancelledIn(w: World, run: Id) {
    run in w.db.runs && w.db.runs[run].status.Cancelled?
  }

  /** The execution that was answered at step j earned this status by step i. */
  ghost predicate Earned(worlds: seq<World>, j: nat, i: nat, run: Id, timedOut: bool, errored: bool, failed: bool, status: RunStatus)
    requires i < |worlds|
  {
    match status
    case Succeeded => !timedOut && !errored && !failed
    case Failed => (errored || failed) && !timedOut
    case Timeout => timedOut
    case Cancelled => exists k: nat :: j < k < i && CancelledIn(worlds[k], run)
    case _ => false
  }

  // ---- how the moves of a task follow each other ----

  lemma IntoRecording(db: Db, t: nat, task: Task, act: Act)
    requires May(db, t, task, act) && act.next.AgentRecording?
    ensures task.pc.AgentExecuted? && task.job.run.Some? && act == Goto(act.next)
    ensures var s, timedOut, errored, failed := act.next.choice, task.pc.timedOut, task.pc.errored, task.pc.failed;
      || (s == RunStatus.Succeeded && !timedOut && !errored && !failed)
      || (s == RunStatus.Failed && !timedOut && (errored || failed))
      || (s == RunStatus.Timeout && timedOut)
      || (s == RunStatus.Cancelled && task.job.run.value in db.runs && db.runs[task.job.run.value].status.Cancelled?)
  {}

  lemma IntoExecuted(db: Db, t: nat, task: Task, act: Act)
    requires May(db, t, task, act) && act.next.AgentExecuted?
    ensures task.pc == AgentStarted && task.job.run.Some? && act == Act(None, Some(AgentCall(task.job.run.value)), act.next)
  {}

  lemma OutOfRecording(db: Db, t: nat, task: Task, act: Act)
    requires May(db, t, task, act) && task.pc.AgentRecording?
    ensures Spent(act.next) && !Spent(task.pc)
    ensures act.event.Some? ==> task.job.run.Some? && act.event == Some(RunCompleted(task.job.run.value, task.pc.choice))
  {}

  lemma OutOfExecuted(db: Db, t: nat, task: Task, act: Act)
    requires May(db, t, task, act) && task.pc.AgentExecuted?
    ensures (Spent(act.next) || act.next.AgentRecording?) && !Spent(task.pc)
  {}

  lemma SpentStays(db: Db, t: nat, task: Task, act: Act)
    requires May(db, t, task, act) && Spent(task.pc)
    ensures Spent(act.next)
  {}

  // ---- the status recorded ----

  /** Where the task is after its execution. */
  ghost predicate Concluding(worlds: seq<World>, j: nat, i: nat, t: nat, run: Id, timedOut: bool, errored: bool, failed: bool)
    requires i < |worlds|
  {
    && t < |worlds[i].tasks| && worlds[i].tasks[t].job.run == Some(run)
    && var pc := worlds[i].tasks[t].pc;
       || pc == AgentExecuted(timedOut, errored, failed)
       || (pc.AgentRecording? && Earned(worlds, j, i, run, timedOut, errored, failed, pc.choice))
       || Spent(pc)
  }

  lemma EarnedLater(worlds: seq<World>, j: nat, i: nat, k: nat, run: Id, timedOut: bool, errored: bool, failed: bool, status: RunStatus)
    requires i <= k < |worlds| && Earned(worlds, j, i, run, timedOut, errored, failed, status)
    ensures Earned(worlds, j, k, run, timedOut, errored, failed, status)
  {}

  lemma ConcludesOwn(worlds: seq<World>, labels: seq<Label>, j: nat, i: nat, t: nat, run: Id, timedOut: bool, errored: bool, failed: bool)
    requires IsHistory(worlds, labels) && j < i < |labels| && labels[i].TaskMoves? && labels[i].t == t
    requires Concluding(worlds, j, i, t, run, timedOut, errored, failed)
    ensures Concluding(worlds, j, i + 1, t, run, timedOut, errored, failed)
  {
    hide WorldStep, May, Spent, Earned;
    var a, act, b := worlds[i], labels[i].act, worlds[i + 1];
    assert WorldStep(a, labels[i], b);
    OwnStep(a, t, act, b, labels[i]);
    var task := a.tasks[t];
    if task.pc.AgentExecuted? {
      OutOfExecuted(a.db, t, task, act);
      if act.next.AgentRecording? {
        IntoRecording(a.db, t, task, act);
        ChoiceEarned(worlds, j, i, run, timedOut, errored, failed, act.next.choice);
      }
    } else if task.pc.AgentRecording? {
      OutOfRecording(a.db, t, task, act);
    } else {
      SpentStays(a.db, t, task, act);
    }
  }

  lemma ChoiceEarned(worlds: seq<World>, j: nat, i: nat, run: Id, timedOut: bool, errored: bool, failed: bool, s: RunStatus)
    requires j < i && i + 1 < |worlds|
    requires || (s == RunStatus.Succeeded && !timedOut && !errored && !failed)
             || (s == RunStatus.Failed && !timedOut && (errored || failed))
             || (s == RunStatus.Timeout && timedOut)
             || (s == RunStatus.Cancelled && CancelledIn(worlds[i], run))
    ensures Earned(worlds, j, i + 1, run, timedOut, errored, failed, s)
  {}

  lemma {:induction false} ConcludesAfter(
    worlds: seq<World>, labels: seq<Label>, j: nat, i: nat, t: nat, run: Id, timedOut: bool, errored: bool, failed: bool)
    requires IsHistory(worlds, labels) && j < i < |worlds| && ExecutedAt(labels, j, t, run, timedOut, errored, failed)
    ensures Concluding(worlds, j, i, t, run, timedOut, errored, failed)
  {
    hide WorldStep, Step, May, Spent, Earned;
    var k := i - 1;
    assert WorldStep(worlds[k], labels[k], worlds[i]);
    if k == j {
      OwnStep(worlds[j], t, labels[j].act, worlds[i], labels[j]);
      IntoExecuted(worlds[j].db, t, worlds[j].tasks[t], labels[j].act);
    } else {
      ConcludesAfter(worlds, labels, j, k, t, run, timedOut, errored, failed);
      if labels[k].TaskMoves? && labels[k].t == t {
        ConcludesOwn(worlds, labels, j, k, t, run, timedOut, errored, failed);
      } else {
        OthersStep(worlds[k], labels[k], worlds[i], t);
        var pc := worlds[k].tasks[t].pc;
        if pc.AgentRecording? && Earned(worlds, j, k, run, timedOut, errored, failed, pc.choice) {
          EarnedLater(worlds, j, k, i, run, timedOut, errored, failed, pc.choice);
        }
      }
    }
  }

  /** A task that executed a run records for it the status the execution earned: succeeded
      only when it neither timed out nor erred nor failed, failed only when it erred or
      failed in time, timed out only when it did, and cancelled only when the run had been
      cancelled since. */
  lemma RecordedIsEarned(
    worlds: seq<World>, labels: seq<Label>, j: nat, i: nat, t: nat, run: Id, timedOut: bool, errored: bool, failed: bool, recorded: Id, status: RunStatus)
    requires IsHistory(worlds, labels) && j < i && ExecutedAt(labels, j, t, run, timedOut, errored, failed)
    requires RecordedAt(worlds, labels, i, t, recorded, status)
    ensures recorded == run && Earned(worlds, j, i, run, timedOut, errored, failed, status)
  {
    hide WorldStep, Earned, May;
    assert WorldStep(worlds[i], labels[i], worlds[i + 1]);
    OwnStep(worlds[i], t, labels[i].act, worlds[i + 1], labels[i]);
    ConcludesAfter(worlds, labels, j, i, t, run, timedOut, errored, failed);
    OutOfRecording(worlds[i].db, t, worlds[i].tasks[t], labels[i].act);
  }

  /** And it records nothing that it did not execute. */
  lemma RecordedWasExecuted(worlds: seq<World>, labels: seq<Label>, i: nat, t: nat, run: Id, status: RunStatus)
    returns (j: nat, timedOut: bool, errored: bool, failed: bool)
    requires IsHistory(worlds, labels) && RecordedAt(worlds, labels, i, t, run, status)
    ensures j < i && ExecutedAt(labels, j, t, run, timedOut, errored, failed)
    ensures Earned(worlds, j, i, run, timedOut, errored, failed, status)
  {
    hide WorldStep, Earned, May, TaskStep;
    var k := Arrived(worlds, labels, i, t);
    Moved(worlds[k], t, labels[k].act, worlds[k + 1]);
    IntoRecording(worlds[k].db, t, worlds[k].tasks[t], labels[k].act);
    j := Arrived(worlds, labels, k, t);
    Moved(worlds[j], t, labels[j].act, worlds[j + 1]);
    IntoExecuted(worlds[j].db, t, worlds[j].tasks[t], labels[j].act);
    timedOut, errored, failed := labels[j].act.next.timedOut, labels[j].act.next.errored, labels[j].act.next.failed;
    assert WorldStep(worlds[i], labels[i], worlds[i + 1]);
    OwnStep(worlds[i], t, labels[i].act, worlds[i + 1], labels[i]);
    OutOfRecording(worlds[i].db, t, worlds[i].tasks[t], labels[i].act);
    RecordedIsEarned(worlds, labels, j, i, t, run, timedOut, errored, failed, run, status);
  }

  lemma Moved(a: World, t: nat, act: Act, b: World)
    requires TaskStep(a, t, act, b)
    ensures t < |a.tasks| && May(a.db, t, a.tasks[t], act)
  {
    hide May, Step;
  }

  // ---- the status that stays ----

  lemma {:induction false} HistoryEvolves(worlds: seq<World>, labels: seq<Label>, i: nat, k: nat)
    requires IsHistory(worlds, labels) && i <= k < |worlds|
    ensures Inv(worlds[i].db) && Evolves(worlds[i].db, worlds[k].db)
  {
    hide WorldStep, Evolves, OperationsInv, RunsInv, EnvironmentsInv, TerminalsInv, AtMostOnce;
    HistoryAtMostOnce(worlds, labels, i, 0);
    if i == k {
      EvolvesReflexive(worlds[i].db);
    } else {
      HistoryEvolves(worlds, labels, i, k - 1);
      HistoryAtMostOnce(worlds, labels, k - 1, 0);
      assert WorldStep(worlds[k - 1], labels[k - 1], worlds[k]);
      WorldStepSafe(worlds[k - 1], labels[k - 1], worlds[k]);
      EvolvesTransitive(worlds[i].db, worlds[k - 1].db, worlds[k].db);
    }
  }

  /** The transaction ends an active run with the status it is given, whatever that is. */
  lemma CompletionWrites(db: Db, run: Id, status: RunStatus)
    requires run in db.runs
    ensures run in CompleteAgentRun(db, run, status).runs
    ensures var was, row := db.runs[run], CompleteAgentRun(db, run, status).runs[run];
      if was.status.Queued? || was.status.Starting? || was.status.Running? || was.status.WaitingInput?
      then row == was.(status := status, completedAt := Some(db.now)) else row.status == was.status
  {
    var was, after := db.runs[run], CompleteAgentRun(db, run, status);
    if was.status.Active() || was.status == status {
      assert after.runs == db.runs[run := was.(status := status, completedAt := Some(db.now))];
    } else {
      assert after == db;
    }
  }

  lemma CompletedStep(a: Db, run: Id, status: RunStatus, b: Db)
    requires Step(a, RunCompleted(run, status), b)
    ensures b == CompleteAgentRun(a, run, status) && !status.Active()
  {
    hide CompleteAgentRun;
  }

  /** A run that was active when a task or anyone else recorded its end shows that status
      ever after; one that had ended before keeps the status it ended with. */
  lemma EndedForEver(worlds: seq<World>, labels: seq<Label>, i: nat, k: nat, run: Id, status: RunStatus)
    requires IsHistory(worlds, labels) && i < k < |worlds| && EventOf(labels[i]) == Some(RunCompleted(run, status))
    requires run in worlds[i].db.runs && run in worlds[k].db.runs
    ensures worlds[k].db.runs[run].status ==
            if worlds[i].db.runs[run].status.Active() then status else worlds[i].db.runs[run].status
  {
    hide WorldStep, Step, Inv, Evolves;
    var a, b := worlds[i], worlds[i + 1];
    assert WorldStep(a, labels[i], b);
    WorldStepIsStep(a, labels[i], b);
    CompletedStep(a.db, run, status, b.db);
    CompletionWrites(a.db, run, status);
    hide CompleteAgentRun;
    HistoryEvolves(worlds, labels, i + 1, k);
    FinishedStays(b.db, worlds[k].db, run);
  }

  lemma FinishedStays(a: Db, b: Db, run: Id)
    requires Inv(a) && Evolves(a, b) && run in a.runs && run in b.runs && !a.runs[run].status.Active()
    ensures b.runs[run].status == a.runs[run].status
  {}

  // ---- an execution was wanted ----

  lemma IntoStarted(db: Db, t: nat, task: Task, act: Act)
    requires May(db, t, task, act) && act.next == AgentStarted
    ensures task.pc == AgentStarting && task.job.run.Some? && act == Act(Some(RunStarted(task.job.run.value)), None, AgentStarted)
    ensures task.job.run.value in db.runs && db.runs[task.job.run.value].status in {RunStatus.Queued, RunStatus.Starting}
  {}

  lemma StartingRuns(db: Db, run: Id)
    requires run in db.runs && (db.runs[run].status.Queued? || db.runs[run].status.Starting?)
    ensures var after := After(db, UpdateAgentRunStarted(db, run));
      && after == db.(runs := db.runs[run := after.runs[run]])
      && after.runs[run] == db.runs[run].(status := RunStatus.Running, startedAt := after.runs[run].startedAt)
      && after.runs[run].startedAt == (if db.runs[run].startedAt.Some? then db.runs[run].startedAt else Some(db.now))
  {}

  /** The machine is where the operation expects it. */
  predicate Wanted(db: Db, job: Job) {
    job.machine in db.machines && db.machines[job.machine].generation == job.generation && db.machines[job.machine].desired == MachineStatus.Running
  }

  lemma IntoStarting(db: Db, t: nat, task: Task, act: Act)
    requires May(db, t, task, act) && act.next == AgentStarting
    ensures task.pc == AgentChecking && Wanted(db, task.job)
  {}

  lemma IntoChecking(db: Db, t: nat, task: Task, act: Act)
    requires May(db, t, task, act) && act.next == AgentChecking
    ensures task.pc == AgentBegin && task.job.run.Some? && task.job.run.value in db.runs
    ensures db.runs[task.job.run.value].status.Active()
  {}

  /** Before the runtime was asked to execute a run, its task had found the run unfinished,
      then the machine at the generation of the operation and meant to be running, and then
      taken the run from the queue. */
  lemma ExecutionWasWanted(
    worlds: seq<World>, labels: seq<Label>, j: nat, t: nat, run: Id, timedOut: bool, errored: bool, failed: bool)
    returns (found: nat, checked: nat, started: nat)
    requires IsHistory(worlds, labels) && ExecutedAt(labels, j, t, run, timedOut, errored, failed)
    ensures found < checked < started < j && t < |worlds[j].tasks| && worlds[j].tasks[t].job.run == Some(run)
    ensures run in worlds[found].db.runs && worlds[found].db.runs[run].status.Active()
    ensures Wanted(worlds[checked].db, worlds[j].tasks[t].job)
    ensures run in worlds[started].db.runs && worlds[started].db.runs[run].status in {RunStatus.Queued, RunStatus.Starting}
    ensures labels[started] == TaskMoves(t, Act(Some(RunStarted(run)), None, AgentStarted))
    ensures run in worlds[started + 1].db.runs && worlds[started + 1].db.runs[run].status == RunStatus.Running
    ensures worlds[started + 1].db.runs[run].startedAt.Some?
  {
    hide WorldStep, May, TaskStep, Wanted, Step;
    assert WorldStep(worlds[j], labels[j], worlds[j + 1]);
    OwnStep(worlds[j], t, labels[j].act, worlds[j + 1], labels[j]);
    IntoExecuted(worlds[j].db, t, worlds[j].tasks[t], labels[j].act);
    started := Arrived(worlds, labels, j, t);
    Moved(worlds[started], t, labels[started].act, worlds[started + 1]);
    IntoStarted(worlds[started].db, t, worlds[started].tasks[t], labels[started].act);
    assert WorldStep(worlds[started], labels[started], worlds[started + 1]);
    OwnStep(worlds[started], t, labels[started].act, worlds[started + 1], labels[started]);
    StartedStep(worlds[started].db, run, worlds[started + 1].db);
    StartingRuns(worlds[started].db, run);
    hide UpdateAgentRunStarted;
    checked := Arrived(worlds, labels, started, t);
    Moved(worlds[checked], t, labels[checked].act, worlds[checked + 1]);
    IntoStarting(worlds[checked].db, t, worlds[checked].tasks[t], labels[checked].act);
    found := Arrived(worlds, labels, checked, t);
    Moved(worlds[found], t, labels[found].act, worlds[found + 1]);
    IntoChecking(worlds[found].db, t, worlds[found].tasks[t], labels[found].act);
  }

  // ---- the other ends a task gives a run ----

  /** The task may give a run its end in these places only. */
  lemma EndingMoves(db: Db, t: nat, task: Task, act: Act, run: Id, status: RunStatus)
    requires May(db, t, task, act) && act.event == Some(RunCompleted(run, status))
    ensures task.job.run == Some(run) && (task.pc.AgentRecording? || task.pc.AgentStale? || task.pc.RunFailing?)
    ensures task.pc.AgentStale? ==> status == RunStatus.Cancelled
    ensures task.pc.RunFailing? ==> status == RunStatus.Failed
    ensures !task.pc.AgentRecording? ==> run in db.runs && db.runs[run].status.Active()
  {}

  lemma IntoStale(db: Db, t: nat, task: Task, act: Act)
    requires May(db, t, task, act) && act.next == AgentStale
    ensures !Wanted(db, task.job)
  {}

  lemma IntoRunFailing(db: Db, t: nat, task: Task, act: Act) returns (code: string, retryable: bool)
    requires May(db, t, task, act) && act.next == RunFailing
    ensures act.event == Some(OperationFailed(task.op, task.owner, code, retryable))
    ensures var tx := FailOperation(db, task.op, task.owner, code, retryable); tx.Committed? && !tx.value
  {
    assert task.pc.Failing? by { RunFailingAfter(db, t, task, act); }
    hide FailOperation;
    retryable := task.pc.retryable;
    code :| act.event == Some(OperationFailed(task.op, task.owner, code, retryable));
  }

  lemma RunFailingAfter(db: Db, t: nat, task: Task, act: Act)
    requires May(db, t, task, act) && act.next == RunFailing
    ensures task.pc.Failing?
  {
    hide FailOperation;
  }

  lemma FailedStep(a: Db, o: Id, owner: string, code: string, retryable: bool, b: Db)
    requires Step(a, OperationFailed(o, owner, code, retryable), b)
    requires var tx := FailOperation(a, o, owner, code, retryable); tx.Committed? && !tx.value
    ensures o in b.operations && b.operations[o].status == OpStatus.Failed
  {}

  /** A task that ends a run in any other way either gives it up as cancelled, when it found
      the machine gone, moved on or not meant to be running, or as failed, when the run's
      operation has failed for good; and the run was still active. */
  lemma TaskEndsRun(worlds: seq<World>, labels: seq<Label>, i: nat, t: nat, run: Id, status: RunStatus)
    requires IsHistory(worlds, labels) && i < |labels| && labels[i].TaskMoves? && labels[i].t == t && t < |worlds[i].tasks|
    requires labels[i].act.event == Some(RunCompleted(run, status)) && !RecordedAt(worlds, labels, i, t, run, status)
    ensures run in worlds[i].db.runs && worlds[i].db.runs[run].status.Active()
    ensures var task := worlds[i].tasks[t];
      || (status == RunStatus.Cancelled && exists k: nat :: k < i && !Wanted(worlds[k].db, task.job))
      || (status == RunStatus.Failed && exists k: nat :: k <= i && OperationFailedFor(worlds[k].db, task.op))
  {
    hide WorldStep, May, TaskStep, Wanted, Step, FailOperation;
    assert WorldStep(worlds[i], labels[i], worlds[i + 1]);
    OwnStep(worlds[i], t, labels[i].act, worlds[i + 1], labels[i]);
    EndingMoves(worlds[i].db, t, worlds[i].tasks[t], labels[i].act, run, status);
    var k := Arrived(worlds, labels, i, t);
    assert WorldStep(worlds[k], labels[k], worlds[k + 1]);
    OwnStep(worlds[k], t, labels[k].act, worlds[k + 1], labels[k]);
    if worlds[i].tasks[t].pc.AgentStale? {
      IntoStale(worlds[k].db, t, worlds[k].tasks[t], labels[k].act);
    } else {
      var code, retryable := IntoRunFailing(worlds[k].db, t, worlds[k].tasks[t], labels[k].act);
      FailedStep(worlds[k].db, worlds[k].tasks[t].op, worlds[k].tasks[t].owner, code, retryable, worlds[k + 1].db);
      SameOperation(worlds, labels, k, i, t);
      assert OperationFailedFor(worlds[k + 1].db, worlds[i].tasks[t].op);
    }
  }

  predicate OperationFailedFor(db: Db, o: Id) {
    o in db.operations && db.operations[o].status == OpStatus.Failed
  }

  lemma {:induction false} SameOperation(worlds: seq<World>, labels: seq<Label>, k: nat, i: nat, t: nat)
    requires IsHistory(worlds, labels) && k <= i < |worlds| && t < |worlds[k].tasks|
    ensures t < |worlds[i].tasks| && worlds[i].tasks[t].op == worlds[k].tasks[t].op && worlds[i].tasks[t].owner == worlds[k].tasks[t].owner
  {
    hide WorldStep, May;
    if k < i {
      SameOperation(worlds, labels, k, i - 1, t);
      assert WorldStep(worlds[i - 1], labels[i - 1], worlds[i]);
      if labels[i - 1].TaskMoves? && labels[i - 1].t == t {
        OwnStep(worlds[i - 1], t, labels[i - 1].act, worlds[i], labels[i - 1]);
      } else {
        OthersStep(worlds[i - 1], labels[i - 1], worlds[i], t);
      }
    }
  }

  // ---- only current operations are worked on ----

  /** Work that must be done even when the machine has moved on. */
  predicate IsLastWord(action: Action) {
    action.Teardown? || action.CancelAgent? || action.TerminateTerminal? || action.SnapshotEnvironment? || action.CheckoutIssue?
  }

  lemma OutOfFetched(db: Db, t: nat, task: Task, act: Act)
    requires May(db, t, task, act) && task.pc == Fetched && (act.next == SpawnBegin || act.next == AgentBegin || act.next == OtherWork)
    ensures act.event.None? && act.call.None? && task.job.machine in db.machines
    ensures db.machines[task.job.machine].generation <= task.job.generation || IsLastWord(task.job.action)
    ensures var status := db.machines[task.job.machine].status;
      act.next == SpawnBegin <==>
      task.job.action.Spawn? || (task.job.action.Start? && (status.Failed? || status.Spawning? || status.Queued?))
    ensures act.next == AgentBegin <==> task.job.action.RunAgent?
  {}

  lemma OutOfFetchedOnly(db: Db, t: nat, task: Task, act: Act)
    requires May(db, t, task, act) && (act.next == SpawnBegin || act.next == AgentBegin || act.next == OtherWork)
    ensures task.pc == Fetched
  {}

  /** Whatever a task works on, it had found the machine there and not ahead of the operation,
      unless the operation is one that has to be carried out regardless. */
  lemma WorkWasCurrent(worlds: seq<World>, labels: seq<Label>, i: nat, t: nat) returns (found: nat)
    requires IsHistory(worlds, labels) && i < |worlds| && t < |worlds[i].tasks|
    requires var pc := worlds[i].tasks[t].pc; pc == SpawnBegin || pc == AgentBegin || pc == OtherWork
    ensures found < i
    ensures var job := worlds[i].tasks[t].job;
      && job.machine in worlds[found].db.machines
      && (worlds[found].db.machines[job.machine].generation <= job.generation || IsLastWord(job.action))
  {
    hide WorldStep, May, TaskStep, Step;
    found := Arrived(worlds, labels, i, t);
    Moved(worlds[found], t, labels[found].act, worlds[found + 1]);
    OutOfFetchedOnly(worlds[found].db, t, worlds[found].tasks[t], labels[found].act);
    OutOfFetched(worlds[found].db, t, worlds[found].tasks[t], labels[found].act);
  }

  lemma IntoBuilding(db: Db, t: nat, task: Task, act: Act)
    requires May(db, t, task, act) && act.next == SpawnBuilding
    ensures task.pc == SpawnBegin && act.event == Some(StatusWrite(task.job, MachineStatus.Spawning, None, None))
    ensures task.job.machine in db.machines && db.machines[task.job.machine].generation == task.job.generation
  {}

  lemma CallsSpawn(db: Db, t: nat, task: Task, act: Act, u: nat)
    requires May(db, t, task, act) && act.call == Some(SpawnCall(u))
    ensures u == t && task.pc == SpawnBuilding
  {}

  lemma SpawningStep(a: Db, job: Job, b: Db)
    requires Step(a, StatusWrite(job, MachineStatus.Spawning, None, None), b)
    requires job.machine in a.machines && a.machines[job.machine].generation == job.generation
    ensures job.machine in b.machines && b.machines[job.machine] == a.machines[job.machine].(status := MachineStatus.Spawning)
  {}

  /** Before the runtime was asked to build a machine, its task had found the operation to be
      a spawn, or a start of a machine that never came up, and then marked the machine, which
      was at the generation of the operation, as spawning. */
  lemma SpawnWasCurrent(worlds: seq<World>, labels: seq<Label>, j: nat, u: nat, t: nat) returns (found: nat, marked: nat)
    requires IsHistory(worlds, labels) && j < |labels| && labels[j].TaskMoves? && labels[j].t == u && labels[j].act.call == Some(SpawnCall(t))
    ensures u == t && found < marked < j && t < |worlds[j].tasks|
    ensures var job := worlds[j].tasks[t].job;
      && job.machine in worlds[found].db.machines && worlds[found].db.machines[job.machine].generation <= job.generation
      && (job.action.Spawn? || (job.action.Start? && var s := worlds[found].db.machines[job.machine].status; s.Failed? || s.Spawning? || s.Queued?))
      && job.machine in worlds[marked].db.machines && worlds[marked].db.machines[job.machine].generation == job.generation
      && job.machine in worlds[marked + 1].db.machines && worlds[marked + 1].db.machines[job.machine].status == MachineStatus.Spawning
  {
    hide WorldStep, May, TaskStep, Step;
    assert WorldStep(worlds[j], labels[j], worlds[j + 1]);
    OwnStep(worlds[j], u, labels[j].act, worlds[j + 1], labels[j]);
    CallsSpawn(worlds[j].db, u, worlds[j].tasks[u], labels[j].act, t);
    marked := Arrived(worlds, labels, j, t);
    assert WorldStep(worlds[marked], labels[marked], worlds[marked + 1]);
    OwnStep(worlds[marked], t, labels[marked].act, worlds[marked + 1], labels[marked]);
    IntoBuilding(worlds[marked].db, t, worlds[marked].tasks[t], labels[marked].act);
    SpawningStep(worlds[marked].db, worlds[marked].tasks[t].job, worlds[marked + 1].db);
    found := Arrived(worlds, labels, marked, t);
    Moved(worlds[found], t, labels[found].act, worlds[found + 1]);
    OutOfFetchedOnly(worlds[found].db, t, worlds[found].tasks[t], labels[found].act);
    OutOfFetched(worlds[found].db, t, worlds[found].tasks[t], labels[found].act);
  }
}
