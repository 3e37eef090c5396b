/** Agent runs: one at a time on a machine, finished for ever, and a daily cap. */
module AgentRuns {
  import opened Wrappers
  import opened Domain
  import opened Store
  import opened Invariants
  import opened Safety
  import opened TransactionSafety
  import opened Runs
  import opened Sets

  /** In every state of every run a machine has at most one active agent run, and then it is
      meant to be running or is being deleted for good. */
  lemma OneRunAtATime(states: seq<Db>, events: seq<Event>, i: nat, r: Id)
    requires IsRun(states, events) && i < |states| && r in states[i].runs && states[i].runs[r].status.Active()
    ensures forall s :: s in states[i].runs && states[i].runs[s].status.Active() && states[i].runs[s].machine == states[i].runs[r].machine ==> s == r
    ensures states[i].runs[r].machine in states[i].machines
    ensures var m := states[i].machines[states[i].runs[r].machine]; m.desired.Running? || m.deleteRequested.Some?
  {
    hide Step;
    RunKeepsInv(states, events, i);
  }

  /** A finished run keeps its status, and no run goes back to queued or starting. */
  lemma FinishedRunsStay(states: seq<Db>, events: seq<Event>, i: nat, j: nat, r: Id)
    requires IsRun(states, events) && i <= j < |states| && r in states[i].runs && r in states[j].runs
    ensures !states[i].runs[r].status.Active() ==> states[j].runs[r].status == states[i].runs[r].status
    ensures !states[i].runs[r].status.Startable() ==> !states[j].runs[r].status.Startable()
  {
    hide Step;
    RunEvolves(states, events, i, j);
  }

  // ---- the daily cap ----

  /** The runs of a workspace created on the day that starts at `midnight`. */
  ghost function RunsOfDay(db: Db, workspace: Id, midnight: Time): set<Id> {
    set r | r in db.runs && db.runs[r].workspace == workspace && midnight <= db.runs[r].createdAt < midnight + DAY
  }

  ghost predicate CapsPolicy(e: Event, workspace: Id, cap: nat) {
    e.PolicyUpserted? && e.workspace == workspace ==> e.policy.maxDailyRuns <= cap
  }

  ghost predicate Capped(db: Db, workspace: Id, cap: nat) {
    workspace in db.policies ==> db.policies[workspace].maxDailyRuns <= cap
  }

  ghost predicate CreatesRun(db: Db, e: Event) {
    e.RunCreated? && CreateAgentRun(db, e.id, e.machine, e.workspace, e.checkout, e.op, e.job).Committed?
  }

  /** What CreateAgentRun adds to the table of runs. */
  lemma RunCreation(db: Db, id: Id, machine: Id, workspace: Id, checkout: Option<Id>, op: Id, q: Job)
    requires CreateAgentRun(db, id, machine, workspace, checkout, op, q).Committed?
    ensures var after := CreateAgentRun(db, id, machine, workspace, checkout, op, q).db;
      && after.runs == db.runs[id := AgentRun(machine, workspace, checkout, RunStatus.Queued, db.now, None, None)]
      && workspace in db.policies && |RunsToday(db.runs, workspace, Midnight(db.now))| < db.policies[workspace].maxDailyRuns
      && id !in db.issued && after.policies == db.policies && after.now == db.now
  {
    hide FindByKey, HasActiveRun, RunsToday;
  }

  /** Purging a machine deletes its runs, and so does deleting a workspace. */
  predicate Purges(e: Event) {
    e.MachinePurged? || e.MachinesPurged? || e.WorkspaceDeleted?
  }

  ghost predicate NoNewRuns(a: Db, e: Event, b: Db) {
    b.runs.Keys <= a.runs.Keys && (!Purges(e) ==> b.runs.Keys == a.runs.Keys)
  }

  lemma EnvironmentEventsKeepRuns(db: Db, e: Event)
    requires OnEnvironments(e)
    ensures NoNewRuns(db, e, ApplyToEnvironments(db, e)) && ApplyToEnvironments(db, e).policies == db.policies
  {
    hide CreateEnvironment, CreateCheckout, RequestEnvironmentDeletion, ReconcileOrphanedEnvironments, ReconcileOrphanedCheckouts,
         UpsertScopeSetting, DeleteScopeSetting, DeleteEnvironment, UpdateEnvironmentState, UpdateCheckoutState;
  }

  lemma TerminalEventsKeepRuns(db: Db, e: Event)
    requires OnTerminals(e)
    ensures NoNewRuns(db, e, ApplyToTerminals(db, e))
    ensures ApplyToTerminals(db, e).policies == if e.PolicyUpserted? then db.policies[e.workspace := e.policy] else db.policies
  {
    hide RequestTerminalSessionClose, CreateTerminalSession, CompleteTerminalSessionClose, FailTerminalSessionClose, CreateAccessTicket,
         ConsumeAccessTicket, RevokeMachineAccess;
  }

  lemma MachineEventsKeepRuns(db: Db, e: Event)
    requires Allowed(db, e) && !OnDeletions(e) && !OnEnvironments(e) && !OnTerminals(e)
    ensures !CreatesRun(db, e) ==> NoNewRuns(db, e, ApplyToMachines(db, e))
    ensures ApplyToMachines(db, e).policies == db.policies
  {
    hide Allowed, CreateBundle, SetDesiredAndEnqueue, CreateAgentRun, RequestPermanentDelete, HasOpenOperation, FailedRow, HoldsLease,
         Enqueue, BulkPurged;
  }

  lemma DeletionEventsKeepRuns(db: Db, e: Event)
    requires OnDeletions(e)
    ensures NoNewRuns(db, e, ApplyDeletions(db, e)) && PoliciesFollow(db, e, ApplyDeletions(db, e))
  {
    hide HasRuntimes, HasEnvironments, MarkEnvironments, CancelWorkspaceSnapshots, OtherSettings, MachinesOf;
  }

  /** A policy is written by its upsert and goes with its workspace. */
  ghost predicate PoliciesFollow(a: Db, e: Event, b: Db) {
    forall w :: w in b.policies ==>
      if e.PolicyUpserted? && e.workspace == w then b.policies[w] == e.policy else w in a.policies && b.policies[w] == a.policies[w]
  }

  /** Runs are created by CreateAgentRun alone, and deleted only by purges and with their
      workspace. */
  lemma RunsAndPolicies(a: Db, e: Event, b: Db)
    requires Step(a, e, b)
    ensures !CreatesRun(a, e) ==> NoNewRuns(a, e, b)
    ensures PoliciesFollow(a, e, b)
  {
    hide CreatesRun, NoNewRuns, Allowed, ApplyToMachines, ApplyToEnvironments, ApplyToTerminals, ApplyDeletions;
    if OnDeletions(e) {
      DeletionEventsKeepRuns(a, e);
    } else if OnEnvironments(e) {
      EnvironmentEventsKeepRuns(a, e);
    } else if OnTerminals(e) {
      TerminalEventsKeepRuns(a, e);
    } else {
      MachineEventsKeepRuns(a, e);
    }
  }

  /** A step that creates no run adds none to a day, and keeps them all unless it purges. */
  lemma DayShrinks(a: Db, e: Event, b: Db, workspace: Id, midnight: Time)
    requires NoNewRuns(a, e, b) && RunsMoved(a.issued, a.runs, b.runs)
    ensures RunsOfDay(b, workspace, midnight) <= RunsOfDay(a, workspace, midnight)
    ensures !Purges(e) ==> RunsOfDay(b, workspace, midnight) == RunsOfDay(a, workspace, midnight)
  {}

  lemma OnDay(t: Time, midnight: Time)
    requires midnight % DAY == 0
    ensures midnight <= t < midnight + DAY <==> Midnight(t) == midnight
  {}

  /** On its own day a new run joins the ones the cap counted. */
  lemma DayGrows(a: Db, e: Event, b: Db, workspace: Id, midnight: Time)
    requires Inv(a) && Step(a, e, b) && CreatesRun(a, e) && midnight % DAY == 0
    ensures RunsOfDay(b, workspace, midnight) ==
            RunsOfDay(a, workspace, midnight) + (if e.workspace == workspace && Midnight(a.now) == midnight then {e.id} else {})
    ensures e.id !in RunsOfDay(a, workspace, midnight)
    ensures e.workspace in a.policies
    ensures |RunsOfDay(a, e.workspace, Midnight(a.now))| < a.policies[e.workspace].maxDailyRuns
  {
    hide Step, Inv, CreateAgentRun, Midnight, RunsOfDay;
    RunRowAdded(a, e, b);
    OnDay(a.now, midnight);
    DayWithRun(a, b, e.id, AgentRun(e.machine, e.workspace, e.checkout, RunStatus.Queued, a.now, None, None), workspace, midnight);
    TodayIsMidnight(a, e.workspace);
  }

  lemma DayWithRun(a: Db, b: Db, id: Id, r: AgentRun, workspace: Id, midnight: Time)
    requires b.runs == a.runs[id := r] && id !in a.runs
    ensures RunsOfDay(b, workspace, midnight) ==
            RunsOfDay(a, workspace, midnight) + (if r.workspace == workspace && midnight <= r.createdAt < midnight + DAY then {id} else {})
    ensures id !in RunsOfDay(a, workspace, midnight)
  {}

  lemma RunRowAdded(a: Db, e: Event, b: Db)
    requires Inv(a) && Step(a, e, b) && CreatesRun(a, e)
    ensures b.runs == a.runs[e.id := AgentRun(e.machine, e.workspace, e.checkout, RunStatus.Queued, a.now, None, None)]
    ensures e.id !in a.runs && e.workspace in a.policies
    ensures |RunsToday(a.runs, e.workspace, Midnight(a.now))| < a.policies[e.workspace].maxDailyRuns
  {
    hide Midnight, CreateAgentRun, OperationsInv, RunsInv, EnvironmentsInv, TerminalsInv;
    RunCreation(a, e.id, e.machine, e.workspace, e.checkout, e.op, e.job);
  }

  /** No run was created in the future, so today's runs are those created since midnight. */
  lemma TodayIsMidnight(db: Db, workspace: Id)
    requires Inv(db)
    ensures RunsOfDay(db, workspace, Midnight(db.now)) == RunsToday(db.runs, workspace, Midnight(db.now))
  {
    assert RunsAttached(db.now, db.machines, db.runs);
    hide Inv;
    assert db.now < Midnight(db.now) + DAY;
    hide Midnight;
  }

  ghost predicate WithinCap(db: Db, workspace: Id, cap: nat) {
    Capped(db, workspace, cap) && forall day: nat :: |RunsOfDay(db, workspace, day * DAY)| <= cap
  }

  lemma StepWithinCap(a: Db, e: Event, b: Db, workspace: Id, cap: nat)
    requires Inv(a) && Step(a, e, b) && CapsPolicy(e, workspace, cap) && WithinCap(a, workspace, cap)
    ensures WithinCap(b, workspace, cap)
  {
    hide Inv, Step, Safe, RunsOfDay, CreatesRun, NoNewRuns, Midnight;
    RunsAndPolicies(a, e, b);
    StepSafe(a, e, b);
    SafeRuns(a, b, MovesOf(e));
    forall day: nat
      ensures |RunsOfDay(b, workspace, day * DAY)| <= cap
    {
      WholeDays(day);
      if CreatesRun(a, e) {
        DayGrows(a, e, b, workspace, day * DAY);
      } else {
        DayShrinks(a, e, b, workspace, day * DAY);
        NoLarger(RunsOfDay(b, workspace, day * DAY), RunsOfDay(a, workspace, day * DAY));
      }
    }
  }

  lemma WholeDays(day: nat)
    ensures (day * DAY) % DAY == 0
  {}

  /** While no policy allows a workspace more than `cap` runs a day, no day ever has more
      than `cap` of its runs in the table. */
  lemma {:induction false} DailyCap(states: seq<Db>, events: seq<Event>, i: nat, workspace: Id, cap: nat)
    requires IsRun(states, events) && i < |states| && Capped(states[0], workspace, cap)
    requires forall k {:trigger events[k]} :: 0 <= k < |events| ==> CapsPolicy(events[k], workspace, cap)
    ensures WithinCap(states[i], workspace, cap)
  {
    hide Step, Inv, CapsPolicy;
    if i == 0 {
      forall day: nat
        ensures RunsOfDay(states[0], workspace, day * DAY) == {}
      {}
    } else {
      hide WithinCap, Capped;
      DailyCap(states, events, i - 1, workspace, cap);
      RunKeepsInv(states, events, i - 1);
      StepWithinCap(states[i - 1], events[i - 1], states[i], workspace, cap);
    }
  }

  /** How many runs of the workspace the first `j` steps created on that day. */
  ghost function Creations(states: seq<Db>, events: seq<Event>, j: nat, workspace: Id, midnight: Time): nat
    requires j < |states| && |states| == |events| + 1
  {
    if j == 0 then 0
    else Creations(states, events, j - 1, workspace, midnight) +
         if CreatesRun(states[j - 1], events[j - 1]) && events[j - 1].workspace == workspace && Midnight(states[j - 1].now) == midnight
         then 1 else 0
  }

  /** The runs of that day which step k removed from the table. */
  ghost function RemovedAt(states: seq<Db>, k: nat, workspace: Id, midnight: Time): set<Id>
    requires k + 1 < |states|
  {
    RunsOfDay(states[k], workspace, midnight) - RunsOfDay(states[k + 1], workspace, midnight)
  }

  /** How many of them the first `j` steps removed. */
  ghost function Removals(states: seq<Db>, j: nat, workspace: Id, midnight: Time): nat
    requires j < |states|
  {
    if j == 0 then 0 else Removals(states, j - 1, workspace, midnight) + |RemovedAt(states, j - 1, workspace, midnight)|
  }

  lemma Shrunk(a: set<Id>, b: set<Id>)
    requires b <= a
    ensures |a| == |b| + |a - b|
  {
    assert a == b + (a - b);
  }

  lemma NoRunsAtFirst(db: Db, workspace: Id, midnight: Time)
    requires Fresh(db)
    ensures RunsOfDay(db, workspace, midnight) == {}
  {}

  /** Every run ever created for a day is in the table or was removed from it. */
  lemma {:induction false} CreationsAreRows(states: seq<Db>, events: seq<Event>, j: nat, workspace: Id, midnight: Time)
    requires IsRun(states, events) && j < |states| && midnight % DAY == 0
    ensures Creations(states, events, j, workspace, midnight) ==
            |RunsOfDay(states[j], workspace, midnight)| + Removals(states, j, workspace, midnight)
  {
    hide Step, Inv, Safe, CreatesRun, NoNewRuns, RunsOfDay;
    if j == 0 {
      NoRunsAtFirst(states[0], workspace, midnight);
    } else {
      CreationsAreRows(states, events, j - 1, workspace, midnight);
      var a, e, b := states[j - 1], events[j - 1], states[j];
      RunsAndPolicies(a, e, b);
      RunStepSafe(states, events, j - 1);
      if CreatesRun(a, e) {
        DayGrows(a, e, b, workspace, midnight);
        assert RemovedAt(states, j - 1, workspace, midnight) == {};
      } else {
        SafeRuns(a, b, MovesOf(e));
        DayShrinks(a, e, b, workspace, midnight);
        Shrunk(RunsOfDay(a, workspace, midnight), RunsOfDay(b, workspace, midnight));
      }
    }
  }

  lemma {:induction false} NoRemovals(states: seq<Db>, j: nat, workspace: Id, midnight: Time)
    requires j < |states|
    ensures Removals(states, j, workspace, midnight) == 0 <==> forall k: nat :: k < j ==> RemovedAt(states, k, workspace, midnight) == {}
  {
    hide RemovedAt;
    if j > 0 {
      NoRemovals(states, j - 1, workspace, midnight);
    }
  }

  /** The table still holds every run created for a day exactly when no step up to now removed
      one of that workspace and day; a purge of anything else does not matter. */
  lemma CreationsAreRowsIff(states: seq<Db>, events: seq<Event>, j: nat, workspace: Id, midnight: Time)
    requires IsRun(states, events) && j < |states| && midnight % DAY == 0
    ensures Creations(states, events, j, workspace, midnight) == |RunsOfDay(states[j], workspace, midnight)| <==>
            forall k: nat :: k < j ==> RemovedAt(states, k, workspace, midnight) == {}
  {
    CreationsAreRows(states, events, j, workspace, midnight);
    hide IsRun, RemovedAt;
    NoRemovals(states, j, workspace, midnight);
  }

  /** The bound on creations: the cap and the runs removed meanwhile; and the cap itself holds
      for creations exactly when the removals fit into what the table leaves free. */
  lemma CreationsBound(states: seq<Db>, events: seq<Event>, j: nat, workspace: Id, day: nat, cap: nat)
    requires IsRun(states, events) && j < |states| && Capped(states[0], workspace, cap)
    requires forall k {:trigger events[k]} :: 0 <= k < |events| ==> CapsPolicy(events[k], workspace, cap)
    ensures Creations(states, events, j, workspace, day * DAY) <= cap + Removals(states, j, workspace, day * DAY)
    ensures Creations(states, events, j, workspace, day * DAY) <= cap <==>
            Removals(states, j, workspace, day * DAY) <= cap - |RunsOfDay(states[j], workspace, day * DAY)|
    ensures (forall k: nat :: k < j ==> RemovedAt(states, k, workspace, day * DAY) == {}) ==>
              Creations(states, events, j, workspace, day * DAY) <= cap
  {
    hide Step;
    DailyCap(states, events, j, workspace, cap);
    WholeDays(day);
    CreationsAreRows(states, events, j, workspace, day * DAY);
    hide RemovedAt, RunsOfDay;
    NoRemovals(states, j, workspace, day * DAY);
  }

  lemma SafeRuns(a: Db, b: Db, allow: Moves)
    requires Safe(a, b, allow)
    ensures RunsMoved(a.issued, a.runs, b.runs)
  {}

  // ---- a purge forgets the runs of its machine ----

  function Cap(): Policy { Policy(true, 5, 5, 1) }

  /** One run a day is allowed and the destroyed machine 1 had it; machine 2 is running. */
  function BeforePurge(): Db {
    var gone := Machine(0, None, MachineStatus.Destroyed, MachineStatus.Destroyed, 1, None, None, false, None, None, None, 9);
    var live := Machine(0, None, MachineStatus.Running, MachineStatus.Running, 1, None, None, false, None, None, None, 9);
    Db(7, {1, 2, 3}, map[1 := gone, 2 := live], map[],
       map[3 := AgentRun(1, 0, None, RunStatus.Succeeded, 6, Some(6), Some(6))], map[], map[], map[], map[], map[], map[0 := Cap()])
  }

  lemma BeforePurgeInv()
    ensures Inv(BeforePurge())
  {
    BeforePurgeRuns();
    BeforePurgeEnvironments();
    hide RunsInv, EnvironmentsInv;
  }

  lemma BeforePurgeRuns()
    ensures RunsInv(7, BeforePurge().machines, BeforePurge().runs)
  {
    assert BeforePurge().runs.Keys == {3};
  }

  lemma BeforePurgeEnvironments()
    ensures EnvironmentsInv(BeforePurge())
  {
    assert forall m :: m in BeforePurge().machines ==> BeforePurge().machines[m].environment.None?;
  }

  function SecondRun(): Job {
    Job(2, 0, RunAgent, 1, RunAgentKey(4), None, None, None, None, None, 3)
  }

  /** The cap counts rows, not creations: the second run of the day is refused before
      machine 1 is purged and admitted after it. */
  lemma PurgeForgetsRuns()
    ensures Inv(BeforePurge())
    ensures CreateAgentRun(BeforePurge(), 4, 2, 0, None, 5, SecondRun()) == RolledBack(DailyRunLimit)
    ensures PurgePermanentDeleteRequest(BeforePurge(), 0, 1).Committed?
    ensures CreateAgentRun(PurgePermanentDeleteRequest(BeforePurge(), 0, 1).db, 4, 2, 0, None, 5, SecondRun()).Committed?
  {
    BeforePurgeInv();
    hide Inv;
    var db := BeforePurge();
    assert Midnight(7) == 0;
    assert RunsToday(db.runs, 0, 0) == {3};
    var after := PurgePermanentDeleteRequest(db, 0, 1).db;
    assert RunsToday(after.runs, 0, 0) == {};
    assert FindByKey(after.operations, 2, RunAgentKey(4)).None?;
  }
}
