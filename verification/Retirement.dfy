/** What is over stays over: deleted environments, closed terminals and spent tickets. */
module Retirement {
  import opened Wrappers
  import opened Domain
  import opened Store
  import opened Invariants
  import opened Safety
  import opened TransactionSafety
  import opened Runs

  // ---- which steps mark an environment for deletion ----

  /** The environment may be used before the step and not after it. */
  ghost predicate Marks(a: Db, b: Db, e: Id) {
    Usable(a.environments, e) && !Usable(b.environments, e)
  }

  ghost predicate KeepsUsable(a: Db, b: Db) {
    forall e :: Usable(a.environments, e) ==> Usable(b.environments, e)
  }

  lemma DroppedKeepsUsable(db: Db, gone: set<Id>)
    ensures KeepsUsable(db, DropMachines(db, gone))
  {}

  lemma {:induction false} ReconciledKeepsUsable(db: Db, ids: seq<Id>)
    ensures KeepsUsable(db, ReconcileOrphanedEnvironments(db, ids))
  {
    if ids != [] {
      ReconciledKeepsUsable(db, ids[..|ids| - 1]);
      ReconcileKeepsUsable(ReconcileOrphanedEnvironments(db, ids[..|ids| - 1]), ids[|ids| - 1]);
    }
  }

  lemma MachineEventsKeepUsable(db: Db, e: Event)
    requires Allowed(db, e) && !OnDeletions(e) && !OnEnvironments(e) && !OnTerminals(e)
    ensures KeepsUsable(db, ApplyToMachines(db, e))
  {
    hide Allowed, CreateBundle, SetDesiredAndEnqueue, CreateAgentRun, CancelAgentRun, RequestPermanentDelete, HasOpenOperation,
         BulkPurged, DropMachines, LeasedRow, FailedRow, HoldsLease;
    match e
    case MachinePurged(_, machine) => DroppedKeepsUsable(db, {machine});
    case MachinesPurged(workspace, only, aged, failed, expired) =>
      DroppedKeepsUsable(db, BulkPurged(db, workspace, only, aged, failed, expired));
    case _ =>
  }

  lemma EnvironmentEventsKeepUsable(db: Db, e: Event)
    requires Allowed(db, e) && OnEnvironments(e) && !e.EnvironmentDeletionRequested?
    ensures KeepsUsable(db, ApplyToEnvironments(db, e))
  {
    hide CreateCheckout, ReconcileOrphanedEnvironments, ReconcileOrphanedCheckouts, CreateEnvironment, DeleteEnvironment,
         UpdateEnvironmentState, UpsertScopeSetting, DeleteScopeSetting, UpdateCheckoutState, Allowed;
    match e
    case EnvironmentsReconciled(ids) => ReconciledKeepsUsable(db, ids);
    case EnvironmentCreated(id, environment, op, job) =>
      assert !environment.status.DeleteRequested? by { CreatesUsable(db, e); }
      CreatedKeepsUsable(db, id, environment, op, job);
    case EnvironmentDeleted(workspace, id) => DeletedKeepsUsable(db, workspace, id);
    case EnvironmentUpdated(id, envStatus, imageRef, digest) =>
      assert !envStatus.DeleteRequested? by { UpdatesUsable(db, e); }
      UpdatedKeepsUsable(db, id, envStatus, imageRef, digest);
    case _ =>
  }

  lemma CreatesUsable(db: Db, e: Event)
    requires Allowed(db, e) && e.EnvironmentCreated?
    ensures !e.environment.status.DeleteRequested?
  {}

  lemma UpdatesUsable(db: Db, e: Event)
    requires Allowed(db, e) && e.EnvironmentUpdated?
    ensures !e.envStatus.DeleteRequested?
  {}

  lemma CreatedKeepsUsable(db: Db, id: Id, e: Environment, op: Id, q: Job)
    requires !e.status.DeleteRequested?
    ensures KeepsUsable(db, After(db, CreateEnvironment(db, id, e, op, q)))
  {
    hide Enqueue, HasOpenOperation;
  }

  lemma DeletedKeepsUsable(db: Db, workspace: Id, id: Id)
    ensures KeepsUsable(db, After(db, DeleteEnvironment(db, workspace, id)))
  {}

  lemma UpdatedKeepsUsable(db: Db, id: Id, status: EnvironmentStatus, imageRef: string, digest: Option<string>)
    requires !status.DeleteRequested?
    ensures KeepsUsable(db, After(db, UpdateEnvironmentState(db, id, status, imageRef, digest)))
  {
    hide Coalesce;
  }

  lemma TerminalEventsKeepUsable(db: Db, e: Event)
    requires OnTerminals(e)
    ensures KeepsUsable(db, ApplyToTerminals(db, e))
  {
    hide RequestTerminalSessionClose, CreateTerminalSession, CompleteTerminalSessionClose, FailTerminalSessionClose, CreateAccessTicket,
         ConsumeAccessTicket, RevokeMachineAccess;
  }

  /** Only a request to delete the environment and the deletion of its workspace mark it, and
      neither touches what names it. */
  lemma OnlyTheseMark(a: Db, e: Event, b: Db, environment: Id)
    requires Step(a, e, b) && Marks(a, b, environment)
    ensures e.WorkspaceDeleted? || (e.EnvironmentDeletionRequested? && e.id == environment)
    ensures environment in b.environments && b.settings == a.settings && b.machines == a.machines
  {
    hide Allowed, ApplyToMachines, ApplyToEnvironments, ApplyToTerminals, ApplyDeletions;
    if OnDeletions(e) {
      DeletionMarks(a, e, environment);
    } else if OnEnvironments(e) {
      if e.EnvironmentDeletionRequested? {
        RequestApplies(a, e);
        RequestMarks(a, e.workspace, e.id, environment);
      } else {
        EnvironmentEventsKeepUsable(a, e);
      }
    } else if OnTerminals(e) {
      TerminalEventsKeepUsable(a, e);
    } else {
      MachineEventsKeepUsable(a, e);
    }
  }

  lemma RequestApplies(db: Db, e: Event)
    requires e.EnvironmentDeletionRequested?
    ensures ApplyToEnvironments(db, e) == After(db, RequestEnvironmentDeletion(db, e.workspace, e.id))
  {}

  lemma DeletionMarks(db: Db, e: Event, environment: Id)
    requires OnDeletions(e) && Marks(db, ApplyDeletions(db, e), environment)
    ensures e.WorkspaceDeleted? && environment in ApplyDeletions(db, e).environments
    ensures ApplyDeletions(db, e).settings == db.settings && ApplyDeletions(db, e).machines == db.machines
  {
    hide HasRuntimes, CancelWorkspaceSnapshots, OtherSettings, DropMachines, MachinesOf, HasEnvironments;
    if e.WorkspaceDeleted? {
      DroppedKeepsUsable(db, MachinesOf(db, e.workspace));
    }
  }

  /** A deletion that was asked for is refused while anything names the environment. */
  lemma RequestMarks(db: Db, workspace: Id, id: Id, environment: Id)
    requires Marks(db, After(db, RequestEnvironmentDeletion(db, workspace, id)), environment)
    ensures var after := After(db, RequestEnvironmentDeletion(db, workspace, id));
      && id == environment && Unnamed(db, id) && id in after.environments
      && after.settings == db.settings && after.machines == db.machines
  {
    hide BuildActive, CancelSnapshots, HasOpenOperation, Coalesce;
  }

  // ---- deleted environments ----

  /** Once its deletion was requested an environment is never pending, building, ready or
      failed again and no snapshot of it is pending or leased; and if at some moment nothing
      named it, then in every later state, even after its row is gone, no setting does and no
      machine meant to be running. When the row is gone that holds in any case. */
  lemma {:induction false} DeletedEnvironmentsStay(states: seq<Db>, events: seq<Event>, i: nat, j: nat, e: Id)
    requires IsRun(states, events) && i <= j < |states|
    requires e in states[i].environments && states[i].environments[e].status.DeleteRequested?
    ensures e in states[j].environments ==> states[j].environments[e].status.DeleteRequested?
    ensures SnapshotsOver(states[j].operations, e)
    ensures Unnamed(states[i], e) || e !in states[j].environments ==> Retired(states[j], e)
  {
    hide Step, Inv, Evolves, Safe;
    StaysDeleted(states, events, i, j, e);
    RunKeepsInv(states, events, j);
    UnusableIsOver(states[j], e);
    if i < j && Unnamed(states[i], e) {
      StaysDeleted(states, events, i, j - 1, e);
      DeletedEnvironmentsStay(states, events, i, j - 1, e);
      RunStepSafe(states, events, j - 1);
      UseStaysAway(states[j - 1], states[j], MovesOf(events[j - 1]), e);
    }
  }

  lemma UnusableIsOver(db: Db, e: Id)
    requires Inv(db) && !Usable(db.environments, e)
    ensures SnapshotsOver(db.operations, e) && (e !in db.environments ==> Unnamed(db, e))
  {}

  lemma UseStaysAway(a: Db, b: Db, allow: Moves, e: Id)
    requires Safe(a, b, allow) && !Usable(a.environments, e) && !Usable(b.environments, e) && Unnamed(a, e)
    ensures Unnamed(b, e)
  {}

  lemma StaysDeleted(states: seq<Db>, events: seq<Event>, i: nat, j: nat, e: Id)
    requires IsRun(states, events) && i <= j < |states|
    requires e in states[i].environments && states[i].environments[e].status.DeleteRequested?
    ensures !Usable(states[j].environments, e)
    ensures e in states[j].environments ==> states[j].environments[e].status.DeleteRequested?
  {
    hide Step;
    RunKeepsInv(states, events, i);
    RunEvolves(states, events, i, j);
  }

  /** Exactly when is a marked environment out of use for good? When nothing named it at the
      moment it was marked, whoever marked it. */
  lemma RetiredFromMarking(states: seq<Db>, events: seq<Event>, k: nat, e: Id)
    requires IsRun(states, events) && k < |events| && Marks(states[k], states[k + 1], e)
    ensures (forall j :: k < j < |states| ==> Retired(states[j], e)) <==> Unnamed(states[k], e)
    ensures events[k].EnvironmentDeletionRequested? ==> Unnamed(states[k], e)
  {
    var a, b := states[k], states[k + 1];
    assert Step(a, events[k], b);
    OnlyTheseMark(a, events[k], b, e);
    NamesByTables(a, b);
    RequestedIsUnnamed(a, events[k], b, e);
    hide IsRun, Step;
    forall j | k < j < |states| && Unnamed(a, e)
      ensures Retired(states[j], e)
    {
      DeletedEnvironmentsStay(states, events, k + 1, j, e);
    }
  }

  lemma RequestedIsUnnamed(a: Db, ev: Event, b: Db, e: Id)
    requires Step(a, ev, b) && Marks(a, b, e)
    ensures ev.EnvironmentDeletionRequested? ==> Unnamed(a, e)
  {
    hide Allowed, RequestEnvironmentDeletion, Unnamed;
    if ev.EnvironmentDeletionRequested? {
      RequestApplies(a, ev);
      RequestMarks(a, ev.workspace, ev.id, e);
    }
  }

  // ---- deleting a workspace marks environments that are in use ----

  /** Every environment that is absent or to be deleted is out of use. */
  ghost predicate RetiredEnvironments(db: Db) {
    forall e :: !Usable(db.environments, e) ==> Retired(db, e)
  }

  /** The environments the deletion of a workspace marks. */
  function MarkedBy(db: Db, workspace: Id): set<Id> {
    if HasRuntimes(db, workspace) then {}
    else set e | e in db.environments && db.environments[e].workspace == workspace &&
                 !db.environments[e].status.DeleteRequested? && !BuildActive(db, e)
  }

  /** When a step changes no name of what it marks, deleted environments stay out of use
      exactly when nothing named what it marks. */
  lemma RetiredIffUnnamed(a: Db, b: Db)
    requires RetiredEnvironments(a) && RetirementKept(a, b) && EnvironmentsInv(b)
    requires forall e :: Marks(a, b, e) ==> (Unnamed(a, e) <==> Unnamed(b, e))
    ensures RetiredEnvironments(b) <==> forall e :: Marks(a, b, e) ==> Unnamed(a, e)
  {
    hide Unnamed, SnapshotsOver, Usable, SnapshotsAttached;
    if forall e :: Marks(a, b, e) ==> Unnamed(a, e) {
      forall e | !Usable(b.environments, e)
        ensures Unnamed(b, e)
      {
        if Usable(a.environments, e) {
          assert Marks(a, b, e);
        }
      }
    }
  }

  /** Deleting a workspace keeps deleted environments out of use exactly when no setting and
      no machine meant to be running names an environment it marks. */
  lemma WorkspaceDeletionRetiresIff(db: Db, workspace: Id)
    requires Inv(db) && RetiredEnvironments(db)
    ensures RetiredEnvironments(After(db, DeleteWorkspace(db, workspace))) <==>
            forall e :: e in MarkedBy(db, workspace) ==> Unnamed(db, e)
  {
    hide Unnamed, DeleteWorkspace, MarkedBy, RetiredEnvironments, EnvironmentsInv, RetirementKept, Usable, Marks,
         OperationsInv, RunsInv, TerminalsInv, OpsMoved, Evolves, IdsIssued, HasEnvironments;
    var after := After(db, DeleteWorkspace(db, workspace));
    DeleteWorkspaceSafe(db, workspace);
    MarkedExactly(db, workspace);
    if MarkedBy(db, workspace) != {} {
      NamesByTables(db, after);
    }
    RetiredIffUnnamed(db, after);
  }

  lemma MarkedExactly(db: Db, workspace: Id)
    ensures var after := After(db, DeleteWorkspace(db, workspace));
      && (forall e :: e in MarkedBy(db, workspace) <==> Marks(db, after, e))
      && (MarkedBy(db, workspace) != {} ==> after.settings == db.settings && after.machines == db.machines)
  {
    hide HasRuntimes, CancelWorkspaceSnapshots, BuildActive, HasEnvironments, MarkEnvironments, DropWorkspace;
    if !HasRuntimes(db, workspace) {
      WithoutEnvironments(db, workspace);
      if HasEnvironments(db, workspace) {
        MarksExactly(db, workspace);
      } else {
        DropKeepsUsable(db, workspace);
      }
    }
  }

  lemma WithoutEnvironments(db: Db, workspace: Id)
    ensures !HasEnvironments(db, workspace) ==> MarkedBy(db, workspace) == {}
  {
    hide BuildActive, HasRuntimes;
  }

  lemma MarksExactly(db: Db, workspace: Id)
    requires !HasRuntimes(db, workspace)
    ensures forall operations, e :: e in MarkedBy(db, workspace) <==>
              Marks(db, db.(operations := operations, environments := MarkEnvironments(db, workspace)), e)
  {
    hide BuildActive, HasRuntimes;
  }

  lemma DropKeepsUsable(db: Db, workspace: Id)
    ensures KeepsUsable(db, DropWorkspace(db, workspace))
  {
    hide DropMachines, MachinesOf, OtherSettings;
    DroppedKeepsUsable(db, MachinesOf(db, workspace));
  }

  /** In a run every deleted environment is out of use at all times exactly when no step up to
      then marked one that was in use. */
  lemma {:induction false} AllRetiredIff(states: seq<Db>, events: seq<Event>, i: nat)
    requires IsRun(states, events) && i < |states|
    ensures (forall j: nat :: j <= i ==> RetiredEnvironments(states[j])) <==>
            (forall k: nat, e :: k < i && Marks(states[k], states[k + 1], e) ==> Unnamed(states[k], e))
  {
    hide Step, Inv, Safe, Unnamed, Marks, RetiredEnvironments;
    if i == 0 {
      FreshIsRetired(states[0]);
    } else {
      AllRetiredIff(states, events, i - 1);
      var k := i - 1;
      assert Step(states[k], events[k], states[k + 1]);
      if RetiredEnvironments(states[k]) {
        RunStepSafe(states, events, k);
        StepRetires(states[k], events[k], states[k + 1]);
      }
    }
  }

  lemma FreshIsRetired(db: Db)
    requires Fresh(db)
    ensures RetiredEnvironments(db)
  {}

  lemma StepRetires(a: Db, ev: Event, b: Db)
    requires Step(a, ev, b) && Safe(a, b, MovesOf(ev)) && RetiredEnvironments(a)
    ensures RetiredEnvironments(b) <==> forall e :: Marks(a, b, e) ==> Unnamed(a, e)
  {
    hide Step, Unnamed, EnvironmentsInv, RetirementKept, RetiredEnvironments, Marks, OpsMoved, Evolves;
    forall e | Marks(a, b, e)
      ensures Unnamed(a, e) <==> Unnamed(b, e)
    {
      OnlyTheseMark(a, ev, b, e);
      NamesByTables(a, b);
    }
    RetiredIffUnnamed(a, b);
  }

  /** A workspace without machines, one ready environment, and a setting that names it. */
  function NamedBySetting(): Db {
    Db(5, {1}, map[], map[], map[], map[1 := Environment(0, EnvironmentStatus.Ready, "image", None, None, None)], map[],
       map[WorkspaceScope(0) := Setting(0, Some(1))], map[], map[], map[])
  }

  /** Deleting the workspace marks the environment all the same. */
  lemma WorkspaceDeletionLeavesSetting()
    ensures Inv(NamedBySetting()) && RetiredEnvironments(NamedBySetting())
    ensures var tx := DeleteWorkspace(NamedBySetting(), 0);
      tx.Committed? && !tx.value && !Usable(tx.db.environments, 1) && !RetiredEnvironments(tx.db)
  {
    hide Inv, RetiredEnvironments, MarkedBy;
    var db := NamedBySetting();
    NamedBySettingInv();
    MarkedExactly(db, 0);
    assert 1 in MarkedBy(db, 0) by { MarksTheSetting(); }
    var after := DeleteWorkspace(db, 0).db;
    assert WorkspaceScope(0) in after.settings && !Unnamed(after, 1);
    StaysNamed(after, 1);
  }

  /** And every run that has come to a workspace without live machines and with a ready
      environment goes on to such a state in two steps: someone names the environment in a
      setting, and someone deletes the workspace. */
  lemma DeletionLeavesSettingInRun(states: seq<Db>, events: seq<Event>, scope: Scope, e: Id) returns (named: Db, after: Db)
    requires IsRun(states, events)
    requires var db := states[|events|];
      && e in db.environments && db.environments[e].status.Ready? && !BuildActive(db, e) && !HasRuntimes(db, db.environments[e].workspace)
      && (scope in db.settings ==> db.settings[scope].workspace == db.environments[e].workspace)
    ensures var workspace := states[|events|].environments[e].workspace;
      IsRun(states + [named, after], events + [SettingUpserted(scope, Setting(workspace, Some(e))), WorkspaceDeleted(workspace)])
    ensures !RetiredEnvironments(after)
  {
    hide Step, RetiredEnvironments, DeleteWorkspace;
    var db := states[|events|];
    var workspace := db.environments[e].workspace;
    var s := Setting(workspace, Some(e));
    named := After(db, UpsertScopeSetting(db, scope, s));
    after := After(named, DeleteWorkspace(named, workspace));
    UpsertIsStep(db, scope, s);
    DeletionIsStep(named, workspace);
    RunGoesOn(states, events, SettingUpserted(scope, s), named);
    RunGoesOn(states + [named], events + [SettingUpserted(scope, s)], WorkspaceDeleted(workspace), after);
    assert states + [named] + [after] == states + [named, after];
    assert events + [SettingUpserted(scope, s)] + [WorkspaceDeleted(workspace)] == events + [SettingUpserted(scope, s), WorkspaceDeleted(workspace)];
    hide IsRun, UpsertScopeSetting;
    assert named == db.(settings := db.settings[scope := s]) by { NamingCommits(db, scope, s); }
    DeletionOfNamed(named, workspace, scope, e);
  }

  lemma NamingCommits(db: Db, scope: Scope, s: Setting)
    requires s.environment.Some? && EnvironmentReady(db, s.workspace, s.environment.value)
    requires scope in db.settings ==> db.settings[scope].workspace == s.workspace
    ensures UpsertScopeSetting(db, scope, s) == Committed(db.(settings := db.settings[scope := s]), Unit)
  {}

  lemma DeletionOfNamed(db: Db, workspace: Id, scope: Scope, e: Id)
    requires e in db.environments && db.environments[e].workspace == workspace && !db.environments[e].status.DeleteRequested?
    requires !BuildActive(db, e) && !HasRuntimes(db, workspace) && scope in db.settings && db.settings[scope].environment == Some(e)
    ensures !RetiredEnvironments(After(db, DeleteWorkspace(db, workspace)))
  {
    hide RetiredEnvironments, BuildActive, HasRuntimes, MarkedBy, DeleteWorkspace;
    assert e in MarkedBy(db, workspace) by { MarkedMember(db, workspace, e); }
    MarkedExactly(db, workspace);
    var after := After(db, DeleteWorkspace(db, workspace));
    assert Marks(db, after, e);
    assert after.settings[scope].environment == Some(e);
    StaysNamed(after, e);
  }

  lemma MarkedMember(db: Db, workspace: Id, e: Id)
    requires e in db.environments && db.environments[e].workspace == workspace && !db.environments[e].status.DeleteRequested?
    requires !BuildActive(db, e) && !HasRuntimes(db, workspace)
    ensures e in MarkedBy(db, workspace)
  {}

  lemma StaysNamed(db: Db, e: Id)
    requires !Usable(db.environments, e) && !Unnamed(db, e)
    ensures !RetiredEnvironments(db)
  {}

  lemma MarksTheSetting()
    ensures 1 in MarkedBy(NamedBySetting(), 0) && HasEnvironments(NamedBySetting(), 0)
  {
    assert 1 in NamedBySetting().environments;
  }

  lemma NamedBySettingInv()
    ensures Inv(NamedBySetting()) && RetiredEnvironments(NamedBySetting())
  {}

  /** A terminal session that stopped being active never is again, and from then on no
      ticket of it can be used or counts as used. */
  lemma ClosedTerminalsStay(states: seq<Db>, events: seq<Event>, i: nat, j: nat, s: Id)
    requires IsRun(states, events) && i <= j < |states| && s in states[i].sessions && !states[i].sessions[s].status.Active?
    ensures s in states[j].sessions ==> !states[j].sessions[s].status.Active?
    ensures forall t :: t in states[j].tickets && states[j].tickets[t].session == Some(s) ==>
              states[j].tickets[t].status !in {TicketStatus.Active, TicketStatus.Used}
  {
    hide Step;
    RunKeepsInv(states, events, i);
    RunKeepsInv(states, events, j);
    RunEvolves(states, events, i, j);
    assert IdsIssued(states[i]) && ClosedTerminals(states[j].sessions, states[j].tickets) &&
           SessionsMoved(states[i].issued, states[i].sessions, states[j].sessions);
  }

  /** The ticket a consumption hands out. */
  ghost function Consumed(db: Db, e: Event): Option<Id> {
    if e.TicketConsumed? then ConsumeAccessTicket(db, e.tokenHash, e.host, e.access).1 else None
  }

  lemma ConsumptionSpends(a: Db, e: Event, b: Db)
    requires Step(a, e, b) && Consumed(a, e).Some?
    ensures var t := Consumed(a, e).value; t in a.tickets && a.tickets[t].status.Active? && t in b.tickets && b.tickets[t].status.Used?
  {}

  /** No ticket is consumed twice in one run. */
  lemma ConsumedOnce(states: seq<Db>, events: seq<Event>, k: nat, l: nat)
    requires IsRun(states, events) && k < l < |events|
    requires Consumed(states[k], events[k]).Some?
    ensures Consumed(states[l], events[l]) != Consumed(states[k], events[k])
  {
    hide Step, Inv;
    ConsumptionSpends(states[k], events[k], states[k + 1]);
    RunEvolves(states, events, k + 1, l);
    if Consumed(states[l], events[l]).Some? {
      ConsumptionSpends(states[l], events[l], states[l + 1]);
    }
  }
}
