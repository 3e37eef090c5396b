/** The order in which BE/internal/repository/dev_machine.go:440-468 serves operations, row
    against row: cleanup is never kept waiting by other work. */
module LeaseOrder {
  import opened Wrappers
  import opened Domain
  import opened Store
  import opened Sets

  predicate IsCleanup(o: Operation) {
    o.job.action.Teardown? || o.job.action.CancelAgent? || o.job.action.TerminateTerminal?
  }

  /** Queued and due, or leased by somebody whose lease has run out. */
  predicate Due(o: Operation, now: Time) {
    match o.status
    case Pending => !(now < o.availableAt)
    case Leased => o.leaseExpires.Some? && o.leaseExpires.value < now
    case _ => false
  }

  /** Another operation of the machine is being worked on. */
  predicate Busy(db: Db, id: Id)
    requires id in db.operations
  {
    exists other :: other in db.operations && other != id && db.operations[other].job.machine == db.operations[id].job.machine &&
                    db.operations[other].status.Leased? && db.operations[other].leaseExpires.Some? &&
                    !(db.operations[other].leaseExpires.value < db.now)
  }

  /** A row that may be taken: a due one, of an idle machine unless it is a cleanup. */
  predicate Waiting(db: Db, id: Id) {
    id in db.operations && Due(db.operations[id], db.now) && (IsCleanup(db.operations[id]) || !Busy(db, id))
  }

  /** Taking `c` before `o` is fair: cleanup goes first, then the newer generation, then the
      older row. */
  predicate Fair(c: Operation, o: Operation) {
    && (IsCleanup(o) ==> IsCleanup(c))
    && (IsCleanup(o) == IsCleanup(c) ==> o.job.generation <= c.job.generation)
    && (IsCleanup(o) == IsCleanup(c) && o.job.generation == c.job.generation ==> c.createdAt <= o.createdAt)
  }

  predicate SameMachine(db: Db, c: Id, o: Id) {
    c in db.operations && o in db.operations && db.operations[c].job.machine == db.operations[o].job.machine
  }

  predicate Unlocked(db: Db, locked: set<Id>, o: Id) {
    o in db.operations && db.operations[o].job.machine !in locked
  }

  /** A lease statement may take these rows. */
  ghost predicate FairChoice(db: Db, limit: nat, locked: set<Id>, chosen: set<Id>) {
    && |chosen| <= limit
    && (forall c :: c in chosen ==> Waiting(db, c) && Unlocked(db, locked, c))
    && (forall c, d :: c in chosen && d in chosen && SameMachine(db, c, d) ==> c == d)
    && (forall c, o :: c in chosen && Waiting(db, o) && SameMachine(db, c, o) ==> Fair(db.operations[c], db.operations[o]))
    && (forall o :: Passed(db, locked, chosen, o) ==>
          |chosen| == limit && forall c :: c in chosen && c in db.operations ==> Fair(db.operations[c], db.operations[o]))
  }

  /** A row that could have been taken, of a machine of which nothing was. */
  ghost predicate Passed(db: Db, locked: set<Id>, chosen: set<Id>, o: Id) {
    Waiting(db, o) && Unlocked(db, locked, o) && forall c :: c in chosen ==> !SameMachine(db, c, o)
  }

  lemma WaitingIffLeasable(db: Db, id: Id)
    ensures Waiting(db, id) <==> Leasable(db, id)
  {}

  lemma FairIffNotBefore(c: Operation, o: Operation)
    ensures Fair(c, o) <==> !Before(o, c)
  {}

  lemma PassedIffLeftOut(db: Db, locked: set<Id>, chosen: set<Id>, o: Id)
    ensures Passed(db, locked, chosen, o) <==> LeasableNow(db, locked, o) && LeftOut(db, chosen, o)
  {
    WaitingIffLeasable(db, o);
    hide Leasable, Waiting;
  }

  lemma ChoiceIsFair(db: Db, limit: nat, locked: set<Id>, chosen: set<Id>)
    requires LeaseChoice(db, limit, locked, chosen)
    ensures FairChoice(db, limit, locked, chosen)
  {
    WaitingAre(db);
    hide Leasable, Waiting, Fair, Before, Passed, LeftOut;
    forall c, o | c in chosen && Waiting(db, o) && SameMachine(db, c, o)
      ensures Fair(db.operations[c], db.operations[o])
    {
      FairIffNotBefore(db.operations[c], db.operations[o]);
    }
    forall o | Passed(db, locked, chosen, o)
      ensures o in db.operations && |chosen| == limit
      ensures forall c :: c in chosen && c in db.operations ==> Fair(db.operations[c], db.operations[o])
    {
      PassedIffLeftOut(db, locked, chosen, o);
      forall c | c in chosen && c in db.operations
        ensures Fair(db.operations[c], db.operations[o])
      {
        FairIffNotBefore(db.operations[c], db.operations[o]);
      }
    }
  }

  lemma FairIsChoice(db: Db, limit: nat, locked: set<Id>, chosen: set<Id>)
    requires FairChoice(db, limit, locked, chosen)
    ensures LeaseChoice(db, limit, locked, chosen)
  {
    WaitingAre(db);
    hide Leasable, Waiting, Fair, Before, Passed, LeftOut;
    forall c, o | c in chosen && Leasable(db, o) && db.operations[o].job.machine == db.operations[c].job.machine
      ensures !Before(db.operations[o], db.operations[c])
    {
      FairIffNotBefore(db.operations[c], db.operations[o]);
    }
    forall o | LeasableNow(db, locked, o) && LeftOut(db, chosen, o)
      ensures |chosen| == limit && forall c :: c in chosen ==> !Before(db.operations[o], db.operations[c])
    {
      PassedIffLeftOut(db, locked, chosen, o);
      forall c | c in chosen
        ensures !Before(db.operations[o], db.operations[c])
      {
        FairIffNotBefore(db.operations[c], db.operations[o]);
      }
    }
  }

  lemma WaitingAre(db: Db)
    ensures forall o :: Waiting(db, o) <==> Leasable(db, o)
    ensures forall o :: Waiting(db, o) ==> o in db.operations
  {
    WaitingStored(db);
    forall o
      ensures Waiting(db, o) <==> Leasable(db, o)
    {
      WaitingIffLeasable(db, o);
    }
  }

  /** The lease statement takes exactly such rows: of each machine a fair one, and when the
      limit keeps a machine waiting it was used up by rows that go before all of its own. */
  lemma ChoiceIffFair(db: Db, limit: nat, locked: set<Id>, chosen: set<Id>)
    ensures LeaseChoice(db, limit, locked, chosen) <==> FairChoice(db, limit, locked, chosen)
  {
    hide LeaseChoice, FairChoice;
    if LeaseChoice(db, limit, locked, chosen) {
      ChoiceIsFair(db, limit, locked, chosen);
    } else if FairChoice(db, limit, locked, chosen) {
      FairIsChoice(db, limit, locked, chosen);
    }
  }

  lemma WaitingStored(db: Db)
    ensures forall o :: Waiting(db, o) ==> o in db.operations
  {}

  /** What taking a row does to it. */
  lemma TakenRow(db: Db, owner: string, seconds: nat, chosen: set<Id>, o: Id)
    requires o in db.operations
    ensures var after := LeaseOperations(db, owner, seconds, chosen); after == db.(operations := after.operations) && o in after.operations
    ensures var was, row := db.operations[o], LeaseOperations(db, owner, seconds, chosen).operations[o];
      if o !in chosen then row == was
      else
        && row.status.Leased? && row.owner == Some(owner) && row.leaseExpires == Some(db.now + seconds * SECOND)
        && row.attempts == was.attempts + 1 && row.job == was.job && row.createdAt == was.createdAt
  {}

  // ---- no cleanup waits for other work ----

  /** The machines that have a cleanup waiting and are not locked. */
  ghost function ToCleanUp(db: Db, locked: set<Id>): set<Id> {
    set o | o in db.operations && Waiting(db, o) && IsCleanup(db.operations[o]) && Unlocked(db, locked, o) :: db.operations[o].job.machine
  }

  function MachinesTaken(db: Db, chosen: set<Id>): set<Id> {
    set c | c in chosen && c in db.operations :: db.operations[c].job.machine
  }

  lemma {:induction false} OneRowEach(db: Db, chosen: set<Id>)
    requires chosen <= db.operations.Keys && forall c, d :: c in chosen && d in chosen && SameMachine(db, c, d) ==> c == d
    ensures |MachinesTaken(db, chosen)| == |chosen|
  {
    if chosen == {} {
      assert MachinesTaken(db, chosen) == {};
    } else {
      var c :| c in chosen;
      var rest := chosen - {c};
      OneRowEach(db, rest);
      assert !exists d :: d in rest && SameMachine(db, c, d);
      assert MachinesTaken(db, chosen) == MachinesTaken(db, rest) + {db.operations[c].job.machine};
    }
  }

  /** Whatever else waits, a statement with room for the machines that have a cleanup waiting
      takes a cleanup of each. */
  lemma CleanupNeverWaits(db: Db, limit: nat, locked: set<Id>, chosen: set<Id>, o: Id)
    requires LeaseChoice(db, limit, locked, chosen) && |ToCleanUp(db, locked)| <= limit
    requires Waiting(db, o) && IsCleanup(db.operations[o]) && Unlocked(db, locked, o)
    ensures exists c :: c in chosen && SameMachine(db, c, o) && IsCleanup(db.operations[c])
  {
    ChoiceIffFair(db, limit, locked, chosen);
    WaitingStored(db);
    hide Waiting, LeaseChoice, IsCleanup;
    var machine := db.operations[o].job.machine;
    if c :| c in chosen && SameMachine(db, c, o) {
      assert Fair(db.operations[c], db.operations[o]);
    } else {
      assert Passed(db, locked, chosen, o);
      assert machine in ToCleanUp(db, locked);
      OneRowEach(db, chosen);
      forall m | m in MachinesTaken(db, chosen)
        ensures m in ToCleanUp(db, locked) - {machine}
      {
        var c :| c in chosen && db.operations[c].job.machine == m;
        assert Fair(db.operations[c], db.operations[o]);
        assert !SameMachine(db, c, o);
      }
      NoLarger(MachinesTaken(db, chosen), ToCleanUp(db, locked) - {machine});
    }
  }
}
