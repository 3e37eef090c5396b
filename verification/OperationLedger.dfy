/** The operation ledger over a whole run: finished rows, retries and backoff. */
module OperationLedger {
  import opened Wrappers
  import opened Domain
  import opened Store
  import opened Invariants
  import opened Runs
  import opened LeaseOrder

  /** A terminal close is requested again in a step between two states. */
  ghost predicate CloseRequestedBetween(events: seq<Event>, i: nat, j: nat) {
    exists k {:trigger events[k]} :: i <= k < j <= |events| && events[k].SessionCloseRequested?
  }

  /** The same row, unless its requester was deleted. */
  ghost predicate SameRow(a: Operation, b: Operation) {
    b == a.(job := b.job) && JobKept(a, b)
  }

  lemma FinalStays(a: Db, e: Event, b: Db, o: Id)
    requires Safe(a, b, MovesOf(e)) && o in a.operations && o in b.operations && a.operations[o].status.Final()
    requires e.SessionCloseRequested? ==> !a.operations[o].job.key.TerminalCloseKey?
    ensures SameRow(a.operations[o], b.operations[o])
  {
    hide Inv, Evolves;
  }

  lemma OperationPresent(states: seq<Db>, events: seq<Event>, i: nat, k: nat, j: nat, o: Id)
    requires IsRun(states, events) && i <= k <= j < |states|
    requires o in states[i].operations && o in states[j].operations
    ensures o in states[k].operations && JobKept(states[i].operations[o], states[k].operations[o])
  {
    RunKeepsInv(states, events, i);
    hide IsRun;
    RunEvolves(states, events, i, k);
    RunEvolves(states, events, k, j);
  }

  /** A completed, failed or cancelled operation never changes again as long as it exists,
      unless it is a terminal close and the close is requested again. */
  lemma {:induction false} FinishedForEver(states: seq<Db>, events: seq<Event>, i: nat, j: nat, o: Id)
    requires IsRun(states, events) && i <= j < |states|
    requires o in states[i].operations && o in states[j].operations && states[i].operations[o].status.Final()
    requires states[i].operations[o].job.key.TerminalCloseKey? ==> !CloseRequestedBetween(events, i, j)
    ensures SameRow(states[i].operations[o], states[j].operations[o])
  {
    hide Step, Inv, Safe;
    if i < j {
      OperationPresent(states, events, i, j - 1, j, o);
      FinishedForEver(states, events, i, j - 1, o);
      RunStepSafe(states, events, j - 1);
      FinalStays(states[j - 1], events[j - 1], states[j], o);
    }
  }

  // ---- retries ----

  ghost predicate RetriedAt(states: seq<Db>, o: Id, k: nat)
    requires k + 1 < |states|
  {
    o in states[k].operations && o in states[k + 1].operations && Retried(states[k].operations[o], states[k + 1].operations[o])
  }

  ghost predicate ResetAt(states: seq<Db>, o: Id, k: nat)
    requires k + 1 < |states|
  {
    o in states[k].operations && o in states[k + 1].operations && Reset(states[k].operations[o], states[k + 1].operations[o])
  }

  /** How often the operation went back to pending for another attempt. */
  ghost function Retries(states: seq<Db>, o: Id, i: nat, j: nat): nat
    requires i <= j < |states|
  {
    if i == j then 0 else Retries(states, o, i, j - 1) + if RetriedAt(states, o, j - 1) then 1 else 0
  }

  /** FailOperation answers "will retry" exactly when the row goes back to pending, which
      takes a lease, a retryable error and an attempt left. */
  lemma RetryAnswer(db: Db, id: Id, owner: string, code: string, retryable: bool)
    requires Inv(db) && FailOperation(db, id, owner, code, retryable).Committed?
    ensures var tx := FailOperation(db, id, owner, code, retryable);
      && tx.value == Retried(db.operations[id], tx.db.operations[id])
      && tx.value == (retryable && db.operations[id].attempts < db.operations[id].job.maxAttempts)
      && (!tx.value ==> tx.db.operations[id].status.Failed?)
  {
    assert LedgerRow(db.operations[id]);
    hide Inv;
  }

  lemma MoveOfOne(a: Db, b: Db, allow: Moves, o: Id)
    requires Inv(a) && Safe(a, b, allow) && o in a.operations && o in b.operations
    ensures LedgerRow(a.operations[o]) && LedgerRow(b.operations[o]) && OpMoved(a.operations[o], b.operations[o], a.now, allow)
  {
    hide LedgerRow, OpMoved, Evolves, RetirementKept, RunsInv, EnvironmentsInv, TerminalsInv;
  }

  lemma AttemptMove(a: Operation, b: Operation, now: Time, allow: Moves, retries: nat)
    requires LedgerRow(a) && OpMoved(a, b, now, allow) && !Reset(a, b) && AttemptsCover(a, retries)
    ensures AttemptsCover(b, retries + if Retried(a, b) then 1 else 0)
  {}

  lemma AttemptStep(a: Db, e: Event, b: Db, o: Id, retries: nat)
    requires Inv(a) && Safe(a, b, MovesOf(e)) && o in a.operations && o in b.operations
    requires !Reset(a.operations[o], b.operations[o])
    requires AttemptsCover(a.operations[o], retries)
    ensures AttemptsCover(b.operations[o], retries + if Retried(a.operations[o], b.operations[o]) then 1 else 0)
  {
    hide Inv, Safe, MovesOf, AttemptsCover, Reset, Retried, OpMoved, LedgerRow;
    MoveOfOne(a, b, MovesOf(e), o);
    AttemptMove(a.operations[o], b.operations[o], a.now, MovesOf(e), retries);
  }

  /** Every retry has used up an attempt, and the current lease another one. */
  predicate AttemptsCover(o: Operation, retries: nat) {
    retries <= o.attempts - (if o.status.Leased? then 1 else 0) && retries < o.job.maxAttempts
  }

  lemma AttemptsCoverNone(db: Db, o: Id)
    requires Inv(db) && o in db.operations
    ensures AttemptsCover(db.operations[o], 0)
  {
    assert LedgerRow(db.operations[o]);
  }

  lemma {:induction false} RetriesCovered(states: seq<Db>, events: seq<Event>, i: nat, j: nat, o: Id)
    requires IsRun(states, events) && i <= j < |states|
    requires o in states[i].operations && o in states[j].operations
    requires forall k: nat :: i <= k < j ==> !ResetAt(states, o, k)
    ensures AttemptsCover(states[j].operations[o], Retries(states, o, i, j))
  {
    hide Step, Inv, Safe, AttemptsCover;
    if i == j {
      RunKeepsInv(states, events, i);
      AttemptsCoverNone(states[i], o);
    } else {
      OperationPresent(states, events, i, j - 1, j, o);
      RetriesCovered(states, events, i, j - 1, o);
      RunStepSafe(states, events, j - 1);
      assert !ResetAt(states, o, j - 1);
      AttemptStep(states[j - 1], events[j - 1], states[j], o, Retries(states, o, i, j - 1));
    }
  }

  /** Between two resets an operation is retried at most max_attempts - 1 times. */
  lemma RetriesBounded(states: seq<Db>, events: seq<Event>, i: nat, j: nat, o: Id)
    requires IsRun(states, events) && i <= j < |states|
    requires o in states[i].operations && o in states[j].operations
    requires forall k: nat :: i <= k < j ==> !ResetAt(states, o, k)
    ensures Retries(states, o, i, j) <= states[j].operations[o].job.maxAttempts - 1
  {
    RetriesCovered(states, events, i, j, o);
  }

  /** Only a repeated request to close a terminal resets an operation. */
  lemma OnlyCloseResets(states: seq<Db>, events: seq<Event>, k: nat, o: Id)
    requires IsRun(states, events) && k < |events| && ResetAt(states, o, k)
    ensures events[k].SessionCloseRequested? && states[k].operations[o].job.key.TerminalCloseKey?
  {
    RunStepSafe(states, events, k);
    assert LedgerRow(states[k].operations[o]);
    hide Inv, Evolves, IsRun;
  }

  /** The pause before another attempt grows with the attempts and stays between five
      seconds and five minutes. */
  lemma BackoffMonotone(m: nat, n: nat)
    requires 1 <= m <= n
    ensures 5 <= Backoff(m) <= Backoff(n) <= 300
  {
    assert m * m <= n * n by { assert n * n - m * m == (n - m) * (n + m); }
  }

  // ---- the pause before a retry ----

  /** The operation's attempt failed in this step, and the answer was that it will be retried. */
  ghost predicate RetriesAfter(db: Db, e: Event, o: Id) {
    e.OperationFailed? && e.id == o &&
    var tx := FailOperation(db, o, e.owner, e.code, e.retryable);
    tx.Committed? && tx.value
  }

  predicate Leases(e: Event, o: Id) {
    e.OperationsLeased? && o in e.chosen
  }

  /** Five seconds times the square of the attempts used up, and at most five minutes. */
  ghost predicate PausedUntil(until: Time, failed: Time, attempts: nat) {
    if attempts >= 8 then until == failed + 300 * SECOND else until == failed + 5 * attempts * attempts * SECOND
  }

  lemma FailingPauses(a: Db, e: Event, b: Db, o: Id)
    requires Inv(a) && Step(a, e, b) && RetriesAfter(a, e, o)
    ensures o in a.operations && o in b.operations && b.operations[o].status.Pending? && a.operations[o].attempts >= 1
    ensures PausedUntil(b.operations[o].availableAt, a.now, a.operations[o].attempts)
  {
    FailedStep(a, e, b);
    hide Inv, Step, FailOperation, PausedUntil;
    FailurePauses(a, o, e.owner, e.code, e.retryable);
  }

  lemma FailurePauses(db: Db, o: Id, owner: string, code: string, retryable: bool)
    requires Inv(db)
    requires var tx := FailOperation(db, o, owner, code, retryable); tx.Committed? && tx.value
    ensures var after := FailOperation(db, o, owner, code, retryable).db;
      && o in db.operations && o in after.operations && after.operations[o].status.Pending? && db.operations[o].attempts >= 1
      && PausedUntil(after.operations[o].availableAt, db.now, db.operations[o].attempts)
  {
    hide Inv;
    OwnedHasAttempt(db, o);
    SquaresGrow(db.operations[o].attempts);
  }

  lemma OwnedHasAttempt(db: Db, o: Id)
    requires Inv(db) && o in db.operations && db.operations[o].owner.Some?
    ensures db.operations[o].attempts >= 1
  {
    assert LedgerRow(db.operations[o]);
  }

  lemma SquaresGrow(n: nat)
    ensures n >= 8 ==> n * n >= 64
    ensures n <= 7 ==> n * n <= 49
  {
    if n >= 8 {
      assert n * n >= 8 * n;
    } else {
      assert n * n <= 7 * n;
    }
  }

  lemma FailedStep(a: Db, e: Event, b: Db)
    requires Step(a, e, b) && e.OperationFailed?
    ensures b == After(a, FailOperation(a, e.id, e.owner, e.code, e.retryable))
  {
    hide FailOperation;
  }

  /** A row on which nobody takes a lease stays as it is, ends, or loses its requester. */
  lemma UnleasedMove(a: Db, e: Event, b: Db, o: Id)
    requires Inv(a) && Step(a, e, b) && Safe(a, b, MovesOf(e)) && !Leases(e, o) && o in a.operations && o in b.operations
    requires a.operations[o].status.Pending?
    ensures b.operations[o].status.Final() || (b.operations[o].status.Pending? && b.operations[o].availableAt == a.operations[o].availableAt)
  {
    hide Step, Inv, Safe, MovesOf, OpMoved;
    MoveOfOne(a, b, MovesOf(e), o);
    if e.OperationsLeased? {
      LeasedStep(a, e, b);
      TakenRow(a, e.owner, e.seconds, e.chosen, o);
    } else {
      PendingMove(a.operations[o], b.operations[o], a.now, e);
    }
  }

  lemma PendingMove(a: Operation, b: Operation, now: Time, e: Event)
    requires OpMoved(a, b, now, MovesOf(e)) && !e.OperationsLeased? && a.status.Pending?
    ensures b.status.Final() || (b.status.Pending? && b.availableAt == a.availableAt)
  {}

  lemma LeasedStep(a: Db, e: Event, b: Db)
    requires Step(a, e, b) && e.OperationsLeased?
    ensures b == LeaseOperations(a, e.owner, e.seconds, e.chosen) && LeaseChoice(a, e.limit, e.locked, e.chosen)
  {
    hide LeaseOperations, LeaseChoice;
  }

  lemma FinalMove(a: Db, e: Event, b: Db, o: Id)
    requires Inv(a) && Safe(a, b, MovesOf(e)) && o in a.operations && o in b.operations && a.operations[o].status.Final()
    requires !Reset(a.operations[o], b.operations[o])
    ensures b.operations[o].status.Final()
  {
    hide Inv, Safe, OpMoved;
    MoveOfOne(a, b, MovesOf(e), o);
    FinalKept(a.operations[o], b.operations[o], a.now, MovesOf(e));
  }

  lemma FinalKept(a: Operation, b: Operation, now: Time, allow: Moves)
    requires LedgerRow(a) && OpMoved(a, b, now, allow) && a.status.Final() && !Reset(a, b)
    ensures b.status.Final()
  {}

  /** Until somebody leases it again, a row that is to be retried is over or waits for the
      end of its pause. */
  lemma {:induction false} PauseKept(states: seq<Db>, events: seq<Event>, k: nat, j: nat, o: Id)
    requires IsRun(states, events) && k < j < |states| && RetriesAfter(states[k], events[k], o) && o in states[j].operations
    requires forall m: nat :: k < m < j ==> !Leases(events[m], o) && !ResetAt(states, o, m)
    ensures o in states[k].operations && states[k].operations[o].attempts >= 1
    ensures var row := states[j].operations[o];
      row.status.Final() || (row.status.Pending? && PausedUntil(row.availableAt, states[k].now, states[k].operations[o].attempts))
  {
    hide Step, Inv, Safe, RetriesAfter, PausedUntil, Reset;
    RunStepSafe(states, events, k);
    assert Step(states[k], events[k], states[k + 1]);
    FailingPauses(states[k], events[k], states[k + 1], o);
    if k + 1 < j {
      var i := j - 1;
      OperationPresent(states, events, k + 1, i, j, o);
      PauseKept(states, events, k, i, o);
      RunStepSafe(states, events, i);
      assert Step(states[i], events[i], states[j]);
      assert !Leases(events[i], o) && !ResetAt(states, o, i);
      if states[i].operations[o].status.Final() {
        FinalMove(states[i], events[i], states[j], o);
      } else {
        UnleasedMove(states[i], events[i], states[j], o);
      }
    }
  }

  /** An operation that failed with n attempts used up and will be retried is due again,
      exactly, 5 * n * n seconds or five minutes after the failure, whichever is sooner. */
  lemma DueAfterPause(states: seq<Db>, events: seq<Event>, k: nat, j: nat, o: Id)
    requires IsRun(states, events) && k < j < |states| && RetriesAfter(states[k], events[k], o) && o in states[j].operations
    requires forall m: nat :: k < m < j ==> !Leases(events[m], o) && !ResetAt(states, o, m)
    requires !states[j].operations[o].status.Final()
    ensures o in states[k].operations && 1 <= states[k].operations[o].attempts
    ensures var n, waited := states[k].operations[o].attempts, states[j].now - states[k].now;
      Due(states[j].operations[o], states[j].now) <==> waited >= if n >= 8 then 300 * SECOND else 5 * n * n * SECOND
  {
    hide IsRun, RetriesAfter, ResetAt, Leases;
    PauseKept(states, events, k, j, o);
  }

  /** And no statement takes it before, whoever runs it. */
  lemma {:induction false} NotLeasedInPause(states: seq<Db>, events: seq<Event>, k: nat, j: nat, o: Id)
    requires IsRun(states, events) && k < j < |events| && RetriesAfter(states[k], events[k], o) && Leases(events[j], o)
    requires forall m: nat :: k < m < j ==> !ResetAt(states, o, m)
    ensures o in states[k].operations && 1 <= states[k].operations[o].attempts
    ensures var n, waited := states[k].operations[o].attempts, states[j].now - states[k].now;
      waited >= if n >= 8 then 300 * SECOND else 5 * n * n * SECOND
  {
    hide Step, Inv, RetriesAfter, ResetAt, Evolves;
    if i: nat :| k < i < j && Leases(events[i], o) {
      NotLeasedInPause(states, events, k, i, o);
      RunEvolves(states, events, i, j);
      ClockAdvances(states[i], states[j]);
    } else {
      assert Step(states[j], events[j], states[j + 1]);
      LeasedStep(states[j], events[j], states[j + 1]);
      LeasedIsDue(states[j], events[j].limit, events[j].locked, events[j].chosen, o);
      DueAfterPause(states, events, k, j, o);
    }
  }

  lemma ClockAdvances(a: Db, b: Db)
    requires Evolves(a, b)
    ensures a.now <= b.now
  {}

  lemma LeasedIsDue(db: Db, limit: nat, locked: set<Id>, chosen: set<Id>, o: Id)
    requires LeaseChoice(db, limit, locked, chosen) && o in chosen
    ensures o in db.operations && Due(db.operations[o], db.now) && !db.operations[o].status.Final()
  {
    ChoiceIffFair(db, limit, locked, chosen);
    assert Waiting(db, o);
    hide LeaseChoice, Waiting, FairChoice;
    WaitingIsDue(db, o);
  }

  lemma WaitingIsDue(db: Db, o: Id)
    requires Waiting(db, o)
    ensures o in db.operations && Due(db.operations[o], db.now) && !db.operations[o].status.Final()
  {}

  // ---- how long a lease lasts ----

  /** The event gives this worker the lease of the operation, for so many seconds from now. */
  predicate Grants(db: Db, e: Event, o: Id, owner: string, seconds: nat) {
    o in db.operations &&
    ((e.OperationsLeased? && o in e.chosen && e.owner == owner && e.seconds == seconds) ||
     (e.LeaseRenewed? && e.id == o && e.owner == owner && e.seconds == seconds &&
      db.operations[o].status.Leased? && db.operations[o].owner == Some(owner)))
  }

  predicate GrantsAny(db: Db, e: Event, o: Id) {
    Leases(e, o) || (e.LeaseRenewed? && e.id == o && HoldsLease(db, o, e.owner))
  }

  predicate LeasedUntil(row: Operation, owner: string, until: Time) {
    row.status.Leased? ==> row.owner == Some(owner) && row.leaseExpires == Some(until)
  }

  lemma GrantStep(a: Db, e: Event, b: Db, o: Id, owner: string, seconds: nat)
    requires Step(a, e, b) && Grants(a, e, o, owner, seconds)
    ensures o in b.operations && b.operations[o].status.Leased? && LeasedUntil(b.operations[o], owner, a.now + seconds * SECOND)
  {
    hide Step;
    if e.OperationsLeased? {
      LeasedStep(a, e, b);
      TakenRow(a, owner, seconds, e.chosen, o);
      hide LeaseOperations, LeaseChoice;
    } else {
      RenewedStep(a, e, b);
    }
  }

  lemma RenewedStep(a: Db, e: Event, b: Db)
    requires Step(a, e, b) && e.LeaseRenewed?
    ensures b == After(a, RenewOperationLease(a, e.id, e.owner, e.seconds))
  {
    hide RenewOperationLease;
  }

  lemma UngrantedMove(a: Db, e: Event, b: Db, o: Id, owner: string, until: Time)
    requires Inv(a) && Step(a, e, b) && Safe(a, b, MovesOf(e)) && !GrantsAny(a, e, o) && o in a.operations && o in b.operations
    requires LeasedUntil(a.operations[o], owner, until)
    ensures LeasedUntil(b.operations[o], owner, until)
  {
    hide Step, Inv, Safe, MovesOf, OpMoved;
    if e.OperationsLeased? {
      LeasedStep(a, e, b);
      TakenRow(a, e.owner, e.seconds, e.chosen, o);
    } else if e.LeaseRenewed? {
      RenewedStep(a, e, b);
    } else {
      MoveOfOne(a, b, MovesOf(e), o);
      LeaseMove(a.operations[o], b.operations[o], a.now, e, owner, until);
    }
  }

  lemma LeaseMove(a: Operation, b: Operation, now: Time, e: Event, owner: string, until: Time)
    requires OpMoved(a, b, now, MovesOf(e)) && !e.OperationsLeased? && !e.LeaseRenewed? && LeasedUntil(a, owner, until)
    ensures LeasedUntil(b, owner, until)
  {}

  lemma {:induction false} LeaseKept(states: seq<Db>, events: seq<Event>, k: nat, j: nat, o: Id, owner: string, seconds: nat)
    requires IsRun(states, events) && k < j < |states| && Grants(states[k], events[k], o, owner, seconds) && o in states[j].operations
    requires forall m: nat :: k < m < j ==> !GrantsAny(states[m], events[m], o)
    ensures LeasedUntil(states[j].operations[o], owner, states[k].now + seconds * SECOND)
  {
    hide Step, Inv, Safe, LeasedUntil, Grants, GrantsAny;
    assert Step(states[k], events[k], states[k + 1]);
    GrantStep(states[k], events[k], states[k + 1], o, owner, seconds);
    if k + 1 < j {
      var i := j - 1;
      OperationPresent(states, events, k + 1, i, j, o);
      LeaseKept(states, events, k, i, o, owner, seconds);
      RunStepSafe(states, events, i);
      assert Step(states[i], events[i], states[j]);
      assert !GrantsAny(states[i], events[i], o);
      UngrantedMove(states[i], events[i], states[j], o, owner, states[k].now + seconds * SECOND);
    }
  }

  /** A lease that was taken or renewed for so many seconds and not since keeps other workers
      away exactly that long: for as long as the operation is not over, they may take it, if
      nothing else of its machine is being worked on, from then on and not before. */
  lemma LeaseLasts(states: seq<Db>, events: seq<Event>, k: nat, j: nat, o: Id, owner: string, seconds: nat)
    requires IsRun(states, events) && k < j < |states| && Grants(states[k], events[k], o, owner, seconds) && o in states[j].operations
    requires forall m: nat :: k < m < j ==> !GrantsAny(states[m], events[m], o)
    requires states[j].operations[o].status.Leased?
    ensures states[j].operations[o].owner == Some(owner)
    ensures Due(states[j].operations[o], states[j].now) <==> states[j].now > states[k].now + seconds * SECOND
    ensures LiveLease(states[j].operations[o], states[j].now) <==> states[j].now <= states[k].now + seconds * SECOND
  {
    hide IsRun, Grants, GrantsAny;
    LeaseKept(states, events, k, j, o, owner, seconds);
  }
}
