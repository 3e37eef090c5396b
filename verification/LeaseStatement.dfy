/** The lease statement itself (BE/internal/repository/dev_machine.go:440-468): rank the rows
    of each machine, keep those of rank one that nobody has locked, order them and cut the
    list at the limit. It takes exactly the sets of rows that LeaseChoice describes. */
module LeaseStatement {
  import opened Wrappers
  import opened Domain
  import opened Store
  import opened Sets

  /** How the database happens to order rows its ORDER BY does not tell apart. */
  type Ties = Id -> int

  ghost predicate Tieless(db: Db, ties: Ties) {
    forall o, p :: o in db.operations && p in db.operations && ties(o) == ties(p) ==> o == p
  }

  ghost predicate Comes(db: Db, ties: Ties, o: Id, p: Id) {
    o in db.operations && p in db.operations &&
    (Before(db.operations[o], db.operations[p]) || (!Before(db.operations[p], db.operations[o]) && ties(o) < ties(p)))
  }

  predicate Siblings(db: Db, o: Id, p: Id) {
    o in db.operations && p in db.operations && db.operations[o].job.machine == db.operations[p].job.machine
  }

  /** ROW_NUMBER() OVER (PARTITION BY machine_id ORDER BY ...) is one. */
  ghost predicate RankOne(db: Db, ties: Ties, o: Id) {
    Leasable(db, o) && forall p :: p != o && Leasable(db, p) && Siblings(db, o, p) ==> Comes(db, ties, o, p)
  }

  ghost function Candidates(db: Db, ties: Ties, locked: set<Id>): set<Id> {
    set o | o in db.operations && LeasableNow(db, locked, o) && RankOne(db, ties, o)
  }

  ghost function Ahead(db: Db, ties: Ties, rows: set<Id>, o: Id): set<Id> {
    set p | p in rows && Comes(db, ties, p, o)
  }

  /** ORDER BY ... LIMIT. */
  ghost function FirstRows(db: Db, ties: Ties, rows: set<Id>, limit: nat): set<Id> {
    set o | o in rows && |Ahead(db, ties, rows, o)| < limit
  }

  ghost function Statement(db: Db, inner: Ties, outer: Ties, locked: set<Id>, limit: nat): set<Id> {
    FirstRows(db, outer, Candidates(db, inner, locked), limit)
  }

  // ---- the order ----

  lemma ComesTotal(db: Db, ties: Ties, o: Id, p: Id)
    requires Tieless(db, ties) && o in db.operations && p in db.operations && o != p
    ensures Comes(db, ties, o, p) <==> !Comes(db, ties, p, o)
  {}

  lemma ComesTransitive(db: Db, ties: Ties, o: Id, p: Id, q: Id)
    requires Comes(db, ties, o, p) && Comes(db, ties, p, q)
    ensures Comes(db, ties, o, q)
  {}

  lemma NotBeforeTransitive(o: Operation, p: Operation, q: Operation)
    requires !Before(o, p) && !Before(p, q)
    ensures !Before(o, q)
  {}

  lemma {:induction false} LastExists(db: Db, ties: Ties, rows: set<Id>) returns (last: Id)
    requires Tieless(db, ties) && rows != {} && rows <= db.operations.Keys
    ensures last in rows && forall o :: o in rows && o != last ==> Comes(db, ties, o, last)
  {
    hide Comes, Tieless;
    var o :| o in rows;
    var rest := rows - {o};
    assert forall p :: p in rows ==> p == o || p in rest;
    last := o;
    if rest != {} {
      var l := LastExists(db, ties, rest);
      ComesTotal(db, ties, o, l);
      if Comes(db, ties, o, l) {
        last := l;
      } else {
        forall p | p in rest && p != l
          ensures Comes(db, ties, p, o)
        {
          ComesTransitive(db, ties, p, l, o);
        }
      }
    }
  }

  /** LIMIT takes as many rows as there are, up to the limit. */
  lemma {:induction false} FirstRowsSize(db: Db, ties: Ties, rows: set<Id>, limit: nat)
    requires Tieless(db, ties) && rows <= db.operations.Keys
    ensures |FirstRows(db, ties, rows, limit)| == if |rows| < limit then |rows| else limit
  {
    if rows == {} {
      assert FirstRows(db, ties, rows, limit) == {};
    } else {
      var last := LastExists(db, ties, rows);
      var rest := rows - {last};
      FirstRowsSize(db, ties, rest, limit);
      LastIsBehind(db, ties, rows, last);
      hide Tieless, Comes, Ahead;
      assert FirstRows(db, ties, rows, limit) == FirstRows(db, ties, rest, limit) + if |rest| < limit then {last} else {};
    }
  }

  lemma LastIsBehind(db: Db, ties: Ties, rows: set<Id>, last: Id)
    requires Tieless(db, ties) && rows <= db.operations.Keys
    requires last in rows && forall o :: o in rows && o != last ==> Comes(db, ties, o, last)
    ensures Ahead(db, ties, rows, last) == rows - {last}
    ensures forall o :: o in rows && o != last ==> Ahead(db, ties, rows, o) == Ahead(db, ties, rows - {last}, o)
  {
    forall o | o in rows && o != last
      ensures !Comes(db, ties, last, o)
    {
      ComesTotal(db, ties, o, last);
    }
    assert !Comes(db, ties, last, last);
    hide Comes, Tieless;
  }

  /** Every machine with something to lease has a row of rank one, and only one. */
  lemma RankOneExists(db: Db, ties: Ties, o: Id) returns (first: Id)
    requires Tieless(db, ties) && Leasable(db, o)
    ensures RankOne(db, ties, first) && Siblings(db, o, first) && (first == o || Comes(db, ties, first, o))
  {
    hide Leasable, Comes, Tieless;
    var rows := set p | p in db.operations && Leasable(db, p) && Siblings(db, o, p);
    LeasableStored(db);
    assert o in rows;
    first := FirstOf(db, ties, rows);
  }

  lemma LeasableStored(db: Db)
    ensures forall o :: Leasable(db, o) ==> o in db.operations
  {}

  lemma {:induction false} FirstOf(db: Db, ties: Ties, rows: set<Id>) returns (first: Id)
    requires Tieless(db, ties) && rows != {} && rows <= db.operations.Keys
    ensures first in rows && forall o :: o in rows && o != first ==> Comes(db, ties, first, o)
  {
    hide Comes, Tieless;
    var o :| o in rows;
    var rest := rows - {o};
    assert forall p :: p in rows ==> p == o || p in rest;
    first := o;
    if rest != {} {
      var f := FirstOf(db, ties, rest);
      ComesTotal(db, ties, o, f);
      if Comes(db, ties, f, o) {
        first := f;
      } else {
        forall p | p in rest && p != f
          ensures Comes(db, ties, o, p)
        {
          ComesTransitive(db, ties, o, f, p);
        }
      }
    }
  }

  lemma RankOneUnique(db: Db, ties: Ties, o: Id, p: Id)
    requires Tieless(db, ties) && RankOne(db, ties, o) && RankOne(db, ties, p) && Siblings(db, o, p)
    ensures o == p
  {
    hide Leasable;
    if o != p {
      ComesTotal(db, ties, o, p);
    }
  }

  // ---- every statement is such a choice ----

  /** A row that is cut off has the whole limit ahead of it. */
  lemma CutOff(db: Db, ties: Ties, rows: set<Id>, limit: nat, o: Id)
    requires Tieless(db, ties) && rows <= db.operations.Keys && o in rows && o !in FirstRows(db, ties, rows, limit)
    ensures |FirstRows(db, ties, rows, limit)| == limit
    ensures forall c :: c in FirstRows(db, ties, rows, limit) ==> Comes(db, ties, c, o)
  {
    FirstRowsSize(db, ties, rows, limit);
    NoLarger(Ahead(db, ties, rows, o), rows);
    hide Comes, Tieless;
    forall c | c in FirstRows(db, ties, rows, limit)
      ensures Comes(db, ties, c, o)
    {
      ComesTotal(db, ties, c, o);
      if Comes(db, ties, o, c) {
        forall p | p in Ahead(db, ties, rows, o)
          ensures p in Ahead(db, ties, rows, c)
        {
          ComesTransitive(db, ties, p, o, c);
        }
        NoLarger(Ahead(db, ties, rows, o), Ahead(db, ties, rows, c));
      }
    }
  }

  lemma ComesIsNotBefore(db: Db, ties: Ties, o: Id, p: Id)
    requires Comes(db, ties, o, p)
    ensures !Before(db.operations[p], db.operations[o])
  {}

  lemma CandidatesStored(db: Db, ties: Ties, locked: set<Id>)
    ensures Candidates(db, ties, locked) <= db.operations.Keys
    ensures forall c :: c in Candidates(db, ties, locked) <==> LeasableNow(db, locked, c) && RankOne(db, ties, c)
  {
    LeasableStored(db);
    hide Leasable, RankOne;
  }

  /** A machine the statement leaves out had its row cut off. */
  lemma LeftOutIsCutOff(db: Db, inner: Ties, outer: Ties, locked: set<Id>, limit: nat, o: Id)
    requires Tieless(db, inner) && Tieless(db, outer) && LeasableNow(db, locked, o)
    requires LeftOut(db, Statement(db, inner, outer, locked, limit), o)
    ensures |Statement(db, inner, outer, locked, limit)| == limit
    ensures forall c :: c in Statement(db, inner, outer, locked, limit) ==> c in db.operations && o in db.operations && !Before(db.operations[o], db.operations[c])
  {
    hide Leasable, Before, Comes, Tieless, FirstRows, RankOne, Candidates;
    var rows := Candidates(db, inner, locked);
    CandidatesStored(db, inner, locked);
    var first := RankOneExists(db, inner, o);
    RankOneIsLeasable(db, inner, first);
    FirstRowsOfRows(db, outer, rows, limit);
    CutOff(db, outer, rows, limit, first);
    LeasableStored(db);
    forall c | c in Statement(db, inner, outer, locked, limit)
      ensures c in db.operations && !Before(db.operations[o], db.operations[c])
    {
      ComesIsNotBefore(db, outer, c, first);
      if first != o {
        ComesIsNotBefore(db, inner, first, o);
        NotBeforeTransitive(db.operations[o], db.operations[first], db.operations[c]);
      }
    }
  }

  lemma RankOneIsLeasable(db: Db, ties: Ties, o: Id)
    requires RankOne(db, ties, o)
    ensures Leasable(db, o)
  {}

  lemma FirstRowsOfRows(db: Db, ties: Ties, rows: set<Id>, limit: nat)
    ensures FirstRows(db, ties, rows, limit) <= rows
  {}

  lemma StatementIsChoice(db: Db, inner: Ties, outer: Ties, locked: set<Id>, limit: nat)
    requires Tieless(db, inner) && Tieless(db, outer)
    ensures LeaseChoice(db, limit, locked, Statement(db, inner, outer, locked, limit))
  {
    hide Leasable, Before, Comes, Tieless, FirstRows, RankOne, Candidates, Statement;
    var chosen := Statement(db, inner, outer, locked, limit);
    assert chosen <= Candidates(db, inner, locked) && |chosen| <= limit by {
      StatementSize(db, inner, outer, locked, limit);
    }
    CandidatesStored(db, inner, locked);
    LeasableStored(db);
    hide LeftOut, LeasableNow;
    assert OneOfEach(db, chosen) by {
      forall c, d | c in chosen && d in chosen && Siblings(db, c, d)
        ensures c == d
      {
        RankOneUnique(db, inner, c, d);
      }
    }
    forall c, o | c in chosen && Leasable(db, o) && db.operations[o].job.machine == db.operations[c].job.machine
      ensures !Before(db.operations[o], db.operations[c])
    {
      FirstOfMachine(db, inner, c, o);
    }
    forall o | LeasableNow(db, locked, o) && LeftOut(db, chosen, o)
      ensures |chosen| == limit && forall c :: c in chosen ==> !Before(db.operations[o], db.operations[c])
    {
      LeftOutIsCutOff(db, inner, outer, locked, limit, o);
    }
  }

  lemma StatementSize(db: Db, inner: Ties, outer: Ties, locked: set<Id>, limit: nat)
    requires Tieless(db, outer)
    ensures Statement(db, inner, outer, locked, limit) <= Candidates(db, inner, locked)
    ensures |Statement(db, inner, outer, locked, limit)| <= limit
  {
    CandidatesStored(db, inner, locked);
    FirstRowsSize(db, outer, Candidates(db, inner, locked), limit);
    FirstRowsOfRows(db, outer, Candidates(db, inner, locked), limit);
    hide Candidates, FirstRows, Tieless;
  }

  lemma FirstOfMachine(db: Db, ties: Ties, c: Id, o: Id)
    requires RankOne(db, ties, c) && Leasable(db, o) && Siblings(db, c, o)
    ensures !Before(db.operations[o], db.operations[c])
  {
    hide Leasable;
    if o != c {
      assert Comes(db, ties, c, o);
    }
  }

  // ---- and every such choice is a statement ----

  /** Ties are broken in favour of the chosen rows. */
  function Favouring(chosen: set<Id>): Ties {
    (o: Id) => if o in chosen then -1 - o else o
  }

  lemma FavouringIsTieless(db: Db, chosen: set<Id>)
    ensures Tieless(db, Favouring(chosen))
  {}

  lemma ChosenComes(db: Db, chosen: set<Id>, c: Id, o: Id)
    requires c in chosen && c in db.operations && o in db.operations && o !in chosen && !Before(db.operations[o], db.operations[c])
    ensures Comes(db, Favouring(chosen), c, o) && !Comes(db, Favouring(chosen), o, c)
  {}

  lemma ChosenIsCandidate(db: Db, limit: nat, locked: set<Id>, chosen: set<Id>, c: Id)
    requires LeaseChoice(db, limit, locked, chosen) && c in chosen
    ensures c in Candidates(db, Favouring(chosen), locked)
  {
    LeasableStored(db);
    hide Leasable, Comes, Before;
    forall p | p != c && Leasable(db, p) && Siblings(db, c, p)
      ensures Comes(db, Favouring(chosen), c, p)
    {
      ChosenComes(db, chosen, c, p);
    }
  }

  /** A candidate that was not chosen belongs to a machine that was left out. */
  lemma OtherIsLeftOut(db: Db, limit: nat, locked: set<Id>, chosen: set<Id>, o: Id)
    requires LeaseChoice(db, limit, locked, chosen) && o in Candidates(db, Favouring(chosen), locked) && o !in chosen
    ensures |chosen| == limit && forall c :: c in chosen ==> Comes(db, Favouring(chosen), c, o) && !Comes(db, Favouring(chosen), o, c)
  {
    hide Leasable, Comes, Before, Favouring;
    LeasableStored(db);
    FavouringIsTieless(db, chosen);
    forall c | c in chosen
      ensures !Siblings(db, c, o)
    {
      ChosenIsCandidate(db, limit, locked, chosen, c);
      if Siblings(db, c, o) {
        RankOneUnique(db, Favouring(chosen), c, o);
      }
    }
    assert LeftOut(db, chosen, o);
    forall c | c in chosen
      ensures Comes(db, Favouring(chosen), c, o) && !Comes(db, Favouring(chosen), o, c)
    {
      ChosenComes(db, chosen, c, o);
    }
  }

  lemma ChoiceIsStatement(db: Db, limit: nat, locked: set<Id>, chosen: set<Id>)
    requires LeaseChoice(db, limit, locked, chosen)
    ensures chosen == Statement(db, Favouring(chosen), Favouring(chosen), locked, limit)
  {
    var ties := Favouring(chosen);
    var rows := Candidates(db, ties, locked);
    var statement := Statement(db, ties, ties, locked, limit);
    assert |chosen| <= limit;
    hide Comes, Favouring, Candidates, LeaseChoice;
    forall c | c in chosen
      ensures c in statement
    {
      ChosenIsCandidate(db, limit, locked, chosen, c);
      forall p | p in Ahead(db, ties, rows, c)
        ensures p in chosen - {c}
      {
        if p !in chosen {
          OtherIsLeftOut(db, limit, locked, chosen, p);
        }
        NotBeforeItself(db, ties, c);
      }
      NoLarger(Ahead(db, ties, rows, c), chosen - {c});
    }
    forall o | o in statement
      ensures o in chosen
    {
      if o !in chosen {
        OtherIsLeftOut(db, limit, locked, chosen, o);
        forall c | c in chosen
          ensures c in Ahead(db, ties, rows, o)
        {
          ChosenIsCandidate(db, limit, locked, chosen, c);
        }
        NoLarger(chosen, Ahead(db, ties, rows, o));
      }
    }
  }

  lemma NotBeforeItself(db: Db, ties: Ties, o: Id)
    ensures !Comes(db, ties, o, o)
  {}

  /** What the statement takes, however the database orders rows that tie, is a choice, and
      every choice is what it takes under some such orders. */
  lemma StatementIffChoice(db: Db, limit: nat, locked: set<Id>, chosen: set<Id>)
    ensures LeaseChoice(db, limit, locked, chosen) <==>
            exists inner: Ties, outer: Ties ::
              Tieless(db, inner) && Tieless(db, outer) && chosen == Statement(db, inner, outer, locked, limit)
  {
    hide LeaseChoice, Statement, Favouring, Tieless;
    if LeaseChoice(db, limit, locked, chosen) {
      FavouringIsTieless(db, chosen);
      ChoiceIsStatement(db, limit, locked, chosen);
    }
    forall inner: Ties, outer: Ties | Tieless(db, inner) && Tieless(db, outer) && chosen == Statement(db, inner, outer, locked, limit)
      ensures LeaseChoice(db, limit, locked, chosen)
    {
      StatementIsChoice(db, inner, outer, locked, limit);
    }
  }
}
