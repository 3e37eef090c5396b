/** Parent links of issues (BE/internal/repository/issue.go, the checks of
    BE/internal/service/issue.go and the trigger of migration 000024). */
module IssueForest {
  import opened Wrappers
  import opened Sets

  type Id = nat

  /** The parent_id column. */
  type Parents = map<Id, Option<Id>>

  /** The k-th ancestor. */
  function Ancestor(p: Parents, x: Id, k: nat): Option<Id>
    decreases k
  {
    if k == 0 then Some(x)
    else if x in p && p[x].Some? then Ancestor(p, p[x].value, k - 1)
    else None
  }

  ghost predicate Acyclic(p: Parents) {
    forall x: Id, k: nat :: 1 <= k ==> Ancestor(p, x, k) != Some(x)
  }

  /** Some chain of parents leads from x up to y; every issue is above itself. */
  ghost predicate Above(p: Parents, y: Id, x: Id) {
    exists k: nat :: Ancestor(p, x, k) == Some(y)
  }

  lemma {:induction false} AncestorOfAncestor(p: Parents, x: Id, j: nat, k: nat)
    requires Ancestor(p, x, j).Some?
    ensures Ancestor(p, x, j + k) == Ancestor(p, Ancestor(p, x, j).value, k)
    decreases j
  {
    if j > 0 {
      AncestorOfAncestor(p, p[x].value, j - 1, k);
    }
  }

  // ---- the recursive queries ----

  /** The working table of the descendants query after n rounds. */
  function Level(p: Parents, root: Id, n: nat): set<Id>
    decreases n
  {
    if n == 0 then set x | x in p && p[x] == Some(root)
    else set x | x in p && p[x].Some? && p[x].value in Level(p, root, n - 1)
  }

  lemma {:induction false} LevelIsAncestor(p: Parents, root: Id, n: nat, x: Id)
    ensures x in Level(p, root, n) <==> Ancestor(p, x, n + 1) == Some(root)
    decreases n
  {
    if x in p && p[x].Some? {
      if n > 0 {
        LevelIsAncestor(p, root, n - 1, p[x].value);
      } else {
        assert Ancestor(p, p[x].value, 0) == Some(p[x].value);
      }
    }
  }

  /** On an acyclic map no issue comes up in two rounds. */
  lemma LevelsDisjoint(p: Parents, root: Id, m: nat, n: nat)
    requires Acyclic(p) && m < n
    ensures Level(p, root, m) !! Level(p, root, n)
  {
    forall x | x in Level(p, root, m)
      ensures x !in Level(p, root, n)
    {
      LevelIsAncestor(p, root, m, x);
      LevelIsAncestor(p, root, n, x);
      AncestorOfAncestor(p, x, m + 1, n - m);
    }
  }

  /** After an empty round all later rounds are empty. */
  lemma {:induction false} EmptyStays(p: Parents, root: Id, n: nat, m: nat)
    requires Level(p, root, n) == {} && n <= m
    ensures Level(p, root, m) == {}
  {
    if n < m {
      EmptyStays(p, root, n, m - 1);
    }
  }

  ghost predicate InLevelBefore(p: Parents, root: Id, n: nat, x: Id) {
    exists m: nat :: m < n && x in Level(p, root, m)
  }

  lemma LevelSteps(p: Parents, root: Id, n: nat)
    ensures Level(p, root, 0) == set x | x in p && p[x] == Some(root)
    ensures Level(p, root, n + 1) == set x | x in p && p[x].Some? && p[x].value in Level(p, root, n)
    ensures forall x :: !InLevelBefore(p, root, 0, x)
    ensures forall x :: InLevelBefore(p, root, n + 1, x) <==> InLevelBefore(p, root, n, x) || x in Level(p, root, n)
  {}

  lemma NewLevel(p: Parents, root: Id, n: nat)
    requires Acyclic(p)
    ensures forall x :: x in Level(p, root, n) ==> !InLevelBefore(p, root, n, x)
  {
    forall m: nat | m < n {
      LevelsDisjoint(p, root, m, n);
    }
  }

  /** WouldCreateCycle's query: on an acyclic map it terminates, with everything below the root. */
  method Descendants(p: Parents, root: Id) returns (found: set<Id>)
    requires Acyclic(p)
    ensures forall x :: x in found <==> x != root && Above(p, root, x)
  {
    hide Acyclic, InLevelBefore, Above, Level;
    found := {};
    ghost var n := 0;
    LevelSteps(p, root, 0);
    var working := set x | x in p && p[x] == Some(root);
    while working != {}
      invariant working == Level(p, root, n) && working <= p.Keys
      invariant forall x :: x in found <==> InLevelBefore(p, root, n, x)
      invariant found <= p.Keys
      decreases |p.Keys - found|
    {
      ghost var x :| x in working;
      NewLevel(p, root, n);
      LevelSteps(p, root, n);
      Shrinks(p.Keys, found, working, x);
      found := found + working;
      n := n + 1;
      working := set x | x in p && p[x].Some? && p[x].value in working;
    }
    forall x
      ensures x in found <==> x != root && Above(p, root, x)
    {
      FoundIsBelow(p, root, n, x);
    }
  }

  lemma Shrinks(all: set<Id>, found: set<Id>, more: set<Id>, x: Id)
    requires found <= all && more <= all && x in more && x !in found
    ensures |all - (found + more)| < |all - found|
  {
    assert all - (found + more) <= (all - found) - {x};
    NoLarger(all - (found + more), (all - found) - {x});
  }

  lemma FoundIsBelow(p: Parents, root: Id, n: nat, x: Id)
    requires Acyclic(p) && Level(p, root, n) == {}
    ensures InLevelBefore(p, root, n, x) <==> x != root && Above(p, root, x)
  {
    if InLevelBefore(p, root, n, x) {
      var m: nat :| m < n && x in Level(p, root, m);
      LevelIsAncestor(p, root, m, x);
    }
    if x != root && Above(p, root, x) {
      var k: nat :| Ancestor(p, x, k) == Some(root);
      LevelIsAncestor(p, root, k - 1, x);
      if n <= k - 1 {
        EmptyStays(p, root, n, k - 1);
      }
    }
  }

  ghost predicate SeenBefore(p: Parents, start: Id, n: nat, x: Id) {
    exists k: nat :: k < n && Ancestor(p, start, k) == Some(x)
  }

  lemma NotSeen(p: Parents, start: Id, n: nat)
    requires Acyclic(p) && Ancestor(p, start, n).Some?
    ensures !SeenBefore(p, start, n, Ancestor(p, start, n).value)
  {
    var x := Ancestor(p, start, n).value;
    if SeenBefore(p, start, n, x) {
      var k: nat :| k < n && Ancestor(p, start, k) == Some(x);
      AncestorOfAncestor(p, start, k, n - k);
    }
  }

  lemma SeeNext(p: Parents, start: Id, n: nat, x: Id)
    requires Ancestor(p, start, n).Some?
    ensures SeenBefore(p, start, n + 1, x) <==> SeenBefore(p, start, n, x) || x == Ancestor(p, start, n).value
  {}

  lemma ChainEnds(p: Parents, start: Id, n: nat, x: Id)
    requires x in p
    requires Ancestor(p, start, n).None? || Ancestor(p, start, n).value !in p
    ensures SeenBefore(p, start, n, x) <==> Above(p, x, start)
  {
    if Above(p, x, start) {
      var k: nat :| Ancestor(p, start, k) == Some(x);
      if n <= k {
        ChainStops(p, start, n, k);
      }
    }
  }

  /** Past the end of a chain there is nothing but an unknown issue. */
  lemma {:induction false} ChainStops(p: Parents, start: Id, n: nat, k: nat)
    requires n <= k && (Ancestor(p, start, n).None? || Ancestor(p, start, n).value !in p)
    ensures Ancestor(p, start, k).None? || Ancestor(p, start, k).value !in p
    decreases n
  {
    if n > 0 && start in p && p[start].Some? {
      ChainStops(p, p[start].value, n - 1, k - 1);
    }
  }

  /** The trigger's query: the chain of ancestors from `start`, itself included. */
  method Ancestors(p: Parents, start: Id) returns (found: set<Id>)
    requires Acyclic(p)
    ensures forall x :: x in found <==> x in p && Above(p, x, start)
  {
    hide Acyclic, SeenBefore, Above;
    found := {};
    var current := Some(start);
    ghost var n := 0;
    NothingSeen(p, start);
    while current.Some? && current.value in p
      invariant current == Ancestor(p, start, n)
      invariant forall x :: x in found <==> SeenBefore(p, start, n, x)
      invariant found <= p.Keys
      decreases |p.Keys - found|
    {
      NotSeen(p, start, n);
      Shrinks(p.Keys, found, {current.value}, current.value);
      forall x {
        SeeNext(p, start, n, x);
      }
      found := found + {current.value};
      AncestorOfAncestor(p, start, n, 1);
      current := p[current.value];
      n := n + 1;
    }
    forall x | x in p
      ensures x in found <==> Above(p, x, start)
    {
      ChainEnds(p, start, n, x);
    }
  }

  lemma NothingSeen(p: Parents, start: Id)
    ensures forall x :: !SeenBefore(p, start, 0, x)
  {}

  /** The acyclicity is needed: below an issue on a cycle no round of the query is empty. */
  lemma CyclesNeverEnd(p: Parents, root: Id, k: nat, n: nat)
    requires 1 <= k && Ancestor(p, root, k) == Some(root)
    ensures Level(p, root, n) != {}
  {
    Around(p, root, k, n + 1);
    var far := (n + 1) * k;
    assert far >= n + 1;
    AncestorExists(p, root, far - (n + 1), n + 1);
    var x := Ancestor(p, root, far - (n + 1)).value;
    AncestorOfAncestor(p, root, far - (n + 1), n + 1);
    LevelIsAncestor(p, root, n, x);
  }

  lemma {:induction false} Around(p: Parents, root: Id, k: nat, times: nat)
    requires Ancestor(p, root, k) == Some(root)
    ensures Ancestor(p, root, times * k) == Some(root)
  {
    if times > 0 {
      Around(p, root, k, times - 1);
      AncestorOfAncestor(p, root, (times - 1) * k, k);
      assert (times - 1) * k + k == times * k;
    }
  }

  lemma {:induction false} AncestorExists(p: Parents, x: Id, j: nat, k: nat)
    requires Ancestor(p, x, j + k).Some?
    ensures Ancestor(p, x, j).Some?
    decreases j
  {
    if j > 0 {
      AncestorExists(p, p[x].value, j - 1, k);
    }
  }

  // ---- when a new parent closes a cycle ----

  /** Following the chain from y, a new parent of i makes no difference before i is met. */
  lemma {:induction false} SameUntil(p: Parents, i: Id, parent: Id, y: Id, n: nat) returns (m: nat)
    requires Ancestor(p, y, n) == Some(i)
    ensures m <= n && Ancestor(p[i := Some(parent)], y, m) == Some(i)
    decreases n
  {
    if y == i {
      m := 0;
    } else {
      m := SameUntil(p, i, parent, p[y].value, n - 1);
      m := m + 1;
    }
  }

  lemma {:induction false} SameWithout(p: Parents, i: Id, parent: Option<Id>, y: Id, n: nat)
    requires forall k: nat :: k < n ==> Ancestor(p, y, k) != Some(i)
    ensures Ancestor(p[i := parent], y, n) == Ancestor(p, y, n)
    decreases n
  {
    if n > 0 {
      assert Ancestor(p, y, 0) != Some(i);
      if y in p && p[y].Some? {
        forall k: nat | k < n - 1
          ensures Ancestor(p, p[y].value, k) != Some(i)
        {
          assert Ancestor(p, y, k + 1) != Some(i);
        }
        SameWithout(p, i, parent, p[y].value, n - 1);
      }
    }
  }

  /** A cycle through x that meets y is a cycle through y. */
  lemma Rotate(p: Parents, x: Id, k: nat, y: Id, j: nat)
    requires Ancestor(p, x, k) == Some(x) && Ancestor(p, x, j) == Some(y)
    ensures Ancestor(p, y, k) == Some(y)
  {
    AncestorOfAncestor(p, x, j, k);
    AncestorOfAncestor(p, x, k, j);
  }

  /** A cycle there was not before goes through the new link, so i is above its new parent. */
  lemma NewCycleMeansAbove(p: Parents, i: Id, parent: Id, x: Id, k: nat)
    requires Acyclic(p) && 1 <= k && Ancestor(p[i := Some(parent)], x, k) == Some(x)
    ensures Above(p, i, parent)
  {
    var q := p[i := Some(parent)];
    var m := MeetsNewLink(p, i, parent, x, k);
    var j := SameUntil(p, i, parent, x, m);
    Rotate(q, x, k, i, j);
    assert Ancestor(q, parent, k - 1) == Some(i);
    ReachesBefore(p, i, parent, parent, k - 1);
  }

  lemma MeetsNewLink(p: Parents, i: Id, parent: Id, x: Id, k: nat) returns (m: nat)
    requires Acyclic(p) && 1 <= k && Ancestor(p[i := Some(parent)], x, k) == Some(x)
    ensures Ancestor(p, x, m) == Some(i)
  {
    if n: nat :| n < k && Ancestor(p, x, n) == Some(i) {
      m := n;
    } else {
      SameWithout(p, i, Some(parent), x, k);
      assert false;
    }
  }

  /** Whoever is above y with the new link to i counted in was above it, up to i, without. */
  lemma {:induction false} ReachesBefore(p: Parents, i: Id, parent: Id, y: Id, n: nat)
    requires Ancestor(p[i := Some(parent)], y, n) == Some(i)
    ensures Above(p, i, y)
    decreases n
  {
    if y == i {
      assert Ancestor(p, y, 0) == Some(i);
    } else {
      ReachesBefore(p, i, parent, p[y].value, n - 1);
      var k: nat :| Ancestor(p, p[y].value, k) == Some(i);
      assert Ancestor(p, y, k + 1) == Some(i);
    }
  }

  /** Making `parent` the parent of i closes a cycle exactly when i is above it. */
  lemma ClosesCycleIff(p: Parents, i: Id, parent: Id)
    requires Acyclic(p)
    ensures Acyclic(p[i := Some(parent)]) <==> !Above(p, i, parent)
  {
    if Above(p, i, parent) {
      var n: nat :| Ancestor(p, parent, n) == Some(i);
      var m := SameUntil(p, i, parent, parent, n);
      assert Ancestor(p[i := Some(parent)], i, m + 1) == Some(i);
    } else {
      var q := p[i := Some(parent)];
      forall x: Id, k: nat | 1 <= k
        ensures Ancestor(q, x, k) != Some(x)
      {
        if Ancestor(q, x, k) == Some(x) {
          NewCycleMeansAbove(p, i, parent, x, k);
        }
      }
    }
  }

  /** Forgetting a link, or an issue nobody links to any more, closes no cycle. */
  lemma {:induction false} FewerLinks(p: Parents, q: Parents, x: Id, n: nat)
    requires forall y :: y in q && q[y].Some? ==> y in p && p[y] == q[y]
    ensures Ancestor(q, x, n).Some? ==> Ancestor(p, x, n) == Ancestor(q, x, n)
    decreases n
  {
    if n > 0 && x in q && q[x].Some? {
      FewerLinks(p, q, q[x].value, n - 1);
    }
  }

  lemma FewerLinksAcyclic(p: Parents, q: Parents)
    requires Acyclic(p) && forall y :: y in q && q[y].Some? ==> y in p && p[y] == q[y]
    ensures Acyclic(q)
  {
    forall x: Id, k: nat | 1 <= k
      ensures Ancestor(q, x, k) != Some(x)
    {
      FewerLinks(p, q, x, k);
    }
  }

  /** The foreign key of parent_id. */
  ghost predicate Linked(p: Parents) {
    forall x :: x in p && p[x].Some? ==> p[x].value in p
  }

  lemma UnlinkedIsNotAbove(p: Parents, i: Id, x: Id)
    requires Linked(p) && i !in p && x in p
    ensures !Above(p, i, x)
  {
    forall n: nat
      ensures Ancestor(p, x, n) != Some(i)
    {
      StaysLinked(p, x, n);
    }
  }

  lemma {:induction false} StaysLinked(p: Parents, x: Id, n: nat)
    requires Linked(p) && x in p
    ensures Ancestor(p, x, n).Some? ==> Ancestor(p, x, n).value in p
    decreases n
  {
    if n > 0 && p[x].Some? {
      StaysLinked(p, p[x].value, n - 1);
    }
  }

  // ---- checks made before several writes ----

  /** Links of issues that are not above `parent` do not touch the chain above it. */
  lemma {:induction false} ManyLinks(p: Parents, issues: seq<Id>, parent: Option<Id>)
    requires Acyclic(p) && (parent.Some? ==> forall i :: i in issues ==> !Above(p, i, parent.value))
    ensures Acyclic(WithParent(p, issues, parent))
    ensures parent.Some? ==> forall x :: Above(WithParent(p, issues, parent), x, parent.value) <==> Above(p, x, parent.value)
  {
    if issues != [] {
      var rest, i := issues[..|issues| - 1], issues[|issues| - 1];
      ManyLinks(p, rest, parent);
      var q := WithParent(p, rest, parent);
      if parent.Some? {
        ClosesCycleIff(q, i, parent.value);
        forall x
          ensures Above(q[i := parent], x, parent.value) <==> Above(q, x, parent.value)
        {
          SameAbove(q, i, parent, parent.value, x);
        }
      } else {
        FewerLinksAcyclic(q, q[i := None]);
      }
    }
  }

  lemma SameAbove(p: Parents, i: Id, parent: Option<Id>, y: Id, x: Id)
    requires !Above(p, i, y)
    ensures Above(p[i := parent], x, y) <==> Above(p, x, y)
  {
    forall n: nat
      ensures Ancestor(p[i := parent], y, n) == Ancestor(p, y, n)
    {
      SameWithout(p, i, parent, y, n);
    }
    if Above(p[i := parent], x, y) {
      var n: nat :| Ancestor(p[i := parent], y, n) == Some(x);
      assert Ancestor(p, y, n) == Some(x);
    }
    if Above(p, x, y) {
      var n: nat :| Ancestor(p, y, n) == Some(x);
      assert Ancestor(p[i := parent], y, n) == Some(x);
    }
  }

  function WithParent(p: Parents, issues: seq<Id>, parent: Option<Id>): Parents {
    if issues == [] then p else WithParent(p, issues[..|issues| - 1], parent)[issues[|issues| - 1] := parent]
  }

  // ---- the repository and its checked writes ----

  datatype ParentError = NotFound | OwnParent | WouldCycle

  class IssueRepository {
    var parents: Parents

    ghost predicate Valid()
      reads this
    {
      Acyclic(parents) && Linked(parents)
    }

    constructor ()
      ensures Valid() && parents == map[]
    {
      parents := map[];
      new;
      assert forall x: Id, k: nat :: 1 <= k ==> Ancestor(map[], x, k).None?;
    }

    /** True exactly when setting the parent would create a cycle. */
    method WouldCreateCycle(issue: Id, parent: Id) returns (cycle: bool)
      requires Acyclic(parents)
      ensures cycle <==> !Acyclic(parents[issue := Some(parent)])
    {
      ClosesCycleIff(parents, issue, parent);
      if issue == parent {
        assert Ancestor(parents, parent, 0) == Some(issue);
        return true;
      }
      var descendants := Descendants(parents, issue);
      return parent in descendants;
    }

    /** The trigger raises its exception exactly when the write would create a cycle, so it
        never fires after the check. */
    method TriggerRejects(issue: Id, parent: Option<Id>) returns (rejects: bool)
      requires Valid()
      ensures rejects <==> !Acyclic(parents[issue := parent])
    {
      if parent.None? {
        FewerLinksAcyclic(parents, parents[issue := parent]);
        return false;
      }
      ClosesCycleIff(parents, issue, parent.value);
      if issue == parent.value {
        assert Ancestor(parents, issue, 0) == Some(issue);
        return true;
      }
      var ancestors := Ancestors(parents, parent.value);
      if parent.value in parents && issue !in parents {
        UnlinkedIsNotAbove(parents, issue, parent.value);
      } else if parent.value !in parents {
        StopsAtOnce(parents, parent.value, issue);
      }
      return issue in ancestors;
    }

    /** A new issue, possibly below an existing one. */
    method Create(issue: Id, parent: Option<Id>) returns (r: Result<(), ParentError>)
      requires Valid() && issue !in parents
      modifies this
      ensures Valid()
      ensures r.Success? <==> (parent.Some? ==> parent.value in old(parents))
      ensures parents == if r.Success? then old(parents)[issue := parent] else old(parents)
    {
      if parent.Some? {
        if parent.value !in parents {
          return Failure(NotFound);
        }
        UnlinkedIsNotAbove(parents, issue, parent.value);
        ClosesCycleIff(parents, issue, parent.value);
      } else {
        FewerLinksAcyclic(parents, parents[issue := parent]);
      }
      parents := parents[issue := parent];
      return Success(());
    }

    /** validateParentID followed by Update. */
    method UpdateParent(issue: Id, parent: Option<Id>) returns (r: Result<(), ParentError>)
      requires Valid() && issue in parents
      modifies this
      ensures Valid()
      ensures r.Success? <==> (parent.Some? ==> parent.value in old(parents) && Acyclic(old(parents)[issue := parent]))
      ensures parents == if r.Success? then old(parents)[issue := parent] else old(parents)
    {
      if parent.Some? {
        if parent.value == issue {
          assert Ancestor(parents[issue := parent], issue, 1) == Some(issue);
          return Failure(OwnParent);
        }
        if parent.value !in parents {
          return Failure(NotFound);
        }
        var cycle := WouldCreateCycle(issue, parent.value);
        if cycle {
          return Failure(WouldCycle);
        }
      } else {
        FewerLinksAcyclic(parents, parents[issue := parent]);
      }
      parents := parents[issue := parent];
      return Success(());
    }

    /** bulkUpdateParent: all checks are made before the first write, and that is enough. */
    method BulkUpdateParent(issues: seq<Id>, parent: Option<Id>) returns (r: Result<nat, ParentError>)
      requires Valid()
      modifies this
      ensures Valid()
      ensures r.Success? <==>
              && (parent.Some? ==> parent.value in old(parents))
              && forall i :: i in issues ==> i in old(parents) && (parent.Some? ==> Acyclic(old(parents)[i := parent]))
      ensures parents == if r.Success? then WithParent(old(parents), issues, parent) else old(parents)
    {
      if parent.Some? && parent.value !in parents {
        return Failure(NotFound);
      }
      for n := 0 to |issues|
        invariant parents == old(parents)
        invariant forall i :: i in issues[..n] ==> i in parents && (parent.Some? ==> Acyclic(parents[i := parent]))
      {
        if issues[n] !in parents {
          return Failure(NotFound);
        }
        if parent.Some? {
          var cycle := WouldCreateCycle(issues[n], parent.value);
          if cycle {
            return Failure(if parent.value == issues[n] then OwnParent else WouldCycle);
          }
        }
      }
      assert issues[..|issues|] == issues;
      if parent.Some? {
        forall i | i in issues
          ensures !Above(parents, i, parent.value)
        {
          ClosesCycleIff(parents, i, parent.value);
        }
      }
      var updated := 0;
      for n := 0 to |issues|
        invariant parents == WithParent(old(parents), issues[..n], parent) && parents.Keys == old(parents).Keys
        invariant Linked(parents)
      {
        assert issues[..n + 1][..n] == issues[..n];
        if parents[issues[n]] != parent {
          parents := parents[issues[n] := parent];
          updated := updated + 1;
        }
      }
      ManyLinks(old(parents), issues, parent);
      return Success(updated);
    }

    /** DELETE; the foreign key sets the children's parent to NULL. */
    method Delete(issue: Id)
      requires Valid()
      modifies this
      ensures Valid()
      ensures parents == map x | x in old(parents) && x != issue :: if old(parents)[x] == Some(issue) then None else old(parents)[x]
    {
      var after := map x | x in parents && x != issue :: if parents[x] == Some(issue) then None else parents[x];
      FewerLinksAcyclic(parents, after);
      parents := after;
    }
  }

  lemma StopsAtOnce(p: Parents, x: Id, y: Id)
    requires x !in p && x != y
    ensures !Above(p, y, x)
  {
    forall n: nat
      ensures Ancestor(p, x, n) != Some(y)
    {}
  }
}
