/** The burn-down of a cycle (BE/internal/repository/cycle.go): history is sorted in place
    and replayed day by day. */
module Burndown {
  import opened Wrappers
  import opened Sets

  type Id = nat

  /** Microseconds, in UTC. */
  type Time = int

  const DAY: int := 86_400_000_000

  datatype Field = Cycle | Status

  datatype Event = Event(issue: Id, field: Field, oldValue: Option<string>, newValue: Option<string>, at: Time)

  datatype IssueRow = IssueRow(id: Id, status: string)

  datatype Snapshot = Snapshot(status: string, inCycle: bool)

  datatype Point = Point(day: Time, scope: nat, started: nat, completed: nat)

  // ---- statuses ----

  predicate IsBlank(c: char) { c == ' ' || '\t' <= c <= '\r' }

  function TrimLeft(s: string): string {
    if s != "" && IsBlank(s[0]) then TrimLeft(s[1..]) else s
  }

  function TrimRight(s: string): string {
    if s != "" && IsBlank(s[|s| - 1]) then TrimRight(s[..|s| - 1]) else s
  }

  function Lower(c: char): char {
    if 'A' <= c <= 'Z' then c + ('a' - 'A') else c
  }

  /** What is left between the blanks, letter by letter. */
  function Folded(text: string): string {
    seq(|text|, i requires 0 <= i < |text| => if text[i] == ' ' then '_' else Lower(text[i]))
  }

  function NormalizeStatus(s: string): string {
    Folded(TrimRight(TrimLeft(s)))
  }

  predicate IsStarted(status: string) {
    NormalizeStatus(status) in ["in_progress", "in_review", "done"]
  }

  predicate IsCompleted(status: string) {
    NormalizeStatus(status) == "done"
  }

  /** Spaces, tabs and line ends. */
  predicate AllBlank(s: string) {
    forall k :: 0 <= k < |s| ==> s[k] as int == 32 || 9 <= s[k] as int <= 13
  }

  /** The text is the word, with capitals for letters and spaces for underscores allowed. */
  predicate Spells(text: string, word: string) {
    |text| == |word| &&
    forall k :: 0 <= k < |word| ==>
      text[k] == word[k] || ('a' <= word[k] <= 'z' && text[k] as int == word[k] as int - 32) || (word[k] == '_' && text[k] == ' ')
  }

  predicate SpelledAt(s: string, i: nat, j: nat, word: string) {
    i <= j <= |s| && AllBlank(s[..i]) && Spells(s[i..j], word) && AllBlank(s[j..])
  }

  /** The status is the word with blanks around it. */
  ghost predicate CountsAs(s: string, word: string) {
    exists i: nat, j: nat :: SpelledAt(s, i, j, word)
  }

  predicate IsLetter(c: char) { 'a' <= c <= 'z' }

  /** A word of small letters, with underscores between them. */
  predicate IsWord(word: string) {
    word != "" && IsLetter(word[0]) && IsLetter(word[|word| - 1]) && forall k :: 0 <= k < |word| ==> IsLetter(word[k]) || word[k] == '_'
  }

  lemma {:induction false} TrimLeftIs(s: string) returns (i: nat)
    ensures i <= |s| && AllBlank(s[..i]) && TrimLeft(s) == s[i..]
  {
    i := 0;
    if s != "" && IsBlank(s[0]) {
      var rest := TrimLeftIs(s[1..]);
      i := rest + 1;
      assert s[i..] == s[1..][rest..];
      assert s[..i] == [s[0]] + s[1..][..rest];
    }
  }

  lemma {:induction false} TrimRightIs(s: string) returns (j: nat)
    ensures j <= |s| && AllBlank(s[j..]) && TrimRight(s) == s[..j]
  {
    j := |s|;
    if s != "" && IsBlank(s[|s| - 1]) {
      var init := s[..|s| - 1];
      j := TrimRightIs(init);
      assert s[..j] == init[..j];
      assert s[j..] == init[j..] + [s[|s| - 1]];
    }
  }

  lemma {:induction false} TrimLeftTo(s: string, i: nat)
    requires i < |s| && AllBlank(s[..i]) && !IsBlank(s[i])
    ensures TrimLeft(s) == s[i..]
  {
    if i > 0 {
      assert s[..i][0] == s[0] && IsBlank(s[0]);
      assert s[..i] == [s[0]] + s[1..][..i - 1];
      TrimLeftTo(s[1..], i - 1);
      assert s[1..][i - 1..] == s[i..];
    }
  }

  lemma {:induction false} TrimRightTo(s: string, j: nat)
    requires 0 < j <= |s| && AllBlank(s[j..]) && !IsBlank(s[j - 1])
    ensures TrimRight(s) == s[..j]
  {
    if j < |s| {
      var init := s[..|s| - 1];
      assert s[j..][|s| - 1 - j] == s[|s| - 1] && IsBlank(s[|s| - 1]);
      assert forall k :: 0 <= k < |init| - j ==> init[j..][k] == s[j..][k];
      TrimRightTo(init, j);
      assert init[..j] == s[..j];
    }
  }

  lemma FoldedIff(text: string, word: string)
    requires IsWord(word)
    ensures Folded(text) == word <==> Spells(text, word)
  {
    if |text| == |word| {
      forall k | 0 <= k < |word|
        ensures Folded(text)[k] == word[k] <==>
                text[k] == word[k] || ('a' <= word[k] <= 'z' && text[k] as int == word[k] as int - 32) || (word[k] == '_' && text[k] == ' ')
      {}
    }
  }

  lemma NormalizedIsSpelled(s: string, word: string)
    requires IsWord(word) && NormalizeStatus(s) == word
    ensures CountsAs(s, word)
  {
    hide IsWord, Spells, Folded;
    var i := TrimLeftIs(s);
    var j := TrimRightIs(s[i..]);
    assert s[i..][..j] == s[i..i + j] && s[i..][j..] == s[i + j..];
    FoldedIff(s[i..i + j], word);
    hide AllBlank;
    assert SpelledAt(s, i, i + j, word);
  }

  lemma SpelledEdges(text: string, word: string)
    requires IsWord(word) && Spells(text, word)
    ensures text != "" && !IsBlank(text[0]) && !IsBlank(text[|text| - 1])
  {}

  lemma SpelledIsNormalized(s: string, i: nat, j: nat, word: string)
    requires IsWord(word) && SpelledAt(s, i, j, word)
    ensures NormalizeStatus(s) == word
  {
    var text := s[i..j];
    SpelledEdges(text, word);
    FoldedIff(text, word);
    hide IsWord, Spells, Folded, AllBlank, IsBlank;
    assert s[i] == text[0] && s[j - 1] == text[|text| - 1];
    TrimLeftTo(s, i);
    assert s[i..][j - i..] == s[j..] && s[i..][..j - i] == text && s[i..][j - i - 1] == s[j - 1];
    TrimRightTo(s[i..], j - i);
  }

  /** A status is normalised to a word exactly when it is that word with blanks around it. */
  lemma NormalizeIff(s: string, word: string)
    requires IsWord(word)
    ensures NormalizeStatus(s) == word <==> CountsAs(s, word)
  {
    hide IsWord, SpelledAt, NormalizeStatus;
    if NormalizeStatus(s) == word {
      NormalizedIsSpelled(s, word);
    } else if i: nat, j: nat :| SpelledAt(s, i, j, word) {
      SpelledIsNormalized(s, i, j, word);
    }
  }

  /** Done is completed; in progress, in review and done are started; nothing else is. */
  lemma StatusCounts(s: string)
    ensures IsCompleted(s) <==> CountsAs(s, "done")
    ensures IsStarted(s) <==> CountsAs(s, "in_progress") || CountsAs(s, "in_review") || CountsAs(s, "done")
  {
    NormalizeIff(s, "done");
    NormalizeIff(s, "in_progress");
    NormalizeIff(s, "in_review");
    hide NormalizeStatus, CountsAs;
  }

  /** An issue of which nothing is known yet counts nowhere. */
  lemma BacklogCountsNowhere()
    ensures !Backlog.inCycle && !IsStarted(Backlog.status) && !IsCompleted(Backlog.status)
  {
    assert "backlog"[..0] == "" && "backlog"[0..7] == "backlog" && "backlog"[7..] == "";
    assert SpelledAt("backlog", 0, 7, "backlog");
    NormalizeIff("backlog", "backlog");
  }

  // ---- sorting ----

  predicate Sorted(s: seq<Event>) {
    forall i, j :: 0 <= i < j < |s| ==> s[i].at <= s[j].at
  }

  /** The events of one instant, in their order. */
  function At(s: seq<Event>, t: Time): seq<Event> {
    if s == [] then [] else At(s[..|s| - 1], t) + if s[|s| - 1].at == t then [s[|s| - 1]] else []
  }

  /** The same events, those of one instant in the same order. */
  ghost predicate SameHistory(s: seq<Event>, t: seq<Event>) {
    multiset(s) == multiset(t) && forall time: Time :: At(s, time) == At(t, time)
  }

  lemma {:induction false} AtConcat(a: seq<Event>, b: seq<Event>, t: Time)
    ensures At(a + b, t) == At(a, t) + At(b, t)
  {
    if b == [] {
      assert a + b == a;
    } else {
      assert (a + b)[..|a + b| - 1] == a + b[..|b| - 1];
      AtConcat(a, b[..|b| - 1], t);
    }
  }

  function Swapped(s: seq<Event>, j: nat): seq<Event>
    requires 0 < j < |s|
  {
    s[..j - 1] + [s[j], s[j - 1]] + s[j + 1..]
  }

  lemma AtPair(x: Event, y: Event, t: Time)
    requires x.at != y.at
    ensures At([x, y], t) == At([y, x], t)
  {
    assert [x, y][..1] == [x] && [y, x][..1] == [y];
    assert At([x], t) == (if x.at == t then [x] else []) && At([y], t) == (if y.at == t then [y] else []);
  }

  lemma SwapKeepsHistory(s: seq<Event>, j: nat)
    requires 0 < j < |s| && s[j].at != s[j - 1].at
    ensures SameHistory(s, Swapped(s, j))
  {
    var before, after := s[..j - 1], s[j + 1..];
    assert s == before + [s[j - 1], s[j]] + after;
    forall t: Time
      ensures At(s, t) == At(Swapped(s, j), t)
    {
      AtConcat(before + [s[j - 1], s[j]], after, t);
      AtConcat(before, [s[j - 1], s[j]], t);
      AtConcat(before + [s[j], s[j - 1]], after, t);
      AtConcat(before, [s[j], s[j - 1]], t);
      AtPair(s[j - 1], s[j], t);
    }
  }

  lemma SameHistoryTransitive(a: seq<Event>, b: seq<Event>, c: seq<Event>)
    requires SameHistory(a, b) && SameHistory(b, c)
    ensures SameHistory(a, c)
  {}

  method Swap(a: array<Event>, j: nat)
    requires 0 < j < a.Length && a[j].at != a[j - 1].at
    modifies a
    ensures a[..] == Swapped(old(a[..]), j)
    ensures SameHistory(old(a[..]), a[..])
  {
    ghost var was := a[..];
    SwapKeepsHistory(was, j);
    hide SameHistory;
    a[j], a[j - 1] := a[j - 1], a[j];
    assert a[..] == Swapped(was, j);
  }

  /** The first i + 1 events are in order, but for the one at j. */
  predicate SortedBut(s: seq<Event>, i: nat, j: nat)
    requires i < |s|
  {
    forall p, q :: 0 <= p < q <= i && q != j ==> s[p].at <= s[q].at
  }

  predicate SortedUpTo(s: seq<Event>, i: nat)
  {
    forall p, q :: 0 <= p < q < i && q < |s| ==> s[p].at <= s[q].at
  }

  lemma GapOpens(s: seq<Event>, i: nat)
    requires i < |s| && SortedUpTo(s, i)
    ensures SortedBut(s, i, i)
  {}

  lemma GapCloses(s: seq<Event>, i: nat, j: nat)
    requires j <= i < |s| && SortedBut(s, i, j) && (j > 0 ==> s[j - 1].at <= s[j].at)
    ensures SortedUpTo(s, i + 1)
  {}

  lemma AllSorted(s: seq<Event>, i: nat)
    requires SortedUpTo(s, i) && |s| <= i
    ensures Sorted(s)
  {}

  lemma SwapMovesGap(s: seq<Event>, i: nat, j: nat)
    requires 0 < j <= i < |s| && SortedBut(s, i, j) && s[j].at < s[j - 1].at
    ensures SortedBut(Swapped(s, j), i, j - 1)
  {}

  /** Insertion sort, swapping neighbours; events of one instant keep their order. */
  method SortEvents(a: array<Event>)
    modifies a
    ensures Sorted(a[..]) && SameHistory(old(a[..]), a[..])
  {
    ghost var before := a[..];
    SameHistoryReflexive(before);
    assert SortedUpTo(before, 1);
    hide SameHistory, SortedUpTo, SortedBut, Swapped;
    var i := 1;
    while i < a.Length
      invariant 1 <= i
      invariant SortedUpTo(a[..], i)
      invariant SameHistory(before, a[..])
    {
      var j := i;
      GapOpens(a[..], i);
      while j > 0 && a[j].at < a[j - 1].at
        invariant 0 <= j <= i < a.Length
        invariant SortedBut(a[..], i, j)
        invariant SameHistory(before, a[..])
      {
        ghost var was := a[..];
        SwapMovesGap(was, i, j);
        Swap(a, j);
        SameHistoryTransitive(before, was, a[..]);
        j := j - 1;
      }
      GapCloses(a[..], i, j);
      i := i + 1;
    }
    AllSorted(a[..], i);
  }

  lemma SameHistoryReflexive(s: seq<Event>)
    ensures SameHistory(s, s)
  {}

  // ---- replaying ----

  /** What one event does to the snapshot of its issue. */
  function Apply(s: Snapshot, e: Event, cycle: string): Snapshot {
    match e.field
    case Cycle =>
      if e.newValue == Some(cycle) then s.(inCycle := true)
      else if e.oldValue == Some(cycle) then s.(inCycle := false)
      else s
    case Status => if e.newValue.Some? then s.(status := e.newValue.value) else s
  }

  /** The snapshots after events i up to j. */
  function Replay(events: seq<Event>, i: nat, j: nat, cycle: string, m: map<Id, Snapshot>): (after: map<Id, Snapshot>)
    requires i <= j <= |events|
    ensures after.Keys == m.Keys
  {
    if i == j then m
    else
      var before := Replay(events, i, j - 1, cycle, m);
      var e := events[j - 1];
      if e.issue in before then before[e.issue := Apply(before[e.issue], e, cycle)] else before
  }

  /** Events of one kind on one issue, in a half-open interval of time. */
  datatype Query = Query(issue: Id, field: Field, cycle: string, lo: Option<Time>, hi: Option<Time>)

  predicate Matches(e: Event, q: Query) {
    && e.issue == q.issue && e.field == q.field
    && (q.field.Cycle? ==> e.newValue == Some(q.cycle) || e.oldValue == Some(q.cycle))
    && (q.field.Status? ==> e.newValue.Some?)
    && (q.lo.Some? ==> q.lo.value <= e.at) && (q.hi.Some? ==> e.at < q.hi.value)
  }

  /** The last match in a stretch of the sequence. */
  function LastIn(s: seq<Event>, i: nat, j: nat, q: Query): Option<Event>
    requires i <= j <= |s|
  {
    if i == j then None else if Matches(s[j - 1], q) then Some(s[j - 1]) else LastIn(s, i, j - 1, q)
  }

  /** The latest match of an unsorted history, the last of several at one instant. */
  function Latest(s: seq<Event>, q: Query): Option<Event> {
    if s == [] then None
    else
      var best := Latest(s[..|s| - 1], q);
      if Matches(s[|s| - 1], q) && (best.None? || best.value.at <= s[|s| - 1].at) then Some(s[|s| - 1]) else best
  }

  /** A snapshot updated by the latest status and the latest move in or out of the cycle. */
  function Resolved(base: Snapshot, status: Option<Event>, move: Option<Event>, cycle: string): Snapshot {
    Snapshot(if status.Some? && status.value.newValue.Some? then status.value.newValue.value else base.status,
             if move.Some? then move.value.newValue == Some(cycle) else base.inCycle)
  }

  function Of(id: Id, field: Field, cycle: string): Query { Query(id, field, cycle, None, None) }

  /** Only the last status and the last move of an issue matter. */
  lemma {:induction false} ReplayIsLast(s: seq<Event>, i: nat, j: nat, cycle: string, m: map<Id, Snapshot>, id: Id)
    requires i <= j <= |s| && id in m
    ensures Replay(s, i, j, cycle, m)[id] ==
            Resolved(m[id], LastIn(s, i, j, Of(id, Status, cycle)), LastIn(s, i, j, Of(id, Cycle, cycle)), cycle)
  {
    if i < j {
      ReplayIsLast(s, i, j - 1, cycle, m, id);
    }
  }

  /** `n` is where the events at `t` or later begin. */
  ghost predicate Boundary(s: seq<Event>, n: nat, t: Time) {
    n <= |s| && (forall k :: 0 <= k < n ==> s[k].at < t) && (forall k :: n <= k < |s| ==> t <= s[k].at)
  }

  /** Bounding the index of a sorted history is bounding the time. */
  lemma {:induction false} LastBetween(s: seq<Event>, i: nat, j: nat, n: nat, q: Query, lo: Option<Time>, hi: Time)
    requires n <= |s| && i <= j && Boundary(s, j, hi) && (if lo.None? then i == 0 else Boundary(s, i, lo.value))
    requires q.lo == None && q.hi == None
    ensures LastIn(s, 0, n, q.(lo := lo, hi := Some(hi))) ==
            if n <= i then None else LastIn(s, i, if n <= j then n else j, q)
  {
    if n > 0 {
      LastBetween(s, i, j, n - 1, q, lo, hi);
    }
  }

  // ---- the latest event does not depend on the sorting ----

  ghost predicate IsLatest(s: seq<Event>, q: Query, r: Option<Event>) {
    if r.None? then forall e :: e in s ==> !Matches(e, q)
    else
      && r.value in s && Matches(r.value, q)
      && (forall e :: e in s && Matches(e, q) ==> e.at <= r.value.at)
      && Latest(At(s, r.value.at), q) == r
  }

  lemma AtLast(s: seq<Event>, t: Time)
    requires s != []
    ensures var init, last := s[..|s| - 1], s[|s| - 1];
      At(s, t) == if last.at == t then At(init, t) + [last] else At(init, t)
  {}

  lemma LatestAppend(s: seq<Event>, e: Event, q: Query)
    ensures Latest(s + [e], q) ==
            if Matches(e, q) && (Latest(s, q).None? || Latest(s, q).value.at <= e.at) then Some(e) else Latest(s, q)
  {
    assert (s + [e])[..|s|] == s;
  }

  lemma {:induction false} LatestAtInstant(s: seq<Event>, q: Query, t: Time)
    ensures Latest(At(s, t), q).Some? ==> Latest(At(s, t), q).value.at == t
  {
    if s != [] {
      LatestAtInstant(s[..|s| - 1], q, t);
      AtLast(s, t);
      LatestAppend(At(s[..|s| - 1], t), s[|s| - 1], q);
    }
  }

  lemma {:induction false} LatestIsLatest(s: seq<Event>, q: Query)
    ensures IsLatest(s, q, Latest(s, q))
  {
    if s != [] {
      var init, last := s[..|s| - 1], s[|s| - 1];
      LatestIsLatest(init, q);
      assert s == init + [last];
      if Latest(s, q).Some? {
        var t := Latest(s, q).value.at;
        LatestAtInstant(init, q, t);
        AtLast(s, t);
        LatestAppend(At(init, t), last, q);
      }
    }
  }

  lemma LatestOfSameHistory(s: seq<Event>, t: seq<Event>, q: Query)
    requires SameHistory(s, t)
    ensures Latest(s, q) == Latest(t, q)
  {
    LatestIsLatest(s, q);
    LatestIsLatest(t, q);
    SameMembers(s, t);
    assert forall time: Time :: At(s, time) == At(t, time);
    hide SameHistory, At, Matches;
    var r, u := Latest(s, q), Latest(t, q);
    if r.Some? && u.Some? {
      assert r.value.at == u.value.at;
    }
  }

  lemma SameMembers(s: seq<Event>, t: seq<Event>)
    requires SameHistory(s, t)
    ensures forall e :: e in s <==> e in t
  {
    forall e
      ensures e in s <==> e in t
    {
      assert e in s <==> e in multiset(s);
      assert e in t <==> e in multiset(t);
    }
  }

  lemma {:induction false} LatestOfSorted(s: seq<Event>, n: nat, q: Query)
    requires Sorted(s) && n <= |s|
    ensures Latest(s[..n], q) == LastIn(s, 0, n, q)
    ensures LastIn(s, 0, n, q).Some? ==> LastIn(s, 0, n, q).value in s[..n]
  {
    if n > 0 {
      LatestOfSorted(s, n - 1, q);
      assert s[..n][..n - 1] == s[..n - 1];
    }
  }

  // ---- the burn-down itself ----

  function Ids(current: seq<IssueRow>, cycleEvents: seq<Event>): set<Id> {
    (set row | row in current :: row.id) + (set e | e in cycleEvents :: e.issue)
  }

  function RowOf(current: seq<IssueRow>, id: Id): Option<IssueRow> {
    if current == [] then None
    else if current[|current| - 1].id == id then Some(current[|current| - 1])
    else RowOf(current[..|current| - 1], id)
  }

  predicate HasMoves(cycleEvents: seq<Event>, id: Id) {
    exists e :: e in cycleEvents && e.issue == id
  }

  const Backlog := Snapshot("backlog", false)

  /** An issue without moves that is in the cycle now has been in it from the start, with
      the status it has now. */
  function InitialOf(current: seq<IssueRow>, cycleEvents: seq<Event>, id: Id): Option<Snapshot> {
    if RowOf(current, id).Some? && !HasMoves(cycleEvents, id) then Some(Snapshot(RowOf(current, id).value.status, true)) else None
  }

  datatype Request = Request(cycle: string, current: seq<IssueRow>, cycleEvents: seq<Event>, statusEvents: seq<Event>, start: Time, end: Time)

  /** What is known of an issue just before `t`: its latest status and move, counted from the
      start of the cycle when its initial snapshot is known, else from the beginning. */
  function StateAt(r: Request, id: Id, t: Time): Snapshot {
    var history := r.cycleEvents + r.statusEvents;
    var initial := InitialOf(r.current, r.cycleEvents, id);
    var lo := if initial.Some? then Some(r.start) else None;
    Resolved(if initial.Some? then initial.value else Backlog,
             Latest(history, Query(id, Status, r.cycle, lo, Some(t))), Latest(history, Query(id, Cycle, r.cycle, lo, Some(t))), r.cycle)
  }

  function InCycle(m: map<Id, Snapshot>): set<Id> { set id | id in m && m[id].inCycle }

  function Started(m: map<Id, Snapshot>): set<Id> { set id | id in m && m[id].inCycle && IsStarted(m[id].status) }

  function Completed(m: map<Id, Snapshot>): set<Id> { set id | id in m && m[id].inCycle && IsCompleted(m[id].status) }

  function Tally(m: map<Id, Snapshot>, day: Time): Point {
    Point(day, |InCycle(m)|, |Started(m)|, |Completed(m)|)
  }

  /** The point of a day: every issue as it was just before the next midnight. */
  function PointAt(r: Request, day: Time): Point {
    Tally(map id | id in Ids(r.current, r.cycleEvents) :: StateAt(r, id, day + DAY), day)
  }

  /** Completed issues are started, started ones in the cycle, and those among all issues. */
  lemma TallyOrdered(m: map<Id, Snapshot>, day: Time)
    ensures Tally(m, day).completed <= Tally(m, day).started <= Tally(m, day).scope <= |m.Keys|
  {
    NoLarger(Completed(m), Started(m));
    NoLarger(Started(m), InCycle(m));
    NoLarger(InCycle(m), m.Keys);
  }

  function Days(start: Time, last: Time): nat {
    if last < start then 0 else (last - start) / DAY + 1
  }

  /** The last day of the walk; a cycle without issues is cut off at this instant, any other
      at the last midnight. */
  function LastDay(r: Request, now: Time): Time {
    var limit := if Ids(r.current, r.cycleEvents) == {} then now else now / DAY * DAY;
    if limit < r.end then limit else r.end
  }

  /** On a start at midnight both cut-offs give the same days. */
  lemma CutOffsAgree(start: Time, end: Time, now: Time)
    requires start % DAY == 0
    ensures Days(start, if now < end then now else end) == Days(start, if now / DAY * DAY < end then now / DAY * DAY else end)
  {
    var today := now / DAY * DAY;
    assert today <= now < today + DAY && today % DAY == 0;
  }

  lemma DaysExactly(start: Time, last: Time, k: nat)
    ensures k < Days(start, last) <==> start + k * DAY <= last
  {}

  /** A day has a point exactly when it is not after the end of the cycle nor in the future. */
  lemma DaysShown(r: Request, now: Time, k: nat)
    ensures k < Days(r.start, LastDay(r, now)) <==>
            r.start + k * DAY <= r.end && r.start + k * DAY <= if r.current == [] && r.cycleEvents == [] then now else now - now % DAY
  {
    DaysExactly(r.start, LastDay(r, now), k);
    NoIssues(r);
    assert now / DAY * DAY == now - now % DAY;
  }

  lemma NoIssues(r: Request)
    ensures Ids(r.current, r.cycleEvents) == {} <==> r.current == [] && r.cycleEvents == []
  {
    if r.current != [] {
      assert r.current[0] in r.current && r.current[0].id in Ids(r.current, r.cycleEvents);
    }
    if r.cycleEvents != [] {
      assert r.cycleEvents[0] in r.cycleEvents && r.cycleEvents[0].issue in Ids(r.current, r.cycleEvents);
    }
  }

  /** The replayed snapshots are the reference ones: sorting, the replay before the start,
      the correction and the walk together compute the latest events of each issue. */
  lemma ReplayedState(r: Request, sorted: seq<Event>, i: nat, j: nat, t: Time, corrected: map<Id, Snapshot>, id: Id)
    requires Sorted(sorted) && SameHistory(r.cycleEvents + r.statusEvents, sorted)
    requires i <= j && Boundary(sorted, i, r.start) && Boundary(sorted, j, t) && id in corrected
    requires var initial := InitialOf(r.current, r.cycleEvents, id);
      corrected[id] == if initial.Some? then initial.value
                       else Resolved(Backlog, LastIn(sorted, 0, i, Of(id, Status, r.cycle)), LastIn(sorted, 0, i, Of(id, Cycle, r.cycle)), r.cycle)
    ensures Replay(sorted, i, j, r.cycle, corrected)[id] == StateAt(r, id, t)
  {
    var initial := InitialOf(r.current, r.cycleEvents, id);
    var lo := if initial.Some? then Some(r.start) else None;
    ReplayIsLast(sorted, i, j, r.cycle, corrected, id);
    LatestIsLastBetween(r, sorted, if initial.Some? then i else 0, j, t, Of(id, Status, r.cycle), lo);
    LatestIsLastBetween(r, sorted, if initial.Some? then i else 0, j, t, Of(id, Cycle, r.cycle), lo);
    LastOfTwo(sorted, i, j, Of(id, Status, r.cycle));
    LastOfTwo(sorted, i, j, Of(id, Cycle, r.cycle));
    MovesKnown(sorted, i, j, Of(id, Status, r.cycle));
    hide LastIn, Latest, Boundary, Sorted, SameHistory;
  }

  lemma LatestIsLastBetween(r: Request, sorted: seq<Event>, i: nat, j: nat, t: Time, q: Query, lo: Option<Time>)
    requires Sorted(sorted) && SameHistory(r.cycleEvents + r.statusEvents, sorted)
    requires i <= j && Boundary(sorted, j, t) && (if lo.None? then i == 0 else Boundary(sorted, i, lo.value))
    requires q.lo == None && q.hi == None
    ensures Latest(r.cycleEvents + r.statusEvents, q.(lo := lo, hi := Some(t))) == LastIn(sorted, i, j, q)
  {
    var bounded := q.(lo := lo, hi := Some(t));
    LatestOfSameHistory(r.cycleEvents + r.statusEvents, sorted, bounded);
    LatestOfSorted(sorted, |sorted|, bounded);
    assert sorted[..|sorted|] == sorted;
    LastBetween(sorted, i, j, |sorted|, q, lo, t);
  }

  lemma {:induction false} LastOfTwo(s: seq<Event>, i: nat, j: nat, q: Query)
    requires i <= j <= |s|
    ensures LastIn(s, 0, j, q) == if LastIn(s, i, j, q).Some? then LastIn(s, i, j, q) else LastIn(s, 0, i, q)
  {
    if i < j {
      LastOfTwo(s, i, j - 1, q);
    }
  }

  lemma {:induction false} MovesKnown(s: seq<Event>, i: nat, j: nat, q: Query)
    requires i <= j <= |s|
    ensures LastIn(s, i, j, q).Some? ==> Matches(LastIn(s, i, j, q).value, q)
  {
    if i < j {
      MovesKnown(s, i, j - 1, q);
    }
  }

  /** Both replay loops: apply the events before `t`. */
  method ReplayUntil(events: seq<Event>, i: nat, t: Time, cycle: string, m: map<Id, Snapshot>) returns (j: nat, after: map<Id, Snapshot>)
    requires Sorted(events) && i <= |events| && forall k :: 0 <= k < i ==> events[k].at < t
    requires forall e :: e in events ==> e.issue in m
    ensures i <= j && Boundary(events, j, t) && after == Replay(events, i, j, cycle, m)
  {
    j, after := i, m;
    while j < |events| && events[j].at < t
      invariant i <= j <= |events| && (forall k :: 0 <= k < j ==> events[k].at < t)
      invariant after == Replay(events, i, j, cycle, m)
    {
      var e := events[j];
      var snapshot := after[e.issue];
      if e.field.Cycle? {
        if e.newValue.Some? && e.newValue.value == cycle {
          snapshot := snapshot.(inCycle := true);
        } else if e.oldValue.Some? && e.oldValue.value == cycle {
          snapshot := snapshot.(inCycle := false);
        }
      } else if e.newValue.Some? {
        snapshot := snapshot.(status := e.newValue.value);
      }
      after := after[e.issue := snapshot];
      j := j + 1;
    }
  }

  method HasCycleEvent(cycleEvents: seq<Event>, id: Id) returns (found: bool)
    ensures found <==> HasMoves(cycleEvents, id)
  {
    for k := 0 to |cycleEvents|
      invariant forall l :: 0 <= l < k ==> cycleEvents[l].issue != id
    {
      if cycleEvents[k].issue == id {
        return true;
      }
    }
    return false;
  }

  /** Issues that are in the cycle now but have no move on record. */
  method CorrectInitial(r: Request, m: map<Id, Snapshot>) returns (after: map<Id, Snapshot>)
    requires m.Keys == Ids(r.current, r.cycleEvents)
    ensures after.Keys == m.Keys
    ensures forall id :: id in m ==>
              var initial := InitialOf(r.current, r.cycleEvents, id);
              after[id] == if initial.Some? then initial.value else m[id]
  {
    after := m;
    for n := 0 to |r.current|
      invariant after.Keys == m.Keys
      invariant forall id :: id in m ==> after[id] == Overlaid(r.current[..n], r.cycleEvents, id, m[id])
    {
      var row := r.current[n];
      assert r.current[..n + 1][..n] == r.current[..n];
      var hasCycleEvent := HasCycleEvent(r.cycleEvents, row.id);
      if !hasCycleEvent {
        after := after[row.id := Snapshot(row.status, true)];
      }
    }
    assert r.current[..|r.current|] == r.current;
  }

  function Overlaid(current: seq<IssueRow>, cycleEvents: seq<Event>, id: Id, s: Snapshot): Snapshot {
    if InitialOf(current, cycleEvents, id).Some? then InitialOf(current, cycleEvents, id).value else s
  }

  /** The counting loop. */
  method Count(m: map<Id, Snapshot>, day: Time) returns (p: Point)
    ensures p == Tally(m, day)
  {
    hide IsStarted, IsCompleted, InCycle, Started, Completed;
    AllCounted(m);
    var scope, started, completed := 0, 0, 0;
    var todo := m.Keys;
    while todo != {}
      invariant todo <= m.Keys
      invariant scope == |InCycle(m) - todo| && started == |Started(m) - todo| && completed == |Completed(m) - todo|
    {
      var id :| id in todo;
      CountedOnce(m, id);
      SetsGrow(InCycle(m), todo, id);
      SetsGrow(Started(m), todo, id);
      SetsGrow(Completed(m), todo, id);
      todo := todo - {id};
      if m[id].inCycle {
        scope := scope + 1;
        if IsStarted(m[id].status) {
          started := started + 1;
        }
        if IsCompleted(m[id].status) {
          completed := completed + 1;
        }
      }
    }
    AllCounted(m);
    assert todo == {};
    p := Point(day, scope, started, completed);
  }

  lemma CountedOnce(m: map<Id, Snapshot>, id: Id)
    requires id in m
    ensures id in InCycle(m) <==> m[id].inCycle
    ensures id in Started(m) <==> m[id].inCycle && IsStarted(m[id].status)
    ensures id in Completed(m) <==> m[id].inCycle && IsCompleted(m[id].status)
  {}

  lemma AllCounted(m: map<Id, Snapshot>)
    ensures InCycle(m) - m.Keys == {} && Started(m) - m.Keys == {} && Completed(m) - m.Keys == {}
    ensures InCycle(m) - {} == InCycle(m) && Started(m) - {} == Started(m) && Completed(m) - {} == Completed(m)
  {}

  lemma SetsGrow(s: set<Id>, todo: set<Id>, id: Id)
    requires id in todo
    ensures |s - (todo - {id})| == |s - todo| + if id in s then 1 else 0
  {
    assert s - (todo - {id}) == (s - todo) + if id in s then {id} else {};
  }

  /** A cycle no issue was ever in: a row of zeros for each day. */
  method EmptyPoints(start: Time, last: Time) returns (points: seq<Point>)
    ensures |points| == Days(start, last) && forall k :: 0 <= k < |points| ==> points[k] == Point(start + k * DAY, 0, 0, 0)
  {
    points := [];
    var d := start;
    while d <= last
      invariant d == start + |points| * DAY && (|points| > 0 ==> d - DAY <= last)
      invariant forall k :: 0 <= k < |points| ==> points[k] == Point(start + k * DAY, 0, 0, 0)
      decreases last - d
    {
      points := points + [Point(d, 0, 0, 0)];
      d := d + DAY;
    }
  }

  /** The day walk. */
  method WalkDays(r: Request, sorted: seq<Event>, i: nat, corrected: map<Id, Snapshot>, last: Time) returns (points: seq<Point>)
    requires Sorted(sorted) && SameHistory(r.cycleEvents + r.statusEvents, sorted) && Boundary(sorted, i, r.start)
    requires corrected.Keys == Ids(r.current, r.cycleEvents) && forall e :: e in sorted ==> e.issue in corrected
    requires forall id :: id in corrected ==> CorrectlyStarted(r, sorted, i, corrected, id)
    ensures |points| == Days(r.start, last) && forall k :: 0 <= k < |points| ==> points[k] == PointAt(r, r.start + k * DAY)
  {
    hide SameHistory, CorrectlyStarted, Sorted, StateAt, Ids, Tally, Replay;
    ReplayNone(sorted, i, r.cycle, corrected);
    points := [];
    var d := r.start;
    var j := i;
    var snapshots := corrected;
    while d <= last
      invariant d == r.start + |points| * DAY && (|points| > 0 ==> d - DAY <= last)
      invariant i <= j && Boundary(sorted, j, d) && snapshots == Replay(sorted, i, j, r.cycle, corrected)
      invariant forall k :: 0 <= k < |points| ==> points[k] == PointAt(r, r.start + k * DAY)
      decreases last - d
    {
      ghost var before := j;
      j, snapshots := ReplayUntil(sorted, j, d + DAY, r.cycle, snapshots);
      ReplayInTwo(sorted, i, before, j, r.cycle, corrected);
      WalkedState(r, sorted, i, j, d + DAY, corrected);
      var p := Count(snapshots, d);
      assert p == PointAt(r, d);
      points := points + [p];
      d := d + DAY;
    }
  }

  lemma ReplayNone(s: seq<Event>, i: nat, cycle: string, m: map<Id, Snapshot>)
    requires i <= |s|
    ensures Replay(s, i, i, cycle, m) == m
  {}

  lemma {:induction false} ReplayInTwo(s: seq<Event>, i: nat, k: nat, j: nat, cycle: string, m: map<Id, Snapshot>)
    requires i <= k <= j <= |s|
    ensures Replay(s, k, j, cycle, Replay(s, i, k, cycle, m)) == Replay(s, i, j, cycle, m)
  {
    if k < j {
      ReplayInTwo(s, i, k, j - 1, cycle, m);
    }
  }

  ghost predicate CorrectlyStarted(r: Request, sorted: seq<Event>, i: nat, corrected: map<Id, Snapshot>, id: Id)
    requires i <= |sorted| && id in corrected
  {
    var initial := InitialOf(r.current, r.cycleEvents, id);
    corrected[id] == if initial.Some? then initial.value
                     else Resolved(Backlog, LastIn(sorted, 0, i, Of(id, Status, r.cycle)), LastIn(sorted, 0, i, Of(id, Cycle, r.cycle)), r.cycle)
  }

  lemma WalkedState(r: Request, sorted: seq<Event>, i: nat, j: nat, t: Time, corrected: map<Id, Snapshot>)
    requires Sorted(sorted) && SameHistory(r.cycleEvents + r.statusEvents, sorted)
    requires i <= j && Boundary(sorted, i, r.start) && Boundary(sorted, j, t) && corrected.Keys == Ids(r.current, r.cycleEvents)
    requires forall id :: id in corrected ==> CorrectlyStarted(r, sorted, i, corrected, id)
    ensures Replay(sorted, i, j, r.cycle, corrected) == map id | id in Ids(r.current, r.cycleEvents) :: StateAt(r, id, t)
  {
    forall id | id in corrected
      ensures Replay(sorted, i, j, r.cycle, corrected)[id] == StateAt(r, id, t)
    {
      assert CorrectlyStarted(r, sorted, i, corrected, id);
      ReplayedState(r, sorted, i, j, t, corrected, id);
    }
  }

  /** BurndownData: one point for each day, and each is the reference point. The query for
      status changes asks only for issues that are or were in the cycle. */
  method BurndownData(r: Request, now: Time) returns (points: seq<Point>)
    requires forall e :: e in r.statusEvents ==> e.issue in Ids(r.current, r.cycleEvents)
    ensures |points| == Days(r.start, LastDay(r, now))
    ensures forall k :: 0 <= k < |points| ==> points[k] == PointAt(r, r.start + k * DAY)
  {
    var ids := Ids(r.current, r.cycleEvents);
    if ids == {} {
      points := EmptyPoints(r.start, LastDay(r, now));
      return;
    }
    var history := r.cycleEvents + r.statusEvents;
    var events := new Event[|history|](k requires 0 <= k < |history| => history[k]);
    assert events[..] == history;
    SortEvents(events);
    var sorted := events[..];
    SameMembers(history, sorted);
    var snapshots := map id | id in ids :: Backlog;
    var i, replayed := ReplayUntil(sorted, 0, r.start, r.cycle, snapshots);
    var corrected := CorrectInitial(r, replayed);
    forall id | id in corrected
      ensures CorrectlyStarted(r, sorted, i, corrected, id)
    {
      ReplayIsLast(sorted, 0, i, r.cycle, snapshots, id);
    }
    points := WalkDays(r, sorted, i, corrected, LastDay(r, now));
  }
}
