/** The burn-up chart (BE/internal/repository/analytics.go): buckets of days, weeks or
    months, and counts of lifecycle events in and before each. */
module Burnup {
  import opened Wrappers

  type Id = nat

  /** Microseconds since midnight of day 0. */
  type Time = int

  const DAY: int := 86_400_000_000

  // ---- the calendar ----

  function MonthLength(month: nat): nat {
    var year, m := month / 12, month % 12;
    if m == 1 then (if year % 4 == 0 && (year % 100 != 0 || year % 400 == 0) then 29 else 28)
    else if m in {3, 5, 8, 10} then 30
    else 31
  }

  /** Days from the beginning of the calendar to the first of a month. */
  function MonthStart(month: nat): nat {
    if month == 0 then 0 else MonthStart(month - 1) + MonthLength(month - 1)
  }

  /** A date as its month, counted from January of year 0, and its day of the month. */
  datatype Date = Date(month: nat, day: nat) {
    predicate Valid() { 1 <= day <= MonthLength(month) }

    function Number(): int { MonthStart(month) + day - 1 }
  }

  datatype Interval = Day | Week | Month

  function AddDays(d: Date, n: nat): Date {
    if d.day + n <= MonthLength(d.month) then Date(d.month, d.day + n) else Date(d.month + 1, d.day + n - MonthLength(d.month))
  }

  /** The same day of the next month, or its last one. */
  function AddMonth(d: Date): Date {
    Date(d.month + 1, if d.day > MonthLength(d.month + 1) then MonthLength(d.month + 1) else d.day)
  }

  function NextBucket(interval: Interval, d: Date): Date {
    match interval
    case Day => AddDays(d, 1)
    case Week => AddDays(d, 7)
    case Month => AddMonth(d)
  }

  lemma NextBucketLater(interval: Interval, d: Date)
    requires d.Valid()
    ensures NextBucket(interval, d).Valid()
    ensures interval.Day? ==> NextBucket(interval, d).Number() == d.Number() + 1
    ensures interval.Week? ==> NextBucket(interval, d).Number() == d.Number() + 7
    ensures interval.Month? ==> d.Number() + 28 <= NextBucket(interval, d).Number() <= d.Number() + 31
  {
    assert 28 <= MonthLength(d.month) <= 31 && 28 <= MonthLength(d.month + 1) <= 31;
    assert MonthStart(d.month + 1) == MonthStart(d.month) + MonthLength(d.month);
  }

  // ---- the buckets ----

  /** generate_series: the first days of the buckets. */
  function Buckets(interval: Interval, from: Date, until: Date): seq<Date>
    requires from.Valid()
    decreases until.Number() - from.Number() + 1
  {
    if from.Number() > until.Number() then []
    else NextBucketLater(interval, from); [from] + Buckets(interval, NextBucket(interval, from), until)
  }

  function Start(b: Date): Time { b.Number() * DAY }

  /** bucket_end, the first instant after the bucket. */
  function End(interval: Interval, b: Date, until: Date): Time {
    var next := NextBucket(interval, b).Number();
    if next < until.Number() + 1 then next * DAY else (until.Number() + 1) * DAY
  }

  /** Each bucket ends where the next one starts, the first starts at `from` and the last
      ends with the day `until`. */
  lemma {:induction false} BucketsPartition(interval: Interval, from: Date, until: Date)
    requires from.Valid() && from.Number() <= until.Number()
    ensures var bs := Buckets(interval, from, until);
      && bs != [] && bs[0] == from && End(interval, bs[|bs| - 1], until) == (until.Number() + 1) * DAY
      && (forall k :: 0 <= k < |bs| ==> bs[k].Valid() && Start(bs[k]) < End(interval, bs[k], until))
      && (forall k :: 0 <= k < |bs| - 1 ==> End(interval, bs[k], until) == Start(bs[k + 1]))
    decreases until.Number() - from.Number()
  {
    NextBucketLater(interval, from);
    var next := NextBucket(interval, from);
    if next.Number() <= until.Number() {
      BucketsPartition(interval, next, until);
    }
  }

  datatype RangeError = FromAfterTo | TooManyBuckets

  /** The bucket loop of ValidateBurnupParams. */
  method ValidateRange(interval: Interval, from: Date, until: Date) returns (r: Result<nat, RangeError>)
    requires from.Valid() && until.Valid()
    ensures r.Success? <==> from.Number() <= until.Number() && |Buckets(interval, from, until)| <= 366
    ensures r.Success? ==> r.value == |Buckets(interval, from, until)|
    ensures r.Failure? ==> r.error == if from.Number() > until.Number() then FromAfterTo else TooManyBuckets
  {
    if from.Number() > until.Number() {
      return Failure(FromAfterTo);
    }
    var buckets := 0;
    var bucket := from;
    while bucket.Number() <= until.Number()
      invariant bucket.Valid() && buckets <= 366
      invariant |Buckets(interval, from, until)| == buckets + |Buckets(interval, bucket, until)|
      decreases until.Number() - bucket.Number()
    {
      buckets := buckets + 1;
      if buckets > 366 {
        return Failure(TooManyBuckets);
      }
      NextBucketLater(interval, bucket);
      match interval {
        case Day => bucket := AddDays(bucket, 1);
        case Week => bucket := AddDays(bucket, 7);
        case Month =>
          var month, day := bucket.month + 1, bucket.day;
          var lastDay := MonthLength(month);
          if day > lastDay {
            day := lastDay;
          }
          bucket := Date(month, day);
      }
    }
    return Success(buckets);
  }

  // ---- lifecycle events ----

  datatype Category = Backlog | Unstarted | Started | Completed | Cancelled

  datatype Event = Event(issue: Id, created: bool, fromCategory: Option<Category>, toCategory: Option<Category>, at: Time)

  function Net(e: Event): int {
    if e.toCategory == Some(Completed) && e.fromCategory != Some(Completed) then 1
    else if e.fromCategory == Some(Completed) && e.toCategory != Some(Completed) then -1
    else 0
  }

  /** Created events of the scoped issues in a half-open interval of time. */
  function CreatedIn(log: seq<Event>, scoped: set<Id>, lo: Option<Time>, hi: Time): nat {
    if log == [] then 0
    else
      var e := log[|log| - 1];
      CreatedIn(log[..|log| - 1], scoped, lo, hi) +
      if e.issue in scoped && e.created && Within(e, lo, hi) then 1 else 0
  }

  predicate Within(e: Event, lo: Option<Time>, hi: Time) {
    (lo.Some? ==> lo.value <= e.at) && e.at < hi
  }

  /** The sum of the net changes in the interval. */
  function CompletedIn(log: seq<Event>, scoped: set<Id>, lo: Option<Time>, hi: Time): int {
    if log == [] then 0
    else
      var e := log[|log| - 1];
      CompletedIn(log[..|log| - 1], scoped, lo, hi) + if e.issue in scoped && Within(e, lo, hi) then Net(e) else 0
  }

  datatype Row = Row(day: Date, created: nat, totalCreated: nat, completed: int, totalCompleted: int)

  /** One row of the query. */
  function RowOf(log: seq<Event>, scoped: set<Id>, interval: Interval, b: Date, until: Date): Row {
    var end := End(interval, b, until);
    Row(b, CreatedIn(log, scoped, Some(Start(b)), end), CreatedIn(log, scoped, None, end),
        CompletedIn(log, scoped, Some(Start(b)), end), CompletedIn(log, scoped, None, end))
  }

  function Rows(log: seq<Event>, scoped: set<Id>, interval: Interval, from: Date, until: Date): seq<Row>
    requires from.Valid()
  {
    var bs := Buckets(interval, from, until);
    seq(|bs|, k requires 0 <= k < |bs| => RowOf(log, scoped, interval, bs[k], until))
  }

  lemma {:induction false} CountsSplit(log: seq<Event>, scoped: set<Id>, mid: Time, hi: Time)
    requires mid <= hi
    ensures CreatedIn(log, scoped, None, hi) == CreatedIn(log, scoped, None, mid) + CreatedIn(log, scoped, Some(mid), hi)
    ensures CompletedIn(log, scoped, None, hi) == CompletedIn(log, scoped, None, mid) + CompletedIn(log, scoped, Some(mid), hi)
  {
    if log != [] {
      CountsSplit(log[..|log| - 1], scoped, mid, hi);
    }
  }

  /** Conservation: the totals of a row are those of the row before, or of everything before
      `from`, plus what the row itself counts. */
  lemma RowsConserve(log: seq<Event>, scoped: set<Id>, interval: Interval, from: Date, until: Date, k: nat)
    requires from.Valid() && from.Number() <= until.Number() && k < |Buckets(interval, from, until)|
    ensures var rows := Rows(log, scoped, interval, from, until);
      && rows[k].totalCreated == (if k > 0 then rows[k - 1].totalCreated else CreatedIn(log, scoped, None, Start(from))) + rows[k].created
      && rows[k].totalCompleted == (if k > 0 then rows[k - 1].totalCompleted else CompletedIn(log, scoped, None, Start(from))) + rows[k].completed
  {
    BucketsPartition(interval, from, until);
    var bs := Buckets(interval, from, until);
    CountsSplit(log, scoped, Start(bs[k]), End(interval, bs[k], until));
  }

  // ---- totals as sets of issues ----

  /** The category an issue was last moved to before `hi`. */
  function LastTo(log: seq<Event>, hi: Time, issue: Id): Option<Category> {
    if log == [] then None
    else if log[|log| - 1].issue == issue && log[|log| - 1].at < hi then log[|log| - 1].toCategory
    else LastTo(log[..|log| - 1], hi, issue)
  }

  predicate Mentions(log: seq<Event>, hi: Time, issue: Id) {
    exists e :: e in log && e.issue == issue && e.at < hi
  }

  predicate Has(log: seq<Event>, issue: Id) {
    exists e :: e in log && e.issue == issue
  }

  /** The log is in order of time, and each event starts where the previous one of its issue
      ended, as far as being completed goes. */
  ghost predicate Chained(log: seq<Event>) {
    log == [] ||
    var init, e := log[..|log| - 1], log[|log| - 1];
    Chained(init) && (forall x :: x in init ==> x.at <= e.at) &&
    (e.fromCategory == Some(Completed) <==> LastTo(init, e.at + 1, e.issue) == Some(Completed))
  }

  /** The first event of an issue is its creation. */
  ghost predicate CreatedFirst(log: seq<Event>) {
    log == [] || (CreatedFirst(log[..|log| - 1]) && (Has(log[..|log| - 1], log[|log| - 1].issue) || log[|log| - 1].created))
  }

  /** And no later event is. */
  ghost predicate CreatedOnce(log: seq<Event>) {
    log == [] || (CreatedOnce(log[..|log| - 1]) && !(Has(log[..|log| - 1], log[|log| - 1].issue) && log[|log| - 1].created))
  }

  function CompletedIssues(log: seq<Event>, scoped: set<Id>, hi: Time): set<Id> {
    set i | i in scoped && LastTo(log, hi, i) == Some(Completed)
  }

  function KnownIssues(log: seq<Event>, scoped: set<Id>, hi: Time): set<Id> {
    set i | i in scoped && Mentions(log, hi, i)
  }

  /** Before the last event of an ordered log, later bounds make no difference. */
  lemma {:induction false} LastToLater(log: seq<Event>, hi: Time, later: Time, issue: Id)
    requires forall e :: e in log ==> e.at < hi && e.at < later
    ensures LastTo(log, hi, issue) == LastTo(log, later, issue)
  {
    if log != [] {
      LastToLater(log[..|log| - 1], hi, later, issue);
    }
  }

  /** The next event decides on its issue alone. */
  lemma CompletedNext(init: seq<Event>, e: Event, scoped: set<Id>, hi: Time)
    ensures var before := CompletedIssues(init, scoped, hi);
      CompletedIssues(init + [e], scoped, hi) ==
      if e.issue !in scoped || e.at >= hi then before
      else if e.toCategory == Some(Completed) then before + {e.issue} else before - {e.issue}
  {
    assert (init + [e])[..|init|] == init;
  }

  lemma CompletedAfter(init: seq<Event>, e: Event, scoped: set<Id>, hi: Time)
    requires forall x :: x in init ==> x.at <= e.at
    requires e.fromCategory == Some(Completed) <==> LastTo(init, e.at + 1, e.issue) == Some(Completed)
    ensures |CompletedIssues(init + [e], scoped, hi)| ==
            |CompletedIssues(init, scoped, hi)| + if e.issue in scoped && e.at < hi then Net(e) else 0
  {
    CompletedNext(init, e, scoped, hi);
    if e.at < hi {
      LastToLater(init, hi, e.at + 1, e.issue);
    }
  }

  /** For a log that chains, the sum of the net changes is the number of issues whose last
      event left them completed. */
  lemma {:induction false} TotalCompletedIsCount(log: seq<Event>, scoped: set<Id>, hi: Time)
    requires Chained(log)
    ensures CompletedIn(log, scoped, None, hi) == |CompletedIssues(log, scoped, hi)|
  {
    if log == [] {
      assert CompletedIssues(log, scoped, hi) == {};
    } else {
      TotalCompletedIsCount(log[..|log| - 1], scoped, hi);
      CompletedAfter(log[..|log| - 1], log[|log| - 1], scoped, hi);
      assert log == log[..|log| - 1] + [log[|log| - 1]];
    }
  }

  lemma KnownAfter(init: seq<Event>, e: Event, scoped: set<Id>, hi: Time)
    requires forall x :: x in init ==> x.at <= e.at
    ensures KnownIssues(init + [e], scoped, hi) ==
            KnownIssues(init, scoped, hi) + if e.issue in scoped && e.at < hi then {e.issue} else {}
    ensures e.issue in scoped && e.at < hi ==> (e.issue in KnownIssues(init, scoped, hi) <==> Has(init, e.issue))
    ensures |KnownIssues(init + [e], scoped, hi)| ==
            |KnownIssues(init, scoped, hi)| + if e.issue in scoped && e.at < hi && !Has(init, e.issue) then 1 else 0
  {
    var before, after := KnownIssues(init, scoped, hi), KnownIssues(init + [e], scoped, hi);
    if e.issue in scoped && e.at < hi {
      assert after == before + {e.issue};
    } else {
      assert after == before;
    }
  }

  /** With a created event for each issue there are at least as many of them as issues. */
  lemma {:induction false} TotalCreatedIsCount(log: seq<Event>, scoped: set<Id>, hi: Time)
    requires Chained(log) && CreatedFirst(log)
    ensures CreatedIn(log, scoped, None, hi) >= |KnownIssues(log, scoped, hi)|
    ensures CreatedOnce(log) ==> CreatedIn(log, scoped, None, hi) == |KnownIssues(log, scoped, hi)|
  {
    if log == [] {
      assert KnownIssues(log, scoped, hi) == {};
    } else {
      TotalCreatedIsCount(log[..|log| - 1], scoped, hi);
      KnownAfter(log[..|log| - 1], log[|log| - 1], scoped, hi);
      assert log == log[..|log| - 1] + [log[|log| - 1]];
    }
  }

  lemma {:induction false} CompletedIsKnown(log: seq<Event>, hi: Time, issue: Id)
    ensures LastTo(log, hi, issue).Some? ==> Mentions(log, hi, issue)
  {
    if log != [] {
      CompletedIsKnown(log[..|log| - 1], hi, issue);
    }
  }

  lemma DifferenceSize(a: set<Id>, b: set<Id>)
    requires a <= b
    ensures |b - a| == |b| - |a|
  {
    assert b == a + (b - a);
  }

  /** The issues that exist by then and were not last moved to completed. */
  function OpenIssues(log: seq<Event>, scoped: set<Id>, hi: Time): set<Id> {
    set i | i in scoped && Mentions(log, hi, i) && LastTo(log, hi, i) != Some(Completed)
  }

  /** With a created event for each issue the difference of the totals is never negative, and
      with exactly one it is the number of open issues. */
  lemma ScopeIsOpenIssues(log: seq<Event>, scoped: set<Id>, hi: Time)
    requires Chained(log) && CreatedFirst(log)
    ensures CreatedIn(log, scoped, None, hi) >= CompletedIn(log, scoped, None, hi)
    ensures CreatedOnce(log) ==>
              CreatedIn(log, scoped, None, hi) - CompletedIn(log, scoped, None, hi) == |OpenIssues(log, scoped, hi)|
  {
    TotalCompletedIsCount(log, scoped, hi);
    TotalCreatedIsCount(log, scoped, hi);
    forall i | i in CompletedIssues(log, scoped, hi)
      ensures i in KnownIssues(log, scoped, hi)
    {
      CompletedIsKnown(log, hi, i);
    }
    assert OpenIssues(log, scoped, hi) == KnownIssues(log, scoped, hi) - CompletedIssues(log, scoped, hi);
    DifferenceSize(CompletedIssues(log, scoped, hi), KnownIssues(log, scoped, hi));
  }

  datatype Point = Point(row: Row, scope: nat)

  /** The row loop of Burnup: the scope of a point is the number of issues that exist at the
      end of its bucket and are not completed then, for every log that has one created event
      for each issue; without repeated created events ruled out it is never cut off at zero. */
  method Points(log: seq<Event>, scoped: set<Id>, interval: Interval, from: Date, until: Date) returns (points: seq<Point>)
    requires from.Valid()
    ensures |points| == |Buckets(interval, from, until)|
    ensures forall k :: 0 <= k < |points| ==> points[k].row == RowOf(log, scoped, interval, Buckets(interval, from, until)[k], until)
    ensures Chained(log) && CreatedFirst(log) ==>
              forall k :: 0 <= k < |points| ==> points[k].scope == points[k].row.totalCreated - points[k].row.totalCompleted
    ensures Chained(log) && CreatedFirst(log) && CreatedOnce(log) ==>
              forall k :: 0 <= k < |points| ==>
                points[k].scope == |OpenIssues(log, scoped, End(interval, points[k].row.day, until))|
  {
    hide Buckets, Chained, CreatedFirst, CreatedOnce, CreatedIn, CompletedIn, OpenIssues, End;
    var rows := Rows(log, scoped, interval, from, until);
    points := [];
    for k := 0 to |rows|
      invariant |points| == k
      invariant forall l :: 0 <= l < k ==> points[l].row == rows[l]
      invariant Chained(log) && CreatedFirst(log) ==>
                  forall l :: 0 <= l < k ==> points[l].scope == rows[l].totalCreated - rows[l].totalCompleted
      invariant Chained(log) && CreatedFirst(log) && CreatedOnce(log) ==>
                  forall l :: 0 <= l < k ==> points[l].scope == |OpenIssues(log, scoped, End(interval, rows[l].day, until))|
    {
      if Chained(log) && CreatedFirst(log) {
        ScopeIsOpenIssues(log, scoped, End(interval, rows[k].day, until));
      }
      var scope := rows[k].totalCreated - rows[k].totalCompleted;
      if scope < 0 {
        scope := 0;
      }
      points := points + [Point(rows[k], scope)];
    }
  }

  // ---- when the clamp acts ----

  predicate CreatedBefore(log: seq<Event>, hi: Time, issue: Id) {
    exists e :: e in log && e.issue == issue && e.created && e.at < hi
  }

  /** The issues with a created event by then. */
  function CreatedIssues(log: seq<Event>, scoped: set<Id>, hi: Time): set<Id> {
    set i | i in scoped && CreatedBefore(log, hi, i)
  }

  /** The created events by then that are not the first of their issue. */
  function RepeatedIn(log: seq<Event>, scoped: set<Id>, hi: Time): nat {
    if log == [] then 0
    else
      var init, e := log[..|log| - 1], log[|log| - 1];
      RepeatedIn(init, scoped, hi) + if e.issue in scoped && e.created && e.at < hi && CreatedBefore(init, hi, e.issue) then 1 else 0
  }

  lemma CreatedAfter(init: seq<Event>, e: Event, scoped: set<Id>, hi: Time)
    ensures CreatedIssues(init + [e], scoped, hi) ==
            CreatedIssues(init, scoped, hi) + if e.issue in scoped && e.created && e.at < hi then {e.issue} else {}
    ensures |CreatedIssues(init + [e], scoped, hi)| ==
            |CreatedIssues(init, scoped, hi)| + if e.issue in scoped && e.created && e.at < hi && !CreatedBefore(init, hi, e.issue) then 1 else 0
  {
    var before, after := CreatedIssues(init, scoped, hi), CreatedIssues(init + [e], scoped, hi);
    forall i
      ensures CreatedBefore(init + [e], hi, i) <==> CreatedBefore(init, hi, i) || (e.issue == i && e.created && e.at < hi)
    {
      assert e in init + [e];
      assert forall x :: x in init ==> x in init + [e];
    }
    hide CreatedBefore;
    if e.issue in scoped && e.created && e.at < hi {
      assert after == before + {e.issue};
    } else {
      assert after == before;
    }
  }

  lemma {:induction false} TotalCreatedSplits(log: seq<Event>, scoped: set<Id>, hi: Time)
    ensures CreatedIn(log, scoped, None, hi) == |CreatedIssues(log, scoped, hi)| + RepeatedIn(log, scoped, hi)
  {
    if log == [] {
      assert CreatedIssues(log, scoped, hi) == {};
    } else {
      TotalCreatedSplits(log[..|log| - 1], scoped, hi);
      CreatedAfter(log[..|log| - 1], log[|log| - 1], scoped, hi);
      assert log == log[..|log| - 1] + [log[|log| - 1]];
      hide CreatedIssues, CreatedBefore;
    }
  }

  lemma SizesDiffer(a: set<Id>, b: set<Id>)
    ensures |a| - |b| == |a - b| - |b - a|
  {
    assert a == (a - b) + a * b && b == (b - a) + a * b;
  }

  /** The difference of the totals is negative, and the clamp hides it, exactly when more
      issues are completed without a created event than issues with one are open and created
      events repeated. */
  lemma ClampActsIff(log: seq<Event>, scoped: set<Id>, hi: Time)
    requires Chained(log)
    ensures var completed, created := CompletedIssues(log, scoped, hi), CreatedIssues(log, scoped, hi);
      CreatedIn(log, scoped, None, hi) < CompletedIn(log, scoped, None, hi) <==>
      |completed - created| > |created - completed| + RepeatedIn(log, scoped, hi)
  {
    hide Chained, CompletedIssues, CreatedIssues, RepeatedIn, CreatedIn, CompletedIn;
    TotalCompletedIsCount(log, scoped, hi);
    TotalCreatedSplits(log, scoped, hi);
    SizesDiffer(CreatedIssues(log, scoped, hi), CompletedIssues(log, scoped, hi));
  }

  /** It does act for a completed issue without a created event. */
  lemma ClampHidesMissingCreation()
    ensures var log := [Event(0, false, Some(Started), Some(Completed), 0)];
      CreatedIn(log, {0}, None, 1) - CompletedIn(log, {0}, None, 1) == -1
  {
    var log := [Event(0, false, Some(Started), Some(Completed), 0)];
    assert log[..0] == [];
  }

  // ---- the trigger that writes the log ----

  lemma {:induction false} LastToMember(log: seq<Event>, hi: Time, issue: Id)
    ensures LastTo(log, hi, issue).Some? ==> Has(log, issue)
  {
    if log != [] {
      LastToMember(log[..|log| - 1], hi, issue);
    }
  }

  /** Issues with the category of their status, and the log the trigger of migration 000032
      keeps of them. */
  class IssueLog {
    var categories: map<Id, Category>
    var log: seq<Event>
    ghost var clock: Time

    ghost predicate Valid()
      reads this
    {
      && Chained(log) && CreatedFirst(log) && CreatedOnce(log)
      && (forall e :: e in log ==> e.at <= clock && e.issue in categories)
      && (forall issue :: issue in categories ==> Has(log, issue) && LastTo(log, clock + 1, issue) == Some(categories[issue]))
    }

    constructor ()
      ensures Valid() && categories == map[] && log == []
    {
      categories, log, clock := map[], [], 0;
    }

    method Insert(issue: Id, category: Category, now: Time)
      requires Valid() && clock <= now && issue !in categories
      modifies this
      ensures Valid() && clock == now && categories == old(categories)[issue := category]
      ensures log == old(log) + [Event(issue, true, None, Some(category), now)]
    {
      hide Chained, CreatedFirst, CreatedOnce, LastTo;
      LastToMember(log, clock + 1, issue);
      Appends(log, Event(issue, true, None, Some(category), now), clock + 1, now + 1);
      log := log + [Event(issue, true, None, Some(category), now)];
      categories := categories[issue := category];
      clock := now;
    }

    method ChangeStatus(issue: Id, category: Category, now: Time)
      requires Valid() && clock <= now && issue in categories
      modifies this
      ensures Valid() && clock == now && categories == old(categories)[issue := category]
      ensures log == old(log) + [Event(issue, false, Some(old(categories)[issue]), Some(category), now)]
    {
      hide Chained, CreatedFirst, CreatedOnce, LastTo;
      var e := Event(issue, false, Some(categories[issue]), Some(category), now);
      Appends(log, e, clock + 1, now + 1);
      log := log + [e];
      categories := categories[issue := category];
      clock := now;
    }
  }

  lemma Appends(log: seq<Event>, e: Event, before: Time, after: Time)
    requires Chained(log) && CreatedFirst(log) && CreatedOnce(log) && before <= after == e.at + 1
    requires forall x :: x in log ==> x.at < before
    requires e.created == !Has(log, e.issue)
    requires e.fromCategory == Some(Completed) <==> LastTo(log, before, e.issue) == Some(Completed)
    ensures Chained(log + [e]) && CreatedFirst(log + [e]) && CreatedOnce(log + [e])
    ensures forall i :: LastTo(log + [e], after, i) == if i == e.issue then e.toCategory else LastTo(log, before, i)
    ensures forall i :: Has(log + [e], i) <==> Has(log, i) || i == e.issue
  {
    assert (log + [e])[..|log|] == log;
    forall i
      ensures LastTo(log, after, i) == LastTo(log, before, i)
    {
      LastToLater(log, before, after, i);
    }
  }
}
