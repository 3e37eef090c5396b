/** The token buckets of BE/internal/middleware/ratelimit.go, over real numbers. */
module RateLimiter {
  import opened Wrappers

  datatype Visitor = Visitor(tokens: real, lastSeen: real)

  /** Tokens per second and the most a bucket holds. */
  datatype Config = Config(rate: real, burst: int) {
    predicate Sensible() { rate >= 0.0 && burst >= 1 }

    /** A bucket is full again by the time the clean-up may forget it. */
    predicate RefillsWhileIdle() { rate * IdleLimit >= burst as real }
  }

  const IdleLimit: real := 180.0

  /** The tokens that flow in between two times. */
  function Inflow(c: Config, start: real, end: real): real {
    (end - start) * c.rate
  }

  function Refilled(c: Config, v: Visitor, now: real): real {
    var tokens := v.tokens + Inflow(c, v.lastSeen, now);
    if tokens > c.burst as real then c.burst as real else tokens
  }

  /** What one request does to a bucket, and whether it is let through. */
  function Request(c: Config, v: Option<Visitor>, now: real): (Visitor, bool) {
    if v.None? then (Visitor(c.burst as real - 1.0, now), true)
    else
      var tokens := Refilled(c, v.value, now);
      if tokens < 1.0 then (Visitor(tokens, now), false) else (Visitor(tokens - 1.0, now), true)
  }

  predicate Idle(v: Visitor, now: real) { now - v.lastSeen > IdleLimit }

  /** What happens to one key: a request, or the clean-up passing by. */
  datatype Event = Asked(at: real) | Swept(at: real)

  function Next(c: Config, v: Option<Visitor>, e: Event): Option<Visitor> {
    match e
    case Asked(at) => Some(Request(c, v, at).0)
    case Swept(at) => if v.Some? && Idle(v.value, at) then None else v
  }

  function Bucket(c: Config, events: seq<Event>): Option<Visitor> {
    if events == [] then None else Next(c, Bucket(c, events[..|events| - 1]), events[|events| - 1])
  }

  /** Whether the last event is a request that is let through. */
  predicate LastAdmitted(c: Config, events: seq<Event>)
    requires events != []
  {
    events[|events| - 1].Asked? && Request(c, Bucket(c, events[..|events| - 1]), events[|events| - 1].at).1
  }

  ghost predicate Ordered(events: seq<Event>) {
    forall i, j :: 0 <= i < j < |events| ==> events[i].at <= events[j].at
  }

  /** The requests let through from `lo` to `hi`. */
  function Admitted(c: Config, events: seq<Event>, lo: real, hi: real): nat {
    if events == [] then 0
    else Admitted(c, events[..|events| - 1], lo, hi) +
         if lo <= events[|events| - 1].at <= hi && LastAdmitted(c, events) then 1 else 0
  }

  // ---- tokens stay within the bucket ----

  ghost predicate Within(c: Config, v: Option<Visitor>, now: real) {
    v.Some? ==> 0.0 <= v.value.tokens <= c.burst as real && v.value.lastSeen <= now
  }

  lemma InflowAdds(c: Config, a: real, b: real, d: real)
    requires c.Sensible() && a <= b <= d
    ensures Inflow(c, a, d) == Inflow(c, a, b) + Inflow(c, b, d)
    ensures Inflow(c, a, b) >= 0.0 && Inflow(c, b, d) >= 0.0
  {
    assert (b - a) * c.rate >= 0.0 && (d - b) * c.rate >= 0.0;
  }

  /** With a burst of at least one the tokens of a bucket stay between zero and the burst. */
  lemma {:induction false} TokensWithin(c: Config, events: seq<Event>, now: real)
    requires c.Sensible() && Ordered(events) && (events != [] ==> events[|events| - 1].at <= now)
    ensures Within(c, Bucket(c, events), now)
  {
    if events != [] {
      var before, e := events[..|events| - 1], events[|events| - 1];
      TokensWithin(c, before, e.at);
      hide Inflow;
      if Bucket(c, before).Some? {
        InflowAdds(c, Bucket(c, before).value.lastSeen, e.at, e.at);
      }
    }
  }

  /** The tokens are within the bucket after every history of a key. */
  ghost predicate AlwaysWithin(c: Config) {
    forall events: seq<Event>, now: real :: Ordered(events) && (events != [] ==> events[|events| - 1].at <= now) ==> Within(c, Bucket(c, events), now)
  }

  /** A bucket without a whole token is not a closed door: the first request passes and
      leaves a debt. */
  lemma FirstPasses(c: Config)
    ensures Ordered([Asked(0.0)]) && NoSweeps([Asked(0.0)]) && Bucket(c, [Asked(0.0)]) == Some(Visitor(c.burst as real - 1.0, 0.0))
    ensures Admitted(c, [Asked(0.0)], 0.0, 0.0) == 1
  {
    assert [Asked(0.0)][..0] == [];
  }

  /** Tokens always stay between zero and the burst exactly when the burst is at least one. */
  lemma TokensWithinIff(c: Config)
    requires c.rate >= 0.0
    ensures AlwaysWithin(c) <==> c.burst >= 1
  {
    if c.burst >= 1 {
      forall events: seq<Event>, now: real | Ordered(events) && (events != [] ==> events[|events| - 1].at <= now)
        ensures Within(c, Bucket(c, events), now)
      {
        TokensWithin(c, events, now);
      }
    } else {
      FirstPasses(c);
      assert !Within(c, Bucket(c, [Asked(0.0)]), 0.0);
    }
  }

  // ---- how many requests an interval admits ----

  ghost predicate NoSweeps(events: seq<Event>) {
    forall k :: 0 <= k < |events| ==> events[k].Asked?
  }

  /** Every request let through since `lo` was paid for by the first bucketful or by the
      refill since then. */
  lemma {:induction false} Paid(c: Config, events: seq<Event>, lo: real, hi: real)
    requires c.Sensible() && Ordered(events) && NoSweeps(events) && events != [] && lo <= events[|events| - 1].at <= hi
    ensures Bucket(c, events).Some? && Bucket(c, events).value.lastSeen == events[|events| - 1].at
    ensures Admitted(c, events, lo, hi) as real + Bucket(c, events).value.tokens <=
            c.burst as real + Inflow(c, lo, events[|events| - 1].at)
  {
    hide Inflow;
    var before, e := events[..|events| - 1], events[|events| - 1];
    InflowAdds(c, lo, e.at, e.at);
    if before != [] && before[|before| - 1].at < lo {
      NoneAdmitted(c, before, lo, hi);
    } else if before != [] {
      Paid(c, before, lo, hi);
      InflowAdds(c, lo, before[|before| - 1].at, e.at);
    }
  }

  lemma {:induction false} NoneAdmitted(c: Config, events: seq<Event>, lo: real, hi: real)
    requires Ordered(events) && (events != [] ==> events[|events| - 1].at < lo)
    ensures Admitted(c, events, lo, hi) == 0
  {
    if events != [] {
      NoneAdmitted(c, events[..|events| - 1], lo, hi);
    }
  }

  /** Any interval admits at most a bucketful and what it refills. */
  lemma {:induction false} IntervalBound(c: Config, events: seq<Event>, lo: real, hi: real)
    requires c.Sensible() && Ordered(events) && NoSweeps(events) && lo <= hi
    ensures Admitted(c, events, lo, hi) as real <= c.burst as real + c.rate * (hi - lo)
  {
    InflowAdds(c, lo, hi, hi);
    assert c.rate * (hi - lo) == Inflow(c, lo, hi);
    hide Inflow;
    if events != [] {
      var last := events[|events| - 1].at;
      if last < lo {
        NoneAdmitted(c, events, lo, hi);
      } else if last > hi {
        IntervalBound(c, events[..|events| - 1], lo, hi);
      } else {
        Paid(c, events, lo, hi);
        TokensWithin(c, events, last);
        InflowAdds(c, lo, last, hi);
      }
    }
  }

  /** No interval ever admits more than a bucketful and what it refills, as long as the
      clean-up does not pass by. */
  ghost predicate Bounded(c: Config) {
    forall events: seq<Event>, lo: real, hi: real :: Ordered(events) && NoSweeps(events) && lo <= hi ==> WithinBound(c, events, lo, hi)
  }

  ghost predicate WithinBound(c: Config, events: seq<Event>, lo: real, hi: real) {
    Admitted(c, events, lo, hi) as real <= c.burst as real + c.rate * (hi - lo)
  }

  /** The interval bound holds of every history exactly when the burst is at least one. */
  lemma IntervalBoundIff(c: Config)
    requires c.rate >= 0.0
    ensures Bounded(c) <==> c.burst >= 1
  {
    if c.burst >= 1 {
      forall events: seq<Event>, lo: real, hi: real | Ordered(events) && NoSweeps(events) && lo <= hi
        ensures WithinBound(c, events, lo, hi)
      {
        IntervalBound(c, events, lo, hi);
      }
    } else {
      FirstPasses(c);
      assert !WithinBound(c, [Asked(0.0)], 0.0, 0.0);
    }
  }

  // ---- when a request is refused ----

  /** What a request finds in the bucket. */
  function Available(c: Config, v: Option<Visitor>, now: real): real {
    if v.None? then c.burst as real else Refilled(c, v.value, now)
  }

  /** One request more since `lo` than a bucketful and the refill since then pay for. */
  ghost predicate Overdrawn(c: Config, events: seq<Event>, lo: real, now: real) {
    Admitted(c, events, lo, now) as real + 1.0 > c.burst as real + c.rate * (now - lo)
  }

  ghost predicate Spent(c: Config, events: seq<Event>, now: real) {
    exists lo: real :: lo <= now && Overdrawn(c, events, lo, now)
  }

  /** Since some time everything that flowed in was spent, but for what is there. */
  lemma {:induction false} SpentSince(c: Config, events: seq<Event>, now: real) returns (lo: real)
    requires c.Sensible() && Ordered(events) && NoSweeps(events) && (events != [] ==> events[|events| - 1].at <= now)
    ensures lo <= now
    ensures Admitted(c, events, lo, now) as real == c.burst as real + Inflow(c, lo, now) - Available(c, Bucket(c, events), now)
  {
    hide Inflow;
    lo := now;
    InflowAdds(c, now, now, now);
    if events != [] {
      var before, at := events[..|events| - 1], events[|events| - 1].at;
      var since := SpentSince(c, before, at);
      LastSpent(c, events, since, at);
      Kept(c, events, at, now);
      AdmittedUpTo(c, events, since, at, now);
      InflowAdds(c, since, at, now);
      if Available(c, Bucket(c, events), now) < c.burst as real || at == now {
        lo := since;
      } else {
        NoneAdmitted(c, events, now, now);
      }
    }
  }

  /** The last request spends a whole token if it passes. */
  lemma LastSpent(c: Config, events: seq<Event>, lo: real, at: real)
    requires c.Sensible() && Ordered(events) && NoSweeps(events) && events != [] && lo <= at == events[|events| - 1].at
    requires var before := events[..|events| - 1];
      Admitted(c, before, lo, at) as real == c.burst as real + Inflow(c, lo, at) - Available(c, Bucket(c, before), at)
    ensures Bucket(c, events).Some? && Bucket(c, events).value.lastSeen == at && Bucket(c, events).value.tokens < c.burst as real
    ensures Admitted(c, events, lo, at) as real == c.burst as real + Inflow(c, lo, at) - Bucket(c, events).value.tokens
  {
    hide Inflow;
  }

  lemma Kept(c: Config, events: seq<Event>, at: real, now: real)
    requires c.Sensible() && at <= now && Bucket(c, events).Some? && Bucket(c, events).value.lastSeen == at
    requires Bucket(c, events).value.tokens < c.burst as real
    ensures var available, tokens := Available(c, Bucket(c, events), now), Bucket(c, events).value.tokens;
      && available <= c.burst as real && (available < c.burst as real || at == now ==> available == tokens + Inflow(c, at, now))
  {
    hide Bucket;
  }

  lemma {:induction false} AdmittedUpTo(c: Config, events: seq<Event>, lo: real, at: real, now: real)
    requires at <= now && forall k :: 0 <= k < |events| ==> events[k].at <= at
    ensures Admitted(c, events, lo, now) == Admitted(c, events, lo, at)
  {
    hide LastAdmitted;
    if events != [] {
      AdmittedUpTo(c, events[..|events| - 1], lo, at, now);
    }
  }

  lemma InflowIs(c: Config, a: real, b: real)
    ensures Inflow(c, a, b) == c.rate * (b - a)
  {}

  /** What is let through is paid for since every earlier time. */
  lemma PassedIsPaid(c: Config, events: seq<Event>, lo: real, now: real)
    requires c.Sensible() && Ordered(events) && NoSweeps(events) && (events != [] ==> events[|events| - 1].at <= now)
    requires Request(c, Bucket(c, events), now).1 && lo <= now
    ensures !Overdrawn(c, events, lo, now)
  {
    hide Request, Bucket, Admitted;
    IntervalBound(c, events + [Asked(now)], lo, now);
    AskedLast(c, events, now, lo, now);
  }

  lemma RefusedIsSpent(c: Config, events: seq<Event>, now: real)
    requires c.Sensible() && Ordered(events) && NoSweeps(events) && (events != [] ==> events[|events| - 1].at <= now)
    requires !Request(c, Bucket(c, events), now).1
    ensures Spent(c, events, now)
  {
    hide Bucket, Admitted, Inflow;
    var lo := SpentSince(c, events, now);
    InflowIs(c, lo, now);
    assert Overdrawn(c, events, lo, now);
  }

  /** A request is refused exactly when since some time one more request would have been let
      through than a bucketful and the refill since then pay for. */
  lemma RefusedIff(c: Config, events: seq<Event>, now: real)
    requires c.Sensible() && Ordered(events) && NoSweeps(events) && (events != [] ==> events[|events| - 1].at <= now)
    ensures !Request(c, Bucket(c, events), now).1 <==> Spent(c, events, now)
  {
    hide Bucket, Admitted, Overdrawn, Request;
    if Request(c, Bucket(c, events), now).1 {
      forall lo: real | lo <= now
        ensures !Overdrawn(c, events, lo, now)
      {
        PassedIsPaid(c, events, lo, now);
      }
    } else {
      RefusedIsSpent(c, events, now);
    }
  }

  // ---- the clean-up ----

  /** The requests among the events. */
  function Requests(events: seq<Event>): seq<Event> {
    if events == [] then []
    else Requests(events[..|events| - 1]) + if events[|events| - 1].Asked? then [events[|events| - 1]] else []
  }

  /** Everything a client can notice: every decision, and the bucket it leaves. */
  function Observed(c: Config, events: seq<Event>): seq<(Visitor, bool)> {
    if events == [] then []
    else Observed(c, events[..|events| - 1]) +
         if events[|events| - 1].Asked? then [Request(c, Bucket(c, events[..|events| - 1]), events[|events| - 1].at)] else []
  }

  /** The clean-up never changes a decision or a bucket a decision leaves. */
  ghost predicate CleanupInvisible(c: Config) {
    forall events :: Ordered(events) ==> Observed(c, events) == Observed(c, Requests(events))
  }

  /** The same bucket, or one forgotten when it had become full. */
  ghost predicate Alike(c: Config, swept: Option<Visitor>, kept: Option<Visitor>, now: real) {
    swept == kept ||
    (swept.None? && kept.Some? && kept.value.tokens + Inflow(c, kept.value.lastSeen, now) >= c.burst as real && kept.value.lastSeen <= now)
  }

  lemma AlikeLater(c: Config, swept: Option<Visitor>, kept: Option<Visitor>, now: real, later: real)
    requires c.Sensible() && Alike(c, swept, kept, now) && now <= later
    ensures Alike(c, swept, kept, later)
  {
    if swept != kept {
      InflowAdds(c, kept.value.lastSeen, now, later);
    }
  }

  lemma IdleIsFull(c: Config, v: Visitor, now: real)
    requires c.Sensible() && c.RefillsWhileIdle() && Idle(v, now) && v.tokens >= 0.0
    ensures v.tokens + Inflow(c, v.lastSeen, now) >= c.burst as real
  {
    InflowAdds(c, v.lastSeen, v.lastSeen + IdleLimit, now);
  }

  lemma RequestsAppend(events: seq<Event>)
    requires events != []
    ensures events[|events| - 1].Asked? ==> Requests(events) == Requests(events[..|events| - 1]) + [events[|events| - 1]]
    ensures events[|events| - 1].Swept? ==> Requests(events) == Requests(events[..|events| - 1])
  {}

  lemma {:induction false} RequestsOrdered(events: seq<Event>, now: real)
    requires Ordered(events) && (events != [] ==> events[|events| - 1].at <= now)
    ensures Ordered(Requests(events)) && NoSweeps(Requests(events))
    ensures forall k :: 0 <= k < |Requests(events)| ==> Requests(events)[k].at <= now
  {
    if events != [] {
      RequestsOrdered(events[..|events| - 1], events[|events| - 1].at);
    }
  }

  lemma AlikeNext(c: Config, swept: Option<Visitor>, kept: Option<Visitor>, e: Event)
    requires c.Sensible() && c.RefillsWhileIdle() && Alike(c, swept, kept, e.at) && Within(c, swept, e.at)
    ensures e.Asked? ==> Request(c, swept, e.at) == Request(c, kept, e.at)
    ensures e.Swept? ==> Alike(c, Next(c, swept, e), kept, e.at)
  {
    if e.Swept? && swept.Some? && Idle(swept.value, e.at) {
      IdleIsFull(c, swept.value, e.at);
    }
  }

  lemma {:induction false} SweptAlike(c: Config, events: seq<Event>)
    requires c.Sensible() && c.RefillsWhileIdle() && Ordered(events)
    ensures events != [] ==> Alike(c, Bucket(c, events), Bucket(c, Requests(events)), events[|events| - 1].at)
    ensures events == [] ==> Bucket(c, Requests(events)).None?
    ensures Observed(c, events) == Observed(c, Requests(events))
  {
    if events != [] {
      var before, e := events[..|events| - 1], events[|events| - 1];
      SweptAlike(c, before);
      var swept, kept := Bucket(c, before), Bucket(c, Requests(before));
      if before != [] {
        AlikeLater(c, swept, kept, before[|before| - 1].at, e.at);
      }
      TokensWithin(c, before, e.at);
      AlikeNext(c, swept, kept, e);
      hide Alike, Within, Request;
      RequestsAppend(events);
      if e.Asked? {
        var requests := Requests(before) + [e];
        assert requests[..|requests| - 1] == Requests(before);
        AlikeSame(c, Bucket(c, events), e.at);
      }
    }
  }

  lemma AlikeSame(c: Config, v: Option<Visitor>, now: real)
    ensures Alike(c, v, v, now)
  {}

  /** `n` requests at one time. */
  function Drain(n: nat, at: real): seq<Event> {
    if n == 0 then [] else Drain(n - 1, at) + [Asked(at)]
  }

  lemma {:induction false} DrainIs(n: nat, at: real)
    ensures |Drain(n, at)| == n && (forall k :: 0 <= k < n ==> Drain(n, at)[k] == Asked(at)) && Requests(Drain(n, at)) == Drain(n, at)
  {
    if n > 0 {
      DrainIs(n - 1, at);
      assert Drain(n, at)[..n - 1] == Drain(n - 1, at);
    }
  }

  /** One more request at the same time costs one token. */
  lemma DrainsOne(c: Config, tokens: int, at: real)
    requires c.Sensible() && 1 <= tokens <= c.burst
    ensures Request(c, Some(Visitor(tokens as real, at)), at) == (Visitor((tokens - 1) as real, at), true)
  {}

  /** A key without a bucket gets a whole bucketful at once. */
  lemma {:induction false} Drained(c: Config, before: seq<Event>, n: nat, at: real, lo: real, hi: real)
    requires c.Sensible() && n <= c.burst && Bucket(c, before).None? && lo <= at <= hi
    ensures Bucket(c, before + Drain(n, at)) == if n == 0 then None else Some(Visitor((c.burst - n) as real, at))
    ensures Admitted(c, before + Drain(n, at), lo, hi) == Admitted(c, before, lo, hi) + n
  {
    hide Bucket, Admitted, Request;
    if n == 0 {
      assert before + Drain(0, at) == before;
    } else {
      Drained(c, before, n - 1, at, lo, hi);
      DrainNext(n, at);
      hide Drain;
      var init := before + Drain(n - 1, at);
      assert before + Drain(n, at) == init + [Asked(at)];
      AskedLast(c, init, at, lo, hi);
      if n > 1 {
        DrainsOne(c, c.burst - n + 1, at);
      } else {
        FillsNew(c, at);
      }
    }
  }

  lemma DrainNext(n: nat, at: real)
    requires n > 0
    ensures Drain(n, at) == Drain(n - 1, at) + [Asked(at)]
  {}

  lemma FillsNew(c: Config, at: real)
    ensures Request(c, None, at) == (Visitor((c.burst - 1) as real, at), true)
  {}

  /** A request at the end of a history. */
  lemma AskedLast(c: Config, events: seq<Event>, at: real, lo: real, hi: real)
    requires lo <= at <= hi
    ensures Bucket(c, events + [Asked(at)]) == Some(Request(c, Bucket(c, events), at).0)
    ensures Admitted(c, events + [Asked(at)], lo, hi) ==
            Admitted(c, events, lo, hi) + if Request(c, Bucket(c, events), at).1 then 1 else 0
  {
    hide Request;
    assert (events + [Asked(at)])[..|events|] == events;
  }

  /** The clean-up at the end of one. */
  lemma SweptLast(c: Config, events: seq<Event>, at: real, lo: real, hi: real)
    ensures Bucket(c, events + [Swept(at)]) == Next(c, Bucket(c, events), Swept(at))
    ensures Admitted(c, events + [Swept(at)], lo, hi) == Admitted(c, events, lo, hi)
  {
    assert (events + [Swept(at)])[..|events|] == events;
  }

  lemma DrainedFromNone(c: Config, at: real)
    requires c.Sensible() && at >= 0.0
    ensures Bucket(c, Drain(c.burst, 0.0)) == Some(Visitor(0.0, 0.0)) && Admitted(c, Drain(c.burst, 0.0), 0.0, at) == c.burst
  {
    assert Bucket(c, []) == None && Admitted(c, [], 0.0, at) == 0;
    hide Bucket, Admitted, Drain;
    Drained(c, [], c.burst, 0.0, 0.0, at);
    assert [] + Drain(c.burst, 0.0) == Drain(c.burst, 0.0);
  }

  /** A bucket that is drained at time zero and swept later. */
  function SweptDrain(c: Config, at: real): seq<Event>
    requires c.burst >= 0
  {
    Drain(c.burst, 0.0) + [Swept(at)]
  }

  lemma SweptDrainIs(c: Config, at: real)
    requires c.Sensible() && at > IdleLimit
    ensures Ordered(SweptDrain(c, at)) && Requests(SweptDrain(c, at)) == Drain(c.burst, 0.0)
    ensures |SweptDrain(c, at)| == c.burst + 1 && SweptDrain(c, at)[..c.burst] == Drain(c.burst, 0.0)
    ensures SweptDrain(c, at)[c.burst] == Swept(at)
  {
    DrainIs(c.burst, 0.0);
    hide Drain, Requests;
    RequestsAppend(SweptDrain(c, at));
    assert SweptDrain(c, at)[..c.burst] == Drain(c.burst, 0.0);
  }

  lemma SweptDrainForgets(c: Config, at: real)
    requires c.Sensible() && at > IdleLimit
    ensures Bucket(c, Drain(c.burst, 0.0)) == Some(Visitor(0.0, 0.0)) && Bucket(c, SweptDrain(c, at)) == None
    ensures Admitted(c, SweptDrain(c, at), 0.0, at) == c.burst
  {
    hide Bucket, Admitted, Drain;
    DrainedFromNone(c, at);
    SweptLast(c, Drain(c.burst, 0.0), at, 0.0, at);
  }

  /** A slow bucket that was drained is given back full by the clean-up. */
  lemma SweepRefills(c: Config, at: real)
    requires c.Sensible() && at > IdleLimit && c.rate * at < c.burst as real
    ensures !CleanupInvisible(c)
  {
    hide Request, Drain, Observed, Bucket, Requests, Ordered, SweptDrain, Admitted;
    SweptDrainIs(c, at);
    SweptDrainForgets(c, at);
    DrainedDiffers(c, at);
    var swept, kept := SweptDrain(c, at) + [Asked(at)], Drain(c.burst, 0.0) + [Asked(at)];
    RequestsAppend(swept);
    LastIsOrdered(SweptDrain(c, at), at);
    assert swept[..|swept| - 1] == SweptDrain(c, at) && kept[..|kept| - 1] == Drain(c.burst, 0.0);
    LastObserved(c, swept);
    LastObserved(c, kept);
  }

  lemma LastIsOrdered(events: seq<Event>, at: real)
    requires Ordered(events) && events != [] && events[|events| - 1].at <= at
    ensures Ordered(events + [Asked(at)])
  {}

  /** Without a whole token the clean-up forgives the debt of the first request. */
  lemma SweepForgives(c: Config)
    requires c.rate >= 0.0 && c.burst < 1
    ensures !CleanupInvisible(c)
  {
    var at := IdleLimit + 1.0;
    var first, swept := [Asked(0.0)], [Asked(0.0), Swept(at)];
    var events, kept := swept + [Asked(at)], first + [Asked(at)];
    FirstPasses(c);
    RequestsAppend(first);
    RequestsAppend(swept);
    RequestsAppend(events);
    assert first[..0] == [] && swept[..1] == first && events[..2] == swept && kept[..1] == first;
    assert Requests(events) == kept && Ordered(events);
    assert Bucket(c, swept) == None;
    assert !Request(c, Bucket(c, first), at).1;
    LastObserved(c, events);
    LastObserved(c, kept);
    hide Observed;
  }

  lemma LastObserved(c: Config, events: seq<Event>)
    requires events != [] && events[|events| - 1].Asked?
    ensures var seen := Observed(c, events);
      seen != [] && seen[|seen| - 1] == Request(c, Bucket(c, events[..|events| - 1]), events[|events| - 1].at)
  {}

  lemma DrainedDiffers(c: Config, at: real)
    requires c.Sensible() && at > IdleLimit && c.rate * at < c.burst as real
    ensures Request(c, None, at) != Request(c, Some(Visitor(0.0, 0.0)), at)
  {
    assert Refilled(c, Visitor(0.0, 0.0), at) < c.burst as real;
  }

  /** The clean-up is invisible exactly when the burst is at least one and a bucket refills
      within the three idle minutes. */
  lemma CleanupInvisibleIff(c: Config)
    requires c.rate >= 0.0
    ensures CleanupInvisible(c) <==> c.burst >= 1 && c.RefillsWhileIdle()
  {
    if c.burst < 1 {
      SweepForgives(c);
    } else if c.RefillsWhileIdle() {
      forall events | Ordered(events)
        ensures Observed(c, events) == Observed(c, Requests(events))
      {
        SweptAlike(c, events);
      }
    } else {
      var at := SweepTime(c);
      SweepRefills(c, at);
    }
  }

  /** A time after the idle limit at which a drained bucket is not yet full. */
  lemma SweepTime(c: Config) returns (at: real)
    requires c.Sensible() && !c.RefillsWhileIdle()
    ensures at > IdleLimit && c.rate * at < c.burst as real
  {
    if c.rate == 0.0 {
      at := IdleLimit + 1.0;
    } else {
      at := FullBefore(c.rate, c.burst as real, IdleLimit);
    }
  }

  lemma FullBefore(rate: real, burst: real, limit: real) returns (at: real)
    requires rate > 0.0 && rate * limit < burst
    ensures at > limit && rate * at < burst
  {
    var missing := burst - rate * limit;
    at := limit + missing / rate / 2.0;
    assert rate * (missing / rate) == missing;
    assert missing / rate > 0.0;
    assert rate * at == rate * limit + rate * (missing / rate) / 2.0;
  }

  /** With buckets that refill while idle the interval bound holds under the clean-up too. */
  lemma {:induction false} SweptAdmitted(c: Config, events: seq<Event>, lo: real, hi: real)
    requires c.Sensible() && c.RefillsWhileIdle() && Ordered(events)
    ensures Admitted(c, events, lo, hi) == Admitted(c, Requests(events), lo, hi)
  {
    if events != [] {
      var before, e := events[..|events| - 1], events[|events| - 1];
      SweptAdmitted(c, before, lo, hi);
      SweptAlike(c, before);
      if before != [] {
        AlikeLater(c, Bucket(c, before), Bucket(c, Requests(before)), before[|before| - 1].at, e.at);
      }
      TokensWithin(c, before, e.at);
      AlikeNext(c, Bucket(c, before), Bucket(c, Requests(before)), e);
      RequestsAppend(events);
      var requests := Requests(before) + [e];
      assert requests[..|requests| - 1] == Requests(before);
    }
  }

  /** The interval bound with the clean-up passing by at any time. */
  ghost predicate BoundedUnderCleanup(c: Config) {
    forall events: seq<Event>, lo: real, hi: real :: Ordered(events) && lo <= hi ==> WithinBound(c, events, lo, hi)
  }

  lemma DrainIsOrdered(c: Config, at: real)
    requires c.Sensible() && at > IdleLimit
    ensures Ordered(SweptDrain(c, at) + Drain(c.burst, at))
  {
    DrainIs(c.burst, at);
    DrainIs(c.burst, 0.0);
    hide Drain;
  }

  /** A slow bucket that was drained and swept is drained a second time. */
  lemma SweptTwice(c: Config, at: real)
    requires c.Sensible() && at > IdleLimit && c.rate * at < c.burst as real
    ensures !BoundedUnderCleanup(c)
  {
    hide Admitted, Bucket, SweptDrain, Drain, Ordered;
    var swept := SweptDrain(c, at);
    SweptDrainForgets(c, at);
    Drained(c, swept, c.burst, at, 0.0, at);
    DrainIsOrdered(c, at);
    assert !WithinBound(c, swept + Drain(c.burst, at), 0.0, at);
  }

  /** The interval bound survives the clean-up exactly when the burst is at least one and a
      bucket refills within the three idle minutes. */
  lemma BoundUnderCleanupIff(c: Config)
    requires c.rate >= 0.0
    ensures BoundedUnderCleanup(c) <==> c.burst >= 1 && c.RefillsWhileIdle()
  {
    if c.burst < 1 {
      FirstPasses(c);
      assert !WithinBound(c, [Asked(0.0)], 0.0, 0.0);
    } else if c.RefillsWhileIdle() {
      forall events: seq<Event>, lo: real, hi: real | Ordered(events) && lo <= hi
        ensures WithinBound(c, events, lo, hi)
      {
        if events != [] {
          RequestsOrdered(events, events[|events| - 1].at);
        }
        SweptAdmitted(c, events, lo, hi);
        IntervalBound(c, Requests(events), lo, hi);
      }
    } else {
      var at := SweepTime(c);
      SweptTwice(c, at);
    }
  }

  /** The clean-up does not change when a request is refused. */
  lemma RefusedUnderCleanupIff(c: Config, events: seq<Event>, now: real)
    requires c.Sensible() && c.RefillsWhileIdle() && Ordered(events) && (events != [] ==> events[|events| - 1].at <= now)
    ensures !Request(c, Bucket(c, events), now).1 <==> Spent(c, events, now)
  {
    RequestsOrdered(events, now);
    RefusedIff(c, Requests(events), now);
    DecidedAlike(c, events, now);
    forall lo: real
      ensures Overdrawn(c, events, lo, now) <==> Overdrawn(c, Requests(events), lo, now)
    {
      SweptAdmitted(c, events, lo, now);
    }
    hide Overdrawn;
  }

  lemma DecidedAlike(c: Config, events: seq<Event>, now: real)
    requires c.Sensible() && c.RefillsWhileIdle() && Ordered(events) && (events != [] ==> events[|events| - 1].at <= now)
    ensures Request(c, Bucket(c, events), now) == Request(c, Bucket(c, Requests(events)), now)
  {
    hide Request, Bucket;
    SweptAlike(c, events);
    TokensWithin(c, events, now);
    if events == [] {
      NoBucket(c);
    } else {
      AlikeLater(c, Bucket(c, events), Bucket(c, Requests(events)), events[|events| - 1].at, now);
      AlikeNext(c, Bucket(c, events), Bucket(c, Requests(events)), Asked(now));
    }
  }

  lemma NoBucket(c: Config)
    ensures Bucket(c, []) == None && Requests([]) == []
  {}

  /** A key that asks no faster than the bucket refills is never refused. */
  lemma {:induction false} PatiencePasses(c: Config, events: seq<Event>, now: real)
    requires c.Sensible() && Ordered(events) && (events != [] ==> events[|events| - 1].at <= now)
    requires forall k :: 0 <= k < |events| && events[k].Asked? ==> c.rate * (now - events[k].at) >= 1.0
    ensures Request(c, Bucket(c, events), now).1
  {
    hide Bucket, Inflow;
    TokensWithin(c, events, now);
    LastSeenAsked(c, events);
    if Bucket(c, events).Some? {
      InflowIs(c, Bucket(c, events).value.lastSeen, now);
    }
  }

  lemma {:induction false} LastSeenAsked(c: Config, events: seq<Event>)
    ensures Bucket(c, events).Some? ==> exists k :: 0 <= k < |events| && events[k] == Asked(Bucket(c, events).value.lastSeen)
  {
    hide Inflow;
    if events != [] {
      LastSeenAsked(c, events[..|events| - 1]);
    }
  }

  // ---- what a refused client is told ----

  function Ceiling(x: real): int { -(-x).Floor }

  /** The seconds of the Retry-After header. */
  function RetryAfter(rate: real): int {
    if rate > 0.0 && Ceiling(1.0 / rate) > 1 then Ceiling(1.0 / rate) else 1
  }

  /** A client that waits as long as it is told is not refused again. */
  ghost predicate WaitingHelps(c: Config) {
    forall events: seq<Event>, now: real :: Ordered(events) && (events != [] ==> events[|events| - 1].at <= now) ==>
      PassesAfterWaiting(c, events, now)
  }

  predicate PassesAfterWaiting(c: Config, events: seq<Event>, now: real) {
    Request(c, Bucket(c, events), now + RetryAfter(c.rate) as real).1
  }

  lemma LongEnough(rate: real, waited: real)
    requires rate > 0.0 && waited >= RetryAfter(rate) as real
    ensures rate * waited >= 1.0
  {
    var needed := 1.0 / rate;
    assert waited >= needed;
    assert rate * needed == 1.0;
    assert rate * (waited - needed) >= 0.0;
  }

  /** Waiting as long as the header says helps exactly when the bucket refills at all. */
  lemma WaitingHelpsIff(c: Config)
    requires c.Sensible()
    ensures WaitingHelps(c) <==> c.rate > 0.0
  {
    if c.rate > 0.0 {
      forall events: seq<Event>, now: real | Ordered(events) && (events != [] ==> events[|events| - 1].at <= now)
        ensures PassesAfterWaiting(c, events, now)
      {
        WaitedPasses(c, events, now);
      }
    } else {
      DrainedFromNone(c, 0.0);
      DrainIs(c.burst, 0.0);
      hide Bucket, Drain;
      assert !PassesAfterWaiting(c, Drain(c.burst, 0.0), 0.0);
    }
  }

  lemma WaitedPasses(c: Config, events: seq<Event>, now: real)
    requires c.Sensible() && c.rate > 0.0 && Ordered(events) && (events != [] ==> events[|events| - 1].at <= now)
    ensures PassesAfterWaiting(c, events, now)
  {
    hide Request, Bucket;
    var later := now + RetryAfter(c.rate) as real;
    forall k | 0 <= k < |events| && events[k].Asked?
      ensures c.rate * (later - events[k].at) >= 1.0
    {
      LongEnough(c.rate, later - events[k].at);
    }
    PatiencePasses(c, events, later);
  }

  // ---- the limiter ----

  /** A request for a key, or the clean-up. */
  datatype Call = Allowed(key: string, at: real) | CleanedUp(at: real)

  /** What the calls are to one key. */
  function EventsOf(calls: seq<Call>, key: string): seq<Event> {
    if calls == [] then []
    else EventsOf(calls[..|calls| - 1], key) +
         match calls[|calls| - 1]
         case Allowed(k, at) => if k == key then [Asked(at)] else []
         case CleanedUp(at) => [Swept(at)]
  }

  ghost predicate UpTo(calls: seq<Call>, now: real) {
    (forall i, j :: 0 <= i < j < |calls| ==> calls[i].at <= calls[j].at) && forall i :: 0 <= i < |calls| ==> calls[i].at <= now
  }

  lemma EventsAppend(calls: seq<Call>, call: Call, key: string)
    ensures EventsOf(calls + [call], key) ==
            EventsOf(calls, key) +
            match call { case Allowed(k, at) => if k == key then [Asked(at)] else [] case CleanedUp(at) => [Swept(at)] }
  {
    assert (calls + [call])[..|calls|] == calls;
  }

  function BucketOf(c: Config, calls: seq<Call>, key: string): Option<Visitor> {
    Bucket(c, EventsOf(calls, key))
  }

  /** What one more call does to the bucket of a key. */
  lemma BucketAfter(c: Config, calls: seq<Call>, call: Call, key: string)
    ensures call.CleanedUp? ==> BucketOf(c, calls + [call], key) == Next(c, BucketOf(c, calls, key), Swept(call.at))
    ensures call.Allowed? && call.key == key ==> BucketOf(c, calls + [call], key) == Next(c, BucketOf(c, calls, key), Asked(call.at))
    ensures call.Allowed? && call.key != key ==> BucketOf(c, calls + [call], key) == BucketOf(c, calls, key)
  {
    EventsAppend(calls, call, key);
    var events := EventsOf(calls, key);
    var e := if call.CleanedUp? then Swept(call.at) else Asked(call.at);
    assert (events + [e])[..|events|] == events;
    assert events + [] == events;
  }

  lemma {:induction false} EventsOrdered(calls: seq<Call>, key: string, now: real)
    requires UpTo(calls, now)
    ensures Ordered(EventsOf(calls, key)) && forall k :: 0 <= k < |EventsOf(calls, key)| ==> EventsOf(calls, key)[k].at <= now
  {
    if calls != [] {
      EventsOrdered(calls[..|calls| - 1], key, calls[|calls| - 1].at);
    }
  }

  lemma UpToAppend(calls: seq<Call>, call: Call, now: real)
    requires UpTo(calls, now) && call.at == now
    ensures UpTo(calls + [call], now)
  {}

  lemma CallRefusedIff(c: Config, calls: seq<Call>, key: string, now: real)
    requires UpTo(calls, now)
    ensures c.Sensible() && c.RefillsWhileIdle() ==> (Request(c, BucketOf(c, calls, key), now).1 <==> !Spent(c, EventsOf(calls, key), now))
  {
    EventsOrdered(calls, key, now);
    hide Request, Bucket, Overdrawn;
    if c.Sensible() && c.RefillsWhileIdle() {
      RefusedUnderCleanupIff(c, EventsOf(calls, key), now);
    }
  }

  function Stored(visitors: map<string, Visitor>, key: string): Option<Visitor> {
    if key in visitors then Some(visitors[key]) else None
  }

  /** Every bucket is what the calls for its key make of it. */
  ghost predicate Accounts(c: Config, visitors: map<string, Visitor>, calls: seq<Call>) {
    forall key :: Stored(visitors, key) == BucketOf(c, calls, key)
  }

  lemma AccountsAfter(c: Config, visitors: map<string, Visitor>, calls: seq<Call>, key: string, now: real, v: Visitor)
    requires Accounts(c, visitors, calls) && v == Request(c, Stored(visitors, key), now).0
    ensures Accounts(c, visitors[key := v], calls + [Allowed(key, now)])
  {
    hide BucketOf, Request;
    forall k
      ensures Stored(visitors[key := v], k) == BucketOf(c, calls + [Allowed(key, now)], k)
    {
      BucketAfter(c, calls, Allowed(key, now), k);
      assert Stored(visitors, k) == BucketOf(c, calls, k);
    }
  }

  lemma AccountsFor(c: Config, visitors: map<string, Visitor>, calls: seq<Call>, key: string)
    requires Accounts(c, visitors, calls)
    ensures Stored(visitors, key) == BucketOf(c, calls, key)
  {}

  class Limiter {
    var visitors: map<string, Visitor>
    const config: Config
    ghost var calls: seq<Call>

    ghost predicate Valid()
      reads this
    {
      Accounts(config, visitors, calls)
    }

    function Entry(key: string): Option<Visitor>
      reads this
    {
      Stored(visitors, key)
    }

    constructor (config: Config)
      ensures Valid() && this.config == config && calls == []
    {
      this.config := config;
      visitors, calls := map[], [];
    }

    /** A request is let through exactly when none was too many since any time. */
    method Allow(key: string, now: real) returns (allowed: bool)
      requires Valid() && UpTo(calls, now)
      modifies this`visitors, this`calls
      ensures Valid() && calls == old(calls) + [Allowed(key, now)] && UpTo(calls, now)
      ensures allowed == Request(config, BucketOf(config, old(calls), key), now).1
      ensures config.Sensible() && config.RefillsWhileIdle() ==>
                (allowed <==> !Spent(config, EventsOf(old(calls), key), now))
    {
      hide BucketOf, Spent, UpTo, EventsOf, Inflow, Accounts;
      AccountsFor(config, visitors, calls, key);
      CallRefusedIff(config, calls, key, now);
      UpToAppend(calls, Allowed(key, now), now);
      ghost var before := calls;
      calls := calls + [Allowed(key, now)];
      if key !in visitors {
        AccountsAfter(config, visitors, before, key, now, Visitor(config.burst as real - 1.0, now));
        visitors := visitors[key := Visitor(config.burst as real - 1.0, now)];
        return true;
      }
      var v := visitors[key];
      var tokens := v.tokens + Inflow(config, v.lastSeen, now);
      if tokens > config.burst as real {
        tokens := config.burst as real;
      }
      if tokens < 1.0 {
        AccountsAfter(config, visitors, before, key, now, Visitor(tokens, now));
        visitors := visitors[key := Visitor(tokens, now)];
        return false;
      }
      AccountsAfter(config, visitors, before, key, now, Visitor(tokens - 1.0, now));
      visitors := visitors[key := Visitor(tokens - 1.0, now)];
      return true;
    }

    /** One round of the clean-up loop. */
    method CleanUp(now: real)
      requires Valid() && UpTo(calls, now)
      modifies this`visitors, this`calls
      ensures Valid() && calls == old(calls) + [CleanedUp(now)] && UpTo(calls, now)
      ensures visitors.Keys == set k | k in old(visitors) && now - old(visitors)[k].lastSeen <= 180.0
      ensures forall k :: k in visitors ==> visitors[k] == old(visitors)[k]
    {
      hide BucketOf;
      forall k {
        BucketAfter(config, calls, CleanedUp(now), k);
      }
      var todo := visitors.Keys;
      while todo != {}
        invariant todo <= visitors.Keys && calls == old(calls)
        invariant forall k :: Entry(k) == if k in todo then old(Entry(k)) else Next(config, old(Entry(k)), Swept(now))
      {
        var key :| key in todo;
        todo := todo - {key};
        assert Entry(key) == old(Entry(key));
        if Idle(visitors[key], now) {
          visitors := visitors - {key};
        }
      }
      calls := calls + [CleanedUp(now)];
      forall key
        ensures Entry(key) == BucketOf(config, calls, key)
      {
        assert old(Entry(key)) == BucketOf(config, old(calls), key);
      }
    }
  }

  /** Whatever the calls for all the keys, with such a configuration no key ever gets more
      than its bucketful and the refill of any interval. */
  lemma CallsBound(c: Config, calls: seq<Call>, key: string, now: real, lo: real, hi: real)
    requires c.Sensible() && c.RefillsWhileIdle() && UpTo(calls, now) && lo <= hi
    ensures WithinBound(c, EventsOf(calls, key), lo, hi)
  {
    EventsOrdered(calls, key, now);
    BoundUnderCleanupIff(c);
  }
}
