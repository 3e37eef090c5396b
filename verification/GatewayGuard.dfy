/** The gateway's abuse guard (BE/internal/machine/gateway_guard.go): fixed request windows,
    bounded maps with eviction and a cache of routes known not to exist. */
module GatewayGuard {
  import opened Wrappers

  /** Microseconds; a clock reading is never Go's zero time. */
  type Time = nat

  const SECOND: nat := 1_000_000
  const RouteWindow: nat := SECOND
  const RoutesPerSource: nat := 60
  const RoutesGlobal: nat := 500
  const MaxTrackedSources: nat := 4096
  const NegativeRouteTtl: nat := 30 * SECOND
  const MaxNegativeRoutes: nat := 8192
  const AuditInterval: nat := 300 * SECOND
  const AuditsGlobal: nat := 10
  const AuditWindow: nat := 60 * SECOND
  const OverflowSource: string := "__overflow__"

  /** `started` is None in a window that was never used. */
  datatype Window = Window(started: Option<Time>, count: nat)

  const Unused := Window(None, 0)

  function AdvanceWindow(window: Window, now: Time, duration: nat, limit: nat): (r: (Window, bool))
    ensures r.1 ==> r.0.started.Some? && 0 < r.0.count <= limit
    ensures !r.1 ==> r.0.count >= limit
  {
    var current := if window.started.None? || now - window.started.value >= duration then Window(Some(now), 0) else window;
    if current.count >= limit then (current, false) else (current.(count := current.count + 1), true)
  }

  // ---- what a window guarantees about the times it let through ----

  /** How many of the times lie in the half-open interval of that length from `lo`. */
  function CountIn(log: seq<Time>, lo: int, length: int): nat {
    if log == [] then 0 else CountIn(log[..|log| - 1], lo, length) + if lo <= log[|log| - 1] < lo + length then 1 else 0
  }

  /** How many of the times are `lo` or later. */
  function CountSince(log: seq<Time>, lo: int): nat {
    if log == [] then 0 else CountSince(log[..|log| - 1], lo) + if lo <= log[|log| - 1] then 1 else 0
  }

  ghost predicate UpTo(log: seq<Time>, clock: Time) {
    forall k :: 0 <= k < |log| ==> log[k] <= clock
  }

  /** `log` are the times at which the window let a call through: the counter is the number
      of them since the window started, and no interval as long as the window has more than
      twice the limit. */
  ghost predicate Tracks(log: seq<Time>, window: Window, duration: nat, limit: nat) {
    && window.count <= limit
    && (window.started.None? ==> log == [] && window.count == 0)
    && (window.started.Some? ==>
          && window.count == CountSince(log, window.started.value)
          && CountIn(log, window.started.value - duration, duration) <= limit
          && forall k :: 0 <= k < |log| ==> log[k] < window.started.value + duration)
    && forall t: int :: CountIn(log, t, duration) <= 2 * limit
  }

  lemma CountAppend(log: seq<Time>, x: Time, lo: int, length: int)
    ensures CountIn(log + [x], lo, length) == CountIn(log, lo, length) + if lo <= x < lo + length then 1 else 0
    ensures CountSince(log + [x], lo) == CountSince(log, lo) + if lo <= x then 1 else 0
  {
    assert (log + [x])[..|log|] == log;
  }

  /** An interval around `mid` has no more than the one of that length before `mid` and
      everything since; an interval after `mid` no more than everything since. */
  lemma {:induction false} CountAround(log: seq<Time>, lo: int, mid: int, length: int)
    ensures mid - length <= lo ==> CountIn(log, lo, length) <= CountIn(log, mid - length, length) + CountSince(log, mid)
    ensures mid <= lo ==> CountIn(log, lo, length) <= CountSince(log, mid)
  {
    if log != [] {
      CountAround(log[..|log| - 1], lo, mid, length);
    }
  }

  lemma {:induction false} NoneSince(log: seq<Time>, lo: int)
    requires forall k :: 0 <= k < |log| ==> log[k] < lo
    ensures CountSince(log, lo) == 0
  {
    if log != [] {
      NoneSince(log[..|log| - 1], lo);
    }
  }

  lemma AllowedOnceMore(log: seq<Time>, window: Window, now: Time, duration: nat, limit: nat, t: int)
    requires Tracks(log, window, duration, limit) && 0 < limit && UpTo(log, now)
    requires window.started.Some? ==> window.started.value <= now
    requires AdvanceWindow(window, now, duration, limit).1
    ensures CountIn(log + [now], t, duration) <= 2 * limit
  {
    CountAppend(log, now, t, duration);
    if t <= now < t + duration && window.started.Some? {
      CountAround(log, t, window.started.value, duration);
    }
  }

  /** Letting a call through keeps the bookkeeping right. */
  lemma WindowAllows(log: seq<Time>, window: Window, now: Time, duration: nat, limit: nat)
    requires Tracks(log, window, duration, limit) && 0 < limit && 0 < duration && UpTo(log, now)
    requires window.started.Some? ==> window.started.value <= now
    requires AdvanceWindow(window, now, duration, limit).1
    ensures Tracks(log + [now], AdvanceWindow(window, now, duration, limit).0, duration, limit)
  {
    var after := AdvanceWindow(window, now, duration, limit).0;
    forall t: int
      ensures CountIn(log + [now], t, duration) <= 2 * limit
    {
      AllowedOnceMore(log, window, now, duration, limit, t);
    }
    CountAppend(log, now, after.started.value, duration);
    CountAppend(log, now, after.started.value - duration, duration);
    if window.started.None? || now - window.started.value >= duration {
      StartsOver(log, window, now, duration, limit);
    }
  }

  /** When a window starts over nothing was let through since, and what was let through
      just before it belongs to the window before. */
  lemma StartsOver(log: seq<Time>, window: Window, now: Time, duration: nat, limit: nat)
    requires Tracks(log, window, duration, limit)
    requires window.started.Some? ==> window.started.value <= now
    requires window.started.None? || now - window.started.value >= duration
    ensures CountIn(log, now - duration, duration) <= limit && CountSince(log, now) == 0
  {
    NoneSince(log, now);
    if window.started.Some? {
      CountAround(log, now - duration, window.started.value, duration);
    }
  }

  /** A window in use at the time `clock`. */
  ghost predicate Kept(log: seq<Time>, window: Window, duration: nat, limit: nat, clock: Time) {
    Tracks(log, window, duration, limit) && UpTo(log, clock) && (window.started.Some? ==> window.started.value <= clock)
  }

  lemma KeptLater(log: seq<Time>, window: Window, duration: nat, limit: nat, clock: Time, now: Time)
    requires Kept(log, window, duration, limit, clock) && clock <= now
    ensures Kept(log, window, duration, limit, now)
  {}

  /** A refused call never comes with a window that starts over. */
  lemma KeptRefused(log: seq<Time>, window: Window, duration: nat, limit: nat, now: Time)
    requires Kept(log, window, duration, limit, now) && 0 < limit && !AdvanceWindow(window, now, duration, limit).1
    ensures AdvanceWindow(window, now, duration, limit).0 == window
  {}

  lemma KeptAllowed(log: seq<Time>, window: Window, duration: nat, limit: nat, now: Time)
    requires Kept(log, window, duration, limit, now) && 0 < limit && 0 < duration && AdvanceWindow(window, now, duration, limit).1
    ensures Kept(log + [now], AdvanceWindow(window, now, duration, limit).0, duration, limit, now)
  {
    WindowAllows(log, window, now, duration, limit);
    hide Tracks;
  }

  lemma KeptBound(log: seq<Time>, window: Window, duration: nat, limit: nat, clock: Time)
    requires Kept(log, window, duration, limit, clock)
    ensures forall t: int :: CountIn(log, t, duration) <= 2 * limit
  {}

  /** The two global windows. */
  ghost predicate WindowsKept(routes: seq<Time>, routeGlobal: Window, audits: seq<Time>, auditGlobal: Window, clock: Time) {
    Kept(routes, routeGlobal, RouteWindow, RoutesGlobal, clock) && Kept(audits, auditGlobal, AuditWindow, AuditsGlobal, clock)
  }

  lemma WindowsLater(routes: seq<Time>, routeGlobal: Window, audits: seq<Time>, auditGlobal: Window, clock: Time, now: Time)
    requires WindowsKept(routes, routeGlobal, audits, auditGlobal, clock) && clock <= now
    ensures WindowsKept(routes, routeGlobal, audits, auditGlobal, now)
    ensures forall t: int :: CountIn(routes, t, SECOND) <= 1000
    ensures forall t: int :: CountIn(audits, t, 60 * SECOND) <= 20
  {
    KeptLater(routes, routeGlobal, RouteWindow, RoutesGlobal, clock, now);
    KeptLater(audits, auditGlobal, AuditWindow, AuditsGlobal, clock, now);
    KeptBound(routes, routeGlobal, RouteWindow, RoutesGlobal, now);
    KeptBound(audits, auditGlobal, AuditWindow, AuditsGlobal, now);
    hide Kept;
  }

  lemma RouteWindowMoves(routes: seq<Time>, routeGlobal: Window, audits: seq<Time>, auditGlobal: Window, now: Time)
    requires WindowsKept(routes, routeGlobal, audits, auditGlobal, now)
    ensures var (after, allowed) := AdvanceWindow(routeGlobal, now, RouteWindow, RoutesGlobal);
      if allowed
      then WindowsKept(routes + [now], after, audits, auditGlobal, now) && forall t: int :: CountIn(routes + [now], t, SECOND) <= 1000
      else after == routeGlobal
  {
    if AdvanceWindow(routeGlobal, now, RouteWindow, RoutesGlobal).1 {
      KeptAllowed(routes, routeGlobal, RouteWindow, RoutesGlobal, now);
      KeptBound(routes + [now], AdvanceWindow(routeGlobal, now, RouteWindow, RoutesGlobal).0, RouteWindow, RoutesGlobal, now);
    } else {
      KeptRefused(routes, routeGlobal, RouteWindow, RoutesGlobal, now);
    }
  }

  lemma AuditWindowMoves(routes: seq<Time>, routeGlobal: Window, audits: seq<Time>, auditGlobal: Window, now: Time)
    requires WindowsKept(routes, routeGlobal, audits, auditGlobal, now)
    ensures var (after, allowed) := AdvanceWindow(auditGlobal, now, AuditWindow, AuditsGlobal);
      allowed ==>
        WindowsKept(routes, routeGlobal, audits + [now], after, now) && forall t: int :: CountIn(audits + [now], t, 60 * SECOND) <= 20
  {
    if AdvanceWindow(auditGlobal, now, AuditWindow, AuditsGlobal).1 {
      KeptAllowed(audits, auditGlobal, AuditWindow, AuditsGlobal, now);
      KeptBound(audits + [now], AdvanceWindow(auditGlobal, now, AuditWindow, AuditsGlobal).0, AuditWindow, AuditsGlobal, now);
    }
  }

  // ---- what a refusal means ----

  lemma {:induction false} SinceIsRecent(log: seq<Time>, since: int, now: Time, duration: nat)
    requires UpTo(log, now) && now - duration < since
    ensures CountSince(log, since) <= CountIn(log, now - duration + 1, duration)
  {
    if log != [] {
      SinceIsRecent(log[..|log| - 1], since, now, duration);
    }
  }

  /** The interval as long as the window that ends now had the whole limit let through. */
  ghost predicate Busy(log: seq<Time>, now: Time, duration: nat, limit: nat) {
    CountIn(log, now - duration + 1, duration) >= limit
  }

  /** A window refuses nobody while less than the limit was let through in the interval that
      ends now. */
  lemma RefusedIsBusy(log: seq<Time>, window: Window, now: Time, duration: nat, limit: nat)
    requires Kept(log, window, duration, limit, now) && 0 < limit && !AdvanceWindow(window, now, duration, limit).1
    ensures Busy(log, now, duration, limit)
  {
    SinceIsRecent(log, window.started.value, now, duration);
  }

  // ---- the windows of the sources ----

  /** The lookups let through under each key since its window was made. */
  ghost predicate SourcesKept(lookups: map<string, seq<Time>>, sources: map<string, Window>, clock: Time) {
    lookups.Keys == sources.Keys &&
    forall key :: key in sources ==> Kept(lookups[key], sources[key], RouteWindow, RoutesPerSource, clock)
  }

  function LogOf(lookups: map<string, seq<Time>>, key: string): seq<Time> {
    if key in lookups then lookups[key] else []
  }

  lemma SourcesLater(lookups: map<string, seq<Time>>, sources: map<string, Window>, clock: Time, now: Time)
    requires SourcesKept(lookups, sources, clock) && clock <= now
    ensures SourcesKept(lookups, sources, now)
  {
    forall key | key in sources
      ensures Kept(lookups[key], sources[key], RouteWindow, RoutesPerSource, now)
    {
      KeptLater(lookups[key], sources[key], RouteWindow, RoutesPerSource, clock, now);
    }
  }

  lemma SourcesBound(lookups: map<string, seq<Time>>, sources: map<string, Window>, clock: Time)
    requires SourcesKept(lookups, sources, clock)
    ensures forall key, t: int :: key in lookups ==> CountIn(lookups[key], t, SECOND) <= 120
  {
    forall key, t: int | key in lookups
      ensures CountIn(lookups[key], t, SECOND) <= 120
    {
      KeptBound(lookups[key], sources[key], RouteWindow, RoutesPerSource, clock);
    }
  }

  lemma UnusedKept(clock: Time)
    ensures Kept([], Unused, RouteWindow, RoutesPerSource, clock)
  {
    assert forall t: int :: CountIn([], t, RouteWindow) == 0;
  }

  /** A lookup under a key, let through or not. */
  lemma SourceMoves(lookups: map<string, seq<Time>>, sources: map<string, Window>, key: string, now: Time)
    requires SourcesKept(lookups, sources, now)
    ensures var (after, allowed) := AdvanceWindow(LookUp(sources, key), now, RouteWindow, RoutesPerSource);
      if allowed then SourcesKept(lookups[key := LogOf(lookups, key) + [now]], sources[key := after], now)
      else Busy(LogOf(lookups, key), now, SECOND, 60)
  {
    UnusedKept(now);
    hide Kept;
    assert Kept(LogOf(lookups, key), LookUp(sources, key), RouteWindow, RoutesPerSource, now);
    if AdvanceWindow(LookUp(sources, key), now, RouteWindow, RoutesPerSource).1 {
      KeptAllowed(LogOf(lookups, key), LookUp(sources, key), RouteWindow, RoutesPerSource, now);
    } else {
      RefusedIsBusy(LogOf(lookups, key), LookUp(sources, key), now, RouteWindow, RoutesPerSource);
    }
  }

  lemma SourcesKnown(lookups: map<string, seq<Time>>, sources: map<string, Window>, clock: Time)
    requires SourcesKept(lookups, sources, clock)
    ensures lookups.Keys == sources.Keys
  {}

  lemma LostRows<T>(before: map<string, T>, after: map<string, T>)
    ensures LostOne(before, after) || after == before ==> forall k :: k in after ==> k in before && after[k] == before[k]
  {}

  lemma SourceLost(lookups: map<string, seq<Time>>, sources: map<string, Window>, victim: string, clock: Time)
    requires SourcesKept(lookups, sources, clock)
    ensures SourcesKept(lookups - {victim}, sources - {victim}, clock)
  {
    hide Kept;
  }

  lemma GlobalRefusals(routes: seq<Time>, routeGlobal: Window, audits: seq<Time>, auditGlobal: Window, now: Time)
    requires WindowsKept(routes, routeGlobal, audits, auditGlobal, now)
    ensures !AdvanceWindow(routeGlobal, now, RouteWindow, RoutesGlobal).1 ==> Busy(routes, now, SECOND, 500)
    ensures !AdvanceWindow(auditGlobal, now, AuditWindow, AuditsGlobal).1 ==> Busy(audits, now, 60 * SECOND, 10)
  {
    if !AdvanceWindow(routeGlobal, now, RouteWindow, RoutesGlobal).1 {
      RefusedIsBusy(routes, routeGlobal, now, RouteWindow, RoutesGlobal);
    }
    if !AdvanceWindow(auditGlobal, now, AuditWindow, AuditsGlobal).1 {
      RefusedIsBusy(audits, auditGlobal, now, AuditWindow, AuditsGlobal);
    }
  }

  /** No key is held back longer than five minutes from now. */
  ghost predicate HeldAtMost(entries: map<string, Time>, clock: Time) {
    forall key :: key in entries ==> entries[key] <= clock + 300 * SECOND
  }

  // ---- the guard ----

  function Named(source: string): string {
    if source == "" then "unknown" else source
  }

  /** The key a source is counted under: its own while there is room, else the shared one. */
  function BoundedKey<T>(entries: map<string, T>, source: string): (key: string)
    ensures source != "" && (source in entries || |entries| < 4096) ==> key == source
    ensures key == source || key == "unknown" || key == "__overflow__"
  {
    if Named(source) in entries || |entries| < MaxTrackedSources then Named(source) else OverflowSource
  }

  /** Whether an entry has to go to make room for the shared one. */
  predicate Evicts<T>(entries: map<string, T>, source: string) {
    Named(source) !in entries && |entries| >= MaxTrackedSources && OverflowSource !in entries
  }

  function LookUp(entries: map<string, Window>, key: string): Window {
    if key in entries then entries[key] else Unused
  }

  /** `after` is `before` without at most one of its entries. */
  ghost predicate LostOne<T>(before: map<string, T>, after: map<string, T>) {
    exists key :: key in before && after == before - {key}
  }

  /** The cache against the history: an entry lasts 30 seconds from when its key was last
      remembered, and without evictions only expired keys are missing. */
  ghost predicate Remembers(cache: map<string, Time>, remembered: map<string, Time>, evicted: bool, clock: Time) {
    && (forall key :: key in cache ==> key in remembered && cache[key] == remembered[key] + NegativeRouteTtl)
    && (!evicted ==> forall key :: key in remembered ==> key in cache || remembered[key] + NegativeRouteTtl <= clock)
  }

  lemma RemembersLater(cache: map<string, Time>, remembered: map<string, Time>, evicted: bool, clock: Time, now: Time)
    requires Remembers(cache, remembered, evicted, clock) && clock <= now
    ensures Remembers(cache, remembered, evicted, now)
  {}

  lemma RemembersAnew(cache: map<string, Time>, remembered: map<string, Time>, evicted: bool, key: string, now: Time)
    requires Remembers(cache, remembered, evicted, now)
    ensures Remembers(cache[key := now + NegativeRouteTtl], remembered[key := now], evicted, now)
    ensures forall victim :: Remembers(cache - {victim}, remembered, true, now)
  {}

  /** What the cache says of a key, and what is left when an expired one is dropped. */
  lemma Forgotten(cache: map<string, Time>, remembered: map<string, Time>, evicted: bool, key: string, now: Time)
    requires Remembers(cache, remembered, evicted, now)
    ensures key in cache ==> key in remembered && cache[key] == remembered[key] + 30 * SECOND
    ensures !evicted && key in remembered && now < remembered[key] + 30 * SECOND ==> key in cache
    ensures !(key in cache && now < cache[key]) ==> Remembers(cache - {key}, remembered, evicted, now)
    ensures |cache - {key}| <= |cache|
  {
    if key in cache {
      SizeWithout(cache, key);
    } else {
      assert cache - {key} == cache;
    }
  }

  /** Counting a source under its bounded key never takes the table over its limit. */
  lemma StaysBounded<T>(before: map<string, T>, after: map<string, T>, source: string, x: T)
    requires |before| <= MaxTrackedSources
    requires if Evicts(before, source) then LostOne(before, after) else after == before
    ensures |after| <= MaxTrackedSources && |after[BoundedKey(before, source) := x]| <= MaxTrackedSources
    ensures BoundedKey(before, source) in after <==> BoundedKey(before, source) in before
    ensures BoundedKey(before, source) in before ==> after[BoundedKey(before, source)] == before[BoundedKey(before, source)]
  {
    if Evicts(before, source) {
      var key :| key in before && after == before - {key};
      SizeWithout(before, key);
    }
    SizeWith(after, BoundedKey(before, source), x);
  }

  lemma SizeWithout<T>(entries: map<string, T>, key: string)
    requires key in entries
    ensures |entries - {key}| == |entries| - 1
  {
    assert entries.Keys == (entries - {key}).Keys + {key};
  }

  lemma SizeWith<T>(entries: map<string, T>, key: string, x: T)
    ensures |entries[key := x]| == |entries| + if key in entries then 0 else 1
  {
    assert entries[key := x].Keys == entries.Keys + {key};
  }

  // ---- the audits of one key ----

  /** An audit let through under a key, or a key that had to make room. */
  datatype AuditEvent = Audited(key: string, at: Time) | Evicted(key: string)

  /** The key was not evicted between the two positions. */
  ghost predicate KeptBetween(journal: seq<AuditEvent>, i: int, j: int, key: string) {
    forall m :: 0 <= m < |journal| && i < m < j ==> journal[m] != Evicted(key)
  }

  predicate SameKey(journal: seq<AuditEvent>, i: int, j: int)
    requires 0 <= i < j < |journal|
  {
    journal[i].Audited? && journal[j].Audited? && journal[i].key == journal[j].key
  }

  /** Two audits of one key are five minutes apart unless the key was evicted in between. */
  ghost predicate Spaced(journal: seq<AuditEvent>) {
    forall i, j :: 0 <= i < j < |journal| && SameKey(journal, i, j) && KeptBetween(journal, i, j, journal[i].key) ==>
      journal[j].at >= journal[i].at + AuditInterval
  }

  /** An audit whose key was not evicted since holds the key back for five minutes. */
  ghost predicate HeldBack(journal: seq<AuditEvent>, entries: map<string, Time>) {
    forall i :: 0 <= i < |journal| && journal[i].Audited? && KeptBetween(journal, i, |journal|, journal[i].key) ==>
      journal[i].key in entries && entries[journal[i].key] >= journal[i].at + AuditInterval
  }

  ghost predicate Audits(journal: seq<AuditEvent>, entries: map<string, Time>) {
    Spaced(journal) && HeldBack(journal, entries)
  }

  lemma AuditsSpaced(journal: seq<AuditEvent>, entries: map<string, Time>)
    requires Audits(journal, entries)
    ensures Spaced(journal)
  {}

  lemma KeptLonger(journal: seq<AuditEvent>, e: AuditEvent, i: int, j: int, key: string)
    requires 0 <= i < j <= |journal|
    ensures KeptBetween(journal + [e], i, j, key) <==> KeptBetween(journal, i, j, key)
    ensures KeptBetween(journal + [e], i, |journal| + 1, key) <==> KeptBetween(journal, i, |journal|, key) && e != Evicted(key)
  {
    assert forall m :: i < m < |journal| ==> (journal + [e])[m] == journal[m];
    assert (journal + [e])[|journal|] == e;
  }

  /** The latest audit of the key, if the key was not evicted since, is five minutes old. */
  ghost predicate LongAgo(journal: seq<AuditEvent>, key: string, now: Time) {
    forall i :: 0 <= i < |journal| && journal[i].Audited? && journal[i].key == key && KeptBetween(journal, i, |journal|, key) ==>
      now >= journal[i].at + AuditInterval
  }

  lemma SpacedLonger(journal: seq<AuditEvent>, e: AuditEvent)
    requires Spaced(journal)
    requires e.Audited? ==> LongAgo(journal, e.key, e.at)
    ensures Spaced(journal + [e])
  {
    hide KeptBetween;
    var after := journal + [e];
    forall i, j | 0 <= i < j < |after| && SameKey(after, i, j) && KeptBetween(after, i, j, after[i].key)
      ensures after[j].at >= after[i].at + AuditInterval
    {
      KeptLonger(journal, e, i, j, after[i].key);
    }
  }

  /** The key's entry does not forbid an audit. */
  predicate Due(entries: map<string, Time>, key: string, now: Time) {
    key in entries ==> entries[key] <= now
  }

  /** An audit that the key's entry does not forbid comes five minutes after the last. */
  lemma AuditKeepsSpacing(journal: seq<AuditEvent>, entries: map<string, Time>, key: string, now: Time)
    requires Audits(journal, entries) && Due(entries, key, now)
    ensures Audits(journal + [Audited(key, now)], entries[key := now + AuditInterval])
    ensures Audits(journal, entries[key := now + AuditInterval])
    ensures Spaced(journal) && Spaced(journal + [Audited(key, now)])
  {
    hide KeptBetween;
    var e, after := Audited(key, now), entries[key := now + AuditInterval];
    SpacedLonger(journal, e);
    forall i | 0 <= i < |journal| && KeptBetween(journal + [e], i, |journal| + 1, journal[i].key)
      ensures KeptBetween(journal, i, |journal|, journal[i].key)
    {
      KeptLonger(journal, e, i, |journal|, journal[i].key);
    }
    assert HeldBack(journal, after);
    assert HeldBack(journal + [e], after);
  }

  lemma EvictionKeepsSpacing(journal: seq<AuditEvent>, entries: map<string, Time>, victim: string)
    requires Audits(journal, entries)
    ensures Audits(journal + [Evicted(victim)], entries - {victim})
  {
    hide KeptBetween;
    var e := Evicted(victim);
    SpacedLonger(journal, e);
    forall i | 0 <= i < |journal| && KeptBetween(journal + [e], i, |journal| + 1, journal[i].key)
      ensures KeptBetween(journal, i, |journal|, journal[i].key) && journal[i].key != victim
    {
      KeptLonger(journal, e, i, |journal|, journal[i].key);
    }
    assert HeldBack(journal + [e], entries - {victim});
  }

  class GatewayAbuseGuard {
    var routeSources: map<string, Window>
    var routeGlobal: Window
    var negativeUntil: map<string, Time>
    var auditAfter: map<string, Time>
    var auditGlobal: Window

    /** The latest call, the calls let through, in all and under each key, the audits and evictions of each key, when
        each key was last remembered, and whether a negative route was ever evicted. */
    ghost var clock: Time
    ghost var routes: seq<Time>
    ghost var lookups: map<string, seq<Time>>
    ghost var audits: seq<Time>
    ghost var journal: seq<AuditEvent>
    ghost var remembered: map<string, Time>
    ghost var evicted: bool

    ghost predicate Valid()
      reads this
    {
      && WindowsKept(routes, routeGlobal, audits, auditGlobal, clock)
      && |routeSources| <= MaxTrackedSources && |auditAfter| <= MaxTrackedSources && |negativeUntil| <= MaxNegativeRoutes
      && Remembers(negativeUntil, remembered, evicted, clock)
      && Audits(journal, auditAfter)
      && SourcesKept(lookups, routeSources, clock) && HeldAtMost(auditAfter, clock)
    }

    constructor ()
      ensures Valid() && clock == 0 && routes == [] && lookups == map[] && audits == [] && journal == [] && remembered == map[] && !evicted
    {
      routeSources, routeGlobal, negativeUntil, auditAfter, auditGlobal := map[], Unused, map[], map[], Unused;
      clock, routes, lookups, audits, journal, remembered, evicted := 0, [], map[], [], [], map[], false;
    }

    /** Time passes between calls. */
    ghost method Tick(now: Time)
      requires Valid() && clock <= now
      modifies this`clock
      ensures Valid() && clock == now
      ensures forall t: int :: CountIn(routes, t, SECOND) <= 1000
      ensures forall t: int :: CountIn(audits, t, 60 * SECOND) <= 20
    {
      hide WindowsKept, Audits, CountIn, SourcesKept;
      WindowsLater(routes, routeGlobal, audits, auditGlobal, clock, now);
      SourcesLater(lookups, routeSources, clock, now);
      RemembersLater(negativeUntil, remembered, evicted, clock, now);
      clock := now;
    }

    /** boundedGatewaySource over the sources of route lookups. */
    method BoundedSource(source: string) returns (key: string)
      requires SourcesKept(lookups, routeSources, clock)
      modifies this`routeSources, this`lookups
      ensures key == BoundedKey(old(routeSources), source)
      ensures SourcesKept(lookups, routeSources, clock) && LogOf(lookups, key) == LogOf(old(lookups), key)
      ensures if Evicts(old(routeSources), source) then LostOne(old(lookups), lookups) else lookups == old(lookups)
      ensures if Evicts(old(routeSources), source) then LostOne(old(routeSources), routeSources) else routeSources == old(routeSources)
    {
      hide SourcesKept;
      SourcesKnown(lookups, routeSources, clock);
      if Named(source) in routeSources || |routeSources| < MaxTrackedSources {
        return Named(source);
      }
      if OverflowSource !in routeSources {
        var victim :| victim in routeSources.Keys;
        SourceLost(lookups, routeSources, victim, clock);
        routeSources, lookups := routeSources - {victim}, lookups - {victim};
      }
      return OverflowSource;
    }

    /** boundedGatewayAuditSource: the same over the audited sources. */
    method BoundedAuditSource(source: string) returns (key: string)
      requires |auditAfter| <= MaxTrackedSources && Audits(journal, auditAfter)
      modifies this`auditAfter, this`journal
      ensures key == BoundedKey(old(auditAfter), source)
      ensures key in auditAfter <==> key in old(auditAfter)
      ensures key in auditAfter ==> auditAfter[key] == old(auditAfter)[key]
      ensures |auditAfter| <= MaxTrackedSources && (key in auditAfter || |auditAfter| < MaxTrackedSources)
      ensures Audits(journal, auditAfter) && old(journal) <= journal
      ensures forall k :: k in auditAfter ==> k in old(auditAfter) && auditAfter[k] == old(auditAfter)[k]
      ensures |journal| == |old(journal)| + if Evicts(old(auditAfter), source) then 1 else 0
      ensures Evicts(old(auditAfter), source) ==> journal[|old(journal)|].Evicted? && journal[|old(journal)|].key in old(auditAfter)
    {
      hide Audits;
      if Named(source) in auditAfter || |auditAfter| < MaxTrackedSources {
        return Named(source);
      }
      if OverflowSource !in auditAfter {
        var victim :| victim in auditAfter.Keys;
        EvictionKeepsSpacing(journal, auditAfter, victim);
        SizeWithout(auditAfter, victim);
        auditAfter := auditAfter - {victim};
        journal := journal + [Evicted(victim)];
      }
      return OverflowSource;
    }

    /** A lookup is let through exactly when both windows have room: always while fewer than
        500 lookups, and 60 under its key, were let through within a second. Of all lookups
        let through no half-open second has more than 1000, and of those under one key that
        was not evicted more than 120. */
    method AllowRouteLookup(source: string, now: Time) returns (allowed: bool)
      requires Valid() && clock <= now
      modifies this`routeSources, this`routeGlobal, this`clock, this`routes, this`lookups
      ensures Valid() && clock == now
      ensures allowed <==>
              AdvanceWindow(old(routeGlobal), now, RouteWindow, RoutesGlobal).1 &&
              AdvanceWindow(LookUp(old(routeSources), BoundedKey(old(routeSources), source)), now, RouteWindow, RoutesPerSource).1
      ensures var key := BoundedKey(old(routeSources), source);
        && (allowed ==> routeGlobal == AdvanceWindow(old(routeGlobal), now, RouteWindow, RoutesGlobal).0 && key in routeSources &&
                        routeSources[key] == AdvanceWindow(LookUp(old(routeSources), key), now, RouteWindow, RoutesPerSource).0)
        && (!allowed ==> routeGlobal == old(routeGlobal))
        && (!allowed && !Evicts(old(routeSources), source) ==> routeSources == old(routeSources))
      ensures routes == old(routes) + if allowed then [now] else []
      ensures forall t: int :: CountIn(routes, t, SECOND) <= 1000
      ensures var key := BoundedKey(old(routeSources), source);
        && (!allowed ==> Busy(old(routes), now, SECOND, 500) || Busy(LogOf(old(lookups), key), now, SECOND, 60))
        && LogOf(lookups, key) == LogOf(old(lookups), key) + (if allowed then [now] else [])
        && (forall k :: k in lookups && k != key ==> k in old(lookups) && lookups[k] == old(lookups)[k])
      ensures !Evicts(old(routeSources), source) ==> old(lookups).Keys <= lookups.Keys
      ensures forall key, t: int :: key in lookups ==> CountIn(lookups[key], t, SECOND) <= 120
    {
      hide WindowsKept, BoundedKey, Evicts, AdvanceWindow, Remembers, CountIn, Audits, SourcesKept, Busy, LostOne, HeldAtMost;
      Tick(now);
      ghost var sources, logs := routeSources, lookups;
      var key := BoundedSource(source);
      LostRows(logs, lookups);
      StaysBounded<Window>(sources, routeSources, source, AdvanceWindow(LookUp(routeSources, key), now, RouteWindow, RoutesPerSource).0);
      allowed := CountLookup(key, now);
    }

    /** The part after the key was chosen. */
    method CountLookup(key: string, now: Time) returns (allowed: bool)
      requires Valid() && clock == now
      requires |routeSources[key := AdvanceWindow(LookUp(routeSources, key), now, RouteWindow, RoutesPerSource).0]| <= MaxTrackedSources
      modifies this`routeSources, this`routeGlobal, this`routes, this`lookups
      ensures Valid()
      ensures allowed <==>
              AdvanceWindow(old(routeGlobal), now, RouteWindow, RoutesGlobal).1 &&
              AdvanceWindow(LookUp(old(routeSources), key), now, RouteWindow, RoutesPerSource).1
      ensures routeGlobal == if allowed then AdvanceWindow(old(routeGlobal), now, RouteWindow, RoutesGlobal).0 else old(routeGlobal)
      ensures routeSources == if allowed then old(routeSources)[key := AdvanceWindow(LookUp(old(routeSources), key), now, RouteWindow, RoutesPerSource).0]
                              else old(routeSources)
      ensures !allowed ==> Busy(old(routes), now, SECOND, 500) || Busy(LogOf(old(lookups), key), now, SECOND, 60)
      ensures routes == old(routes) + if allowed then [now] else []
      ensures lookups == if allowed then old(lookups)[key := LogOf(old(lookups), key) + [now]] else old(lookups)
      ensures forall t: int :: CountIn(routes, t, SECOND) <= 1000
      ensures forall k, t: int :: k in lookups ==> CountIn(lookups[k], t, SECOND) <= 120
    {
      hide WindowsKept, AdvanceWindow, Remembers, CountIn, Audits, SourcesKept, Busy, HeldAtMost;
      WindowsLater(routes, routeGlobal, audits, auditGlobal, now, now);
      RouteWindowMoves(routes, routeGlobal, audits, auditGlobal, now);
      GlobalRefusals(routes, routeGlobal, audits, auditGlobal, now);
      SourceMoves(lookups, routeSources, key, now);
      SourcesBound(lookups, routeSources, now);
      var (global, globalAllowed) := AdvanceWindow(routeGlobal, now, RouteWindow, RoutesGlobal);
      if !globalAllowed {
        routeGlobal := global;
        return false;
      }
      var (perSource, sourceAllowed) := AdvanceWindow(LookUp(routeSources, key), now, RouteWindow, RoutesPerSource);
      if !sourceAllowed {
        return false;
      }
      routeGlobal := global;
      routeSources := routeSources[key := perSource];
      routes, lookups := routes + [now], lookups[key := LogOf(lookups, key) + [now]];
      SourcesBound(lookups, routeSources, now);
      return true;
    }

    /** True only for a key remembered less than 30 seconds ago, and exactly then while
        nothing was evicted. */
    method NegativeRoute(key: string, now: Time) returns (negative: bool)
      requires Valid() && clock <= now
      modifies this`negativeUntil, this`clock
      ensures Valid() && clock == now
      ensures negative ==> key in remembered && now < remembered[key] + 30 * SECOND
      ensures !evicted ==> (negative <==> key in remembered && now < remembered[key] + 30 * SECOND)
      ensures negativeUntil == if negative then old(negativeUntil) else old(negativeUntil) - {key}
    {
      hide WindowsKept, Audits, SourcesKept, HeldAtMost, CountIn, Remembers;
      Tick(now);
      negative := DropExpired(key, now);
    }

    /** The part with the cache alone. */
    method DropExpired(key: string, now: Time) returns (negative: bool)
      requires Valid() && clock == now
      modifies this`negativeUntil
      ensures Valid()
      ensures negative ==> key in remembered && now < remembered[key] + 30 * SECOND
      ensures !evicted ==> (negative <==> key in remembered && now < remembered[key] + 30 * SECOND)
      ensures negativeUntil == if negative then old(negativeUntil) else old(negativeUntil) - {key}
    {
      hide WindowsKept, Audits, SourcesKept, HeldAtMost, Remembers;
      Forgotten(negativeUntil, remembered, evicted, key, now);
      if key in negativeUntil && now < negativeUntil[key] {
        return true;
      }
      negativeUntil := negativeUntil - {key};
      return false;
    }

    method RememberNegativeRoute(key: string, now: Time)
      requires Valid() && clock <= now
      modifies this`negativeUntil, this`clock, this`remembered, this`evicted
      ensures Valid() && clock == now
      ensures remembered == old(remembered)[key := now]
      ensures key in negativeUntil && negativeUntil[key] == now + 30 * SECOND
      ensures evicted == (old(evicted) || |old(negativeUntil)| >= 8192) && |negativeUntil| <= 8192
    {
      hide WindowsKept, Remembers, CountIn, Audits, SourcesKept;
      Tick(now);
      if |negativeUntil| >= MaxNegativeRoutes {
        var victim :| victim in negativeUntil.Keys;
        SizeWithout(negativeUntil, victim);
        RemembersAnew(negativeUntil, remembered, evicted, key, now);
        negativeUntil := negativeUntil - {victim};
        evicted := true;
      }
      SizeWith<Time>(negativeUntil, key, now + NegativeRouteTtl);
      RemembersAnew(negativeUntil, remembered, evicted, key, now);
      negativeUntil := negativeUntil[key := now + NegativeRouteTtl];
      remembered := remembered[key := now];
    }

    /** Of all audits let through so far, any two under one key are five minutes apart unless
        the key was evicted in between, and no half-open minute has more than 20. A key that
        is not held back, which no key is for more than five minutes, is refused only when
        ten audits were let through within a minute. */
    method AllowUnknownAudit(source: string, now: Time) returns (allowed: bool)
      requires Valid() && clock <= now
      modifies this`auditAfter, this`auditGlobal, this`clock, this`audits, this`journal
      ensures Valid() && clock == now
      ensures Spaced(journal) && old(journal) <= journal
      ensures |journal| == |old(journal)| + (if Evicts(old(auditAfter), source) then 1 else 0) + (if allowed then 1 else 0)
      ensures allowed ==> journal[|journal| - 1] == Audited(BoundedKey(old(auditAfter), source), now)
      ensures Evicts(old(auditAfter), source) ==>
                journal[|old(journal)|].Evicted? && journal[|old(journal)|].key in old(auditAfter)
      ensures var key := BoundedKey(old(auditAfter), source);
        && (allowed <==> Due(old(auditAfter), key, now) && AdvanceWindow(old(auditGlobal), now, AuditWindow, AuditsGlobal).1)
        && (Due(old(auditAfter), key, now) ==> key in auditAfter && auditAfter[key] == now + 300 * SECOND)
        && (!allowed && Due(old(auditAfter), key, now) ==> Busy(old(audits), now, 60 * SECOND, 10))
      ensures forall key :: key in auditAfter ==> auditAfter[key] <= now + 300 * SECOND
      ensures auditGlobal == if allowed then AdvanceWindow(old(auditGlobal), now, AuditWindow, AuditsGlobal).0 else old(auditGlobal)
      ensures audits == old(audits) + if allowed then [now] else []
      ensures forall t: int :: CountIn(audits, t, 60 * SECOND) <= 20
    {
      hide WindowsKept, BoundedKey, Evicts, AdvanceWindow, Remembers, CountIn, Spaced, Audits, KeptBetween, SameKey,
           SourcesKept, Busy;
      Tick(now);
      GlobalRefusals(routes, routeGlobal, audits, auditGlobal, now);
      var key := BoundedAuditSource(source);
      allowed := AuditKey(key, now);
    }

    /** The part after the key was chosen. */
    method AuditKey(key: string, now: Time) returns (allowed: bool)
      requires Valid() && clock == now && (key in auditAfter || |auditAfter| < MaxTrackedSources)
      modifies this`auditAfter, this`auditGlobal, this`audits, this`journal
      ensures Valid() && Spaced(journal)
      ensures journal == old(journal) + if allowed then [Audited(key, now)] else []
      ensures allowed <==> Due(old(auditAfter), key, now) && AdvanceWindow(old(auditGlobal), now, AuditWindow, AuditsGlobal).1
      ensures auditAfter == if Due(old(auditAfter), key, now) then old(auditAfter)[key := now + AuditInterval] else old(auditAfter)
      ensures auditGlobal == if allowed then AdvanceWindow(old(auditGlobal), now, AuditWindow, AuditsGlobal).0 else old(auditGlobal)
      ensures audits == old(audits) + if allowed then [now] else []
      ensures forall t: int :: CountIn(audits, t, 60 * SECOND) <= 20
    {
      hide WindowsKept, AdvanceWindow, Remembers, CountIn, Spaced, Audits, KeptBetween, SameKey, SourcesKept;
      AuditsSpaced(journal, auditAfter);
      WindowsLater(routes, routeGlobal, audits, auditGlobal, now, now);
      if key in auditAfter && now < auditAfter[key] {
        return false;
      }
      SizeWith<Time>(auditAfter, key, now + AuditInterval);
      AuditKeepsSpacing(journal, auditAfter, key, now);
      AuditWindowMoves(routes, routeGlobal, audits, auditGlobal, now);
      var (global, globalAllowed) := AdvanceWindow(auditGlobal, now, AuditWindow, AuditsGlobal);
      auditAfter := auditAfter[key := now + AuditInterval];
      if !globalAllowed {
        return false;
      }
      auditGlobal := global;
      audits := audits + [now];
      journal := journal + [Audited(key, now)];
      return true;
    }
  }
}
