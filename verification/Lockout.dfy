/** Lockout windows over whole runs: any sequence of operations, from the empty store,
    on a clock that never runs backwards. */
module Lockout {
  import opened Wrappers
  import opened Text
  import opened AuthStore
  import AuthManager

  datatype Event =
    | ResolveEvent(session: string, provider: string, refresh: Refresher)
    | SuccessEvent(session: string, provider: string, id: string)
    | FailureEvent(session: string, provider: string, id: string, reason: Reason)
    | UpsertEvent(provider: string, input: OAuthInput)
    | OrderEvent(provider: string, ids: seq<string>)

  datatype Timed = Timed(event: Event, at: int)

  ghost function Apply(store: Store, event: Event, now: int): Store {
    match event
    case ResolveEvent(session, provider, refresh) => Resolve(store, session, provider, now, refresh).0
    case SuccessEvent(session, provider, id) => MarkSuccess(store, session, provider, id, now)
    case FailureEvent(session, provider, id, reason) => MarkFailure(store, session, provider, id, reason, now)
    case UpsertEvent(provider, input) => Upsert(store, provider, input)
    case OrderEvent(provider, ids) => SetOrder(store, provider, ids)
  }

  /** The store after a run, starting from the empty one. */
  ghost function StoreAfter(run: seq<Timed>): Store {
    if run == [] then EMPTY_STORE
    else Apply(StoreAfter(run[..|run| - 1]), run[|run| - 1].event, run[|run| - 1].at)
  }

  ghost predicate ClockForward(run: seq<Timed>) {
    && (forall i :: 0 <= i < |run| ==> run[i].at > 0)
    && (forall i, j :: 0 <= i < j < |run| ==> run[i].at <= run[j].at)
  }

  function Total(counts: map<Reason, int>): int {
    Count(counts, RateLimit) + Count(counts, Full) + Count(counts, Timeout) + Count(counts, Auth)
      + Count(counts, Unknown)
  }

  /** What every statistics record satisfies at time `now`. */
  ghost predicate Sound(stats: Stats, now: int) {
    && stats.errorCount == Total(stats.failureCounts)
    && (forall r :: Count(stats.failureCounts, r) >= 0)
    && (stats.disabledReason.Some? <==> stats.disabledUntil > 0)
    && 0 <= stats.lastFailureAt <= now
    && 0 <= stats.cooldownUntil <= stats.lastFailureAt + HOUR_MS
    && 0 <= stats.disabledUntil <= stats.lastFailureAt + DAY_MS
  }

  ghost predicate AllSound(store: Store, now: int) {
    forall id :: id in store.usage ==> Sound(store.usage[id], now)
  }

  ghost predicate TrimmedIds(store: Store) {
    forall id :: id in store.profiles ==> Trimmed(id) && id != ""
  }

  lemma DisabledBackoffRange(n: int)
    ensures 5 * HOUR_MS <= DisabledBackoff(n) <= DAY_MS
  {
  }

  lemma FailKeepsSound(stats: Stats, reason: Reason, since: int, now: int)
    requires Sound(stats, since) && 0 < now && since <= now
    ensures Sound(FailStats(stats, reason, now), now)
  {
    var counted := stats.failureCounts[reason := Count(stats.failureCounts, reason) + 1];
    assert forall r :: Count(counted, r)
                       == if r == reason then Count(stats.failureCounts, r) + 1 else Count(stats.failureCounts, r);
    DisabledBackoffRange(counted[reason]);
  }

  lemma FailKeepsAllSound(store: Store, id: string, reason: Reason, since: int, now: int)
    requires AllSound(store, since) && 0 < now && 0 <= since <= now
    ensures AllSound(Fail(store, id, reason, now), now)
  {
    FailKeepsSound(StatsOf(store, id), reason, since, now);
  }

  lemma {:induction false} ScanKeepsAllSound(store: Store, provider: string, ids: seq<string>, now: int,
                                             refresh: Refresher, calls: nat)
    requires AllSound(store, now) && 0 < now
    ensures AllSound(Scan(store, provider, ids, now, refresh, calls).store, now)
    decreases ids
  {
    if ids != [] {
      if Candidate(store, provider, ids[0], now) && Expired(store.profiles[ids[0]], now) {
        var (next, ok) := RefreshScanned(store, ids[0], now, refresh, calls);
        FailKeepsAllSound(store, ids[0], Auth, now, now);
        assert AllSound(next, now);
        if !ok { ScanKeepsAllSound(next, provider, ids[1..], now, refresh, calls + 1); }
      } else if !Candidate(store, provider, ids[0], now) {
        ScanKeepsAllSound(store, provider, ids[1..], now, refresh, calls);
      }
    }
  }

  lemma ClearKeepsAllSound(store: Store, since: int, now: int)
    requires AllSound(store, since) && 0 <= since <= now
    ensures AllSound(ClearExpired(store, now), now)
  {
  }

  lemma OrderedKeepsAllSound(store: Store, session: string, provider: string, ids: seq<string>, now: int,
                             refresh: Refresher)
    requires AllSound(store, now) && 0 < now
    ensures AllSound(ResolveOrdered(store, session, provider, ids, now, refresh).0, now)
  {
    ScanKeepsAllSound(store, provider, ids, now, refresh, 0);
  }

  lemma ResolveKeepsAllSound(store: Store, session: string, rawProvider: string, refresh: Refresher, since: int,
                             now: int)
    requires AllSound(store, since) && 0 < now && 0 <= since <= now
    ensures AllSound(Resolve(store, session, rawProvider, now, refresh).0, now)
  {
    var provider := NormalizeProvider(rawProvider);
    if provider != "" {
      var cleared := ClearExpired(store, now);
      ClearKeepsAllSound(store, since, now);
      OrderedKeepsAllSound(cleared, session, provider, Preference(cleared, session, provider), now, refresh);
    }
  }

  lemma UpsertKeepsAllSound(store: Store, provider: string, input: OAuthInput, since: int, now: int)
    requires AllSound(store, since) && 0 < now && 0 <= since <= now
    ensures AllSound(Upsert(store, provider, input), now)
  {
    if !UpsertRejected(provider, input) {
      var id := ProfileIdFor(NormalizeProvider(provider), input);
      assert Sound(StatsOf(store, id), now);
    }
  }

  lemma SuccessKeepsAllSound(store: Store, session: string, provider: string, id: string, since: int, now: int)
    requires AllSound(store, since) && 0 < now && 0 <= since <= now
    ensures AllSound(MarkSuccess(store, session, provider, id, now), now)
  {
    var stats := StatsOf(store, id).(lastUsed := now, errorCount := 0, failureCounts := map[],
                                     cooldownUntil := 0, disabledUntil := 0, disabledReason := None);
    assert Sound(stats, now);
    assert Blank(id) || MarkSuccess(store, session, provider, id, now).usage == store.usage[id := stats];
  }

  lemma OrderKeepsAllSound(store: Store, provider: string, ids: seq<string>, since: int, now: int)
    requires AllSound(store, since) && 0 < now && 0 <= since <= now
    ensures AllSound(SetOrder(store, provider, ids), now)
  {
    assert SetOrder(store, provider, ids).usage == store.usage;
  }

  lemma ApplyKeepsAllSound(store: Store, event: Event, since: int, now: int)
    requires AllSound(store, since) && 0 < now && 0 <= since <= now
    ensures AllSound(Apply(store, event, now), now)
  {
    match event {
      case ResolveEvent(session, provider, refresh) =>
        ResolveKeepsAllSound(store, session, provider, refresh, since, now);
      case SuccessEvent(session, provider, id) =>
        SuccessKeepsAllSound(store, session, provider, id, since, now);
      case FailureEvent(session, provider, id, reason) =>
        FailKeepsAllSound(store, id, reason, since, now);
      case UpsertEvent(provider, input) =>
        UpsertKeepsAllSound(store, provider, input, since, now);
      case OrderEvent(provider, ids) =>
        OrderKeepsAllSound(store, provider, ids, since, now);
    }
  }

  /** Over every run: the counters agree, a reason is set exactly while a
      disabled window is, and no window outlives its profile's last failure by
      more than an hour (cooldown) or a day (disabled). */
  lemma {:induction false} RunIsSound(run: seq<Timed>, now: int)
    requires ClockForward(run) && now > 0
    requires forall i :: 0 <= i < |run| ==> run[i].at <= now
    ensures AllSound(StoreAfter(run), now)
  {
    if run != [] {
      var last := run[|run| - 1];
      RunIsSound(run[..|run| - 1], last.at);
      ApplyKeepsAllSound(StoreAfter(run[..|run| - 1]), last.event, last.at, last.at);
    }
  }

  /** Every profile is usable again a day after its last failure. */
  lemma UsableAfterADay(run: seq<Timed>, id: string, now: int)
    requires ClockForward(run) && now > 0
    requires forall i :: 0 <= i < |run| ==> run[i].at <= now
    ensures var stats := StatsOf(StoreAfter(run), id);
            && (stats.lastFailureAt + DAY_MS <= now ==> !Unusable(StoreAfter(run), id, now))
            && (stats.disabledReason.None? && stats.lastFailureAt + HOUR_MS <= now
                ==> !Unusable(StoreAfter(run), id, now))
  {
    RunIsSound(run, now);
  }

  // ----- active windows -----

  /** `after` has the window of `before`, or none. */
  predicate NotExtended(before: Stats, after: Stats, now: int) {
    && (before.disabledUntil > now ==> after.disabledUntil in {before.disabledUntil, 0})
    && (before.cooldownUntil > now ==> after.cooldownUntil in {before.cooldownUntil, 0})
  }

  lemma RefreshExtendsNothing(store: Store, first: string, now: int, refresh: Refresher, calls: nat, id: string)
    requires first in store.profiles
    ensures NotExtended(StatsOf(store, id), StatsOf(RefreshScanned(store, first, now, refresh, calls).0, id), now)
  {
    var next := RefreshScanned(store, first, now, refresh, calls).0;
    assert next.usage == store.usage || next.usage == Fail(store, first, Auth, now).usage;
  }

  lemma {:induction false} ScanExtendsNothing(store: Store, provider: string, ids: seq<string>, now: int,
                                              refresh: Refresher, calls: nat, id: string)
    ensures NotExtended(StatsOf(store, id), StatsOf(Scan(store, provider, ids, now, refresh, calls).store, id), now)
    decreases ids
  {
    if ids != [] {
      if Candidate(store, provider, ids[0], now) && Expired(store.profiles[ids[0]], now) {
        var (next, ok) := RefreshScanned(store, ids[0], now, refresh, calls);
        RefreshExtendsNothing(store, ids[0], now, refresh, calls, id);
        if !ok { ScanExtendsNothing(next, provider, ids[1..], now, refresh, calls + 1, id); }
      } else if !Candidate(store, provider, ids[0], now) {
        ScanExtendsNothing(store, provider, ids[1..], now, refresh, calls, id);
      }
    }
  }

  lemma OrderedExtendsNothing(store: Store, session: string, provider: string, ids: seq<string>, now: int,
                              refresh: Refresher, id: string)
    ensures NotExtended(StatsOf(store, id), StatsOf(ResolveOrdered(store, session, provider, ids, now, refresh).0, id),
                        now)
  {
    ScanExtendsNothing(store, provider, ids, now, refresh, 0, id);
  }

  lemma ClearExtendsNothing(store: Store, now: int, id: string)
    requires now >= 0
    ensures NotExtended(StatsOf(store, id), StatsOf(ClearExpired(store, now), id), now)
    ensures Locked(StatsOf(store, id), now) <==> Locked(StatsOf(ClearExpired(store, now), id), now)
  {
  }

  lemma ResolveExtendsNothing(store: Store, session: string, rawProvider: string, refresh: Refresher, now: int,
                              id: string)
    requires now >= 0
    ensures NotExtended(StatsOf(store, id), StatsOf(Resolve(store, session, rawProvider, now, refresh).0, id), now)
  {
    var provider := NormalizeProvider(rawProvider);
    if provider != "" {
      var cleared := ClearExpired(store, now);
      ClearExtendsNothing(store, now, id);
      OrderedExtendsNothing(cleared, session, provider, Preference(cleared, session, provider), now, refresh, id);
    }
  }

  lemma FailureExtendsNothing(store: Store, session: string, provider: string, failed: string, reason: Reason,
                              now: int, id: string)
    requires now >= 0
    ensures NotExtended(StatsOf(store, id), StatsOf(MarkFailure(store, session, provider, failed, reason, now), id),
                        now)
  {
    var after := MarkFailure(store, session, provider, failed, reason, now);
    assert after.usage == store.usage || after.usage == Fail(store, failed, reason, now).usage;
  }

  lemma SuccessExtendsNothing(store: Store, session: string, provider: string, used: string, now: int, id: string)
    requires now >= 0
    ensures NotExtended(StatsOf(store, id), StatsOf(MarkSuccess(store, session, provider, used, now), id), now)
  {
  }

  lemma UpsertExtendsNothing(store: Store, provider: string, input: OAuthInput, now: int, id: string)
    ensures NotExtended(StatsOf(store, id), StatsOf(Upsert(store, provider, input), id), now)
  {
  }

  /** No operation moves the end of a window that is still running; it can only
      lift it. */
  lemma ActiveWindowNeverExtended(store: Store, event: Event, now: int, id: string)
    requires now >= 0
    ensures NotExtended(StatsOf(store, id), StatsOf(Apply(store, event, now), id), now)
  {
    match event {
      case ResolveEvent(session, provider, refresh) =>
        ResolveExtendsNothing(store, session, provider, refresh, now, id);
      case OrderEvent(provider, ids) => assert SetOrder(store, provider, ids).usage == store.usage;
      case FailureEvent(session, provider, failed, reason) =>
        FailureExtendsNothing(store, session, provider, failed, reason, now, id);
      case SuccessEvent(session, provider, used) => SuccessExtendsNothing(store, session, provider, used, now, id);
      case UpsertEvent(provider, input) => UpsertExtendsNothing(store, provider, input, now, id);
    }
  }

  // ----- profile ids -----

  lemma UpsertKeepsIdsTrimmed(store: Store, provider: string, input: OAuthInput)
    requires TrimmedIds(store)
    ensures TrimmedIds(Upsert(store, provider, input))
  {
    if !UpsertRejected(provider, input) { AuthManager.ProfileIdTrimmed(provider, input); }
  }

  /** Only a login adds a profile. */
  lemma OthersKeepIds(store: Store, event: Event, now: int)
    requires !event.UpsertEvent?
    ensures Apply(store, event, now).profiles.Keys == store.profiles.Keys
  {
  }

  /** Every profile id of every run is trimmed and not empty. */
  lemma {:induction false} RunKeepsIdsTrimmed(run: seq<Timed>)
    ensures TrimmedIds(StoreAfter(run))
  {
    if run != [] {
      var before, last := StoreAfter(run[..|run| - 1]), run[|run| - 1];
      RunKeepsIdsTrimmed(run[..|run| - 1]);
      if last.event.UpsertEvent? {
        UpsertKeepsIdsTrimmed(before, last.event.provider, last.event.input);
      } else {
        OthersKeepIds(before, last.event, last.at);
      }
    }
  }
}
