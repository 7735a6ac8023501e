/** `FileAuthManager`: the store as four mutable maps, each operation as the method that
    updates them in place, proved to do exactly what `AuthStore` says it does. */
module AuthManager {
  import opened Wrappers
  import opened Text
  import opened AuthStore

  const NANOS_PER_MS := 1_000_000
  const INT64_MAX := 0x7FFF_FFFF_FFFF_FFFF

  lemma {:induction false} Pow2Monotone(m: nat, n: nat)
    requires m <= n
    ensures Pow2(m) <= Pow2(n)
  {
    if m < n { Pow2Monotone(m, n - 1); }
  }

  lemma CapReached(i: nat, n: int)
    requires i < n && 5 * HOUR_MS * Pow2(i) >= DAY_MS
    ensures DisabledBackoff(n) == DAY_MS
  {
    Pow2Monotone(i, n - 1);
    assert 5 * HOUR_MS * Pow2(n - 1) >= 5 * HOUR_MS * Pow2(i);
  }

  /** The doubling loop, on a duration counted in nanoseconds: it never leaves
      the 64-bit range and yields min(5h * 2^(n-1), 24h). */
  method CalculateDisabledBackoff(errorCount: int) returns (d: int)
    ensures d == DisabledBackoff(errorCount) * NANOS_PER_MS
    ensures 5 * HOUR_MS * NANOS_PER_MS <= d <= DAY_MS * NANOS_PER_MS
  {
    var n := if errorCount < 1 then 1 else errorCount;
    d := 5 * HOUR_MS * NANOS_PER_MS;
    var i := 1;
    while i < n
      invariant 1 <= i <= n
      invariant d == 5 * HOUR_MS * NANOS_PER_MS * Pow2(i - 1)
      invariant d < DAY_MS * NANOS_PER_MS
    {
      assert d * 2 <= INT64_MAX;
      d := d * 2;
      if d >= DAY_MS * NANOS_PER_MS {
        assert Pow2(i) == 2 * Pow2(i - 1);
        CapReached(i, n);
        return DAY_MS * NANOS_PER_MS;
      }
      i := i + 1;
    }
  }

  method DisabledMillis(failures: int) returns (ms: int)
    ensures ms == DisabledBackoff(failures)
  {
    var d := CalculateDisabledBackoff(failures);
    ms := d / NANOS_PER_MS;
  }

  lemma {:induction false} FilterConcat(xs: seq<string>, id: string, f: string -> bool)
    ensures Filter(xs + [id], f) == if f(id) then Filter(xs, f) + [id] else Filter(xs, f)
  {
    if xs == [] {
      assert [] + [id] == [id] && [id][1..] == [];
    } else {
      assert (xs + [id])[1..] == xs[1..] + [id];
      FilterConcat(xs[1..], id, f);
    }
  }

  lemma FilterSnoc(ids: seq<string>, i: nat, f: string -> bool)
    requires i < |ids|
    ensures Filter(ids[..i + 1], f) == if f(ids[i]) then Filter(ids[..i], f) + [ids[i]] else Filter(ids[..i], f)
  {
    assert ids[..i + 1] == ids[..i] + [ids[i]];
    FilterConcat(ids[..i], ids[i], f);
  }

  class FileAuthManager {
    var profiles: map<string, Credential>
    var order: map<string, seq<string>>
    var usage: map<string, Stats>
    var pins: map<string, Pin>

    function Contents(): Store
      reads this
    {
      Store(profiles, order, usage, pins)
    }

    constructor ()
      ensures Contents() == EMPTY_STORE
    {
      profiles, order, usage, pins := map[], map[], map[], map[];
    }

    method ClearExpiredWindows(now: int) returns (changed: bool)
      modifies this`usage
      ensures Contents() == ClearExpired(old(Contents()), now)
      ensures !changed ==> Contents() == old(Contents())
    {
      changed := false;
      var todo := usage.Keys;
      ghost var before := usage;
      while todo != {}
        invariant todo <= usage.Keys == before.Keys
        invariant forall id :: id in before ==>
                    usage[id] == if id in todo then before[id] else ClearStats(before[id], now)
        invariant !changed ==> usage == before
        decreases todo
      {
        var id :| id in todo;
        var stats := usage[id];
        var profileChanged := false;
        if stats.cooldownUntil > 0 && now >= stats.cooldownUntil {
          stats := stats.(cooldownUntil := 0);
          profileChanged := true;
        }
        if stats.disabledUntil > 0 && now >= stats.disabledUntil {
          stats := stats.(disabledUntil := 0, disabledReason := None);
          profileChanged := true;
        }
        if profileChanged && stats.cooldownUntil == 0 && stats.disabledUntil == 0 {
          stats := stats.(errorCount := 0, failureCounts := map[]);
        }
        if profileChanged {
          usage := usage[id := stats];
          changed := true;
        }
        todo := todo - {id};
      }
      assert usage == ClearExpired(old(Contents()), now).usage;
    }

    /** `markFailure` on the statistics of one profile. */
    method RecordFailure(id: string, reason: Reason, now: int)
      modifies this`usage
      ensures Contents() == Fail(old(Contents()), id, reason, now)
    {
      var stats := CountFailure(if id in usage then usage[id] else ZERO_STATS, reason, now);
      usage := usage[id := stats];
    }

    static method CountFailure(before: Stats, reason: Reason, now: int) returns (stats: Stats)
      ensures stats == FailStats(before, reason, now)
    {
      stats := before.(errorCount := before.errorCount + 1, lastFailureAt := now);
      stats := stats.(failureCounts := stats.failureCounts[reason := Count(stats.failureCounts, reason) + 1]);
      match reason {
        case Full | Auth =>
          var backoff := DisabledMillis(stats.failureCounts[reason]);
          if stats.disabledUntil <= now {
            stats := stats.(disabledUntil := now + backoff);
          }
          stats := stats.(disabledReason := Some(reason));
        case _ =>
          if stats.cooldownUntil <= now {
            stats := stats.(cooldownUntil := now + CooldownBackoff(stats.errorCount));
          }
      }
    }

    method MarkFailure(session: string, rawProvider: string, id: string, reason: Reason, now: int)
      modifies this
      ensures Contents() == AuthStore.MarkFailure(old(Contents()), session, rawProvider, id, reason, now)
    {
      if Blank(id) { return; }
      RecordFailure(id, reason, now);
      if session != "" {
        var key := PinKey(session, NormalizeProvider(rawProvider));
        if key in pins && pins[key].profileId == id {
          pins := pins - {key};
        }
      }
    }

    method MarkSuccess(session: string, rawProvider: string, id: string, now: int)
      modifies this
      ensures Contents() == AuthStore.MarkSuccess(old(Contents()), session, rawProvider, id, now)
    {
      if Blank(id) { return; }
      var stats := if id in usage then usage[id] else ZERO_STATS;
      usage := usage[id := stats.(lastUsed := now, errorCount := 0, failureCounts := map[],
                                  cooldownUntil := 0, disabledUntil := 0, disabledReason := None)];
      if session != "" {
        pins := pins[PinKey(session, NormalizeProvider(rawProvider)) := Pin(id, now)];
      }
    }

    method UpsertOAuthProfile(rawProvider: string, input: OAuthInput) returns (id: Option<string>)
      modifies this
      ensures Contents() == Upsert(old(Contents()), rawProvider, input)
      ensures id.None? <==> UpsertRejected(rawProvider, input)
      ensures id.Some? ==> id.value in profiles && Trimmed(id.value) && !Blank(profiles[id.value].access)
                           && Belongs(profiles, NormalizeProvider(rawProvider), id.value)
    {
      var provider := NormalizeProvider(rawProvider);
      if provider == "" || Blank(input.access) { return None; }
      var key := ProfileIdFor(provider, input);
      profiles := profiles[key := Credential(OAuth, provider, Trim(input.access), Trim(input.refresh),
                                             input.expires, EmailOf(input), false)];
      var stats := if key in usage then usage[key] else ZERO_STATS;
      usage := usage[key := stats.(cooldownUntil := 0, disabledUntil := 0, disabledReason := None,
                                   errorCount := 0, failureCounts := map[])];
      NormalizeIdempotent(rawProvider);
      ProfileIdTrimmed(rawProvider, input);
      return Some(key);
    }

    method SetOrder(rawProvider: string, ids: seq<string>)
      modifies this`order
      ensures Contents() == AuthStore.SetOrder(old(Contents()), rawProvider, ids)
    {
      var provider := NormalizeProvider(rawProvider);
      if provider == "" { return; }
      var clean := DedupeIds(ids);
      if clean == [] {
        order := order - {provider};
      } else {
        order := order[provider := clean];
      }
    }

    static method DedupeIds(ids: seq<string>) returns (result: seq<string>)
      ensures result == Dedupe(ids)
    {
      result := [];
      var seen: set<string> := {};
      for i := 0 to |ids|
        invariant result + DedupeFrom(ids[i..], seen) == Dedupe(ids)
      {
        var id := Trim(ids[i]);
        assert ids[i..] == [ids[i]] + ids[i + 1..];
        if id == "" || id in seen { continue; }
        assert result + ([id] + DedupeFrom(ids[i + 1..], seen + {id}))
            == (result + [id]) + DedupeFrom(ids[i + 1..], seen + {id});
        seen := seen + {id};
        result := result + [id];
      }
    }

    method FilterProfiles(provider: string, ids: seq<string>) returns (result: seq<string>)
      ensures var creds := profiles; result == Filter(ids, id => Belongs(creds, provider, id))
    {
      ghost var creds := profiles;
      ghost var keep := id => Belongs(creds, provider, id);
      result := [];
      for i := 0 to |ids|
        invariant result == Filter(ids[..i], keep)
      {
        FilterSnoc(ids, i, keep);
        if Belongs(profiles, provider, ids[i]) { result := result + [ids[i]]; }
      }
      assert ids[..|ids|] == ids;
    }

    /** `resolveProviderOrder`: whatever order the profile map is walked in,
        the sorted result is the same. */
    method ResolveProviderOrder(provider: string) returns (result: seq<string>)
      ensures result == ProviderOrder(Contents(), provider)
    {
      var explicit := DedupeIds(if provider in order then order[provider] else []);
      result := FilterProfiles(provider, explicit);
      if result != [] { return; }
      var ranks := Ranks(Contents(), provider);
      var todo := profiles.Keys;
      while todo != {}
        invariant todo <= profiles.Keys
        invariant SortedBy(ranks, result)
        invariant forall id :: id in result <==> id in ranks && id !in todo
        decreases todo
      {
        var id :| id in todo;
        if Belongs(profiles, provider, id) {
          result := InsertSorted(ranks, result, id);
        }
        todo := todo - {id};
      }
      SortedUnique(ranks, result, SortedIds(ranks));
    }

    /** One turn of the scan loop on an eligible profile: refresh when expired. */
    method UseCandidate(id: string, now: int, refresh: Refresher, calls: nat) returns (ok: bool, refreshed: bool)
      requires id in profiles
      modifies this`profiles, this`usage
      ensures refreshed == Expired(old(profiles)[id], now)
      ensures (Contents(), ok) == if refreshed then RefreshScanned(old(Contents()), id, now, refresh, calls)
                                  else (old(Contents()), true)
    {
      var cred := profiles[id];
      if !Expired(cred, now) { return true, false; }
      var outcome := refresh(calls, cred);
      if outcome.RefreshError? {
        profiles := profiles[id := cred.(refreshFailed := true)];
        RecordFailure(id, Auth, now);
        return false, true;
      }
      if Blank(outcome.access) {
        profiles := profiles[id := Renewed(cred, outcome, true)];
        RecordFailure(id, Auth, now);
        return false, true;
      }
      profiles := profiles[id := Renewed(cred, outcome, false)];
      return true, true;
    }

    /** The scan over the preference order. */
    method ScanProfiles(provider: string, ordered: seq<string>, now: int, refresh: Refresher)
      returns (found: Option<string>, calls: nat, changed: bool)
      modifies this`profiles, this`usage
      ensures ScanResult(Contents(), found, calls) == Scan(old(Contents()), provider, ordered, now, refresh, 0)
      ensures !changed ==> Contents() == old(Contents())
    {
      calls, changed, found := 0, false, None;
      ghost var start := Contents();
      for i := 0 to |ordered|
        invariant Scan(start, provider, ordered, now, refresh, 0)
                  == Scan(Contents(), provider, ordered[i..], now, refresh, calls)
        invariant !changed ==> Contents() == start
      {
        assert ordered[i..][0] == ordered[i] && ordered[i..][1..] == ordered[i + 1..];
        if Candidate(Contents(), provider, ordered[i], now) {
          var ok, refreshed := UseCandidate(ordered[i], now, refresh, calls);
          if refreshed { calls, changed := calls + 1, true; }
          if ok { return Some(ordered[i]), calls, changed; }
        }
      }
      assert ordered[|ordered|..] == [];
    }

    /** The fallback for a provider with a single profile. */
    method UseSoleProfile(provider: string, id: string, now: int, refresh: Refresher, calls: nat)
      returns (found: Option<string>, changed: bool)
      modifies this`profiles
      ensures var r := SoleFallback(old(Contents()), provider, id, now, refresh, calls);
              r.store == Contents() && r.found == found
      ensures !changed ==> Contents() == old(Contents())
    {
      if !Belongs(profiles, provider, id) || Blank(profiles[id].access) { return None, false; }
      var cred := profiles[id];
      if !Expired(cred, now) { return Some(id), false; }
      var outcome := refresh(calls, cred);
      if outcome.Refreshed? && !Blank(outcome.access) {
        cred := Renewed(cred, outcome, false);
      } else {
        cred := cred.(refreshFailed := true);
      }
      profiles := profiles[id := cred];
      return Some(id), true;
    }

    method ResolveAuth(session: string, rawProvider: string, now: int, refresh: Refresher)
      returns (resolution: Resolution, changed: bool)
      modifies this
      ensures (Contents(), resolution) == Resolve(old(Contents()), session, rawProvider, now, refresh)
      ensures !changed ==> Contents() == old(Contents())
    {
      var provider := NormalizeProvider(rawProvider);
      if provider == "" { return ProviderRequired, false; }
      changed := ClearExpiredWindows(now);
      var ordered := ResolveProviderOrder(provider);
      var key := PinKey(session, provider);
      if key in pins {
        ordered := MoveToFront(ordered, pins[key].profileId);
      }
      if |ordered| == 0 { return NotConfigured, changed; }
      var found, calls, scanned := ScanProfiles(provider, ordered, now, refresh);
      changed := changed || scanned;
      if found.None? && |ordered| == 1 {
        var used;
        found, used := UseSoleProfile(provider, ordered[0], now, refresh, calls);
        changed := changed || used;
      }
      if found.None? { return NoneAvailable, changed; }
      var token := profiles[found.value].access;
      if session != "" {
        pins := pins[key := Pin(found.value, now)];
        changed := true;
      }
      return Selected(Selection(provider, found.value, token)), changed;
    }
  }

  // ----- names -----

  lemma LowerTrimmed(s: string)
    requires Trimmed(s)
    ensures Trimmed(Lower(s)) && (Lower(s) == "" <==> s == "")
  {
  }

  lemma {:induction false} LowerIdempotent(s: string)
    ensures Lower(Lower(s)) == Lower(s)
  {
    assert forall i :: 0 <= i < |s| ==> Lower(Lower(s))[i] == Lower(s)[i];
  }

  lemma NormalizeIdempotent(provider: string)
    ensures NormalizeProvider(NormalizeProvider(provider)) == NormalizeProvider(provider)
    ensures Trimmed(NormalizeProvider(provider))
  {
    LowerTrimmed(Trim(provider));
    LowerIdempotent(Trim(provider));
  }

  /** Every profile id the manager creates survives the send loop's trimming. */
  lemma ProfileIdTrimmed(rawProvider: string, input: OAuthInput)
    requires NormalizeProvider(rawProvider) != ""
    ensures Trimmed(ProfileIdFor(NormalizeProvider(rawProvider), input))
  {
    NormalizeIdempotent(rawProvider);
  }
}
