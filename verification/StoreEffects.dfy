/** What the store's operations mean for the ones that come after them: which profile is tried
    first, how long one is locked, and when a token is renewed. */
module StoreEffects {
  import opened Wrappers
  import opened Text
  import opened AuthStore
  import ImplicitOrder

  // ----- failure windows -----

  /** Minutes after the first failures of a row, then an hour. */
  function CooldownMillis(earlier: int): int {
    if earlier <= 0 then 60_000 else if earlier == 1 then 300_000 else if earlier == 2 then 1_500_000 else 3_600_000
  }

  /** Hours after the first failures for one reason, then a day. */
  function DisabledMillis(earlier: int): int {
    if earlier <= 0 then 18_000_000 else if earlier == 1 then 36_000_000 else if earlier == 2 then 72_000_000
    else 86_400_000
  }

  lemma {:induction false} PowersOfTwo(n: nat)
    ensures Pow2(0) == 1 && Pow2(1) == 2 && Pow2(2) == 4
    ensures n >= 3 ==> Pow2(n) >= 8
  {
    assert Pow2(2) == 2 * Pow2(1) && Pow2(3) == 2 * Pow2(2);
    if n > 3 { PowersOfTwo(n - 1); }
  }

  lemma DisabledFor(earlier: int)
    ensures DisabledBackoff(earlier + 1) == DisabledMillis(earlier)
  {
    PowersOfTwo(if earlier < 0 then 0 else earlier);
  }

  /** A failure of a profile outside its windows locks it from now on: longer with every failure of
      the row; for a quota or a refused login, longer with every one for that reason. */
  lemma FailureLocks(stats: Stats, reason: Reason, now: int)
    requires !Locked(stats, now)
    ensures var after := FailStats(stats, reason, now);
            && after.errorCount == stats.errorCount + 1
            && after.lastFailureAt == now && after.lastUsed == stats.lastUsed
            && (forall r :: Count(after.failureCounts, r)
                            == Count(stats.failureCounts, r) + (if r == reason then 1 else 0))
            && (reason == Full || reason == Auth ==>
                  && after.disabledUntil == now + DisabledMillis(Count(stats.failureCounts, reason))
                  && after.disabledReason == Some(reason) && after.cooldownUntil == stats.cooldownUntil)
            && (reason == RateLimit || reason == Timeout || reason == Unknown ==>
                  && after.cooldownUntil == now + CooldownMillis(stats.errorCount)
                  && after.disabledUntil == stats.disabledUntil && after.disabledReason == stats.disabledReason)
  {
    DisabledFor(Count(stats.failureCounts, reason));
  }

  /** A window that is over is lifted, a running one is not; the counts start again when a window was
      lifted and none is left. */
  lemma ClearingLifts(stats: Stats, now: int)
    requires stats.cooldownUntil >= 0 && stats.disabledUntil >= 0 && now >= 0
    ensures var after := ClearStats(stats, now);
            && after.cooldownUntil == (if stats.cooldownUntil <= now then 0 else stats.cooldownUntil)
            && after.disabledUntil == (if stats.disabledUntil <= now then 0 else stats.disabledUntil)
            && after.disabledReason == (if 0 < stats.disabledUntil <= now then None else stats.disabledReason)
            && after.lastUsed == stats.lastUsed && after.lastFailureAt == stats.lastFailureAt
            && (var restarts := after.cooldownUntil == 0 && after.disabledUntil == 0
                                && (stats.cooldownUntil > 0 || stats.disabledUntil > 0);
                && after.errorCount == (if restarts then 0 else stats.errorCount)
                && after.failureCounts == (if restarts then map[] else stats.failureCounts))
  {
  }

  // ----- what is tried first -----

  /** After a success the profile is usable at any time, its counts are gone, and the session tries it
      first, until told otherwise. */
  lemma SuccessIsPreferred(store: Store, session: string, provider: string, id: string, now: int)
    requires !Blank(id)
    ensures var p, after := NormalizeProvider(provider), MarkSuccess(store, session, provider, id, now);
            && StatsOf(after, id).errorCount == 0 && StatsOf(after, id).failureCounts == map[]
            && (forall t :: t >= 0 ==> !Unusable(after, id, t))
            && (forall x :: x != id ==> StatsOf(after, x) == StatsOf(store, x))
            && (session != "" && p != "" && id in ProviderOrder(after, p) ==> Preference(after, session, p)[0] == id)
            && (forall key :: key in store.pins && (session == "" || key != PinKey(session, p)) ==>
                  key in after.pins && after.pins[key] == store.pins[key])
  {
    NotBlank(id);
  }

  lemma NotBlank(id: string)
    requires !Blank(id)
    ensures id != ""
  {
  }

  /** A pin belongs to one session and one provider. */
  lemma PinsApart(session: string, other: string, p: string, q: string)
    requires session != "" && other != "" && p != "" && q != ""
    ensures PinKey(session, p) == PinKey(other, p) <==> session == other
    ensures PinKey(session, p) == PinKey(session, q) <==> p == q
  {
    var a, b, c := PinKey(session, p), PinKey(other, p), PinKey(session, q);
    if a == b {
      assert session == a[..|session|] && other == b[..|other|];
    }
    if a == c {
      assert p == a[|session| + 2..] && q == c[|session| + 2..];
    }
  }

  predicate SamePin(before: Store, after: Store, key: string) {
    && (key in before.pins <==> key in after.pins)
    && (key in before.pins ==> after.pins[key] == before.pins[key])
  }

  lemma {:induction false} ScanKeepsPins(store: Store, provider: string, ids: seq<string>, now: int,
                                         refresh: Refresher, calls: nat)
    ensures Scan(store, provider, ids, now, refresh, calls).store.pins == store.pins
    decreases |ids|
  {
    if ids != [] && !Candidate(store, provider, ids[0], now) {
      ScanKeepsPins(store, provider, ids[1..], now, refresh, calls);
    } else if ids != [] && Expired(store.profiles[ids[0]], now) {
      ScanKeepsPins(RefreshScanned(store, ids[0], now, refresh, calls).0, provider, ids[1..], now, refresh, calls + 1);
    }
  }

  lemma SearchKeepsPins(store: Store, provider: string, ids: seq<string>, now: int, refresh: Refresher)
    ensures Search(store, provider, ids, now, refresh).store.pins == store.pins
  {
    ScanKeepsPins(store, provider, ids, now, refresh, 0);
  }

  lemma OrderedPins(store: Store, session: string, provider: string, ids: seq<string>, now: int, refresh: Refresher)
    ensures var (after, r) := ResolveOrdered(store, session, provider, ids, now, refresh);
            after.pins == if r.Selected? && session != ""
                          then store.pins[PinKey(session, provider) := Pin(r.selection.profileId, now)] else store.pins
  {
    SearchKeepsPins(store, provider, ids, now, refresh);
  }

  /** Resolving pins at most its own session, to what it selects. */
  lemma ResolvePins(store: Store, session: string, provider: string, now: int, refresh: Refresher)
    ensures var (after, r) := Resolve(store, session, provider, now, refresh);
            var key := PinKey(session, NormalizeProvider(provider));
            after.pins == if r.Selected? && session != "" then store.pins[key := Pin(r.selection.profileId, now)]
                          else store.pins
  {
    var p, cleared := NormalizeProvider(provider), ClearExpired(store, now);
    OrderedPins(cleared, session, p, Preference(cleared, session, p), now, refresh);
  }

  /** What one session does leaves the pins of the others alone. */
  lemma OtherSessionsKeepTheirPin(store: Store, session: string, other: string, provider: string, id: string,
                                  reason: Reason, now: int, refresh: Refresher)
    requires other != session && other != "" && NormalizeProvider(provider) != ""
    ensures var key := PinKey(other, NormalizeProvider(provider));
            && SamePin(store, MarkSuccess(store, session, provider, id, now), key)
            && SamePin(store, MarkFailure(store, session, provider, id, reason, now), key)
            && SamePin(store, Resolve(store, session, provider, now, refresh).0, key)
  {
    var p := NormalizeProvider(provider);
    if session != "" { PinsApart(session, other, p, p); }
    ResolvePins(store, session, provider, now, refresh);
  }

  /** After a failure the session is back to the order of the provider when it was pinned to the profile;
      any other pin stays. */
  lemma FailureUnpins(store: Store, session: string, provider: string, id: string, reason: Reason, now: int)
    requires !Blank(id) && session != "" && NormalizeProvider(provider) != ""
    ensures var p, after := NormalizeProvider(provider), MarkFailure(store, session, provider, id, reason, now);
            var key := PinKey(session, p);
            && (key in store.pins && store.pins[key].profileId == id ==>
                  Preference(after, session, p) == ProviderOrder(after, p))
            && (key in store.pins && store.pins[key].profileId != id ==>
                  key in after.pins && after.pins[key] == store.pins[key])
            && (forall other :: other in store.pins && other != key ==>
                  other in after.pins && after.pins[other] == store.pins[other])
            && (forall x :: x != id ==> StatsOf(after, x) == StatsOf(store, x))
  {
  }

  /** A pinned profile of the provider comes first, and the others follow as they would without a pin. */
  lemma PinnedFirst(store: Store, session: string, provider: string)
    requires PinKey(session, provider) in store.pins
    ensures var id, base := store.pins[PinKey(session, provider)].profileId, ProviderOrder(store, provider);
            id != "" && id in base ==>
              exists k :: 0 <= k < |base| && base[k] == id
                          && Preference(store, session, provider) == [id] + base[..k] + base[k + 1..]
  {
  }

  /** A login can be used at once, under the id made of provider and e-mail, with the tokens as entered. */
  lemma LoginIsUsable(store: Store, provider: string, input: OAuthInput)
    requires Lower(Trim(provider)) != "" && Trim(input.access) != ""
    ensures var p := Lower(Trim(provider));
            var email := if Trim(Lower(input.email)) == "" then "default" else Trim(Lower(input.email));
            var id, after := p + ":" + email, Upsert(store, provider, input);
            && id in after.profiles && after.profiles[id].kind == OAuth && after.profiles[id].provider == p
            && after.profiles[id].access == Trim(input.access) && after.profiles[id].refresh == Trim(input.refresh)
            && after.profiles[id].expires == input.expires && after.profiles[id].email == email
            && !after.profiles[id].refreshFailed
            && (forall t :: t >= 0 ==> !Unusable(after, id, t))
            && (forall x :: x != id ==>
                  (x in after.profiles <==> x in store.profiles) && StatsOf(after, x) == StatsOf(store, x))
            && (forall x :: x != id && x in store.profiles ==> after.profiles[x] == store.profiles[x])
            && after.pins == store.pins && after.order == store.order
  {
  }

  /** An id that may stand in a configured order of the provider. */
  predicate Listable(store: Store, p: string, raw: string) {
    Trim(raw) != "" && Belongs(store.profiles, p, Trim(raw))
  }

  lemma ListedOnce(ids: seq<string>, raw: string)
    requires raw in ids && Trim(raw) != ""
    ensures Trim(raw) in Dedupe(ids)
  {
    DedupeSound(ids, {});
    var k :| 0 <= k < |ids| && ids[k] == raw;
  }

  lemma OrderStored(store: Store, provider: string, ids: seq<string>)
    requires NormalizeProvider(provider) != ""
    ensures var p, after := NormalizeProvider(provider), SetOrder(store, provider, ids);
            && after.profiles == store.profiles && after.usage == store.usage && after.pins == store.pins
            && (p in after.order <==> Dedupe(ids) != []) && (p in after.order ==> after.order[p] == Dedupe(ids))
            && ExplicitOrder(after, p) == Filter(Dedupe(ids), id => Belongs(store.profiles, p, id))
  {
    DedupeSound(ids, {});
    ImplicitOrder.DedupeIdle(Dedupe(ids), {});
    var p, after := NormalizeProvider(provider), SetOrder(store, provider, ids);
    assert Dedupe(Lookup(after.order, p, [])) == Dedupe(ids);
    ImplicitOrder.FilterSame(Dedupe(ids), id => Belongs(after.profiles, p, id), id => Belongs(store.profiles, p, id));
  }

  /** A configured order is followed from then on: as given, each profile of the provider at its
      first place and none left out. */
  lemma OrderIsFollowed(store: Store, provider: string, ids: seq<string>, named: string) returns (at: seq<nat>)
    requires NormalizeProvider(provider) != "" && named in ids && Listable(store, NormalizeProvider(provider), named)
    ensures var p, after := NormalizeProvider(provider), SetOrder(store, provider, ids);
            && ImplicitOrder.InOrder(ids, ProviderOrder(after, p), at)
            && forall raw :: raw in ids && Listable(store, p, raw) ==> Trim(raw) in ProviderOrder(after, p)
  {
    var p, after := NormalizeProvider(provider), SetOrder(store, provider, ids);
    var keep := id => Belongs(store.profiles, p, id);
    OrderStored(store, provider, ids);
    at := ImplicitOrder.DedupeKeepsOrder(ids, {});
    at := ImplicitOrder.FilterInOrder(ids, Dedupe(ids), at, keep);
    forall raw | raw in ids && Listable(store, p, raw) ensures Trim(raw) in Filter(Dedupe(ids), keep) {
      ListedOnce(ids, raw);
    }
    assert Trim(named) in ExplicitOrder(after, p);
  }

  /** Without a profile of the provider in it, the implicit order holds. */
  lemma OrderIsDropped(store: Store, provider: string, ids: seq<string>)
    requires var p := NormalizeProvider(provider); p != "" && forall raw :: raw in ids ==> !Listable(store, p, raw)
    ensures ImplicitOrder.NoExplicitOrder(SetOrder(store, provider, ids), NormalizeProvider(provider))
  {
    OrderStored(store, provider, ids);
    ImplicitOrder.DedupeTrims(ids, {});
    DedupeSound(ids, {});
  }

  // ----- tokens -----

  /** A renewed token is stored and used; a renewal that fails, or brings none, locks the profile for five
      hours or more as a refused login. */
  lemma RenewalMeans(store: Store, id: string, now: int, refresh: Refresher, calls: nat)
    requires id in store.profiles && !Locked(StatsOf(store, id), now)
    ensures var outcome := refresh(calls, store.profiles[id]);
            var (after, ok) := RefreshScanned(store, id, now, refresh, calls);
            && (ok <==> outcome.Refreshed? && Trim(outcome.access) != "")
            && (ok ==> after == store.(profiles := after.profiles)
                       && after.profiles[id].access == outcome.access && after.profiles[id].refresh == outcome.refresh
                       && after.profiles[id].expires == outcome.expires && !after.profiles[id].refreshFailed)
            && (!ok ==> after.profiles[id].refreshFailed && StatsOf(after, id).disabledReason == Some(Auth)
                        && StatsOf(after, id).disabledUntil >= now + 18_000_000)
            && (forall x :: x != id ==> StatsOf(after, x) == StatsOf(store, x))
            && (forall x :: x != id && x in store.profiles ==> after.profiles[x] == store.profiles[x])
  {
    FailureLocks(StatsOf(store, id), Auth, now);
  }

  /** One profile of the scan: passed over when it is another provider's, locked or without a token; taken as it
      is while its token is valid; renewed first when that has expired. */
  lemma ScanStep(store: Store, provider: string, ids: seq<string>, now: int, refresh: Refresher, calls: nat)
    requires ids != [] && ids[0] in store.profiles
    ensures var id, r := ids[0], Scan(store, provider, ids, now, refresh, calls);
            var cred, stats := store.profiles[id], StatsOf(store, id);
            if Lower(Trim(cred.provider)) != provider || stats.cooldownUntil > now || stats.disabledUntil > now
               || Trim(cred.access) == ""
            then r == Scan(store, provider, ids[1..], now, refresh, calls)
            else if cred.expires <= 0 || now < cred.expires then r == ScanResult(store, Some(id), calls)
            else
              var (next, ok) := RefreshScanned(store, id, now, refresh, calls);
              r == if ok then ScanResult(next, Some(id), calls + 1)
                   else Scan(next, provider, ids[1..], now, refresh, calls + 1)
  {
  }

  /** The only profile of a provider is used even when it is locked; a token that has expired is renewed, and
      used as it is where that fails. */
  lemma SoleProfileStep(store: Store, provider: string, id: string, now: int, refresh: Refresher, calls: nat)
    requires id in store.profiles && Lower(Trim(store.profiles[id].provider)) == provider
    ensures var cred, r := store.profiles[id], SoleFallback(store, provider, id, now, refresh, calls);
            var outcome := refresh(calls, cred);
            && r.store == store.(profiles := r.store.profiles)
            && (r.found == Some(id) <==> Trim(cred.access) != "") && (r.found.None? ==> r.store == store)
            && (r.found.Some? && (cred.expires <= 0 || now < cred.expires) ==> r.store == store && r.calls == calls)
            && (r.found.Some? && 0 < cred.expires <= now ==>
                  r.calls == calls + 1
                  && (if outcome.Refreshed? && Trim(outcome.access) != ""
                      then && r.store.profiles[id].access == outcome.access
                           && r.store.profiles[id].expires == outcome.expires
                           && !r.store.profiles[id].refreshFailed
                      else r.store.profiles[id] == cred.(refreshFailed := true)))
  {
  }
}
