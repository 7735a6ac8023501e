/** What `ResolveAuth` chooses, whatever the token endpoint answers. */
module Resolution {
  import opened Wrappers
  import opened Text
  import opened AuthStore

  /** Why a scan passed over a profile: it was no candidate, or its token had expired
      and could not be renewed, which locks it out. */
  predicate PassedOver(before: Store, after: Store, provider: string, id: string, now: int) {
    || !Candidate(before, provider, id, now)
    || (Expired(before.profiles[id], now) && id in after.profiles && after.profiles[id].refreshFailed
        && Unusable(after, id, now))
  }

  /** A scan of a store touches only the profiles it scans. */
  predicate Untouched(before: Store, after: Store, id: string) {
    && (id in before.profiles <==> id in after.profiles)
    && (id in before.profiles ==> before.profiles[id] == after.profiles[id])
    && StatsOf(before, id) == StatsOf(after, id)
  }

  lemma RefreshTouchesOne(store: Store, id: string, now: int, refresh: Refresher, calls: nat, other: string)
    requires id in store.profiles && other != id
    ensures Untouched(store, RefreshScanned(store, id, now, refresh, calls).0, other)
  {
  }

  lemma FailureLocks(stats: Stats, now: int)
    ensures Locked(FailStats(stats, Auth, now), now)
  {
  }

  lemma FailedRefreshLocks(store: Store, id: string, now: int, refresh: Refresher, calls: nat)
    requires id in store.profiles && !RefreshScanned(store, id, now, refresh, calls).1
    ensures var after := RefreshScanned(store, id, now, refresh, calls).0;
            id in after.profiles && after.profiles[id].refreshFailed && Unusable(after, id, now)
  {
    FailureLocks(StatsOf(store, id), now);
    var after := RefreshScanned(store, id, now, refresh, calls).0;
    assert StatsOf(after, id) == FailStats(StatsOf(store, id), Auth, now);
  }

  lemma {:induction false} ScanTouchesItsOwn(store: Store, provider: string, ids: seq<string>, now: int,
                                             refresh: Refresher, calls: nat, other: string)
    requires other !in ids
    ensures Untouched(store, Scan(store, provider, ids, now, refresh, calls).store, other)
    decreases ids
  {
    if ids != [] {
      if !Candidate(store, provider, ids[0], now) {
        ScanTouchesItsOwn(store, provider, ids[1..], now, refresh, calls, other);
      } else if Expired(store.profiles[ids[0]], now) {
        RefreshTouchesOne(store, ids[0], now, refresh, calls, other);
        var (next, ok) := RefreshScanned(store, ids[0], now, refresh, calls);
        if !ok { ScanTouchesItsOwn(next, provider, ids[1..], now, refresh, calls + 1, other); }
      }
    }
  }

  /** `found` is a candidate of `ids`, everything before it was passed over for cause;
      when nothing is found, everything was. */
  predicate FirstUsable(before: Store, after: Store, provider: string, ids: seq<string>, now: int,
                        found: Option<string>) {
    if ids == [] then found.None?
    else if found == Some(ids[0]) then Candidate(before, provider, ids[0], now)
    else PassedOver(before, after, provider, ids[0], now) && FirstUsable(before, after, provider, ids[1..], now, found)
  }

  lemma UntouchedAlike(before: Store, next: Store, after: Store, provider: string, id: string, now: int)
    requires Untouched(before, next, id)
    ensures Candidate(before, provider, id, now) <==> Candidate(next, provider, id, now)
    ensures PassedOver(before, after, provider, id, now) <==> PassedOver(next, after, provider, id, now)
  {
  }

  lemma {:induction false} FirstUsableBefore(before: Store, next: Store, after: Store, provider: string,
                                             ids: seq<string>, now: int, found: Option<string>)
    requires FirstUsable(next, after, provider, ids, now, found)
    requires forall id :: id in ids ==> Untouched(before, next, id)
    ensures FirstUsable(before, after, provider, ids, now, found)
  {
    if ids != [] {
      UntouchedAlike(before, next, after, provider, ids[0], now);
      if found != Some(ids[0]) { FirstUsableBefore(before, next, after, provider, ids[1..], now, found); }
    }
  }

  /** A scan settles on a usable profile and skips none before it without cause,
      whatever the token endpoint answers. */
  lemma {:induction false} ScanTakesFirst(store: Store, provider: string, ids: seq<string>, now: int,
                                          refresh: Refresher, calls: nat)
    requires NoDuplicates(ids)
    ensures var r := Scan(store, provider, ids, now, refresh, calls);
            FirstUsable(store, r.store, provider, ids, now, r.found)
    decreases ids, 1
  {
    if ids != [] {
      assert ids[0] !in ids[1..];
      if !Candidate(store, provider, ids[0], now) {
        ScanTakesFirst(store, provider, ids[1..], now, refresh, calls);
      } else if Expired(store.profiles[ids[0]], now) {
        var (next, ok) := RefreshScanned(store, ids[0], now, refresh, calls);
        if !ok {
          AfterFailedRefresh(store, next, provider, ids, now, refresh, calls);
        }
      }
    }
  }

  lemma {:induction false} AfterFailedRefresh(store: Store, next: Store, provider: string, ids: seq<string>, now: int,
                                              refresh: Refresher, calls: nat)
    requires NoDuplicates(ids) && ids != [] && Candidate(store, provider, ids[0], now)
             && Expired(store.profiles[ids[0]], now)
    requires RefreshScanned(store, ids[0], now, refresh, calls) == (next, false)
    ensures var r := Scan(next, provider, ids[1..], now, refresh, calls + 1);
            FirstUsable(store, r.store, provider, ids, now, r.found)
    decreases ids, 0
  {
    var r := Scan(next, provider, ids[1..], now, refresh, calls + 1);
    assert ids[0] !in ids[1..];
    FailedRefreshLocks(store, ids[0], now, refresh, calls);
    ScanTouchesItsOwn(next, provider, ids[1..], now, refresh, calls + 1, ids[0]);
    assert PassedOver(store, r.store, provider, ids[0], now);
    forall id | id in ids[1..] ensures Untouched(store, next, id) {
      RefreshTouchesOne(store, ids[0], now, refresh, calls, id);
    }
    ScanTakesFirst(next, provider, ids[1..], now, refresh, calls + 1);
    FirstUsableBefore(store, next, r.store, provider, ids[1..], now, r.found);
  }

  lemma PinsDoNotMatter(before: Store, after: Store, pins: map<string, Pin>, provider: string, ids: seq<string>,
                        now: int, found: Option<string>)
    requires FirstUsable(before, after, provider, ids, now, found)
    ensures FirstUsable(before, after.(pins := pins), provider, ids, now, found)
    decreases ids
  {
    if ids != [] && found != Some(ids[0]) {
      assert StatsOf(after.(pins := pins), ids[0]) == StatsOf(after, ids[0]);
      PinsDoNotMatter(before, after, pins, provider, ids[1..], now, found);
    }
  }

  lemma {:induction false} ScanFindsToken(store: Store, provider: string, ids: seq<string>, now: int,
                                          refresh: Refresher, calls: nat)
    ensures var r := Scan(store, provider, ids, now, refresh, calls);
            r.found.Some? ==>
              Belongs(store.profiles, provider, r.found.value) && !Blank(r.store.profiles[r.found.value].access)
    decreases ids
  {
    if ids != [] {
      if !Candidate(store, provider, ids[0], now) {
        ScanFindsToken(store, provider, ids[1..], now, refresh, calls);
      } else if Expired(store.profiles[ids[0]], now) {
        var (next, ok) := RefreshScanned(store, ids[0], now, refresh, calls);
        if !ok {
          ScanFindsToken(next, provider, ids[1..], now, refresh, calls + 1);
          HoldersAfterRefresh(store, ids[0], now, refresh, calls);
        }
      }
    }
  }

  /** No profile comes, goes or changes its provider. */
  predicate SameHolders(a: Store, b: Store) {
    && a.profiles.Keys == b.profiles.Keys
    && forall id :: id in a.profiles ==> a.profiles[id].provider == b.profiles[id].provider
  }

  lemma SameHoldersOwnTheSame(a: Store, b: Store, provider: string)
    requires SameHolders(a, b)
    ensures OwnProfiles(a, provider) == OwnProfiles(b, provider)
  {
    forall id ensures id in OwnProfiles(a, provider) <==> id in OwnProfiles(b, provider) {
      if id in a.profiles { assert a.profiles[id].provider == b.profiles[id].provider; }
    }
  }

  lemma HoldersAfterRefresh(store: Store, id: string, now: int, refresh: Refresher, calls: nat)
    requires id in store.profiles
    ensures SameHolders(store, RefreshScanned(store, id, now, refresh, calls).0)
  {
  }

  lemma {:induction false} ScanKeepsHolders(store: Store, provider: string, ids: seq<string>, now: int,
                                            refresh: Refresher, calls: nat)
    ensures SameHolders(store, Scan(store, provider, ids, now, refresh, calls).store)
    decreases ids
  {
    if ids != [] {
      if !Candidate(store, provider, ids[0], now) {
        ScanKeepsHolders(store, provider, ids[1..], now, refresh, calls);
      } else if Expired(store.profiles[ids[0]], now) {
        HoldersAfterRefresh(store, ids[0], now, refresh, calls);
        var (next, ok) := RefreshScanned(store, ids[0], now, refresh, calls);
        if !ok { ScanKeepsHolders(next, provider, ids[1..], now, refresh, calls + 1); }
      }
    }
  }

  lemma SearchFindsToken(store: Store, provider: string, ids: seq<string>, now: int, refresh: Refresher)
    ensures var r := Search(store, provider, ids, now, refresh);
            && SameHolders(store, r.store)
            && (r.found.Some? ==>
                  Belongs(store.profiles, provider, r.found.value) && !Blank(r.store.profiles[r.found.value].access))
  {
    ScanKeepsHolders(store, provider, ids, now, refresh, 0);
    ScanFindsToken(store, provider, ids, now, refresh, 0);
  }

  /** `ResolveAuth` selects a profile of the provider, with a token that is not blank, and
      neither adds a profile nor gives one to another provider. */
  lemma ResolveSelectsOwn(store: Store, session: string, rawProvider: string, now: int, refresh: Refresher)
    ensures var (after, r) := Resolve(store, session, rawProvider, now, refresh);
            && SameHolders(store, after)
            && (r.Selected? ==> Belongs(store.profiles, NormalizeProvider(rawProvider), r.selection.profileId)
                                && !Blank(r.selection.token))
  {
    var provider := NormalizeProvider(rawProvider);
    if provider != "" {
      var cleared := ClearExpired(store, now);
      OrderedSelectsOwn(cleared, session, provider, Preference(cleared, session, provider), now, refresh);
    }
  }

  lemma OrderedSelectsOwn(store: Store, session: string, provider: string, ids: seq<string>, now: int,
                          refresh: Refresher)
    ensures var (after, r) := ResolveOrdered(store, session, provider, ids, now, refresh);
            && SameHolders(store, after)
            && (r.Selected? ==> Belongs(store.profiles, provider, r.selection.profileId) && !Blank(r.selection.token))
  {
    SearchFindsToken(store, provider, ids, now, refresh);
  }

  /** The sole profile of an order cannot be used: it holds no token, or lost it to a
      renewal that returned none. */
  predicate SoleUnavailable(store: Store, provider: string, id: string, now: int, refresh: Refresher) {
    || !Belongs(store.profiles, provider, id) || Blank(store.profiles[id].access)
    || (Candidate(store, provider, id, now) && Expired(store.profiles[id], now)
        && refresh(0, store.profiles[id]).Refreshed? && Blank(refresh(0, store.profiles[id]).access))
  }

  lemma SoleProfileSearched(store: Store, provider: string, id: string, now: int, refresh: Refresher)
    ensures Search(store, provider, [id], now, refresh).found.None?
            <==> SoleUnavailable(store, provider, id, now, refresh)
  {
    assert [id][1..] == [];
    var scan := Scan(store, provider, [id], now, refresh, 0);
    if Candidate(store, provider, id, now) && Expired(store.profiles[id], now) {
      var (next, ok) := RefreshScanned(store, id, now, refresh, 0);
      if !ok { assert scan == Scan(next, provider, [], now, refresh, 1) == ScanResult(next, None, 1); }
    } else if !Candidate(store, provider, id, now) {
      assert scan == Scan(store, provider, [], now, refresh, 0) == ScanResult(store, None, 0);
    }
  }

  /** `ResolveAuth` on an order of profiles: it returns the stored token, not blank, of the
      first usable one and pins it to the session; with several profiles it never falls
      back on a locked one, and it says none is available only when none is; the sole
      profile of an order is returned, locked or not, unless it has no token left. */
  lemma ResolveSelectsFirstUsable(store: Store, session: string, provider: string, ids: seq<string>, now: int,
                                  refresh: Refresher)
    requires NoDuplicates(ids) && provider != ""
    ensures var (after, r) := ResolveOrdered(store, session, provider, ids, now, refresh);
            && (r.NotConfigured? <==> ids == [])
            && (r.Selected? ==>
                  var id := r.selection.profileId;
                  && id in ids && id in after.profiles
                  && r.selection == Selection(provider, id, after.profiles[id].access)
                  && !Blank(r.selection.token)
                  && (session != "" ==>
                      PinKey(session, provider) in after.pins && after.pins[PinKey(session, provider)] == Pin(id, now))
                  && (|ids| > 1 ==> FirstUsable(store, after, provider, ids, now, Some(id))))
            && (r.NoneAvailable? && |ids| > 1 ==> FirstUsable(store, after, provider, ids, now, None))
            && (|ids| == 1 ==> (r.NoneAvailable? <==> SoleUnavailable(store, provider, ids[0], now, refresh)))
  {
    var scan := Scan(store, provider, ids, now, refresh, 0);
    ScanTakesFirst(store, provider, ids, now, refresh, 0);
    OrderedSelectsOwn(store, session, provider, ids, now, refresh);
    if scan.found.Some? {
      var pinned := SetPin(scan.store, session, provider, scan.found.value, now);
      PinsDoNotMatter(store, scan.store, pinned.pins, provider, ids, now, scan.found);
    }
    if |ids| == 1 {
      assert ids == [ids[0]];
      SoleProfileSearched(store, provider, ids[0], now, refresh);
    }
  }
}
