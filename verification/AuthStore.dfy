/** The persisted credential store of `auth_manager.go` as a value, and what each of the
    file manager's operations does to it.  `AuthManager` holds the mutable counterpart. */
module AuthStore {
  import opened Wrappers
  import opened Text
  import Sorting

  datatype Reason = RateLimit | Full | Timeout | Auth | Unknown

  datatype Kind = OAuth | Token | ApiKey | OtherKind(name: string)

  datatype Credential = Credential(kind: Kind, provider: string, access: string, refresh: string,
                                   expires: int, email: string, refreshFailed: bool)

  datatype Stats = Stats(lastUsed: int, cooldownUntil: int, disabledUntil: int, disabledReason: Option<Reason>,
                         errorCount: int, failureCounts: map<Reason, int>, lastFailureAt: int)

  datatype Pin = Pin(profileId: string, updatedAt: int)

  datatype Store = Store(profiles: map<string, Credential>, order: map<string, seq<string>>,
                         usage: map<string, Stats>, pins: map<string, Pin>)

  const EMPTY_STORE := Store(map[], map[], map[], map[])
  const ZERO_STATS := Stats(0, 0, 0, None, 0, map[], 0)

  const MINUTE_MS := 60 * 1000
  const HOUR_MS := 60 * MINUTE_MS
  const DAY_MS := 24 * HOUR_MS

  function Lookup<V>(m: map<string, V>, key: string, zero: V): V {
    if key in m then m[key] else zero
  }

  function StatsOf(store: Store, id: string): Stats {
    Lookup(store.usage, id, ZERO_STATS)
  }

  function NormalizeProvider(provider: string): string {
    Lower(Trim(provider))
  }

  function PinKey(session: string, provider: string): string {
    if session == "" || provider == "" then "" else session + "::" + provider
  }

  predicate Belongs(profiles: map<string, Credential>, provider: string, id: string) {
    id in profiles && NormalizeProvider(profiles[id].provider) == provider
  }

  /** The profiles of a provider. */
  function OwnProfiles(store: Store, provider: string): set<string> {
    set id | id in store.profiles && Belongs(store.profiles, provider, id)
  }

  // ----- failure windows -----

  function CooldownBackoff(errorCount: int): int {
    if errorCount <= 1 then MINUTE_MS
    else if errorCount == 2 then 5 * MINUTE_MS
    else if errorCount == 3 then 25 * MINUTE_MS
    else HOUR_MS
  }

  function Pow2(n: nat): (r: nat)
    ensures r >= 1
  {
    if n == 0 then 1 else 2 * Pow2(n - 1)
  }

  /** Five hours, doubled for every further failure, capped at a day. */
  function DisabledBackoff(failures: int): int {
    var n: nat := if failures < 1 then 0 else failures - 1;
    if 5 * HOUR_MS * Pow2(n) <= DAY_MS then 5 * HOUR_MS * Pow2(n) else DAY_MS
  }

  predicate Locked(stats: Stats, now: int) {
    stats.disabledUntil > now || stats.cooldownUntil > now
  }

  predicate Unusable(store: Store, id: string, now: int) {
    Locked(StatsOf(store, id), now)
  }

  function Count(counts: map<Reason, int>, reason: Reason): int {
    if reason in counts then counts[reason] else 0
  }

  function ClearStats(stats: Stats, now: int): Stats {
    var cooled := 0 < stats.cooldownUntil <= now;
    var enabled := 0 < stats.disabledUntil <= now;
    var s1 := if cooled then stats.(cooldownUntil := 0) else stats;
    var s2 := if enabled then s1.(disabledUntil := 0, disabledReason := None) else s1;
    if (cooled || enabled) && s2.cooldownUntil == 0 && s2.disabledUntil == 0
    then s2.(errorCount := 0, failureCounts := map[]) else s2
  }

  function ClearExpired(store: Store, now: int): Store {
    store.(usage := map id | id in store.usage :: ClearStats(store.usage[id], now))
  }

  function FailStats(stats: Stats, reason: Reason, now: int): Stats {
    var counted := stats.(errorCount := stats.errorCount + 1, lastFailureAt := now,
                          failureCounts := stats.failureCounts[reason := Count(stats.failureCounts, reason) + 1]);
    match reason
    case Full | Auth =>
      counted.(disabledUntil := if stats.disabledUntil <= now then now + DisabledBackoff(counted.failureCounts[reason])
                                else stats.disabledUntil,
               disabledReason := Some(reason))
    case _ =>
      counted.(cooldownUntil := if stats.cooldownUntil <= now then now + CooldownBackoff(counted.errorCount)
                                else stats.cooldownUntil)
  }

  function Fail(store: Store, id: string, reason: Reason, now: int): Store {
    store.(usage := store.usage[id := FailStats(StatsOf(store, id), reason, now)])
  }

  // ----- ordering -----

  function DedupeFrom(ids: seq<string>, seen: set<string>): seq<string> {
    if ids == [] then []
    else
      var id := Trim(ids[0]);
      if id == "" || id in seen then DedupeFrom(ids[1..], seen)
      else [id] + DedupeFrom(ids[1..], seen + {id})
  }

  /** The trimmed, non-empty ids not seen before, each once and none lost. */
  lemma {:induction false} DedupeSound(ids: seq<string>, seen: set<string>)
    ensures var r := DedupeFrom(ids, seen);
            && NoDuplicates(r)
            && (forall id :: id in r ==> id !in seen && id != "" && Trimmed(id))
            && (forall i :: 0 <= i < |ids| && Trim(ids[i]) != "" && Trim(ids[i]) !in seen ==> Trim(ids[i]) in r)
  {
    if ids != [] {
      var id := Trim(ids[0]);
      var next := if id == "" || id in seen then seen else seen + {id};
      DedupeSound(ids[1..], next);
      assert forall i :: 0 < i < |ids| ==> ids[i] == ids[1..][i - 1];
    }
  }

  function Dedupe(ids: seq<string>): seq<string> {
    DedupeFrom(ids, {})
  }

  predicate NoDuplicates(ids: seq<string>) {
    forall i, j :: 0 <= i < j < |ids| ==> ids[i] != ids[j]
  }

  /** The elements of `ids` that satisfy `keep`, in order. */
  function Filter(ids: seq<string>, keep: string -> bool): (r: seq<string>)
    ensures forall id :: id in r <==> id in ids && keep(id)
    ensures |r| <= |ids|
    ensures NoDuplicates(ids) ==> NoDuplicates(r)
  {
    if ids == [] then []
    else if keep(ids[0]) then [ids[0]] + Filter(ids[1..], keep)
    else Filter(ids[1..], keep)
  }

  datatype Rank = Rank(typeScore: int, lastUsed: int)

  function TypeScore(kind: Kind): int {
    match kind
    case OAuth => 0
    case Token => 1
    case _ => 2
  }

  /** What the implicit order compares, for every profile of the provider. */
  function Ranks(store: Store, provider: string): map<string, Rank> {
    map id | id in store.profiles && Belongs(store.profiles, provider, id)
      :: Rank(TypeScore(store.profiles[id].kind), StatsOf(store, id).lastUsed)
  }

  predicate Before(ranks: map<string, Rank>, a: string, b: string)
    requires a in ranks && b in ranks
  {
    var x, y := ranks[a], ranks[b];
    if x.typeScore != y.typeScore then x.typeScore < y.typeScore
    else if x.lastUsed != y.lastUsed then x.lastUsed < y.lastUsed
    else Less(a, b)
  }

  predicate SortedBy(ranks: map<string, Rank>, ids: seq<string>) {
    && (forall id :: id in ids ==> id in ranks)
    && (forall i, j :: 0 <= i < j < |ids| ==> Before(ranks, ids[i], ids[j]))
  }

  /** `Before` as a function value. */
  function ByRank(ranks: map<string, Rank>): (string, string) -> bool {
    (a: string, b: string) => a in ranks && b in ranks && Before(ranks, a, b)
  }

  lemma BeforeTotal(ranks: map<string, Rank>, a: string, b: string)
    requires a in ranks && b in ranks
    ensures Before(ranks, a, b) || a == b || Before(ranks, b, a)
    ensures !(Before(ranks, a, b) && (a == b || Before(ranks, b, a)))
  {
    LessTotal(a, b);
  }

  lemma BeforeOrders(ranks: map<string, Rank>)
    ensures Sorting.Orders(ByRank(ranks), ranks.Keys)
  {
    forall a, b | a in ranks && b in ranks ensures Before(ranks, a, b) || a == b || Before(ranks, b, a)
                                           ensures !(Before(ranks, a, b) && Before(ranks, b, a)) {
      BeforeTotal(ranks, a, b);
    }
    forall a, b, c | a in ranks && b in ranks && c in ranks && Before(ranks, a, b) && Before(ranks, b, c)
      ensures Before(ranks, a, c)
    {
      if Less(a, b) && Less(b, c) { LessTransitive(a, b, c); }
    }
  }

  /** A strictly sorted sequence is determined by its set of elements: the
      implicit order cannot depend on the order in which the map is walked. */
  lemma SortedUnique(ranks: map<string, Rank>, xs: seq<string>, ys: seq<string>)
    requires SortedBy(ranks, xs) && SortedBy(ranks, ys)
    requires forall id :: id in xs <==> id in ys
    ensures xs == ys
  {
    BeforeOrders(ranks);
    Sorting.Unique(ByRank(ranks), xs, ys);
  }

  function InsertSorted(ranks: map<string, Rank>, ids: seq<string>, id: string): (r: seq<string>)
    requires SortedBy(ranks, ids) && id in ranks && id !in ids
    ensures SortedBy(ranks, r)
    ensures forall x :: x in r <==> x in ids || x == id
    ensures |r| == |ids| + 1
  {
    BeforeOrders(ranks);
    Sorting.Insert(ByRank(ranks), ids, id, ranks.Keys)
  }

  /** The profiles of `ranks` in their sorted order. */
  ghost predicate SortedKeys(ranks: map<string, Rank>, ids: seq<string>) {
    SortedBy(ranks, ids) && forall id :: id in ids <==> id in ranks
  }

  ghost function SortedIds(ranks: map<string, Rank>): (r: seq<string>)
    ensures SortedKeys(ranks, r)
  {
    SortedExists(ranks, ranks.Keys);
    var r :| SortedKeys(ranks, r);
    r
  }

  lemma SortedDistinct(ranks: map<string, Rank>, ids: seq<string>)
    requires SortedBy(ranks, ids)
    ensures NoDuplicates(ids)
  {
    forall i, j | 0 <= i < j < |ids| ensures ids[i] != ids[j] {
      BeforeTotal(ranks, ids[i], ids[j]);
    }
  }

  lemma {:induction false} SortedExists(ranks: map<string, Rank>, keys: set<string>)
    requires keys <= ranks.Keys
    ensures exists r :: SortedBy(ranks, r) && forall id :: id in r <==> id in keys
    ensures keys == ranks.Keys ==> exists r :: SortedKeys(ranks, r)
  {
    if keys == {} {
      assert SortedBy(ranks, []);
      assert keys == ranks.Keys ==> SortedKeys(ranks, []);
    } else {
      var id :| id in keys;
      SortedExists(ranks, keys - {id});
      var rest :| SortedBy(ranks, rest) && forall x :: x in rest <==> x in keys - {id};
      var r := InsertSorted(ranks, rest, id);
      assert forall x :: x in r <==> x in keys;
      assert keys == ranks.Keys ==> SortedKeys(ranks, r);
    }
  }

  function ExplicitOrder(store: Store, provider: string): seq<string> {
    Filter(Dedupe(Lookup(store.order, provider, [])), id => Belongs(store.profiles, provider, id))
  }

  /** `resolveProviderOrder`: the configured order when it names a profile of the
      provider, otherwise every profile of the provider, best rank first. */
  ghost function ProviderOrder(store: Store, provider: string): seq<string> {
    var explicit := ExplicitOrder(store, provider);
    if explicit != [] then explicit else SortedIds(Ranks(store, provider))
  }

  /** The order names profiles of the provider only, each once. */
  lemma ProviderOrderSound(store: Store, provider: string)
    ensures NoDuplicates(ProviderOrder(store, provider))
    ensures forall id :: id in ProviderOrder(store, provider) ==> Belongs(store.profiles, provider, id)
  {
    DedupeSound(Lookup(store.order, provider, []), {});
    SortedDistinct(Ranks(store, provider), SortedIds(Ranks(store, provider)));
  }

  function IndexOf(ids: seq<string>, id: string): (i: nat)
    requires id in ids
    ensures i < |ids| && ids[i] == id
  {
    if ids[0] == id then 0 else 1 + IndexOf(ids[1..], id)
  }

  function MoveToFront(ids: seq<string>, id: string): (r: seq<string>)
    ensures forall x :: x in r <==> x in ids
    ensures |r| == |ids|
    ensures NoDuplicates(ids) ==> NoDuplicates(r)
  {
    if id != "" && id in ids then
      var i := IndexOf(ids, id);
      assert ids == ids[..i] + [id] + ids[i + 1..];
      [id] + ids[..i] + ids[i + 1..]
    else ids
  }

  /** The order `ResolveAuth` walks: the session's pinned profile first. */
  ghost function Preference(store: Store, session: string, provider: string): seq<string> {
    var base := ProviderOrder(store, provider);
    var key := PinKey(session, provider);
    if key in store.pins then MoveToFront(base, store.pins[key].profileId) else base
  }

  // ----- resolving -----

  datatype RefreshOutcome = Refreshed(access: string, refresh: string, expires: int, email: string) | RefreshError

  /** A renewed credential keeps its kind and provider. */
  function Renewed(cred: Credential, outcome: RefreshOutcome, failed: bool): Credential
    requires outcome.Refreshed?
  {
    cred.(access := outcome.access, refresh := outcome.refresh, expires := outcome.expires, email := outcome.email,
          refreshFailed := failed)
  }

  /** The token endpoint: what the k-th refresh of one `ResolveAuth` call returns. */
  type Refresher = (nat, Credential) -> RefreshOutcome

  datatype Selection = Selection(provider: string, profileId: string, token: string)

  datatype Resolution = Selected(selection: Selection) | NotConfigured | NoneAvailable | ProviderRequired

  predicate Expired(cred: Credential, now: int) {
    0 < cred.expires <= now
  }

  predicate Candidate(store: Store, provider: string, id: string, now: int) {
    Belongs(store.profiles, provider, id) && !Unusable(store, id, now) && !Blank(store.profiles[id].access)
  }

  /** A scan of the preference order: the store it leaves, the credential it
      settled on, and how many refreshes it made. */
  datatype ScanResult = ScanResult(store: Store, found: Option<string>, calls: nat)

  function PutCredential(store: Store, id: string, cred: Credential): Store {
    store.(profiles := store.profiles[id := cred])
  }

  /** A refresh during the scan, when the token has expired. */
  function RefreshScanned(store: Store, id: string, now: int, refresh: Refresher, calls: nat): (r: (Store, bool))
    requires id in store.profiles
    ensures r.0.profiles.Keys == store.profiles.Keys
  {
    var cred := store.profiles[id];
    var outcome := refresh(calls, cred);
    if outcome.RefreshError? then
      (Fail(PutCredential(store, id, cred.(refreshFailed := true)), id, Auth, now), false)
    else if Blank(outcome.access) then
      (Fail(PutCredential(store, id, Renewed(cred, outcome, true)), id, Auth, now), false)
    else
      (PutCredential(store, id, Renewed(cred, outcome, false)), true)
  }

  function Scan(store: Store, provider: string, ids: seq<string>, now: int, refresh: Refresher,
                calls: nat): (r: ScanResult)
    ensures r.store.profiles.Keys == store.profiles.Keys
    ensures r.found.Some? ==> r.found.value in store.profiles && r.found.value in ids
    decreases ids
  {
    if ids == [] then ScanResult(store, None, calls)
    else if !Candidate(store, provider, ids[0], now) then Scan(store, provider, ids[1..], now, refresh, calls)
    else if !Expired(store.profiles[ids[0]], now) then ScanResult(store, Some(ids[0]), calls)
    else
      var (next, ok) := RefreshScanned(store, ids[0], now, refresh, calls);
      if ok then ScanResult(next, Some(ids[0]), calls + 1)
      else Scan(next, provider, ids[1..], now, refresh, calls + 1)
  }

  /** The last resort when the provider has a single profile: use it even inside
      a lockout window. */
  function SoleFallback(store: Store, provider: string, id: string, now: int, refresh: Refresher,
                        calls: nat): (r: ScanResult)
    ensures r.store.profiles.Keys == store.profiles.Keys
    ensures r.found.Some? ==> r.found.value == id && id in store.profiles
  {
    if !Belongs(store.profiles, provider, id) || Blank(store.profiles[id].access) then ScanResult(store, None, calls)
    else
      var cred := store.profiles[id];
      if !Expired(cred, now) then ScanResult(store, Some(id), calls)
      else
        var outcome := refresh(calls, cred);
        var stored := if outcome.Refreshed? && !Blank(outcome.access)
                      then Renewed(cred, outcome, false) else cred.(refreshFailed := true);
        ScanResult(PutCredential(store, id, stored), Some(id), calls + 1)
  }

  function SetPin(store: Store, session: string, provider: string, id: string, now: int): Store {
    if session == "" then store
    else store.(pins := store.pins[PinKey(session, provider) := Pin(id, now)])
  }

  /** The search itself: scan the profiles in the given order, then the last resort. */
  function Search(store: Store, provider: string, ids: seq<string>, now: int, refresh: Refresher): (r: ScanResult)
    ensures r.store.profiles.Keys == store.profiles.Keys
    ensures r.found.Some? ==> r.found.value in store.profiles && r.found.value in ids
  {
    var scan := Scan(store, provider, ids, now, refresh, 0);
    if scan.found.None? && |ids| == 1
    then SoleFallback(scan.store, provider, ids[0], now, refresh, scan.calls)
    else scan
  }

  function ResolveOrdered(store: Store, session: string, provider: string, ids: seq<string>, now: int,
                          refresh: Refresher): (r: (Store, Resolution))
    ensures r.0.profiles.Keys == store.profiles.Keys
    ensures r.1.Selected? ==> r.1.selection.profileId in store.profiles
  {
    if ids == [] then (store, NotConfigured)
    else
      var search := Search(store, provider, ids, now, refresh);
      match search.found
      case None => (search.store, NoneAvailable)
      case Some(id) =>
        (SetPin(search.store, session, provider, id, now),
         Selected(Selection(provider, id, search.store.profiles[id].access)))
  }

  /** `ResolveAuth` on the store: the store it commits and what it returns. */
  ghost function Resolve(store: Store, session: string, rawProvider: string, now: int,
                         refresh: Refresher): (r: (Store, Resolution))
    ensures r.0.profiles.Keys == store.profiles.Keys
    ensures r.1.Selected? ==> r.1.selection.profileId in store.profiles
  {
    var provider := NormalizeProvider(rawProvider);
    if provider == "" then (store, ProviderRequired)
    else
      var cleared := ClearExpired(store, now);
      ResolveOrdered(cleared, session, provider, Preference(cleared, session, provider), now, refresh)
  }

  function MarkFailure(store: Store, session: string, rawProvider: string, id: string, reason: Reason,
                       now: int): Store {
    if Blank(id) then store
    else
      var failed := Fail(store, id, reason, now);
      var key := PinKey(session, NormalizeProvider(rawProvider));
      if session != "" && key in failed.pins && failed.pins[key].profileId == id
      then failed.(pins := failed.pins - {key}) else failed
  }

  function MarkSuccess(store: Store, session: string, rawProvider: string, id: string, now: int): Store {
    if Blank(id) then store
    else
      var stats := StatsOf(store, id).(lastUsed := now, errorCount := 0, failureCounts := map[],
                                       cooldownUntil := 0, disabledUntil := 0, disabledReason := None);
      SetPin(store.(usage := store.usage[id := stats]), session, NormalizeProvider(rawProvider), id, now)
  }

  datatype OAuthInput = OAuthInput(access: string, refresh: string, expires: int, email: string)

  function EmailOf(input: OAuthInput): string {
    var email := Trim(Lower(input.email));
    if email == "" then "default" else email
  }

  function ProfileIdFor(provider: string, input: OAuthInput): string {
    provider + ":" + EmailOf(input)
  }

  predicate UpsertRejected(rawProvider: string, input: OAuthInput) {
    NormalizeProvider(rawProvider) == "" || Blank(input.access)
  }

  function Upsert(store: Store, rawProvider: string, input: OAuthInput): Store {
    if UpsertRejected(rawProvider, input) then store
    else
      var provider := NormalizeProvider(rawProvider);
      var id := ProfileIdFor(provider, input);
      var cred := Credential(OAuth, provider, Trim(input.access), Trim(input.refresh), input.expires, EmailOf(input),
                             false);
      var stats := StatsOf(store, id).(cooldownUntil := 0, disabledUntil := 0, disabledReason := None,
                                       errorCount := 0, failureCounts := map[]);
      store.(profiles := store.profiles[id := cred], usage := store.usage[id := stats])
  }

  function SetOrder(store: Store, rawProvider: string, ids: seq<string>): Store {
    var provider := NormalizeProvider(rawProvider);
    if provider == "" then store
    else if Dedupe(ids) == [] then store.(order := store.order - {provider})
    else store.(order := store.order[provider := Dedupe(ids)])
  }
}
