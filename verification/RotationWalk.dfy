/** What a send cycle does when every request fails, on a clock that runs forward at any
    pace: which profile each round tries, told from the store, the times and the failures
    alone, and that the loop over the file manager does exactly that. */
module RotationWalk {
  import opened Wrappers
  import opened Text
  import opened AuthStore
  import opened SendCycle
  import opened ModelSend

  /** The elements of `ids` that are in `keep`, in order. */
  function Restrict(ids: seq<string>, keep: set<string>): seq<string> {
    if ids == [] then []
    else if ids[0] in keep then [ids[0]] + Restrict(ids[1..], keep)
    else Restrict(ids[1..], keep)
  }

  lemma {:induction false} FilterIsRestrict(ids: seq<string>, f: string -> bool, keep: set<string>)
    requires forall id :: id in ids ==> (f(id) <==> id in keep)
    ensures Filter(ids, f) == Restrict(ids, keep)
  {
    if ids != [] { FilterIsRestrict(ids[1..], f, keep); }
  }

  lemma {:induction false} RestrictElements(ids: seq<string>, keep: set<string>)
    ensures forall id :: id in Restrict(ids, keep) <==> id in ids && id in keep
  {
    if ids != [] { RestrictElements(ids[1..], keep); }
  }

  lemma {:induction false} RestrictSame(ids: seq<string>, k1: set<string>, k2: set<string>)
    requires forall id :: id in ids ==> (id in k1 <==> id in k2)
    ensures Restrict(ids, k1) == Restrict(ids, k2)
  {
    if ids != [] { RestrictSame(ids[1..], k1, k2); }
  }

  /** Trying the first profile left leaves the others. */
  lemma {:induction false} RestrictDropFirst(ids: seq<string>, keep: set<string>)
    requires NoDuplicates(ids) && Restrict(ids, keep) != []
    ensures var first := Restrict(ids, keep)[0];
            first in ids && first in keep && Restrict(ids, keep - {first}) == Restrict(ids, keep)[1..]
  {
    if ids[0] in keep {
      RestrictSame(ids[1..], keep, keep - {ids[0]});
    } else {
      RestrictDropFirst(ids[1..], keep);
    }
  }

  lemma {:induction false} RestrictWithout(front: seq<string>, id: string, back: seq<string>, keep: set<string>)
    requires id !in keep
    ensures Restrict(front + ([id] + back), keep) == Restrict(front + back, keep)
  {
    if front == [] {
      assert [] + ([id] + back) == [id] + back && ([id] + back)[1..] == back && [] + back == back;
    } else {
      assert (front + ([id] + back))[1..] == front[1..] + ([id] + back);
      assert (front + back)[1..] == front[1..] + back;
      RestrictWithout(front[1..], id, back, keep);
    }
  }

  /** Moving a profile that is not left anyway changes nothing. */
  lemma RestrictMoved(base: seq<string>, id: string, keep: set<string>)
    requires id !in keep
    ensures Restrict(MoveToFront(base, id), keep) == Restrict(base, keep)
  {
    if id != "" && id in base {
      var i := IndexOf(base, id);
      var front, back := base[..i], base[i + 1..];
      assert base == front + ([id] + back);
      assert MoveToFront(base, id) == [] + ([id] + (front + back));
      RestrictWithout(front, id, back, keep);
      RestrictWithout([], id, front + back, keep);
      assert [] + (front + back) == front + back;
    }
  }

  // ----- what stays fixed while requests fail -----

  /** Same profiles, same configured order, same last uses. */
  ghost predicate SameOrdering(s: Store, t: Store) {
    && s.profiles == t.profiles && s.order == t.order
    && forall id :: StatsOf(s, id).lastUsed == StatsOf(t, id).lastUsed
  }

  lemma SameOrderingSameOrder(s: Store, t: Store, provider: string)
    requires SameOrdering(s, t)
    ensures ProviderOrder(s, provider) == ProviderOrder(t, provider)
  {
    assert Ranks(s, provider) == Ranks(t, provider);
  }

  lemma ClearKeepsOrdering(store: Store, now: int)
    ensures SameOrdering(store, ClearExpired(store, now)) && ClearExpired(store, now).pins == store.pins
  {
  }

  lemma FailKeepsOrdering(store: Store, id: string, reason: Reason, now: int)
    ensures SameOrdering(store, Fail(store, id, reason, now))
  {
    assert FailStats(StatsOf(store, id), reason, now).lastUsed == StatsOf(store, id).lastUsed;
  }

  lemma MarkFailureKeepsOrdering(store: Store, session: string, provider: string, id: string, reason: Reason, now: int)
    ensures SameOrdering(store, MarkFailure(store, session, provider, id, reason, now))
  {
    FailKeepsOrdering(store, id, reason, now);
    var failed := Fail(store, id, reason, now);
    var marked := MarkFailure(store, session, provider, id, reason, now);
    assert marked == store || (marked.profiles == failed.profiles && marked.order == failed.order
                               && marked.usage == failed.usage);
  }

  lemma PreferenceOf(store: Store, session: string, provider: string, base: seq<string>)
    requires base == ProviderOrder(store, provider)
    ensures forall id :: id in Preference(store, session, provider) <==> id in base
    ensures |Preference(store, session, provider)| == |base|
    ensures NoDuplicates(Preference(store, session, provider))
    ensures forall id :: id in base ==> Belongs(store.profiles, provider, id)
  {
    ProviderOrderSound(store, provider);
  }

  // ----- one resolve -----

  /** At `now` every profile of the order has a token that has not expired. */
  ghost predicate Ready(store: Store, ids: seq<string>, now: int) {
    forall id :: id in ids ==>
      && id in store.profiles
      && !Blank(store.profiles[id].access) && !Expired(store.profiles[id], now)
  }

  /** The profiles of `ids` outside lockout windows at `now` are those in `free`. */
  ghost predicate FreeAt(store: Store, ids: seq<string>, free: set<string>, now: int) {
    forall id :: id in ids ==> (!Unusable(store, id, now) <==> id in free)
  }

  lemma {:induction false} ScanPicksFirst(store: Store, provider: string, ids: seq<string>, now: int,
                                          refresh: Refresher, free: set<string>)
    requires forall id :: id in ids ==> Belongs(store.profiles, provider, id)
    requires Ready(store, ids, now) && FreeAt(store, ids, free, now)
    ensures Scan(store, provider, ids, now, refresh, 0)
         == ScanResult(store, if Restrict(ids, free) == [] then None else Some(Restrict(ids, free)[0]), 0)
  {
    if ids != [] {
      assert ids[0] in ids;
      assert Candidate(store, provider, ids[0], now) <==> ids[0] in free;
      if ids[0] !in free {
        assert forall id :: id in ids[1..] ==> id in ids;
        ScanPicksFirst(store, provider, ids[1..], now, refresh, free);
      }
    }
  }

  /** The profile `Search` settles on: the first free one, or the sole profile of
      the order. */
  function Choice(ids: seq<string>, free: set<string>): Option<string> {
    if Restrict(ids, free) != [] then Some(Restrict(ids, free)[0])
    else if |ids| == 1 then Some(ids[0]) else None
  }

  lemma ChoiceIn(ids: seq<string>, free: set<string>)
    ensures Choice(ids, free).Some? ==> Choice(ids, free).value in ids
  {
    RestrictElements(ids, free);
    assert Restrict(ids, free) != [] ==> Restrict(ids, free)[0] in Restrict(ids, free);
  }

  lemma SearchPicks(store: Store, provider: string, ids: seq<string>, now: int, refresh: Refresher, free: set<string>)
    requires forall id :: id in ids ==> Belongs(store.profiles, provider, id)
    requires Ready(store, ids, now) && FreeAt(store, ids, free, now)
    ensures Search(store, provider, ids, now, refresh).store == store
    ensures Search(store, provider, ids, now, refresh).found == Choice(ids, free)
  {
    ScanPicksFirst(store, provider, ids, now, refresh, free);
    if |ids| == 1 { assert ids[0] in ids; }
  }

  /** What resolving leaves and returns when it settles on `Choice`. */
  function Picked(store: Store, session: string, p: string, ids: seq<string>, free: set<string>,
                  now: int): (Store, Resolution)
    requires forall id :: id in ids ==> id in store.profiles
  {
    ChoiceIn(ids, free);
    match Choice(ids, free)
    case None => (store, NoneAvailable)
    case Some(id) => (SetPin(store, session, p, id, now), Selected(Selection(p, id, store.profiles[id].access)))
  }

  lemma OrderedPicks(store: Store, session: string, p: string, ids: seq<string>, now: int, refresh: Refresher,
                     free: set<string>)
    requires ids != [] && forall id :: id in ids ==> Belongs(store.profiles, p, id)
    requires Ready(store, ids, now) && FreeAt(store, ids, free, now)
    ensures ResolveOrdered(store, session, p, ids, now, refresh) == Picked(store, session, p, ids, free, now)
  {
    SearchPicks(store, p, ids, now, refresh, free);
  }

  lemma PreferenceAfterClear(store: Store, session: string, p: string, now: int)
    ensures Preference(ClearExpired(store, now), session, p) == Preference(store, session, p)
  {
    ClearKeepsOrdering(store, now);
    SameOrderingSameOrder(store, ClearExpired(store, now), p);
  }

  /** `ResolveAuth` in such a store: it clears old windows, picks the choice and
      pins it. */
  lemma ResolvePicks(store: Store, session: string, provider: string, p: string, ids: seq<string>, now: int,
                     refresh: Refresher, free: set<string>)
    requires p == NormalizeProvider(provider) && p != ""
    requires ids == Preference(store, session, p) && ids != []
    requires Ready(store, ids, now) && FreeAt(ClearExpired(store, now), ids, free, now)
    ensures forall id :: id in ids ==> id in ClearExpired(store, now).profiles
    ensures Resolve(store, session, provider, now, refresh)
            == Picked(ClearExpired(store, now), session, p, ids, free, now)
  {
    PreferenceAfterClear(store, session, p, now);
    PreferenceOf(store, session, p, ProviderOrder(store, p));
    OrderedPicks(ClearExpired(store, now), session, p, ids, now, refresh, free);
  }

  // ----- the cycle, told without the store -----

  /** One send cycle: the session and what it meets. */
  datatype Scene = Scene(files: Manager, session: string, clock: nat -> int, refresh: nat -> Refresher,
                         staticKey: string, requests: Provider, authErrorReason: Reason, model: Model)
  {
    function Around(): World {
      World(Some(files), staticKey, requests, authErrorReason)
    }

    function ProviderName(): string {
      NormalizeProvider(model.provider)
    }

    /** The file manager on a clock that runs forward, and requests that all fail in a
        way that lets the next profile be tried. */
    ghost predicate AllRequestsFail() {
      && Closed(files) && Describes(files, session, clock, refresh)
      && ProviderName() != ""
      && (forall j: nat, k: nat :: j <= k ==> 0 <= clock(j) <= clock(k))
      && (forall k: nat :: !requests(k).Parsed? && ProfileRetryWorthy(model, requests(k).reason))
    }
  }

  /** An id the send loop's trimming leaves alone, and that can be marked as failed. */
  predicate Clean(id: string) {
    Trimmed(id) && id != ""
  }

  /** When round `n` resolves, and when it settles. */
  function ResolveTime(s: Scene, start: Progress, n: nat): int {
    s.clock(start.calls + 2 * n)
  }

  function SettleTime(s: Scene, start: Progress, n: nat): int {
    s.clock(start.calls + 2 * n + 1)
  }

  /** The attempt of round `n`, and what its failure is marked as. */
  function AttemptOf(s: Scene, start: Progress, n: nat): Attempt
    decreases n, 1
  {
    RunAttempt(s.model.config, s.requests, RequestsBefore(s, start, n))
  }

  function RequestsBefore(s: Scene, start: Progress, n: nat): nat
    decreases n, 0
  {
    if n == 0 then start.requests else AttemptOf(s, start, n - 1).next
  }

  function MarkOf(s: Scene, start: Progress, n: nat): Reason {
    match AttemptOf(s, start, n).reply
    case Parsed => Unknown
    case Unparsable(_) => Unknown
    case Rejected(reason, _, _) => reason
  }

  /** A profile's statistics after the rounds that tried `tried`, in order. */
  function StatsNow(s: Scene, start: Progress, tried: seq<string>, id: string): Stats
    decreases |tried|
  {
    if tried == [] then StatsOf(start.store, id)
    else
      var n := |tried| - 1;
      var before := StatsNow(s, start, tried[..n], id);
      if tried[n] == id && id != ""
      then FailStats(ClearStats(before, ResolveTime(s, start, n)), MarkOf(s, start, n), SettleTime(s, start, n))
      else before
  }

  function FreeNow(s: Scene, start: Progress, tried: seq<string>, ids: seq<string>): set<string> {
    set id | id in ids && !Locked(StatsNow(s, start, tried, id), ResolveTime(s, start, |tried|))
  }

  /** The order of the round after the one that chose `id`: a failure lifts the pin, unless
      it was marked under another name. */
  function NextOrder(s: Scene, base: seq<string>, ids: seq<string>, id: string): (r: seq<string>)
    ensures (forall x :: x in ids <==> x in base) ==> forall x :: x in r <==> x in base
  {
    if s.session == "" then ids else if Clean(id) then base else MoveToFront(base, id)
  }

  function Names(ids: seq<string>): set<string> {
    set id | id in ids :: Trim(id)
  }

  /** The names a cycle tries from here on: round by round the first profile of the order
      that is free then, until that one was tried before. */
  function Walk(s: Scene, start: Progress, base: seq<string>, ids: seq<string>, tried: seq<string>): (r: seq<string>)
    requires forall x :: x in ids <==> x in base
    ensures tried <= r
    decreases Names(base) - Elements(tried)
  {
    var choice := Choice(ids, FreeNow(s, start, tried, ids));
    if choice.None? || Trim(choice.value) in tried then tried
    else
      ChoiceIn(ids, FreeNow(s, start, tried, ids));
      ElementsSnoc(tried, Trim(choice.value));
      Walk(s, start, base, NextOrder(s, base, ids, choice.value), tried + [Trim(choice.value)])
  }

  lemma WalkUnfolds(s: Scene, start: Progress, base: seq<string>, ids: seq<string>, tried: seq<string>, c: string)
    requires forall x :: x in ids <==> x in base
    requires Choice(ids, FreeNow(s, start, tried, ids)) == Some(c)
    ensures Trim(c) in tried ==> Walk(s, start, base, ids, tried) == tried
    ensures Trim(c) !in tried ==> Walk(s, start, base, ids, tried)
                                  == Walk(s, start, base, NextOrder(s, base, ids, c), tried + [Trim(c)])
  {
    ChoiceIn(ids, FreeNow(s, start, tried, ids));
    ElementsSnoc(tried, Trim(c));
  }

  // ----- the loop walks -----

  lemma ClearTwice(stats: Stats, early: int, late: int)
    requires early <= late
    ensures ClearStats(ClearStats(stats, early), late) == ClearStats(stats, late)
  {
  }

  lemma ClearKeepsLocked(stats: Stats, now: int, t: int)
    requires 0 <= now <= t
    ensures Locked(ClearStats(stats, now), t) <==> Locked(stats, t)
  {
  }

  /** From `since` on no clearing tells the two apart. */
  ghost predicate Alike(a: Stats, b: Stats, since: int) {
    forall t {:trigger ClearStats(a, t)} :: since <= t ==> ClearStats(a, t) == ClearStats(b, t)
  }

  lemma ClearedAlike(stats: Stats, early: int, since: int)
    requires early <= since
    ensures Alike(ClearStats(stats, early), stats, since)
  {
    forall t | since <= t ensures ClearStats(ClearStats(stats, early), t) == ClearStats(stats, t) {
      ClearTwice(stats, early, t);
    }
  }

  /** The store of the cycle after the rounds that tried `tried`. */
  ghost predicate Reached(s: Scene, start: Progress, base: seq<string>, ids: seq<string>, tried: seq<string>,
                          progress: Progress) {
    && progress.calls == start.calls + 2 * |tried|
    && progress.requests == RequestsBefore(s, start, |tried|)
    && base == ProviderOrder(start.store, s.ProviderName())
    && SameOrdering(start.store, progress.store)
    && ids == Preference(progress.store, s.session, s.ProviderName())
    && forall x {:trigger StatsOf(progress.store, x)} ::
         Alike(StatsOf(progress.store, x), StatsNow(s, start, tried, x), ResolveTime(s, start, |tried|))
  }

  /** Tokens are there at every time of the cycle. */
  ghost predicate AlwaysReady(s: Scene, start: Progress) {
    forall k: nat :: Ready(start.store, ProviderOrder(start.store, s.ProviderName()), s.clock(k))
  }

  lemma ClearedStats(store: Store, now: int, id: string)
    ensures StatsOf(ClearExpired(store, now), id) == ClearStats(StatsOf(store, id), now)
  {
  }

  lemma RoundFree(s: Scene, start: Progress, base: seq<string>, ids: seq<string>, tried: seq<string>,
                  progress: Progress)
    requires s.AllRequestsFail() && Reached(s, start, base, ids, tried, progress)
    ensures var now := ResolveTime(s, start, |tried|);
            FreeAt(ClearExpired(progress.store, now), ids, FreeNow(s, start, tried, ids), now)
  {
    var now := ResolveTime(s, start, |tried|);
    forall id | id in ids
      ensures Unusable(ClearExpired(progress.store, now), id, now) <==> Locked(StatsNow(s, start, tried, id), now)
    {
      var was, told := StatsOf(progress.store, id), StatsNow(s, start, tried, id);
      ClearedStats(progress.store, now, id);
      assert Alike(was, told, now) && ClearStats(was, now) == ClearStats(told, now);
      ClearKeepsLocked(told, now, now);
    }
  }

  lemma OrderReady(s: Scene, start: Progress, base: seq<string>, ids: seq<string>, tried: seq<string>,
                   progress: Progress)
    requires Reached(s, start, base, ids, tried, progress) && AlwaysReady(s, start)
    ensures Ready(progress.store, ids, s.clock(progress.calls))
    ensures (forall x :: x in ids <==> x in base) && |ids| == |base|
  {
    SameOrderingSameOrder(start.store, progress.store, s.ProviderName());
    PreferenceOf(progress.store, s.session, s.ProviderName(), base);
    assert Ready(start.store, base, s.clock(progress.calls));
  }

  lemma ResolveReached(s: Scene, start: Progress, base: seq<string>, ids: seq<string>, tried: seq<string>,
                       progress: Progress)
    requires s.AllRequestsFail() && AlwaysReady(s, start) && Reached(s, start, base, ids, tried, progress) && ids != []
    ensures var now := ResolveTime(s, start, |tried|);
            && (forall id :: id in ids ==> id in ClearExpired(progress.store, now).profiles)
            && s.files.resolve(s.model.provider, progress.store, progress.calls)
               == Picked(ClearExpired(progress.store, now), s.session, s.ProviderName(), ids,
                         FreeNow(s, start, tried, ids), now)
  {
    var now := ResolveTime(s, start, |tried|);
    OrderReady(s, start, base, ids, tried, progress);
    RoundFree(s, start, base, ids, tried, progress);
    ResolvePicks(progress.store, s.session, s.model.provider, s.ProviderName(), ids, now, s.refresh(progress.calls),
                 FreeNow(s, start, tried, ids));
    assert s.files.resolve(s.model.provider, progress.store, progress.calls)
        == Resolve(progress.store, s.session, s.model.provider, now, s.refresh(progress.calls));
  }

  /** The choice is resolved: pinned and returned with its token. */
  lemma ResolveChoice(s: Scene, start: Progress, base: seq<string>, ids: seq<string>, tried: seq<string>,
                      progress: Progress, id: string)
    returns (token: string)
    requires s.AllRequestsFail() && AlwaysReady(s, start) && Reached(s, start, base, ids, tried, progress) && ids != []
    requires Choice(ids, FreeNow(s, start, tried, ids)) == Some(id)
    ensures !Blank(token)
    ensures var now, p := ResolveTime(s, start, |tried|), s.ProviderName();
            s.files.resolve(s.model.provider, progress.store, progress.calls)
            == (SetPin(ClearExpired(progress.store, now), s.session, p, id, now), Selected(Selection(p, id, token)))
  {
    ResolveReached(s, start, base, ids, tried, progress);
    ChoiceIn(ids, FreeNow(s, start, tried, ids));
    OrderReady(s, start, base, ids, tried, progress);
    token := progress.store.profiles[id].access;
  }

  lemma ResolveEmpty(s: Scene, store: Store, calls: nat)
    requires s.AllRequestsFail() && Preference(store, s.session, s.ProviderName()) == []
    ensures !s.files.resolve(s.model.provider, store, calls).1.Selected?
  {
    PreferenceAfterClear(store, s.session, s.ProviderName(), s.clock(calls));
    assert s.files.resolve(s.model.provider, store, calls)
        == Resolve(store, s.session, s.model.provider, s.clock(calls), s.refresh(calls));
  }

  /** Nothing is resolved when there is no choice. */
  lemma ResolveNothing(s: Scene, start: Progress, base: seq<string>, ids: seq<string>, tried: seq<string>,
                       progress: Progress)
    requires s.AllRequestsFail() && AlwaysReady(s, start) && Reached(s, start, base, ids, tried, progress)
    requires Choice(ids, FreeNow(s, start, tried, ids)).None?
    ensures !s.files.resolve(s.model.provider, progress.store, progress.calls).1.Selected?
  {
    if ids == [] {
      ResolveEmpty(s, progress.store, progress.calls);
    } else {
      ResolveReached(s, start, base, ids, tried, progress);
    }
  }

  lemma SettleMarks(s: Scene, start: Progress, store: Store, n: nat, id: string)
    requires s.AllRequestsFail()
    ensures s.files.settle(s.model.provider, store, start.calls + 2 * n + 1, id, AttemptOf(s, start, n).reply)
         == MarkFailure(store, s.session, s.model.provider, id, MarkOf(s, start, n), SettleTime(s, start, n))
  {
    var k, attempt := start.calls + 2 * n + 1, AttemptOf(s, start, n);
    assert !attempt.reply.Parsed?;
    assert s.files.settle(s.model.provider, store, k, id, attempt.reply)
        == SettleStore(s.session, s.model.provider, store, id, attempt.reply, s.clock(k));
  }

  /** Once a profile is resolved that was not tried before, its trimmed id is tried and marked. */
  lemma TryFails(s: Scene, start: Progress, pinned: Store, n: nat, selection: Selection, tried: seq<string>,
                 last: Option<Reason>)
    returns (next: Progress, reason: Reason)
    requires s.AllRequestsFail() && !Blank(selection.token) && Trim(selection.profileId) !in tried
    ensures ActOn(s.files, s.Around(), s.model, Progress(pinned, start.calls + 2 * n + 1, RequestsBefore(s, start, n)),
                  Selected(selection), tried, last)
         == Next(next, Trim(selection.profileId), reason)
    ensures next == Progress(MarkFailure(pinned, s.session, s.model.provider, Trim(selection.profileId),
                                         MarkOf(s, start, n),
                                         SettleTime(s, start, n)),
                             start.calls + 2 * (n + 1), RequestsBefore(s, start, n + 1))
  {
    var attempt := AttemptOf(s, start, n);
    assert !attempt.reply.Parsed? && ProfileRetryWorthy(s.model, attempt.reply.reason);
    SettleMarks(s, start, pinned, n, Trim(selection.profileId));
    next := Progress(s.files.settle(s.model.provider, pinned, start.calls + 2 * n + 1, Trim(selection.profileId),
                                    attempt.reply),
                     start.calls + 2 * (n + 1), attempt.next);
    reason := attempt.reply.reason;
  }

  lemma RoundActs(manager: Manager, world: World, model: Model, progress: Progress, pinned: Store,
                  resolution: Resolution, tried: seq<string>, last: Option<Reason>)
    requires Closed(manager) && manager.resolve(model.provider, progress.store, progress.calls) == (pinned, resolution)
    ensures RunRound(manager, world, model, progress, tried, last)
         == ActOn(manager, world, model, Progress(pinned, progress.calls + 1, progress.requests), resolution, tried,
                  last)
  {
  }

  lemma RoundTries(s: Scene, start: Progress, progress: Progress, pinned: Store, n: nat, selection: Selection,
                   tried: seq<string>, last: Option<Reason>)
    returns (next: Progress, reason: Reason)
    requires s.AllRequestsFail() && !Blank(selection.token) && Trim(selection.profileId) !in tried
    requires progress.calls == start.calls + 2 * n && progress.requests == RequestsBefore(s, start, n)
    requires s.files.resolve(s.model.provider, progress.store, progress.calls) == (pinned, Selected(selection))
    ensures RunRound(s.files, s.Around(), s.model, progress, tried, last)
            == Next(next, Trim(selection.profileId), reason)
    ensures next == Progress(MarkFailure(pinned, s.session, s.model.provider, Trim(selection.profileId),
                                         MarkOf(s, start, n),
                                         SettleTime(s, start, n)),
                             start.calls + 2 * (n + 1), RequestsBefore(s, start, n + 1))
  {
    RoundActs(s.files, s.Around(), s.model, progress, pinned, Selected(selection), tried, last);
    next, reason := TryFails(s, start, pinned, n, selection, tried, last);
  }

  /** One round, with a profile to choose that was not tried before: its trimmed id is
      tried and marked. */
  lemma RoundMarks(s: Scene, start: Progress, base: seq<string>, ids: seq<string>, tried: seq<string>,
                   last: Option<Reason>, progress: Progress, id: string)
    returns (next: Progress, reason: Reason)
    requires s.AllRequestsFail() && AlwaysReady(s, start) && Reached(s, start, base, ids, tried, progress) && ids != []
    requires Choice(ids, FreeNow(s, start, tried, ids)) == Some(id) && Trim(id) !in tried
    ensures RunRound(s.files, s.Around(), s.model, progress, tried, last) == Next(next, Trim(id), reason)
    ensures var now, n := ResolveTime(s, start, |tried|), |tried|;
            var pinned := SetPin(ClearExpired(progress.store, now), s.session, s.ProviderName(), id, now);
            next == Progress(MarkFailure(pinned, s.session, s.model.provider, Trim(id), MarkOf(s, start, n),
                                         SettleTime(s, start, n)),
                             start.calls + 2 * (n + 1), RequestsBefore(s, start, n + 1))
  {
    var now := ResolveTime(s, start, |tried|);
    var token := ResolveChoice(s, start, base, ids, tried, progress, id);
    var pinned := SetPin(ClearExpired(progress.store, now), s.session, s.ProviderName(), id, now);
    next, reason := RoundTries(s, start, progress, pinned, |tried|, Selection(s.ProviderName(), id, token), tried,
                               last);
  }

  /** Marking leaves the order of the profiles alone, and lifts the pin or not. */
  lemma MarkedOrder(s: Scene, store: Store, base: seq<string>, ids: seq<string>, id: string, marked: Reason, now: int,
                    later: int)
    requires s.ProviderName() != "" && base == ProviderOrder(store, s.ProviderName())
    requires ids == Preference(store, s.session, s.ProviderName())
    ensures var next := MarkFailure(SetPin(ClearExpired(store, now), s.session, s.ProviderName(), id, now),
                                    s.session, s.model.provider, Trim(id), marked, later);
            SameOrdering(store, next) && Preference(next, s.session, s.ProviderName()) == NextOrder(s, base, ids, id)
  {
    var p := s.ProviderName();
    var pinned := SetPin(ClearExpired(store, now), s.session, p, id, now);
    var next := MarkFailure(pinned, s.session, s.model.provider, Trim(id), marked, later);
    ClearKeepsOrdering(store, now);
    MarkFailureKeepsOrdering(pinned, s.session, s.model.provider, Trim(id), marked, later);
    SameOrderingSameOrder(store, next, p);
    PinAfterMark(store, s.session, s.model.provider, id, marked, now, later);
  }

  lemma PinAfterMark(store: Store, session: string, provider: string, id: string, marked: Reason, now: int, later: int)
    requires NormalizeProvider(provider) != ""
    ensures var p := NormalizeProvider(provider);
            var next := MarkFailure(SetPin(ClearExpired(store, now), session, p, id, now), session, provider, Trim(id),
                                    marked, later);
            && (session == "" ==> next.pins == store.pins)
            && (session != "" && Clean(id) ==> PinKey(session, p) !in next.pins)
            && (session != "" && !Clean(id)
                ==> PinKey(session, p) in next.pins && next.pins[PinKey(session, p)].profileId == id)
  {
  }

  lemma StatsAfterMark(store: Store, session: string, provider: string, id: string, marked: Reason, now: int, x: string)
    ensures StatsOf(MarkFailure(store, session, provider, id, marked, now), x)
         == if x == id && !Blank(id) then FailStats(StatsOf(store, x), marked, now) else StatsOf(store, x)
  {
    var failed := FailStats(StatsOf(store, id), marked, now);
    var usage := if Blank(id) then store.usage else store.usage[id := failed];
    assert MarkFailure(store, session, provider, id, marked, now).usage == usage;
  }

  lemma BlankTrim(id: string)
    ensures Blank(Trim(id)) <==> Trim(id) == ""
  {
  }

  /** What one round makes of a profile's statistics. */
  lemma MarkedStats(store: Store, session: string, provider: string, id: string, marked: Reason, now: int, later: int,
                    x: string)
    ensures var p := NormalizeProvider(provider);
            var next := MarkFailure(SetPin(ClearExpired(store, now), session, p, id, now), session, provider, Trim(id),
                                    marked, later);
            var cleared := ClearStats(StatsOf(store, x), now);
            StatsOf(next, x) == if x == Trim(id) && x != "" then FailStats(cleared, marked, later) else cleared
  {
    var pinned := SetPin(ClearExpired(store, now), session, NormalizeProvider(provider), id, now);
    assert StatsOf(pinned, x) == ClearStats(StatsOf(store, x), now) by { ClearedStats(store, now, x); }
    StatsAfterMark(pinned, session, provider, Trim(id), marked, later, x);
    BlankTrim(id);
  }

  /** The state the next round finds. */
  lemma RoundReaches(s: Scene, start: Progress, base: seq<string>, ids: seq<string>, tried: seq<string>,
                     last: Option<Reason>, progress: Progress, id: string)
    returns (next: Progress, reason: Reason)
    requires s.AllRequestsFail() && AlwaysReady(s, start) && Reached(s, start, base, ids, tried, progress) && ids != []
    requires Choice(ids, FreeNow(s, start, tried, ids)) == Some(id) && Trim(id) !in tried
    ensures RunRound(s.files, s.Around(), s.model, progress, tried, last) == Next(next, Trim(id), reason)
    ensures Reached(s, start, base, NextOrder(s, base, ids, id), tried + [Trim(id)], next)
  {
    next, reason := RoundMarks(s, start, base, ids, tried, last, progress, id);
    var n, longer := |tried|, tried + [Trim(id)];
    var now, later := ResolveTime(s, start, n), SettleTime(s, start, n);
    SameOrderingSameOrder(start.store, progress.store, s.ProviderName());
    MarkedOrder(s, progress.store, base, ids, id, MarkOf(s, start, n), now, later);
    forall x {:trigger StatsOf(next.store, x)}
      ensures Alike(StatsOf(next.store, x), StatsNow(s, start, longer, x), ResolveTime(s, start, n + 1))
    {
      StatsReach(s, start, tried, Trim(id), StatsOf(progress.store, x), x);
      MarkedStats(progress.store, s.session, s.model.provider, id, MarkOf(s, start, n), now, later, x);
    }
  }

  lemma StatsReach(s: Scene, start: Progress, tried: seq<string>, t: string, stats: Stats, x: string)
    requires s.AllRequestsFail() && Alike(stats, StatsNow(s, start, tried, x), ResolveTime(s, start, |tried|))
    ensures var n, cleared := |tried|, ClearStats(stats, ResolveTime(s, start, |tried|));
            Alike(if x == t && x != "" then FailStats(cleared, MarkOf(s, start, n), SettleTime(s, start, n))
                  else cleared,
                  StatsNow(s, start, tried + [t], x), ResolveTime(s, start, n + 1))
  {
    var n, told := |tried|, StatsNow(s, start, tried, x);
    var now, then_ := ResolveTime(s, start, n), ResolveTime(s, start, n + 1);
    assert (tried + [t])[..n] == tried;
    assert ClearStats(stats, now) == ClearStats(told, now);
    ClearedAlike(told, now, then_);
  }

  /** The static key is not used: never for an OAuth provider, and for no
      provider once a profile was tried. */
  predicate StaticKeyIdle(s: Scene, tried: seq<string>) {
    s.model.openAI || Blank(s.staticKey) || tried != []
  }

  /** A round with nothing left to choose, or only what was tried already. */
  lemma RoundEnds(s: Scene, start: Progress, base: seq<string>, ids: seq<string>, tried: seq<string>,
                  last: Option<Reason>, progress: Progress)
    requires s.AllRequestsFail() && AlwaysReady(s, start) && Reached(s, start, base, ids, tried, progress)
    requires var choice := Choice(ids, FreeNow(s, start, tried, ids)); choice.Some? ==> Trim(choice.value) in tried
    requires tried != [] ==> last.Some?
    ensures var r := RunRound(s.files, s.Around(), s.model, progress, tried, last);
            r.Stop? && if StaticKeyIdle(s, tried) || last.Some?
                       then r.cycle.attempts == tried && r.cycle.error.Some? && r.cycle.error.value.Exhausted?
                       else r.cycle.attempts == [""] && r.cycle.error.Some?
  {
    var choice := Choice(ids, FreeNow(s, start, tried, ids));
    if choice.None? {
      ResolveNothing(s, start, base, ids, tried, progress);
    } else {
      ChoiceIn(ids, FreeNow(s, start, tried, ids));
      var token := ResolveChoice(s, start, base, ids, tried, progress, choice.value);
    }
  }

  /** What a cycle is to end with: the walk, or the static key when there is nothing to walk. */
  predicate Ended(s: Scene, c: Cycle, walk: seq<string>) {
    && c.error.Some?
    && if StaticKeyIdle(s, walk) then c.attempts == walk && c.error.value.Exhausted? else c.attempts == [""]
  }

  /** From any round on the loop over the file manager walks. */
  lemma {:induction false} LoopWalks(s: Scene, start: Progress, base: seq<string>, ids: seq<string>, tried: seq<string>,
                                     last: Option<Reason>, progress: Progress)
    requires s.AllRequestsFail() && AlwaysReady(s, start) && Reached(s, start, base, ids, tried, progress)
    requires tried != [] <==> last.Some?
    ensures forall x :: x in ids <==> x in base
    ensures Ended(s, ProfileLoop(s.files, s.Around(), s.model, progress, tried, last), Walk(s, start, base, ids, tried))
    decreases Names(base) - Elements(tried)
  {
    OrderReady(s, start, base, ids, tried, progress);
    var choice := Choice(ids, FreeNow(s, start, tried, ids));
    if choice.None? || Trim(choice.value) in tried {
      RoundEnds(s, start, base, ids, tried, last, progress);
    } else {
      var id := choice.value;
      ChoiceIn(ids, FreeNow(s, start, tried, ids));
      ElementsSnoc(tried, Trim(id));
      var next, reason := RoundReaches(s, start, base, ids, tried, last, progress, id);
      LoopWalks(s, start, base, NextOrder(s, base, ids, id), tried + [Trim(id)], Some(reason), next);
    }
  }

  lemma ReachedAtFirst(s: Scene, start: Progress)
    ensures Reached(s, start, ProviderOrder(start.store, s.ProviderName()),
                    Preference(start.store, s.session, s.ProviderName()), [], start)
  {
  }

  /** The whole walk of a cycle. */
  ghost function WholeWalk(s: Scene, start: Progress): seq<string> {
    var base := ProviderOrder(start.store, s.ProviderName());
    PreferenceOf(start.store, s.session, s.ProviderName(), base);
    Walk(s, start, base, Preference(start.store, s.session, s.ProviderName()), [])
  }

  /** When every request fails, a send cycle walks: on any clock that runs forward, from
      any store whose tokens do not expire on the way, it tries what the walk tries, each
      once and in that order, and ends exhausted; a static key is tried only when nothing
      else could be. */
  lemma CycleWalks(s: Scene, start: Progress)
    requires s.AllRequestsFail() && AlwaysReady(s, start)
    ensures var c := SendWithModel(s.Around(), s.model, start);
            Ended(s, c, WholeWalk(s, start)) && NoDuplicates(c.attempts)
  {
    ReachedAtFirst(s, start);
    LoopWalks(s, start, ProviderOrder(start.store, s.ProviderName()),
              Preference(start.store, s.session, s.ProviderName()),
              [], None, start);
    CycleBound(s.Around(), s.model, start);
  }
}
