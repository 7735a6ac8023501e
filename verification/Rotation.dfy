/** When one send cycle in which every request fails tries every usable profile of the
    preference order: told by the failure windows and the clock, on any clock that runs
    forward. */
module Rotation {
  import opened Wrappers
  import opened Text
  import opened AuthStore
  import opened SendCycle
  import opened ModelSend
  import opened RotationWalk
  import Lockout
  import ImplicitOrder

  /** The profiles a send cycle that starts with `store` is expected to try. */
  ghost function Rota(store: Store, session: string, p: string, now: int): seq<string> {
    var ids := Preference(store, session, p);
    if |ids| == 1 then ids else Filter(ids, id => !Unusable(store, id, now))
  }

  ghost function RotaOf(s: Scene, start: Progress): seq<string> {
    Rota(start.store, s.session, s.ProviderName(), ResolveTime(s, start, 0))
  }

  ghost function BaseOf(s: Scene, start: Progress): seq<string> {
    ProviderOrder(start.store, s.ProviderName())
  }

  /** The order round `r` walks when the rounds before it kept to the list: the pinned profile
      is ahead in the first round only. */
  ghost function OrderAt(s: Scene, start: Progress, r: nat): (ids: seq<string>)
    ensures forall x :: x in ids <==> x in BaseOf(s, start)
    ensures |ids| == |BaseOf(s, start)| && NoDuplicates(ids)
  {
    PreferenceOf(start.store, s.session, s.ProviderName(), BaseOf(s, start));
    ProviderOrderSound(start.store, s.ProviderName());
    if r == 0 || s.session == "" then Preference(start.store, s.session, s.ProviderName()) else BaseOf(s, start)
  }

  // ----- the windows of the cycle -----

  /** How long a failure locks a profile that was outside its windows. */
  function BackOff(stats: Stats, reason: Reason): int {
    match reason
    case Full | Auth => DisabledBackoff(Count(stats.failureCounts, reason) + 1)
    case _ => CooldownBackoff(stats.errorCount + 1)
  }

  /** When the window ends that round `j` of the list starts. */
  function WindowEnd(s: Scene, start: Progress, rota: seq<string>, j: nat): int
    requires j < |rota|
  {
    SettleTime(s, start, j)
    + BackOff(ClearStats(StatsOf(start.store, rota[j]), ResolveTime(s, start, j)), MarkOf(s, start, j))
  }

  /** Whether a profile is inside a lockout window when round `r` resolves: the one its failed
      attempt started, or one it had from the start. */
  predicate StillLocked(s: Scene, start: Progress, rota: seq<string>, r: nat, x: string)
    requires r <= |rota|
  {
    if x in rota[..r] then x != "" && ResolveTime(s, start, r) < WindowEnd(s, start, rota, IndexOf(rota[..r], x))
    else Locked(StatsOf(start.store, x), ResolveTime(s, start, r))
  }

  /** Every profile ahead of `x` in the order of round `r` is still locked. */
  ghost predicate AheadLocked(s: Scene, start: Progress, rota: seq<string>, r: nat, x: string)
    requires r <= |rota| && x in OrderAt(s, start, r)
  {
    var ids := OrderAt(s, start, r);
    forall y :: y in ids[..IndexOf(ids, x)] ==> StillLocked(s, start, rota, r, y)
  }

  /** Round `r` comes upon `x`: it is the sole profile, or outside its windows with every
      profile ahead of it still locked. */
  ghost predicate Turn(s: Scene, start: Progress, rota: seq<string>, r: nat, x: string)
    requires r <= |rota|
  {
    var ids := OrderAt(s, start, r);
    && x in ids
    && (|ids| == 1 || (!StillLocked(s, start, rota, r, x) && AheadLocked(s, start, rota, r, x)))
  }

  /** Round `r` comes upon its profile of the list; a profile that only shares its trimmed id
      will do, unless it stays pinned with profiles still to try. */
  ghost predicate InTurn(s: Scene, start: Progress, rota: seq<string>, r: nat)
    requires r < |rota|
  {
    forall x :: Turn(s, start, rota, r, x)
      ==> Trim(x) == rota[r] && (x == rota[r] || s.session == "" || r + 1 == |rota|)
  }

  /** No round finds a profile ahead of its own that has left its window. */
  ghost predicate OnTime(s: Scene, start: Progress, rota: seq<string>, from: nat) {
    forall r :: from <= r < |rota| ==> InTurn(s, start, rota, r)
  }

  /** Round `r` comes upon a profile of another id. */
  ghost predicate Misnamed(s: Scene, start: Progress, rota: seq<string>, r: nat)
    requires r < |rota|
  {
    exists x :: Turn(s, start, rota, r, x) && x != rota[r]
  }

  /** The last profile of the list was pinned under another id. */
  ghost predicate LastMisnamed(s: Scene, start: Progress, rota: seq<string>) {
    s.session != "" && rota != [] && Misnamed(s, start, rota, |rota| - 1)
  }

  /** And after the list no other profile has left its window, or the last one stays pinned
      under an id that is not its trimmed one. */
  ghost predicate NothingNew(s: Scene, start: Progress, rota: seq<string>) {
    || (forall x :: Turn(s, start, rota, |rota|, x) ==> Trim(x) in rota)
    || LastMisnamed(s, start, rota)
  }

  // ----- the windows are those of the store -----

  /** The failure of a profile outside its windows locks it until the back-off is over. */
  lemma FailureWindow(stats: Stats, reason: Reason, early: int, now: int, t: int)
    requires 0 <= early <= now <= t && !Locked(stats, early)
    ensures Locked(FailStats(ClearStats(stats, early), reason, now), t)
            <==> t < now + BackOff(ClearStats(stats, early), reason)
  {
  }

  lemma LongerPrefix(rota: seq<string>, r: nat, x: string)
    requires NoDuplicates(rota) && 0 < r <= |rota|
    ensures rota[..r][..r - 1] == rota[..r - 1] && rota[..r][r - 1] == rota[r - 1]
    ensures x in rota[..r] <==> x in rota[..r - 1] || x == rota[r - 1]
    ensures x in rota[..r - 1] ==> x != rota[r - 1] && IndexOf(rota[..r], x) == IndexOf(rota[..r - 1], x)
    ensures x == rota[r - 1] ==> IndexOf(rota[..r], x) == r - 1
  {
    assert rota[..r] == rota[..r - 1] + [rota[r - 1]];
    assert x in rota[..r] ==> rota[IndexOf(rota[..r], x)] == x;
    assert x in rota[..r - 1] ==> rota[IndexOf(rota[..r - 1], x)] == x;
  }

  lemma {:induction false} StatsAt(s: Scene, start: Progress, rota: seq<string>, r: nat, x: string)
    requires NoDuplicates(rota) && r <= |rota|
    ensures StatsNow(s, start, rota[..r], x)
         == if x in rota[..r] && x != ""
            then var j := IndexOf(rota[..r], x);
                 FailStats(ClearStats(StatsOf(start.store, x), ResolveTime(s, start, j)), MarkOf(s, start, j),
                           SettleTime(s, start, j))
            else StatsOf(start.store, x)
  {
    if r != 0 {
      StatsAt(s, start, rota, r - 1, x);
      LongerPrefix(rota, r, x);
    }
  }

  /** Locked in the store of the cycle means still locked by the list. */
  lemma LockedIsStill(s: Scene, start: Progress, rota: seq<string>, r: nat, x: string)
    requires s.AllRequestsFail() && NoDuplicates(rota) && r <= |rota|
    requires x in rota ==> !Locked(StatsOf(start.store, x), ResolveTime(s, start, 0))
    ensures Locked(StatsNow(s, start, rota[..r], x), ResolveTime(s, start, r)) <==> StillLocked(s, start, rota, r, x)
  {
    StatsAt(s, start, rota, r, x);
    if x in rota[..r] {
      var j := IndexOf(rota[..r], x);
      var stats := StatsOf(start.store, x);
      assert rota[j] == x;
      assert 0 <= ResolveTime(s, start, 0) <= ResolveTime(s, start, j)
          <= SettleTime(s, start, j) <= ResolveTime(s, start, r);
      FailureWindow(stats, MarkOf(s, start, j), ResolveTime(s, start, j), SettleTime(s, start, j),
                    ResolveTime(s, start, r));
    }
  }

  // ----- the choice is the turn -----

  lemma {:induction false} FirstFree(ids: seq<string>, free: set<string>, x: string)
    requires x in ids && NoDuplicates(ids)
    ensures Restrict(ids, free) != [] && Restrict(ids, free)[0] == x
            <==> x in free && forall y :: y in ids[..IndexOf(ids, x)] ==> y !in free
  {
    if ids[0] == x {
      RestrictElements(ids[1..], free);
    } else {
      var i := IndexOf(ids, x);
      assert ids[..i] == [ids[0]] + ids[1..][..i - 1];
      FirstFree(ids[1..], free, x);
    }
  }

  lemma SoleChoice(ids: seq<string>, free: set<string>)
    requires |ids| == 1
    ensures Choice(ids, free) == Some(ids[0])
  {
    assert Restrict(ids[1..], free) == [];
  }

  /** The list holds the profiles that are free at first, or the sole profile. */
  lemma RotaHolds(s: Scene, start: Progress)
    ensures var rota, base := RotaOf(s, start), BaseOf(s, start);
            && NoDuplicates(rota) && (forall x :: x in rota ==> x in base)
            && (|base| == 1 ==> rota == OrderAt(s, start, 0))
            && (|base| != 1 ==>
                  forall x :: x in rota <==> x in base && !Locked(StatsOf(start.store, x), ResolveTime(s, start, 0)))
  {
    PreferenceOf(start.store, s.session, s.ProviderName(), BaseOf(s, start));
  }

  /** In round `r` the free profiles are those the list does not tell locked. */
  ghost predicate FreeAsTold(s: Scene, start: Progress, rota: seq<string>, r: nat)
    requires r <= |rota|
  {
    forall y :: y in OrderAt(s, start, r)
      ==> (y in FreeNow(s, start, rota[..r], OrderAt(s, start, r)) <==> !StillLocked(s, start, rota, r, y))
  }

  lemma FreeIsUnlocked(s: Scene, start: Progress, rota: seq<string>, r: nat)
    requires s.AllRequestsFail() && rota == RotaOf(s, start) && r <= |rota|
    ensures |BaseOf(s, start)| != 1 ==> FreeAsTold(s, start, rota, r)
  {
    RotaHolds(s, start);
    if |BaseOf(s, start)| != 1 {
      forall y | y in OrderAt(s, start, r)
        ensures y in FreeNow(s, start, rota[..r], OrderAt(s, start, r)) <==> !StillLocked(s, start, rota, r, y)
      {
        LockedIsStill(s, start, rota, r, y);
      }
    }
  }

  lemma FreeIsTurn(s: Scene, start: Progress, rota: seq<string>, r: nat, free: set<string>, x: string)
    requires r <= |rota| && |OrderAt(s, start, r)| != 1
    requires forall y :: y in OrderAt(s, start, r) ==> (y in free <==> !StillLocked(s, start, rota, r, y))
    ensures Choice(OrderAt(s, start, r), free) == Some(x) <==> Turn(s, start, rota, r, x)
  {
    var ids := OrderAt(s, start, r);
    ChoiceIn(ids, free);
    if x in ids {
      FirstFree(ids, free, x);
      assert forall y :: y in ids[..IndexOf(ids, x)] ==> y in ids;
    }
  }

  lemma SoleIsTurn(s: Scene, start: Progress, rota: seq<string>, r: nat, free: set<string>, x: string)
    requires r <= |rota| && |OrderAt(s, start, r)| == 1
    ensures Choice(OrderAt(s, start, r), free) == Some(x) <==> Turn(s, start, rota, r, x)
  {
    SoleChoice(OrderAt(s, start, r), free);
  }

  /** The profile a round chooses is the one it comes upon. */
  lemma ChoiceIsTurn(s: Scene, start: Progress, rota: seq<string>, r: nat, x: string)
    requires s.AllRequestsFail() && rota == RotaOf(s, start) && r <= |rota|
    ensures Choice(OrderAt(s, start, r), FreeNow(s, start, rota[..r], OrderAt(s, start, r))) == Some(x)
            <==> Turn(s, start, rota, r, x)
  {
    var free := FreeNow(s, start, rota[..r], OrderAt(s, start, r));
    FreeIsUnlocked(s, start, rota, r);
    if |BaseOf(s, start)| == 1 {
      SoleIsTurn(s, start, rota, r, free, x);
    } else {
      FreeIsTurn(s, start, rota, r, free, x);
    }
  }

  // ----- the walk keeps to the list -----

  ghost function WalkFrom(s: Scene, start: Progress, rota: seq<string>, r: nat): (walk: seq<string>)
    requires r <= |rota|
    ensures rota[..r] <= walk
  {
    Walk(s, start, BaseOf(s, start), OrderAt(s, start, r), rota[..r])
  }

  /** A profile of the list is outside its windows when its round comes. */
  lemma SomethingFree(s: Scene, start: Progress, rota: seq<string>, r: nat)
    requires s.AllRequestsFail() && rota == RotaOf(s, start) && r < |rota|
    ensures Choice(OrderAt(s, start, r), FreeNow(s, start, rota[..r], OrderAt(s, start, r))).Some?
  {
    var ids, x := OrderAt(s, start, r), rota[r];
    var free := FreeNow(s, start, rota[..r], ids);
    RotaHolds(s, start);
    if |ids| == 1 {
      SoleChoice(ids, free);
    } else {
      StatsAt(s, start, rota, r, x);
      assert x in rota && x !in rota[..r];
      assert ResolveTime(s, start, 0) <= ResolveTime(s, start, r);
      assert x in ids && x in free;
      RestrictElements(ids, free);
    }
  }

  /** The pin on an untrimmed id stays, and ends the walk. */
  lemma PinnedStops(s: Scene, start: Progress, tried: seq<string>, ids: seq<string>, c: string)
    requires s.AllRequestsFail() && !Trimmed(c) && (forall x :: x in ids <==> x in BaseOf(s, start))
    requires |ids| == |BaseOf(s, start)| && Choice(ids, FreeNow(s, start, tried, ids)) == Some(c)
    ensures forall x :: x in MoveToFront(BaseOf(s, start), c) <==> x in BaseOf(s, start)
    ensures Walk(s, start, BaseOf(s, start), MoveToFront(BaseOf(s, start), c), tried + [Trim(c)]) == tried + [Trim(c)]
  {
    var base, longer := BaseOf(s, start), tried + [Trim(c)];
    ChoiceIn(ids, FreeNow(s, start, tried, ids));
    var next := MoveToFront(base, c);
    assert next[0] == c;
    var free := FreeNow(s, start, longer, next);
    if |ids| == 1 {
      SoleChoice(next, free);
    } else {
      RestrictElements(ids, FreeNow(s, start, tried, ids));
      assert longer[..|tried|] == tried;
      assert StatsNow(s, start, longer, c) == StatsNow(s, start, tried, c);
      assert ResolveTime(s, start, |tried|) <= ResolveTime(s, start, |longer|);
      assert c in free;
    }
    assert Choice(next, free) == Some(c);
    assert longer[|tried|] == Trim(c);
  }

  lemma WalkEndsIf(s: Scene, start: Progress, base: seq<string>, ids: seq<string>, tried: seq<string>)
    requires forall x :: x in ids <==> x in base
    ensures Walk(s, start, base, ids, tried) == tried
            <==> forall x :: Choice(ids, FreeNow(s, start, tried, ids)) == Some(x) ==> Trim(x) in tried
  {
    var choice := Choice(ids, FreeNow(s, start, tried, ids));
    if choice.Some? { WalkUnfolds(s, start, base, ids, tried, choice.value); }
  }

  lemma WalkEnds(s: Scene, start: Progress, rota: seq<string>)
    requires s.AllRequestsFail() && rota == RotaOf(s, start)
    ensures WalkFrom(s, start, rota, |rota|) == rota
            <==> forall x :: Turn(s, start, rota, |rota|, x) ==> Trim(x) in rota
  {
    var n := |rota|;
    assert rota[..n] == rota;
    var ids := OrderAt(s, start, n);
    WalkEndsIf(s, start, BaseOf(s, start), ids, rota);
    forall x ensures Choice(ids, FreeNow(s, start, rota, ids)) == Some(x) <==> Turn(s, start, rota, n, x) {
      ChoiceIsTurn(s, start, rota, n, x);
    }
  }

  lemma LongerDiffers(rota: seq<string>, walk: seq<string>, r: nat, t: string)
    requires r < |rota| && rota[..r] + [t] <= walk
    ensures t != rota[r] ==> !(rota <= walk)
    ensures t == rota[r] ==> rota[..r] + [t] == rota[..r + 1]
  {
    assert (rota[..r] + [t])[r] == t;
  }

  /** A round that comes upon a profile under another name leaves the list. */
  lemma WalkLeaves(s: Scene, start: Progress, rota: seq<string>, r: nat, c: string)
    requires s.AllRequestsFail() && rota == RotaOf(s, start) && r < |rota| && Turn(s, start, rota, r, c)
    requires Trim(c) != rota[r]
    ensures !(rota <= WalkFrom(s, start, rota, r))
  {
    ChoiceIsTurn(s, start, rota, r, c);
    WalkUnfolds(s, start, BaseOf(s, start), OrderAt(s, start, r), rota[..r], c);
    if Trim(c) in rota[..r] {
      assert |WalkFrom(s, start, rota, r)| < |rota|;
    } else {
      LongerDiffers(rota, WalkFrom(s, start, rota, r), r, Trim(c));
    }
  }

  lemma WalkGoesOn(s: Scene, start: Progress, rota: seq<string>, r: nat, c: string)
    requires NoDuplicates(rota) && r < |rota| && Trim(c) == rota[r]
    requires Choice(OrderAt(s, start, r), FreeNow(s, start, rota[..r], OrderAt(s, start, r))) == Some(c)
    ensures WalkFrom(s, start, rota, r)
         == Walk(s, start, BaseOf(s, start), NextOrder(s, BaseOf(s, start), OrderAt(s, start, r), c), rota[..r + 1])
  {
    assert Trim(c) !in rota[..r] && rota[..r] + [Trim(c)] == rota[..r + 1];
    WalkUnfolds(s, start, BaseOf(s, start), OrderAt(s, start, r), rota[..r], c);
  }

  /** One that comes upon the next profile of the list walks on or, if that stays pinned
      under another id, ends there. */
  lemma WalkStep(s: Scene, start: Progress, rota: seq<string>, r: nat, c: string)
    requires s.AllRequestsFail() && rota == RotaOf(s, start) && r < |rota| && Turn(s, start, rota, r, c)
    requires Trim(c) == rota[r]
    ensures c == rota[r] || s.session == "" ==> WalkFrom(s, start, rota, r) == WalkFrom(s, start, rota, r + 1)
    ensures c != rota[r] && s.session != "" ==> WalkFrom(s, start, rota, r) == rota[..r + 1]
  {
    RotaHolds(s, start);
    ChoiceIsTurn(s, start, rota, r, c);
    WalkGoesOn(s, start, rota, r, c);
    if s.session != "" && c != rota[r] {
      PinnedStops(s, start, rota[..r], OrderAt(s, start, r), c);
      assert rota[..r] + [Trim(c)] == rota[..r + 1];
    }
  }

  /** What a round comes upon, told by the one profile it does come upon. */
  lemma OneTurn(s: Scene, start: Progress, rota: seq<string>, r: nat, c: string)
    requires s.AllRequestsFail() && rota == RotaOf(s, start) && r < |rota| && Turn(s, start, rota, r, c)
    ensures InTurn(s, start, rota, r)
            <==> Trim(c) == rota[r] && (c == rota[r] || s.session == "" || r + 1 == |rota|)
    ensures Misnamed(s, start, rota, r) <==> c != rota[r]
  {
    ChoiceIsTurn(s, start, rota, r, c);
    forall x | Turn(s, start, rota, r, x) ensures x == c { ChoiceIsTurn(s, start, rota, r, x); }
  }

  lemma OnTimeFirst(s: Scene, start: Progress, rota: seq<string>, r: nat)
    requires r < |rota|
    ensures OnTime(s, start, rota, r) <==> InTurn(s, start, rota, r) && OnTime(s, start, rota, r + 1)
  {
  }

  lemma TurnOf(s: Scene, start: Progress, rota: seq<string>, r: nat) returns (c: string)
    requires s.AllRequestsFail() && rota == RotaOf(s, start) && r < |rota|
    ensures Turn(s, start, rota, r, c)
  {
    SomethingFree(s, start, rota, r);
    c := Choice(OrderAt(s, start, r), FreeNow(s, start, rota[..r], OrderAt(s, start, r))).value;
    ChoiceIsTurn(s, start, rota, r, c);
  }

  /** A profile of the list is outside its windows when its round comes. */
  lemma OwnTurnFree(s: Scene, start: Progress, rota: seq<string>, r: nat)
    requires s.AllRequestsFail() && rota == RotaOf(s, start) && r < |rota| && |BaseOf(s, start)| != 1
    ensures rota[r] in BaseOf(s, start) && !StillLocked(s, start, rota, r, rota[r])
  {
    RotaHolds(s, start);
    assert rota[r] in rota && rota[r] !in rota[..r];
    assert ResolveTime(s, start, 0) <= ResolveTime(s, start, r);
  }

  lemma OwnTurn(s: Scene, start: Progress, rota: seq<string>, r: nat)
    requires s.AllRequestsFail() && rota == RotaOf(s, start) && r < |rota| && |BaseOf(s, start)| != 1
    ensures rota[r] in OrderAt(s, start, r)
    ensures Turn(s, start, rota, r, rota[r]) <==> AheadLocked(s, start, rota, r, rota[r])
  {
    OwnTurnFree(s, start, rota, r);
  }

  predicate DistinctTrimmed(ids: seq<string>) {
    forall x, y :: x in ids && y in ids && Trim(x) == Trim(y) ==> x == y
  }

  lemma SameName(base: seq<string>, a: string, b: string)
    requires DistinctTrimmed(base) && a in base && b in base && Trim(a) == b
    ensures a == b && Trimmed(b)
  {
  }

  lemma OwnOrNot(s: Scene, start: Progress, rota: seq<string>, r: nat, c: string)
    requires s.AllRequestsFail() && rota == RotaOf(s, start) && r < |rota| && Turn(s, start, rota, r, c)
    requires Trim(c) == rota[r] ==> c == rota[r]
    ensures InTurn(s, start, rota, r) <==> Trimmed(rota[r]) && Turn(s, start, rota, r, rota[r])
  {
    OneTurn(s, start, rota, r, c);
    if Turn(s, start, rota, r, rota[r]) { OneTurn(s, start, rota, r, rota[r]); }
  }

  lemma InTurnOwn(s: Scene, start: Progress, rota: seq<string>, r: nat)
    requires s.AllRequestsFail() && rota == RotaOf(s, start) && r < |rota| && |BaseOf(s, start)| != 1
    requires DistinctTrimmed(BaseOf(s, start))
    ensures InTurn(s, start, rota, r) <==> Trimmed(rota[r]) && Turn(s, start, rota, r, rota[r])
  {
    var c := TurnOf(s, start, rota, r);
    OwnTurnFree(s, start, rota, r);
    if Trim(c) == rota[r] { SameName(BaseOf(s, start), c, rota[r]); }
    OwnOrNot(s, start, rota, r, c);
  }

  /** When no two ids differ in blanks at their ends only, a round is on time exactly when the
      id of its profile is trimmed and every profile ahead of it is still locked. */
  lemma InTurnMeans(s: Scene, start: Progress, rota: seq<string>, r: nat)
    requires s.AllRequestsFail() && rota == RotaOf(s, start) && r < |rota| && |BaseOf(s, start)| != 1
    requires DistinctTrimmed(BaseOf(s, start))
    ensures rota[r] in OrderAt(s, start, r)
    ensures InTurn(s, start, rota, r) <==> Trimmed(rota[r]) && AheadLocked(s, start, rota, r, rota[r])
  {
    OwnTurn(s, start, rota, r);
    InTurnOwn(s, start, rota, r);
  }

  /** The list is walked to its end exactly when every round from `r` on is on time, and
      nothing else exactly when nothing new is free after it. */
  ghost predicate Follows(s: Scene, start: Progress, rota: seq<string>, r: nat)
    requires r <= |rota|
  {
    && (rota <= WalkFrom(s, start, rota, r) <==> OnTime(s, start, rota, r))
    && (rota == WalkFrom(s, start, rota, r) <==> OnTime(s, start, rota, r) && NothingNew(s, start, rota))
  }

  lemma FollowsOff(s: Scene, start: Progress, rota: seq<string>, r: nat)
    requires r < |rota| && !InTurn(s, start, rota, r) && !(rota <= WalkFrom(s, start, rota, r))
    ensures Follows(s, start, rota, r)
  {
  }

  lemma FollowsOn(s: Scene, start: Progress, rota: seq<string>, r: nat)
    requires r < |rota| && InTurn(s, start, rota, r) && WalkFrom(s, start, rota, r) == WalkFrom(s, start, rota, r + 1)
    requires Follows(s, start, rota, r + 1)
    ensures Follows(s, start, rota, r)
  {
    OnTimeFirst(s, start, rota, r);
  }

  lemma FollowsPinned(s: Scene, start: Progress, rota: seq<string>, r: nat)
    requires r < |rota| && (InTurn(s, start, rota, r) <==> r + 1 == |rota|) && Misnamed(s, start, rota, r)
    requires s.session != "" && WalkFrom(s, start, rota, r) == rota[..r + 1]
    ensures Follows(s, start, rota, r)
  {
    OnTimeFirst(s, start, rota, r);
    WholePrefix(rota, r + 1);
  }

  lemma WholePrefix(rota: seq<string>, k: nat)
    requires k <= |rota|
    ensures rota <= rota[..k] <==> k == |rota|
    ensures rota == rota[..k] <==> k == |rota|
  {
  }

  lemma FollowsAtEnd(s: Scene, start: Progress, rota: seq<string>)
    requires s.AllRequestsFail() && rota == RotaOf(s, start) && !LastMisnamed(s, start, rota)
    ensures Follows(s, start, rota, |rota|)
  {
    assert rota[..|rota|] == rota;
    WalkEnds(s, start, rota);
  }

  lemma FollowsStep(s: Scene, start: Progress, rota: seq<string>, r: nat, c: string)
    requires s.AllRequestsFail() && rota == RotaOf(s, start) && r < |rota| && Turn(s, start, rota, r, c)
    requires Trim(c) == rota[r] && (c == rota[r] || s.session == "") ==> Follows(s, start, rota, r + 1)
    ensures Follows(s, start, rota, r)
  {
    OneTurn(s, start, rota, r, c);
    if Trim(c) != rota[r] {
      WalkLeaves(s, start, rota, r, c);
      FollowsOff(s, start, rota, r);
    } else {
      WalkStep(s, start, rota, r, c);
      if c == rota[r] || s.session == "" {
        FollowsOn(s, start, rota, r);
      } else {
        FollowsPinned(s, start, rota, r);
      }
    }
  }

  lemma NotLastMisnamed(s: Scene, start: Progress, rota: seq<string>, r: nat, c: string)
    requires s.AllRequestsFail() && rota == RotaOf(s, start) && r + 1 == |rota| && Turn(s, start, rota, r, c)
    requires c == rota[r] || s.session == ""
    ensures !LastMisnamed(s, start, rota)
  {
    OneTurn(s, start, rota, r, c);
  }

  /** One round either settles the matter or leaves it to the next. */
  lemma FollowsOrGoes(s: Scene, start: Progress, rota: seq<string>, r: nat) returns (goes: bool)
    requires s.AllRequestsFail() && rota == RotaOf(s, start) && r < |rota|
    ensures Follows(s, start, rota, r + 1) || !goes ==> Follows(s, start, rota, r)
    ensures goes && r + 1 == |rota| ==> !LastMisnamed(s, start, rota)
  {
    var c := TurnOf(s, start, rota, r);
    goes := Trim(c) == rota[r] && (c == rota[r] || s.session == "");
    if goes && r + 1 == |rota| { NotLastMisnamed(s, start, rota, r, c); }
    if Follows(s, start, rota, r + 1) || !goes { FollowsStep(s, start, rota, r, c); }
  }

  lemma {:induction false} WalkFollows(s: Scene, start: Progress, rota: seq<string>, r: nat)
    requires s.AllRequestsFail() && rota == RotaOf(s, start) && r < |rota|
    ensures Follows(s, start, rota, r)
    decreases |rota| - r
  {
    var goes := FollowsOrGoes(s, start, rota, r);
    if goes && r + 1 == |rota| { FollowsAtEnd(s, start, rota); }
    if goes && r + 1 < |rota| { WalkFollows(s, start, rota, r + 1); }
  }

  lemma WholeWalkFollows(s: Scene, start: Progress, rota: seq<string>)
    requires s.AllRequestsFail() && rota == RotaOf(s, start)
    ensures Follows(s, start, rota, 0) && WalkFrom(s, start, rota, 0) == WholeWalk(s, start)
  {
    if rota == [] {
      FollowsAtEnd(s, start, rota);
    } else {
      WalkFollows(s, start, rota, 0);
    }
    assert rota[..0] == [];
  }

  /** A list to walk leaves no use for the static key. */
  lemma SomethingWalked(s: Scene, start: Progress)
    requires s.AllRequestsFail() && StaticKeyIdle(s, RotaOf(s, start))
    ensures StaticKeyIdle(s, WholeWalk(s, start))
  {
    var rota := RotaOf(s, start);
    if rota != [] {
      SomethingFree(s, start, rota, 0);
      assert rota[..0] == [];
    }
  }

  /** When every request fails, on any clock that runs forward, one send cycle tries the
      usable profiles of the preference order in that order exactly when no round finds a
      profile ahead of its own that has left its window, and nothing else exactly when none
      has after them; then it ends exhausted. */
  lemma RotationIsComplete(s: Scene, start: Progress)
    requires s.AllRequestsFail() && AlwaysReady(s, start) && StaticKeyIdle(s, RotaOf(s, start))
    ensures var c, rota := SendWithModel(s.Around(), s.model, start), RotaOf(s, start);
            && (rota <= c.attempts <==> OnTime(s, start, rota, 0))
            && (rota == c.attempts <==> OnTime(s, start, rota, 0) && NothingNew(s, start, rota))
            && NoDuplicates(c.attempts) && c.error.Some? && c.error.value.Exhausted?
  {
    CycleWalks(s, start);
    SomethingWalked(s, start);
    WholeWalkFollows(s, start, RotaOf(s, start));
  }

  // ----- cycles within a minute -----

  /** The cycle is over by `deadline`, within the shortest cooldown. */
  ghost predicate Swift(s: Scene, start: Progress, deadline: int) {
    && deadline < s.clock(start.calls) + MINUTE_MS
    && forall k: nat :: start.calls <= k ==> s.clock(k) <= deadline
  }

  /** No lockout window ends between `now` and `deadline`. */
  ghost predicate WindowsSteady(store: Store, ids: seq<string>, now: int, deadline: int) {
    forall id, t :: id in ids && now <= t <= deadline ==> (Unusable(store, id, t) <==> Unusable(store, id, now))
  }

  /** A cycle within a minute during which no old window ends. */
  ghost predicate Calm(s: Scene, start: Progress, deadline: int) {
    && s.AllRequestsFail() && Swift(s, start, deadline)
    && WindowsSteady(start.store, BaseOf(s, start), ResolveTime(s, start, 0), deadline)
  }

  lemma FailLocks(stats: Stats, reason: Reason, now: int, t: int)
    requires now <= t < now + MINUTE_MS
    requires !Locked(stats, now) || Locked(stats, t)
    ensures Locked(FailStats(stats, reason, now), t)
  {
  }

  /** In such a cycle the profiles locked are those locked at first and those tried. */
  lemma {:induction false} LockedSteady(s: Scene, start: Progress, deadline: int, tried: seq<string>, x: string, t: int)
    requires Calm(s, start, deadline) && x in BaseOf(s, start) && ResolveTime(s, start, |tried|) <= t <= deadline
    ensures Locked(StatsNow(s, start, tried, x), t)
            <==> Locked(StatsOf(start.store, x), ResolveTime(s, start, 0)) || (x in tried && x != "")
    decreases |tried|
  {
    var first := ResolveTime(s, start, 0);
    if tried == [] {
      assert Unusable(start.store, x, t) <==> Unusable(start.store, x, first);
    } else {
      var n := |tried| - 1;
      var shorter := tried[..n];
      assert tried == shorter + [tried[n]];
      var now, later := ResolveTime(s, start, n), SettleTime(s, start, n);
      assert 0 <= first <= now <= later <= ResolveTime(s, start, n + 1) <= t < later + MINUTE_MS;
      LockedSteady(s, start, deadline, shorter, x, later);
      LockedSteady(s, start, deadline, shorter, x, t);
      if tried[n] == x && x != "" {
        var before := StatsNow(s, start, shorter, x);
        ClearKeepsLocked(before, now, later);
        ClearKeepsLocked(before, now, t);
        FailLocks(ClearStats(before, now), MarkOf(s, start, n), later, t);
      }
    }
  }

  lemma FreeSteady(s: Scene, start: Progress, deadline: int, tried: seq<string>, ids: seq<string>)
    requires Calm(s, start, deadline) && forall x :: x in ids ==> x in BaseOf(s, start)
    ensures forall x :: x in ids
              ==> (x in FreeNow(s, start, tried, ids)
                   <==> !Locked(StatsOf(start.store, x), ResolveTime(s, start, 0)) && !(x in tried && x != ""))
  {
    forall x | x in ids
      ensures x in FreeNow(s, start, tried, ids)
              <==> !Locked(StatsOf(start.store, x), ResolveTime(s, start, 0)) && !(x in tried && x != "")
    {
      LockedSteady(s, start, deadline, tried, x, ResolveTime(s, start, |tried|));
    }
  }

  // ----- what such a cycle makes of the list -----

  /** What the loop makes of a list of profiles, from `attempts` on: it ends at the
      first unclean id, which it tries under its trimmed form, if at all. */
  function TriedFrom(attempts: seq<string>, rota: seq<string>): seq<string>
    decreases rota
  {
    if rota == [] || Trim(rota[0]) in attempts then attempts
    else if Clean(rota[0]) then TriedFrom(attempts + [rota[0]], rota[1..])
    else attempts + [Trim(rota[0])]
  }

  /** Every id is trimmed, and only the last may be empty. */
  predicate AllClean(rota: seq<string>) {
    rota == [] || (Trimmed(rota[0]) && (rota[0] == "" ==> |rota| == 1) && AllClean(rota[1..]))
  }

  lemma RestAfter(attempts: seq<string>, rest: seq<string>)
    requires rest != []
    ensures (attempts + [rest[0]]) + rest[1..] == attempts + rest
  {
  }

  lemma FirstIsNew(attempts: seq<string>, rota: seq<string>)
    requires NoDuplicates(attempts + rota) && rota != []
    ensures rota[0] !in attempts
  {
    assert (attempts + rota)[|attempts|] == rota[0];
    forall i | 0 <= i < |attempts| ensures attempts[i] != rota[0] { assert (attempts + rota)[i] == attempts[i]; }
  }

  lemma LastOne(attempts: seq<string>, rota: seq<string>, t: string)
    requires rota != []
    ensures attempts + [t] == attempts + rota <==> rota == [t]
  {
    assert (attempts + rota)[|attempts|..] == rota && (attempts + [t])[|attempts|..] == [t];
  }

  /** The whole list is tried exactly when its ids are clean. */
  lemma {:induction false} TriedAllIffClean(attempts: seq<string>, rota: seq<string>)
    requires NoDuplicates(attempts + rota)
    ensures TriedFrom(attempts, rota) == attempts + rota <==> AllClean(rota)
    decreases rota
  {
    if rota == [] {
      assert attempts + rota == attempts;
    } else {
      FirstIsNew(attempts, rota);
      if Trim(rota[0]) in attempts {
        assert |attempts| < |attempts + rota|;
      } else if Clean(rota[0]) {
        RestAfter(attempts, rota);
        TriedAllIffClean(attempts + [rota[0]], rota[1..]);
      } else {
        LastOne(attempts, rota, Trim(rota[0]));
      }
    }
  }

  /** What is left of the list after a round: lifting the pin puts the rest in the same order. */
  lemma RestLeft(s: Scene, start: Progress, deadline: int, rota: seq<string>, r: nat)
    requires Calm(s, start, deadline) && r < |rota| && Clean(rota[r])
    requires Restrict(OrderAt(s, start, r), FreeNow(s, start, rota[..r], OrderAt(s, start, r))) == rota[r..]
    ensures Restrict(OrderAt(s, start, r + 1), FreeNow(s, start, rota[..r + 1], OrderAt(s, start, r + 1)))
            == rota[r + 1..]
  {
    var ids, next, c := OrderAt(s, start, r), OrderAt(s, start, r + 1), rota[r];
    var free, left := FreeNow(s, start, rota[..r], ids), FreeNow(s, start, rota[..r + 1], next);
    assert rota[..r + 1] == rota[..r] + [c] && rota[r..][0] == c && rota[r..][1..] == rota[r + 1..];
    FreeSteady(s, start, deadline, rota[..r], ids);
    FreeSteady(s, start, deadline, rota[..r + 1], next);
    RestrictSame(next, left, free - {c});
    RestrictDropFirst(ids, free);
    if r == 0 && s.session != "" {
      PinLifted(start.store, s.session, s.ProviderName(), c, free);
    }
  }

  lemma PinLifted(store: Store, session: string, p: string, id: string, free: set<string>)
    requires var ids := Preference(store, session, p); Restrict(ids, free) != [] && Restrict(ids, free)[0] == id
    ensures Restrict(ProviderOrder(store, p), free - {id}) == Restrict(Preference(store, session, p), free - {id})
  {
    var base, ids, key := ProviderOrder(store, p), Preference(store, session, p), PinKey(session, p);
    if key in store.pins {
      var pinned := store.pins[key].profileId;
      assert pinned != "" && pinned in base ==> ids[0] == pinned;
      assert pinned != "" && pinned in base && pinned in free ==> Restrict(ids, free)[0] == pinned;
      if pinned !in free - {id} { RestrictMoved(base, pinned, free - {id}); }
    }
  }

  lemma {:induction false} FirstStays(ids: seq<string>, free: set<string>, left: set<string>)
    requires Restrict(ids, free) != [] && Restrict(ids, free)[0] in left && left <= free
    ensures Restrict(ids, left) != [] && Restrict(ids, left)[0] == Restrict(ids, free)[0]
  {
    if ids[0] !in free { FirstStays(ids[1..], free, left); }
  }

  lemma UnpinnedFirst(base: seq<string>, pinned: string, free: set<string>)
    requires Restrict(MoveToFront(base, pinned), free) != [] && Restrict(MoveToFront(base, pinned), free)[0] == ""
    ensures Restrict(MoveToFront(base, pinned), free) == Restrict(base, free)
  {
    if pinned != "" && pinned in base {
      assert MoveToFront(base, pinned)[0] == pinned;
      assert pinned !in free;
      RestrictMoved(base, pinned, free);
    }
  }
  /** An unclean id is chosen again in the next round, and ends the walk. */
  lemma ChosenAgain(s: Scene, start: Progress, deadline: int, rota: seq<string>, r: nat)
    requires Calm(s, start, deadline) && r < |rota| && !Clean(rota[r])
    requires forall x :: x in rota[..r] ==> Clean(x)
    requires var ids := OrderAt(s, start, r);
             Restrict(ids, FreeNow(s, start, rota[..r], ids)) == rota[r..] && |ids| != 1
    ensures var c, ids, tried := rota[r], OrderAt(s, start, r), rota[..r] + [Trim(rota[r])];
            var next := NextOrder(s, BaseOf(s, start), ids, c);
            Choice(next, FreeNow(s, start, tried, next)) == Some(c)
  {
    var c, ids, base, tried := rota[r], OrderAt(s, start, r), BaseOf(s, start), rota[..r] + [Trim(rota[r])];
    var free, next := FreeNow(s, start, rota[..r], ids), NextOrder(s, base, ids, c);
    var left := FreeNow(s, start, tried, next);
    assert rota[r..][0] == c;
    RestrictElements(ids, free);
    assert c in rota[r..] && c in ids && c in free;
    FreeSteady(s, start, deadline, rota[..r], ids);
    FreeSteady(s, start, deadline, tried, next);
    assert c in left;
    if s.session != "" && c != "" {
      assert next[0] == c;
    } else {
      if s.session != "" { EmptyFirst(s, start, rota, r, free); }
      RestrictSame(next, left, left * free);
      FirstStays(next, free, left * free);
    }
  }

  lemma EmptyFirst(s: Scene, start: Progress, rota: seq<string>, r: nat, free: set<string>)
    requires Restrict(OrderAt(s, start, r), free) != [] && Restrict(OrderAt(s, start, r), free)[0] == ""
             && s.session != ""
    ensures Restrict(BaseOf(s, start), free) == Restrict(OrderAt(s, start, r), free)
  {
    var key := PinKey(s.session, s.ProviderName());
    if r == 0 && key in start.store.pins {
      UnpinnedFirst(BaseOf(s, start), start.store.pins[key].profileId, free);
    }
  }

  lemma StopsAtUnclean(s: Scene, start: Progress, deadline: int, rota: seq<string>, r: nat)
    requires Calm(s, start, deadline) && r < |rota| && !Clean(rota[r])
    requires forall x :: x in rota[..r] ==> Clean(x)
    requires var ids := OrderAt(s, start, r);
             Restrict(ids, FreeNow(s, start, rota[..r], ids)) == rota[r..] && |ids| != 1
    requires Trim(rota[r]) !in rota[..r]
    ensures WalkFrom(s, start, rota, r) == rota[..r] + [Trim(rota[r])]
  {
    var c, ids, base, tried := rota[r], OrderAt(s, start, r), BaseOf(s, start), rota[..r] + [Trim(rota[r])];
    assert rota[r..][0] == c;
    WalkUnfolds(s, start, base, ids, rota[..r], c);
    ChosenAgain(s, start, deadline, rota, r);
    assert tried[r] == Trim(c);
    WalkUnfolds(s, start, base, NextOrder(s, base, ids, c), tried, c);
  }

  /** From any round on: the list is tried as far as its ids are clean. */
  lemma {:induction false} CalmWalk(s: Scene, start: Progress, deadline: int, rota: seq<string>, r: nat)
    requires Calm(s, start, deadline) && r <= |rota| && NoDuplicates(rota) && |BaseOf(s, start)| != 1
    requires forall x :: x in rota[..r] ==> Clean(x)
    requires Restrict(OrderAt(s, start, r), FreeNow(s, start, rota[..r], OrderAt(s, start, r))) == rota[r..]
    ensures WalkFrom(s, start, rota, r) == TriedFrom(rota[..r], rota[r..])
    decreases |rota| - r
  {
    if r < |rota| {
      var ids, c := OrderAt(s, start, r), rota[r];
      assert rota[r..][0] == c && rota[r..][1..] == rota[r + 1..];
      assert rota[..r + 1] == rota[..r] + [c];
      if Trim(c) in rota[..r] {
        WalkUnfolds(s, start, BaseOf(s, start), ids, rota[..r], c);
      } else if Clean(c) {
        RestLeft(s, start, deadline, rota, r);
        WalkGoesOn(s, start, rota, r, c);
        CalmWalk(s, start, deadline, rota, r + 1);
      } else {
        StopsAtUnclean(s, start, deadline, rota, r);
      }
    }
  }

  /** A sole profile is tried once, locked out or not, whatever the clock. */
  lemma SoleWalk(s: Scene, start: Progress)
    requires |BaseOf(s, start)| == 1
    ensures WholeWalk(s, start) == [Trim(OrderAt(s, start, 0)[0])]
  {
    var base, ids := BaseOf(s, start), OrderAt(s, start, 0);
    var next := NextOrder(s, base, ids, ids[0]);
    var tried := [] + [Trim(ids[0])];
    assert |next| == 1 && base[0] in base && ids[0] in ids && next[0] in next;
    SoleChoice(ids, FreeNow(s, start, [], ids));
    SoleChoice(next, FreeNow(s, start, tried, next));
    WalkUnfolds(s, start, base, ids, [], ids[0]);
    WalkUnfolds(s, start, base, next, tried, next[0]);
  }

  lemma SoleTried(id: string)
    ensures TriedFrom([], [id]) == [Trim(id)]
  {
    assert [] + [id] == [id] && [] + [Trim(id)] == [Trim(id)] && [id][1..] == [];
    if Clean(id) { assert TriedFrom([id], []) == [id]; }
  }

  lemma CalmWholeWalk(s: Scene, start: Progress, deadline: int)
    requires Calm(s, start, deadline)
    ensures WholeWalk(s, start) == TriedFrom([], RotaOf(s, start))
  {
    var rota, ids := RotaOf(s, start), OrderAt(s, start, 0);
    RotaHolds(s, start);
    if |ids| == 1 {
      SoleWalk(s, start);
      SoleTried(ids[0]);
      assert rota == [ids[0]];
    } else {
      FilterIsRestrict(ids, id => !Unusable(start.store, id, ResolveTime(s, start, 0)), FreeNow(s, start, [], ids));
      assert rota[..0] == [] && rota[0..] == rota;
      CalmWalk(s, start, deadline, rota, 0);
    }
  }

  /** The cycle tried the list as far as its ids are clean, each once and in order, and
      so all of it exactly when they are; then it was exhausted. */
  ghost predicate Rotates(c: Cycle, rota: seq<string>) {
    && c.attempts == TriedFrom([], rota) && (c.attempts == rota <==> AllClean(rota))
    && NoDuplicates(c.attempts) && c.error.Some? && c.error.value.Exhausted?
  }

  /** A cycle that is over within a minute, while no old window ends, is on time exactly when
      the ids are trimmed: it then tries exactly the usable profiles of the preference order, each
      once and in that order (the sole profile of the order even when it is locked out). */
  lemma RotationWithinAMinute(s: Scene, start: Progress, deadline: int)
    requires Calm(s, start, deadline) && AlwaysReady(s, start) && StaticKeyIdle(s, RotaOf(s, start))
    ensures Rotates(SendWithModel(s.Around(), s.model, start), RotaOf(s, start))
    ensures var rota := RotaOf(s, start); OnTime(s, start, rota, 0) && NothingNew(s, start, rota) <==> AllClean(rota)
  {
    var rota := RotaOf(s, start);
    CycleWalks(s, start);
    SomethingWalked(s, start);
    CalmWholeWalk(s, start, deadline);
    RotaHolds(s, start);
    assert [] + rota == rota;
    TriedAllIffClean([], rota);
    RotationIsComplete(s, start);
  }

  /** In particular, for the file manager of an OpenAI provider at one instant: no
      assumption is left but that tokens are present and unexpired and that no request
      succeeds. */
  lemma RotationAtOneInstant(session: string, now: int, refresh: nat -> Refresher, staticKey: string,
                             requests: Provider, authErrorReason: Reason, provider: string, config: BuildConfig,
                             progress: Progress)
    requires now >= 0 && IsOpenAI(provider) && forall k: nat :: !requests(k).Parsed?
    requires Ready(progress.store, Preference(progress.store, session, NormalizeProvider(provider)), now)
    ensures Closed(FileManager(session, (k: nat) => now, refresh))
    ensures var world := World(Some(FileManager(session, (k: nat) => now, refresh)), staticKey, requests,
                               authErrorReason);
            Rotates(SendWithModel(world, ModelOf(provider, config), progress),
                    Rota(progress.store, session, NormalizeProvider(provider), now))
  {
    var clock := (k: nat) => now;
    FileManagerClosed(session, clock, refresh);
    var s := Scene(FileManager(session, clock, refresh), session, clock, refresh, staticKey, requests, authErrorReason,
                   ModelOf(provider, config));
    assert s.AllRequestsFail();
    assert Calm(s, progress, now);
    PreferenceOf(progress.store, session, s.ProviderName(), BaseOf(s, progress));
    RotationWithinAMinute(s, progress, now);
  }

  const BLANKED := " a"

  lemma TrimBlanked()
    ensures Trim(BLANKED) == "a" && !Clean(BLANKED) && TriedFrom([], [BLANKED]) == ["a"]
  {
    assert IsSpace(' ') && !IsSpace('a');
    assert TrimLeft(BLANKED) == TrimLeft("a") == "a";
    assert [] + ["a"] == ["a"];
  }

  lemma SoleSorted(ranks: map<string, Rank>, ids: seq<string>, id: string)
    requires SortedKeys(ranks, ids) && ranks.Keys == {id}
    ensures ids == [id]
  {
    assert id in ids;
    SortedDistinct(ranks, ids);
    assert Elements(ids) == {id};
    DistinctCount(ids);
    assert ids[0] in ids;
  }

  lemma SoleProvider(store: Store, p: string, id: string)
    requires store.profiles.Keys == {id} && Belongs(store.profiles, p, id) && store.order == map[]
             && store.pins == map[]
    ensures Preference(store, "", p) == [id]
  {
    var ranks := Ranks(store, p);
    assert ranks.Keys == {id};
    assert ProviderOrder(store, p) == SortedIds(ranks);
    SoleSorted(ranks, SortedIds(ranks), id);
  }

  /** A store, edited by hand, whose one profile the loop does not recognise: it is tried
      under another name, and never marked as failed. */
  lemma BlankedIdIsMisnamed(cred: Credential, refresh: nat -> Refresher, requests: Provider, provider: string,
                            config: BuildConfig)
    requires IsOpenAI(provider) && NormalizeProvider(cred.provider) == NormalizeProvider(provider)
    requires !Blank(cred.access) && cred.expires == 0 && forall k: nat :: !requests(k).Parsed?
    ensures var store := EMPTY_STORE.(profiles := map[BLANKED := cred]);
            var files := FileManager("", (k: nat) => 0, refresh);
            && Closed(files) && Rota(store, "", NormalizeProvider(provider), 0) == [BLANKED]
            && SendWithModel(World(Some(files), "", requests, Unknown), ModelOf(provider, config),
                             Progress(store, 0, 0)).attempts == ["a"]
  {
    var store := EMPTY_STORE.(profiles := map[BLANKED := cred]);
    SoleProvider(store, NormalizeProvider(provider), BLANKED);
    RotationAtOneInstant("", 0, refresh, "", requests, Unknown, provider, config, Progress(store, 0, 0));
    TrimBlanked();
  }

  /** And for every store the manager's own operations made, whose ids are trimmed: the
      cycle tries the whole list. */
  lemma RotationAfterAnyRun(run: seq<Lockout.Timed>, session: string, now: int, refresh: nat -> Refresher,
                            staticKey: string, requests: Provider, authErrorReason: Reason, provider: string,
                            config: BuildConfig, calls: nat, sent: nat)
    requires now >= 0 && IsOpenAI(provider) && forall k: nat :: !requests(k).Parsed?
    requires Ready(Lockout.StoreAfter(run), Preference(Lockout.StoreAfter(run), session, NormalizeProvider(provider)),
                   now)
    ensures Closed(FileManager(session, (k: nat) => now, refresh))
    ensures var world := World(Some(FileManager(session, (k: nat) => now, refresh)), staticKey, requests,
                               authErrorReason);
            var c := SendWithModel(world, ModelOf(provider, config), Progress(Lockout.StoreAfter(run), calls, sent));
            c.attempts == Rota(Lockout.StoreAfter(run), session, NormalizeProvider(provider), now) && c.error.Some?
  {
    var store, p := Lockout.StoreAfter(run), NormalizeProvider(provider);
    RotationAtOneInstant(session, now, refresh, staticKey, requests, authErrorReason, provider, config,
                         Progress(store, calls, sent));
    Lockout.RunKeepsIdsTrimmed(run);
    RotaIsClean(store, session, p, now);
  }

  lemma {:induction false} CleanElements(rota: seq<string>)
    requires forall id :: id in rota ==> Clean(id)
    ensures AllClean(rota)
  {
    if rota != [] {
      assert rota[0] in rota;
      CleanElements(rota[1..]);
    }
  }

  lemma RotaIsClean(store: Store, session: string, p: string, now: int)
    requires Lockout.TrimmedIds(store)
    ensures AllClean(Rota(store, session, p, now))
  {
    var ids, rota := Preference(store, session, p), Rota(store, session, p, now);
    var f := id => !Unusable(store, id, now);
    PreferenceOf(store, session, p, ProviderOrder(store, p));
    var free := set id | id in ids && f(id);
    FilterIsRestrict(ids, f, free);
    RestrictElements(ids, free);
    CleanElements(rota);
  }

  // ----- a cycle of over a minute -----

  /** The profiles `ids` in a configured order, none of them used yet. */
  function OrderedStore(p: string, cred: Credential, ids: seq<string>): Store {
    EMPTY_STORE.(profiles := map id | id in ids :: cred, order := map[p := ids])
  }

  /** The third attempt is resolved more than a minute after the first was settled. */
  function SlowClock(k: nat): int {
    if k < 4 then 1000 else 100000
  }

  function AlwaysTimeout(k: nat): Reply {
    Rejected(Timeout, false, Mentions(false, false, false, false))
  }

  /** A slow cycle without a session whose requests all time out. */
  ghost predicate Slow(s: Scene) {
    && s.AllRequestsFail() && s.clock == SlowClock && s.requests == AlwaysTimeout
    && s.session == "" && s.staticKey == ""
  }

  /** The file manager of an OpenAI provider meets one. */
  lemma SlowScene(refresh: nat -> Refresher, provider: string, config: BuildConfig) returns (s: Scene)
    requires IsOpenAI(provider)
    ensures Slow(s) && s.model == ModelOf(provider, config)
  {
    FileManagerClosed("", SlowClock, refresh);
    s := Scene(FileManager("", SlowClock, refresh), "", SlowClock, refresh, "", AlwaysTimeout, Unknown,
               ModelOf(provider, config));
  }

  lemma {:induction false} FilterIdle(ids: seq<string>, keep: string -> bool)
    requires forall id :: id in ids ==> keep(id)
    ensures Filter(ids, keep) == ids
  {
    if ids != [] {
      assert ids[0] in ids;
      FilterIdle(ids[1..], keep);
    }
  }

  lemma OrderedOrder(p: string, cred: Credential, ids: seq<string>)
    requires NormalizeProvider(cred.provider) == p && ids != []
    requires NoDuplicates(ids) && forall id :: id in ids ==> Clean(id)
    ensures ProviderOrder(OrderedStore(p, cred, ids), p) == Preference(OrderedStore(p, cred, ids), "", p) == ids
  {
    var store := OrderedStore(p, cred, ids);
    ImplicitOrder.DedupeIdle(ids, {});
    FilterIdle(ids, id => Belongs(store.profiles, p, id));
    assert ExplicitOrder(store, p) == ids;
  }

  lemma UnusedRota(store: Store, session: string, p: string, now: int)
    requires store.usage == map[] && 0 <= now
    ensures Rota(store, session, p, now) == Preference(store, session, p)
  {
    FilterIdle(Preference(store, session, p), id => !Unusable(store, id, now));
  }

  /** Each failure of the slow cycle locks its profile for a minute. */
  lemma SlowWindows(s: Scene, start: Progress, a: string, b: string)
    requires start.calls == 0 && start.store.usage == map[] && s.clock == SlowClock && s.requests == AlwaysTimeout
    requires a != b && a != "" && b != ""
    ensures Locked(StatsNow(s, start, [a], a), ResolveTime(s, start, 1))
    ensures !Locked(StatsNow(s, start, [a], b), ResolveTime(s, start, 1))
    ensures !Locked(StatsNow(s, start, [a, b], a), ResolveTime(s, start, 2))
  {
    assert [a][..0] == [] && [a, b][..1] == [a];
    assert MarkOf(s, start, 0) == Timeout;
    assert StatsNow(s, start, [a], a).cooldownUntil == 61000 && StatsNow(s, start, [a], a).disabledUntil == 0;
  }

  lemma SlowChoices(s: Scene, start: Progress, ids: seq<string>)
    requires start.calls == 0 && start.store.usage == map[] && s.clock == SlowClock && s.requests == AlwaysTimeout
    requires |ids| >= 3 && NoDuplicates(ids) && forall id :: id in ids ==> Clean(id)
    ensures Choice(ids, FreeNow(s, start, [], ids)) == Some(ids[0])
    ensures Choice(ids, FreeNow(s, start, [ids[0]], ids)) == Some(ids[1])
    ensures Choice(ids, FreeNow(s, start, [ids[0], ids[1]], ids)) == Some(ids[0])
  {
    assert ids[0] in ids && ids[1] in ids;
    SlowWindows(s, start, ids[0], ids[1]);
    FirstFree(ids, FreeNow(s, start, [], ids), ids[0]);
    FirstFree(ids, FreeNow(s, start, [ids[0]], ids), ids[1]);
    FirstFree(ids, FreeNow(s, start, [ids[0], ids[1]], ids), ids[0]);
    assert IndexOf(ids, ids[0]) == 0 && IndexOf(ids, ids[1]) == 1;
    assert ids[..1] == [ids[0]];
  }

  /** The third round of the slow cycle comes upon the first profile again. */
  lemma SlowWalk(s: Scene, start: Progress, ids: seq<string>)
    requires start.calls == 0 && start.store.usage == map[] && s.clock == SlowClock && s.requests == AlwaysTimeout
    requires |ids| >= 3 && NoDuplicates(ids) && (forall id :: id in ids ==> Clean(id)) && s.session == ""
    ensures Walk(s, start, ids, ids, []) == [ids[0], ids[1]]
  {
    var a, b := ids[0], ids[1];
    SlowChoices(s, start, ids);
    assert a in ids && b in ids;
    assert [] + [a] == [a] && [a] + [b] == [a, b];
    WalkUnfolds(s, start, ids, ids, [], a);
    WalkUnfolds(s, start, ids, ids, [a], b);
    WalkUnfolds(s, start, ids, ids, [a, b], a);
  }

  lemma SlowCycle(s: Scene, start: Progress, ids: seq<string>)
    requires Slow(s) && AlwaysReady(s, start) && start.calls == 0 && start.store.usage == map[]
    requires BaseOf(s, start) == Preference(start.store, "", s.ProviderName()) == ids
    requires |ids| >= 3 && NoDuplicates(ids) && forall id :: id in ids ==> Clean(id)
    ensures RotaOf(s, start) == ids && SendWithModel(s.Around(), s.model, start).attempts == [ids[0], ids[1]]
  {
    UnusedRota(start.store, "", s.ProviderName(), ResolveTime(s, start, 0));
    CycleWalks(s, start);
    SlowWalk(s, start, ids);
  }

  lemma OrderedReady(p: string, cred: Credential, ids: seq<string>, now: int)
    requires !Blank(cred.access) && cred.expires == 0
    ensures Ready(OrderedStore(p, cred, ids), ids, now)
  {
  }

  /** Any three or more clean profiles, all usable, and requests that time out: the third round
      comes more than a minute after the first failure, finds the first profile's window over, and
      gives up with all the others untried. */
  lemma SlowCycleSkips(s: Scene, cred: Credential, ids: seq<string>)
    requires Slow(s) && NormalizeProvider(cred.provider) == s.ProviderName() && !Blank(cred.access) && cred.expires == 0
    requires |ids| >= 3 && NoDuplicates(ids) && forall id :: id in ids ==> Clean(id)
    ensures AllClean(ids)
    ensures var start := Progress(OrderedStore(s.ProviderName(), cred, ids), 0, 0);
            RotaOf(s, start) == ids && SendWithModel(s.Around(), s.model, start).attempts == [ids[0], ids[1]]
  {
    var start := Progress(OrderedStore(s.ProviderName(), cred, ids), 0, 0);
    OrderedOrder(s.ProviderName(), cred, ids);
    CleanElements(ids);
    assert AlwaysReady(s, start) by {
      forall k: nat
        ensures Ready(start.store, ids, s.clock(k)) { OrderedReady(s.ProviderName(), cred, ids, s.clock(k)); }
    }
    SlowCycle(s, start, ids);
  }
}
