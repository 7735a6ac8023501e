/** In which order the profiles of a provider are tried, told by the credentials and their
    statistics alone. */
module ImplicitOrder {
  import opened Text
  import opened AuthStore

  function LastUsed(store: Store, id: string): int {
    if id in store.usage then store.usage[id].lastUsed else 0
  }

  /** Logins, pasted tokens and all the rest. */
  predicate SameGroup(a: Kind, b: Kind) {
    (a.OAuth? && b.OAuth?) || (a.Token? && b.Token?) || (!a.OAuth? && !a.Token? && !b.OAuth? && !b.Token?)
  }

  /** `a` may stand before `b`: logins first, then pasted tokens, then the rest; among those of a
      kind the one used longer ago, and by id where that is the same. */
  predicate MayPrecede(store: Store, a: string, b: string)
    requires a in store.profiles && b in store.profiles
  {
    var x, y := store.profiles[a].kind, store.profiles[b].kind;
    && (y.OAuth? ==> x.OAuth?)
    && (y.Token? ==> x.OAuth? || x.Token?)
    && (SameGroup(x, y) ==>
          && LastUsed(store, a) <= LastUsed(store, b)
          && (LastUsed(store, a) == LastUsed(store, b) ==> Smaller(a, b)))
  }

  /** No configured id names a profile of the provider. */
  predicate NoExplicitOrder(store: Store, provider: string) {
    provider in store.order ==>
      forall raw :: raw in store.order[provider] && Trim(raw) != "" ==> !Belongs(store.profiles, provider, Trim(raw))
  }

  lemma {:induction false} DedupeIdle(ids: seq<string>, seen: set<string>)
    requires NoDuplicates(ids) && forall id :: id in ids ==> Trimmed(id) && id != "" && id !in seen
    ensures DedupeFrom(ids, seen) == ids
  {
    if ids != [] {
      assert ids[0] in ids;
      DedupeIdle(ids[1..], seen + {ids[0]});
    }
  }

  lemma {:induction false} FilterSame(ids: seq<string>, f: string -> bool, g: string -> bool)
    requires forall id :: id in ids ==> f(id) == g(id)
    ensures Filter(ids, f) == Filter(ids, g)
  {
    if ids != [] {
      assert ids[0] in ids;
      FilterSame(ids[1..], f, g);
    }
  }

  lemma {:induction false} DedupeTrims(ids: seq<string>, seen: set<string>)
    ensures forall id :: id in DedupeFrom(ids, seen) ==> exists raw :: raw in ids && Trim(raw) == id
  {
    if ids != [] {
      var id := Trim(ids[0]);
      DedupeTrims(ids[1..], if id == "" || id in seen then seen else seen + {id});
      assert ids[0] in ids && forall raw :: raw in ids[1..] ==> raw in ids;
    }
  }

  lemma SomeElement(ids: seq<string>)
    ensures ids != [] ==> exists id :: id in ids
  {
    if ids != [] { assert ids[0] in ids; }
  }

  lemma NothingExplicit(store: Store, provider: string)
    requires NoExplicitOrder(store, provider)
    ensures ExplicitOrder(store, provider) == []
  {
    var listed := Lookup(store.order, provider, []);
    DedupeTrims(listed, {});
    DedupeSound(listed, {});
    assert forall id :: id in Dedupe(listed) ==> !Belongs(store.profiles, provider, id);
    SomeElement(ExplicitOrder(store, provider));
  }

  /** The implicit order: every profile of the provider once, each before those it may precede. */
  lemma OrderIs(store: Store, provider: string)
    requires NoExplicitOrder(store, provider)
    ensures var ids := ProviderOrder(store, provider);
            && (forall id :: id in ids <==>
                  id in store.profiles && NormalizeProvider(store.profiles[id].provider) == provider)
            && NoDuplicates(ids)
            && forall i, j :: 0 <= i < j < |ids| ==> MayPrecede(store, ids[i], ids[j])
  {
    NothingExplicit(store, provider);
    SortedIs(store, provider, SortedIds(Ranks(store, provider)));
  }

  lemma SortedIs(store: Store, provider: string, ids: seq<string>)
    requires SortedKeys(Ranks(store, provider), ids)
    ensures forall id :: id in ids <==>
              id in store.profiles && NormalizeProvider(store.profiles[id].provider) == provider
    ensures NoDuplicates(ids) && forall i, j :: 0 <= i < j < |ids| ==> MayPrecede(store, ids[i], ids[j])
  {
    SortedDistinct(Ranks(store, provider), ids);
    forall i, j | 0 <= i < j < |ids| ensures ids[i] in store.profiles && ids[j] in store.profiles
                                     ensures MayPrecede(store, ids[i], ids[j]) {
      SortedPair(store, provider, ids, i, j);
    }
  }

  lemma SortedPair(store: Store, provider: string, ids: seq<string>, i: nat, j: nat)
    requires SortedBy(Ranks(store, provider), ids) && i < j < |ids|
    ensures ids[i] in store.profiles && ids[j] in store.profiles && MayPrecede(store, ids[i], ids[j])
  {
    assert ids[i] in ids && ids[j] in ids;
    BeforeMeans(store, provider, ids[i], ids[j]);
  }

  lemma BeforeMeans(store: Store, provider: string, a: string, b: string)
    requires a in Ranks(store, provider) && b in Ranks(store, provider) && Before(Ranks(store, provider), a, b)
    ensures MayPrecede(store, a, b)
  {
    if SameGroup(store.profiles[a].kind, store.profiles[b].kind) && LastUsed(store, a) == LastUsed(store, b) {
      LessIsSmaller(a, b);
    }
  }

  /** Logins and tokens used in turn: the profile that was just used with success, at a time no
      other was used, is the last of its kind in the next order. */
  lemma UsedGoesLast(store: Store, session: string, provider: string, id: string, now: int, i: nat, j: nat)
    requires !Blank(id) && forall x :: x in store.profiles && x != id ==> LastUsed(store, x) < now
    requires NoExplicitOrder(store, provider)
    requires var ids := ProviderOrder(MarkSuccess(store, session, provider, id, now), provider);
             && i < |ids| && j < |ids| && ids[j] == id && i != j
             && ids[i] in store.profiles && id in store.profiles
             && SameGroup(store.profiles[ids[i]].kind, store.profiles[id].kind)
    ensures i < j
  {
    var after := MarkSuccess(store, session, provider, id, now);
    SuccessUses(store, session, provider, id, now);
    OrderIs(after, provider);
    var ids := ProviderOrder(after, provider);
    assert !MayPrecede(after, ids[j], ids[i]);
  }

  /** What a success changes: the profile's last use and its windows, and a pin. */
  lemma SuccessUses(store: Store, session: string, provider: string, id: string, now: int)
    requires !Blank(id)
    ensures var after := MarkSuccess(store, session, provider, id, now);
            && after.profiles == store.profiles && after.order == store.order
            && LastUsed(after, id) == now
            && (forall x :: x != id ==> LastUsed(after, x) == LastUsed(store, x))
  {
  }

  // ----- the configured order -----

  /** The first place an id is listed at. */
  predicate FirstAt(ids: seq<string>, id: string, k: nat) {
    k < |ids| && Trim(ids[k]) == id && forall i :: 0 <= i < k ==> Trim(ids[i]) != id
  }

  lemma FirstShifts(ids: seq<string>, id: string, k: nat)
    requires ids != [] && Trim(ids[0]) != id && FirstAt(ids[1..], id, k)
    ensures FirstAt(ids, id, k + 1)
  {
    forall i | 0 <= i < k + 1 ensures Trim(ids[i]) != id {
      if i > 0 { assert ids[i] == ids[1..][i - 1]; }
    }
  }

  /** The listed ids in the order of their first places. */
  predicate InOrder(ids: seq<string>, listed: seq<string>, at: seq<nat>) {
    && |at| == |listed|
    && (forall n, m :: 0 <= n < m < |at| ==> at[n] < at[m])
    && forall n :: 0 <= n < |listed| ==> FirstAt(ids, listed[n], at[n])
  }

  lemma ShiftInOrder(ids: seq<string>, listed: seq<string>, at: seq<nat>) returns (later: seq<nat>)
    requires ids != [] && InOrder(ids[1..], listed, at) && forall n :: 0 <= n < |listed| ==> listed[n] != Trim(ids[0])
    ensures InOrder(ids, listed, later) && forall n :: 0 <= n < |later| ==> later[n] > 0
  {
    later := seq(|at|, n requires 0 <= n < |at| => at[n] + 1);
    forall n | 0 <= n < |listed| ensures FirstAt(ids, listed[n], later[n]) { FirstShifts(ids, listed[n], at[n]); }
  }

  /** The configured ids keep their order: each stands by the place it is listed at first. */
  lemma {:induction false} DedupeKeepsOrder(ids: seq<string>, seen: set<string>) returns (at: seq<nat>)
    ensures InOrder(ids, DedupeFrom(ids, seen), at)
  {
    at := [];
    if ids != [] {
      var id := Trim(ids[0]);
      var skipped := id == "" || id in seen;
      var known := if skipped then seen else seen + {id};
      var rest := DedupeFrom(ids[1..], known);
      at := DedupeKeepsOrder(ids[1..], known);
      DedupeSound(ids[1..], known);
      assert forall n :: 0 <= n < |rest| ==> rest[n] in rest;
      at := ShiftInOrder(ids, rest, at);
      if !skipped {
        ConsInOrder(ids, rest, at, id, 0);
        at := [0] + at;
      }
    }
  }

  lemma ConsInOrder(ids: seq<string>, listed: seq<string>, at: seq<nat>, id: string, k: nat)
    requires InOrder(ids, listed, at) && FirstAt(ids, id, k) && forall n :: 0 <= n < |at| ==> k < at[n]
    ensures InOrder(ids, [id] + listed, [k] + at)
  {
    var names, places := [id] + listed, [k] + at;
    forall n, m | 0 <= n < m < |places| ensures places[n] < places[m] {
      assert places[m] == at[m - 1] && (n > 0 ==> places[n] == at[n - 1]);
    }
    forall n | 0 <= n < |names| ensures FirstAt(ids, names[n], places[n]) {
      if n > 0 { assert names[n] == listed[n - 1] && places[n] == at[n - 1]; }
    }
  }

  lemma RestInOrder(ids: seq<string>, listed: seq<string>, at: seq<nat>)
    requires InOrder(ids, listed, at) && listed != []
    ensures InOrder(ids, listed[1..], at[1..]) && forall n :: n in at[1..] ==> at[0] < n
  {
    var later := at[1..];
    forall n, m | 0 <= n < m < |later| ensures later[n] < later[m] { assert at[n + 1] < at[m + 1]; }
  }

  lemma {:induction false} FilterInOrder(ids: seq<string>, listed: seq<string>, at: seq<nat>, keep: string -> bool)
    returns (left: seq<nat>)
    requires InOrder(ids, listed, at)
    ensures InOrder(ids, Filter(listed, keep), left) && forall n :: n in left ==> n in at
  {
    left := [];
    if listed != [] {
      RestInOrder(ids, listed, at);
      var rest := FilterInOrder(ids, listed[1..], at[1..], keep);
      left := rest;
      assert forall n :: n in rest ==> n in at[1..];
      if keep(listed[0]) {
        forall n | 0 <= n < |rest| ensures at[0] < rest[n] { assert rest[n] in rest; }
        ConsInOrder(ids, Filter(listed[1..], keep), rest, listed[0], at[0]);
        left := [at[0]] + rest;
      }
    }
  }

  lemma NamedIsExplicit(store: Store, provider: string, raw: string)
    requires provider in store.order && raw in store.order[provider] && Trim(raw) != ""
    ensures Trim(raw) in Dedupe(store.order[provider])
  {
    var given := store.order[provider];
    DedupeSound(given, {});
    var k :| 0 <= k < |given| && given[k] == raw;
  }

  lemma ExplicitIs(store: Store, provider: string)
    requires !NoExplicitOrder(store, provider)
    ensures ProviderOrder(store, provider) == ExplicitOrder(store, provider)
  {
    var raw :| raw in store.order[provider] && Trim(raw) != "" && Belongs(store.profiles, provider, Trim(raw));
    NamedIsExplicit(store, provider, raw);
  }

  /** A configured order that names a profile of the provider is followed: its ids that do, trimmed,
      each at its first place, and none left out. */
  lemma ConfiguredIs(store: Store, provider: string) returns (at: seq<nat>)
    requires !NoExplicitOrder(store, provider)
    ensures InOrder(store.order[provider], ProviderOrder(store, provider), at)
    ensures forall raw ::
              raw in store.order[provider] && Trim(raw) != "" && Belongs(store.profiles, provider, Trim(raw))
              ==> Trim(raw) in ProviderOrder(store, provider)
    ensures forall id :: id in ProviderOrder(store, provider) ==> Belongs(store.profiles, provider, id)
  {
    var given := store.order[provider];
    at := DedupeKeepsOrder(given, {});
    at := FilterInOrder(given, Dedupe(given), at, id => Belongs(store.profiles, provider, id));
    ExplicitIs(store, provider);
    forall raw | raw in given && Trim(raw) != "" && Belongs(store.profiles, provider, Trim(raw))
      ensures Trim(raw) in ProviderOrder(store, provider)
    {
      NamedIsExplicit(store, provider, raw);
    }
  }
}
