/** The compaction of bootstrap payloads: what it keeps and how small the result is.
    Lengths are in bytes, one character each. */
module Compaction {

  /** A decoded payload; the members of an object in ascending order of their keys. */
  datatype Value =
    | Leaf(text: string)
    | Count(n: nat)
    | Text(s: string)
    | List(items: seq<Value>)
    | Record(members: seq<Member>)

  datatype Member = Member(key: string, value: Value)

  type Positive = n: nat | n > 0 witness 1

  datatype Options = Options(maxDepth: nat, maxKeys: Positive, maxItems: Positive, maxChars: Positive)

  const TRUE := Leaf("true")

  /** What stands for a value below the depth limit. */
  const CUT := Record([Member("truncated", TRUE), Member("reason", Text("max_depth"))])

  /** What stands for the items left out of an array. */
  function Remaining(n: nat): Value {
    Record([Member("truncated", TRUE), Member("remaining_items", Count(n))])
  }

  const TRUNCATED_KEYS := "_truncated_keys"

  function Shorten(s: string, maxChars: Positive): string {
    if |s| <= maxChars then s
    else if maxChars <= 3 then s[..maxChars]
    else s[..maxChars - 3] + "..."
  }

  function Least(a: nat, b: nat): nat {
    if a < b then a else b
  }

  /** A member set in an object. */
  function Put(members: seq<Member>, key: string, value: Value): seq<Member> {
    if members == [] then [Member(key, value)]
    else if members[0].key == key then [Member(key, value)] + members[1..]
    else [members[0]] + Put(members[1..], key, value)
  }

  function Compact(v: Value, depth: nat, o: Options): Value
    decreases v, 0
  {
    if depth >= o.maxDepth then CUT
    else
      match v
      case List(items) => List(Closing(CompactItems(items, Least(o.maxItems, |items|), depth + 1, o), |items|))
      case Record(members) =>
        Record(ClosingMembers(CompactMembers(members, Least(o.maxKeys, |members|), depth + 1, o), |members|))
      case Text(s) => Text(Shorten(s, o.maxChars))
      case _ => v
  }

  function CompactItems(items: seq<Value>, n: nat, depth: nat, o: Options): (r: seq<Value>)
    requires n <= |items|
    ensures |r| == n
    decreases items, n
  {
    if n == 0 then [] else CompactItems(items, n - 1, depth, o) + [Compact(items[n - 1], depth, o)]
  }

  function CompactMembers(members: seq<Member>, n: nat, depth: nat, o: Options): (r: seq<Member>)
    requires n <= |members|
    ensures |r| == n
    decreases members, n
  {
    if n == 0 then []
    else
      CompactMembers(members, n - 1, depth, o)
      + [Member(members[n - 1].key, Compact(members[n - 1].value, depth, o))]
  }

  lemma {:induction false} CompactItemAt(items: seq<Value>, n: nat, depth: nat, o: Options, i: nat)
    requires i < n <= |items|
    ensures CompactItems(items, n, depth, o)[i] == Compact(items[i], depth, o)
  {
    if i < n - 1 { CompactItemAt(items, n - 1, depth, o, i); }
  }

  lemma {:induction false} CompactMemberAt(members: seq<Member>, n: nat, depth: nat, o: Options, i: nat)
    requires i < n <= |members|
    ensures CompactMembers(members, n, depth, o)[i] == Member(members[i].key, Compact(members[i].value, depth, o))
  {
    if i < n - 1 { CompactMemberAt(members, n - 1, depth, o, i); }
  }

  /** The items kept of `total`, with the marker for the others. */
  function Closing(kept: seq<Value>, total: nat): seq<Value> {
    if total > |kept| then kept + [Remaining(total - |kept|)] else kept
  }

  function ClosingMembers(kept: seq<Member>, total: nat): seq<Member> {
    if total > |kept| then Put(kept, TRUNCATED_KEYS, Count(total - |kept|)) else kept
  }

  /** The same with its loops. */
  method CompactValue(v: Value, depth: nat, o: Options) returns (r: Value)
    ensures r == Compact(v, depth, o)
    decreases v
  {
    if depth >= o.maxDepth { return CUT; }
    match v {
      case List(items) =>
        var limit := Least(o.maxItems, |items|);
        var kept := [];
        for i := 0 to limit
          invariant kept == CompactItems(items, i, depth + 1, o)
        {
          var item := CompactValue(items[i], depth + 1, o);
          kept := kept + [item];
        }
        if |items| > limit { kept := kept + [Remaining(|items| - limit)]; }
        return List(kept);
      case Record(members) =>
        var limit := Least(o.maxKeys, |members|);
        var kept := [];
        for i := 0 to limit
          invariant kept == CompactMembers(members, i, depth + 1, o)
        {
          var value := CompactValue(members[i].value, depth + 1, o);
          kept := kept + [Member(members[i].key, value)];
        }
        if |members| > limit { kept := Put(kept, TRUNCATED_KEYS, Count(|members| - limit)); }
        return Record(kept);
      case Text(s) => return Text(Shorten(s, o.maxChars));
      case _ => return v;
    }
  }

  // ----- how many nodes -----

  function Nodes(v: Value): nat
    decreases v
  {
    match v
    case List(items) => 1 + NodesOfItems(items)
    case Record(members) => 1 + NodesOfMembers(members)
    case _ => 1
  }

  function NodesOfItems(items: seq<Value>): nat
    decreases items
  {
    if items == [] then 0 else Nodes(items[0]) + NodesOfItems(items[1..])
  }

  function NodesOfMembers(members: seq<Member>): nat
    decreases members
  {
    if members == [] then 0 else Nodes(members[0].value) + NodesOfMembers(members[1..])
  }

  function Power(b: nat, e: nat): nat {
    if e == 0 then 1 else b * Power(b, e - 1)
  }

  function Breadth(o: Options): nat {
    if o.maxKeys > o.maxItems then o.maxKeys else o.maxItems
  }

  /** The bound with `left` levels to go. */
  function Bound(b: nat, left: nat): nat {
    (3 + 4 * left) * Power(b, left)
  }

  lemma {:induction false} PowerPositive(b: nat, e: nat)
    requires b >= 1
    ensures Power(b, e) >= 1
  {
    if e > 0 { PowerPositive(b, e - 1); }
  }

  lemma Commute(b: nat, c: nat, p: nat)
    ensures b * (c * p) == c * (b * p)
  {
  }

  lemma AtMost(n: nat, b: nat, x: nat)
    requires n <= b
    ensures n * x <= b * x
  {
  }

  /** One level more: its own nodes and `b` times what is below. */
  lemma BoundStep(b: nat, left: nat, n: nat)
    requires b >= 1 && left >= 1 && n <= b
    ensures 4 + n * Bound(b, left - 1) <= Bound(b, left)
  {
    var c, p, q := 4 * left - 1, Power(b, left - 1), Power(b, left);
    PowerPositive(b, left);
    AtMost(n, b, c * p);
    Commute(b, c, p);
    assert Bound(b, left - 1) == c * p;
    assert Bound(b, left) == (c + 4) * q == c * q + 4 * q;
  }

  lemma {:induction false} ItemsBounded(items: seq<Value>, bound: nat)
    requires forall i :: 0 <= i < |items| ==> Nodes(items[i]) <= bound
    ensures NodesOfItems(items) <= |items| * bound
  {
    if items != [] {
      ItemsBounded(items[1..], bound);
      assert |items| * bound == bound + (|items| - 1) * bound;
    }
  }

  lemma {:induction false} MembersBounded(members: seq<Member>, bound: nat)
    requires forall i :: 0 <= i < |members| ==> Nodes(members[i].value) <= bound
    ensures NodesOfMembers(members) <= |members| * bound
  {
    if members != [] {
      MembersBounded(members[1..], bound);
      assert |members| * bound == bound + (|members| - 1) * bound;
    }
  }

  lemma {:induction false} ItemsAppend(items: seq<Value>, v: Value)
    ensures NodesOfItems(items + [v]) == NodesOfItems(items) + Nodes(v)
  {
    if items == [] {
      assert [v][1..] == [];
    } else {
      ItemsAppend(items[1..], v);
      assert (items + [v])[1..] == items[1..] + [v];
    }
  }

  lemma {:induction false} PutAddsOne(members: seq<Member>, key: string, n: nat)
    ensures NodesOfMembers(Put(members, key, Count(n))) <= NodesOfMembers(members) + 1
  {
    if members == [] {
      assert [Member(key, Count(n))][1..] == [];
    } else if members[0].key == key {
      assert ([Member(key, Count(n))] + members[1..])[1..] == members[1..];
    } else {
      PutAddsOne(members[1..], key, n);
      assert ([members[0]] + Put(members[1..], key, Count(n)))[1..] == Put(members[1..], key, Count(n));
    }
  }

  lemma ItemsCompactBounded(items: seq<Value>, limit: nat, bound: nat)
    requires forall i :: 0 <= i < |items| ==> Nodes(items[i]) <= bound
    ensures Nodes(List(Closing(items, limit))) <= 4 + |items| * bound
  {
    ItemsBounded(items, bound);
    if limit > |items| {
      ItemsAppend(items, Remaining(limit - |items|));
      MarkerNodes(limit - |items|);
    }
  }

  lemma TwoMembers(a: Member, b: Member)
    ensures NodesOfMembers([a, b]) == Nodes(a.value) + Nodes(b.value)
  {
    assert [a, b][1..] == [b] && [b][1..] == [];
    assert NodesOfMembers([b]) == Nodes(b.value) + NodesOfMembers([b][1..]);
  }

  lemma MarkerNodes(n: nat)
    ensures Nodes(Remaining(n)) == 3 && Nodes(CUT) == 3
  {
    TwoMembers(Member("truncated", TRUE), Member("remaining_items", Count(n)));
    TwoMembers(Member("truncated", TRUE), Member("reason", Text("max_depth")));
  }

  lemma MembersCompactBounded(members: seq<Member>, limit: nat, bound: nat)
    requires forall i :: 0 <= i < |members| ==> Nodes(members[i].value) <= bound
    ensures Nodes(Record(ClosingMembers(members, limit))) <= 4 + |members| * bound
  {
    MembersBounded(members, bound);
    if limit > |members| { PutAddsOne(members, TRUNCATED_KEYS, limit - |members|); }
  }

  /** Whatever the payload, the result has a bounded number of nodes. */
  lemma {:induction false} CompactIsSmall(v: Value, depth: nat, o: Options)
    requires depth <= o.maxDepth
    ensures Nodes(Compact(v, depth, o)) <= Bound(Breadth(o), o.maxDepth - depth)
    decreases v
  {
    var b, left := Breadth(o), o.maxDepth - depth;
    if left == 0 {
      MarkerNodes(0);
    } else {
      var bound := Bound(b, left - 1);
      BoundStep(b, left, 0);
      match v
      case List(items) =>
        var limit := Least(o.maxItems, |items|);
        var kept := CompactItems(items, limit, depth + 1, o);
        forall i | 0 <= i < limit ensures Nodes(kept[i]) <= bound {
          CompactItemAt(items, limit, depth + 1, o, i);
          CompactIsSmall(items[i], depth + 1, o);
        }
        ItemsCompactBounded(kept, |items|, bound);
        BoundStep(b, left, limit);
      case Record(members) =>
        var limit := Least(o.maxKeys, |members|);
        var kept := CompactMembers(members, limit, depth + 1, o);
        forall i | 0 <= i < limit ensures Nodes(kept[i].value) <= bound {
          CompactMemberAt(members, limit, depth + 1, o, i);
          CompactIsSmall(members[i].value, depth + 1, o);
        }
        MembersCompactBounded(kept, |members|, bound);
        BoundStep(b, left, limit);
      case _ =>
    }
  }

  // ----- how long the strings -----

  predicate StringsWithin(v: Value, n: nat)
    decreases v
  {
    match v
    case Text(s) => |s| <= n
    case List(items) => forall i :: 0 <= i < |items| ==> StringsWithin(items[i], n)
    case Record(members) => forall i :: 0 <= i < |members| ==> StringsWithin(members[i].value, n)
    case _ => true
  }

  lemma {:induction false} PutStaysWithin(members: seq<Member>, key: string, v: Value, n: nat)
    requires StringsWithin(Record(members), n) && StringsWithin(v, n)
    ensures StringsWithin(Record(Put(members, key, v)), n)
  {
    if members != [] && members[0].key != key {
      PutStaysWithin(members[1..], key, v, n);
    }
  }

  /** No string value is longer than the limit, or than "max_depth". */
  lemma {:induction false} StringsAreShort(v: Value, depth: nat, o: Options)
    ensures StringsWithin(Compact(v, depth, o), if o.maxChars > 9 then o.maxChars else 9)
    decreases v
  {
    var n := if o.maxChars > 9 then o.maxChars else 9;
    if depth < o.maxDepth {
      match v
      case List(items) =>
        var limit := Least(o.maxItems, |items|);
        var kept := CompactItems(items, limit, depth + 1, o);
        forall i | 0 <= i < limit ensures StringsWithin(kept[i], n) {
          CompactItemAt(items, limit, depth + 1, o, i);
          StringsAreShort(items[i], depth + 1, o);
        }
      case Record(members) =>
        var limit := Least(o.maxKeys, |members|);
        var kept := CompactMembers(members, limit, depth + 1, o);
        forall i | 0 <= i < limit ensures StringsWithin(kept[i].value, n) {
          CompactMemberAt(members, limit, depth + 1, o, i);
          StringsAreShort(members[i].value, depth + 1, o);
        }
        PutStaysWithin(kept, TRUNCATED_KEYS, Count(|members| - limit), n);
      case _ =>
    }
  }

  // ----- what is kept -----

  /** `s` shortened to `n` bytes: itself when it fits, else a prefix, marked when there is room. */
  predicate ShortFor(r: string, s: string, n: nat) {
    && (|s| <= n ==> r == s)
    && (|s| > n ==> |r| == n && (if n <= 3 then r <= s else r[..n - 3] <= s && r[n - 3..] == "..."))
  }

  /** The first member with that key, or the end. */
  function KeyPlace(members: seq<Member>, key: string): (p: nat)
    ensures p <= |members| && (p < |members| ==> members[p].key == key)
  {
    if members == [] || members[0].key == key then 0 else 1 + KeyPlace(members[1..], key)
  }

  /** Where the marker of an object over the limit goes: the place of a kept member of that
      key, or the end. */
  function MarkerPlace(members: seq<Member>, limit: nat): (p: nat)
    requires limit <= |members|
    ensures p <= limit
  {
    KeyPlace(members[..limit], TRUNCATED_KEYS)
  }

  /** The marker that stands for `n` items. */
  predicate IsRest(v: Value, n: nat) {
    v == Record([Member("truncated", Leaf("true")), Member("remaining_items", Count(n))])
  }

  /** `r` abridges `v`: level by level a prefix of the items, whose kept and remaining
      numbers add up, and the first members under their own keys, with nothing else but the
      marker of an object over the limit. */
  predicate Abridges(r: Value, v: Value, left: nat, o: Options)
    decreases v
  {
    if left == 0 then r == Record([Member("truncated", Leaf("true")), Member("reason", Text("max_depth"))])
    else
      match v
      case List(items) =>
        && r.List?
        && (if |items| <= o.maxItems then |r.items| == |items|
            else |r.items| == o.maxItems + 1 && IsRest(r.items[o.maxItems], |items| - o.maxItems))
        && (forall i :: 0 <= i < |items| && i < o.maxItems ==> Abridges(r.items[i], items[i], left - 1, o))
      case Record(members) =>
        var n := Least(o.maxKeys, |members|);
        var p := if |members| <= o.maxKeys then |members| else MarkerPlace(members, n);
        && r.Record? && |r.members| == (if |members| > o.maxKeys && p == n then n + 1 else n)
        && (|members| > o.maxKeys ==> r.members[p] == Member("_truncated_keys", Count(|members| - o.maxKeys)))
        && (forall i :: 0 <= i < n && i != p ==>
              r.members[i].key == members[i].key && Abridges(r.members[i].value, members[i].value, left - 1, o))
      case Text(s) => r.Text? && ShortFor(r.s, s, o.maxChars)
      case _ => r == v
  }

  lemma {:induction false} PutAt(members: seq<Member>, key: string, v: Value)
    ensures var p := KeyPlace(members, key);
            Put(members, key, v) == if p == |members| then members + [Member(key, v)] else members[p := Member(key, v)]
  {
    var p, m := KeyPlace(members, key), Member(key, v);
    if members != [] && members[0].key == key {
      assert members[0 := m] == [m] + members[1..];
    } else if members != [] {
      var rest := members[1..];
      PutAt(rest, key, v);
      assert members == [members[0]] + rest;
      if p == |members| {
        assert members + [m] == [members[0]] + (rest + [m]);
      } else {
        assert members[p := m] == [members[0]] + rest[p - 1 := m];
      }
    }
  }

  lemma {:induction false} SameKeysSamePlace(a: seq<Member>, b: seq<Member>, key: string)
    requires |a| == |b| && forall i :: 0 <= i < |a| ==> a[i].key == b[i].key
    ensures KeyPlace(a, key) == KeyPlace(b, key)
  {
    if a != [] { SameKeysSamePlace(a[1..], b[1..], key); }
  }

  lemma ShortenedIsShort(s: string, n: Positive)
    ensures ShortFor(Shorten(s, n), s, n)
  {
  }

  lemma ItemsAbridged(items: seq<Value>, kept: seq<Value>, left: nat, o: Options)
    requires left > 0 && |kept| == Least(o.maxItems, |items|)
    requires forall i :: 0 <= i < |kept| ==> Abridges(kept[i], items[i], left - 1, o)
    ensures Abridges(List(Closing(kept, |items|)), List(items), left, o)
  {
  }

  lemma MembersAbridged(members: seq<Member>, kept: seq<Member>, left: nat, o: Options)
    requires left > 0 && |kept| == Least(o.maxKeys, |members|)
    requires forall i :: 0 <= i < |kept| ==>
               kept[i].key == members[i].key && Abridges(kept[i].value, members[i].value, left - 1, o)
    ensures Abridges(Record(ClosingMembers(kept, |members|)), Record(members), left, o)
  {
    PutAt(kept, TRUNCATED_KEYS, Count(|members| - |kept|));
    SameKeysSamePlace(kept, members[..|kept|], TRUNCATED_KEYS);
  }

  /** The result abridges the payload: nothing is changed but what is over a limit, and
      the counts of what was left out are right. */
  lemma {:induction false} CompactAbridges(v: Value, depth: nat, o: Options)
    requires depth <= o.maxDepth
    ensures Abridges(Compact(v, depth, o), v, o.maxDepth - depth, o)
    decreases v, 1
  {
    if depth < o.maxDepth {
      match v
      case List(items) => ListAbridged(v, depth, o);
      case Record(members) => RecordAbridged(v, depth, o);
      case Text(s) => ShortenedIsShort(s, o.maxChars);
      case _ =>
    }
  }

  lemma {:induction false} ListAbridged(v: Value, depth: nat, o: Options)
    requires depth < o.maxDepth && v.List?
    ensures Abridges(Compact(v, depth, o), v, o.maxDepth - depth, o)
    decreases v, 0
  {
    var limit := Least(o.maxItems, |v.items|);
    var kept := CompactItems(v.items, limit, depth + 1, o);
    forall i | 0 <= i < limit ensures Abridges(kept[i], v.items[i], o.maxDepth - depth - 1, o) {
      CompactItemAt(v.items, limit, depth + 1, o, i);
      CompactAbridges(v.items[i], depth + 1, o);
    }
    ItemsAbridged(v.items, kept, o.maxDepth - depth, o);
  }

  lemma {:induction false} RecordAbridged(v: Value, depth: nat, o: Options)
    requires depth < o.maxDepth && v.Record?
    ensures Abridges(Compact(v, depth, o), v, o.maxDepth - depth, o)
    decreases v, 0
  {
    var limit := Least(o.maxKeys, |v.members|);
    var kept := CompactMembers(v.members, limit, depth + 1, o);
    forall i | 0 <= i < limit
      ensures kept[i].key == v.members[i].key && Abridges(kept[i].value, v.members[i].value, o.maxDepth - depth - 1, o)
    {
      CompactMemberAt(v.members, limit, depth + 1, o, i);
      CompactAbridges(v.members[i].value, depth + 1, o);
    }
    MembersAbridged(v.members, kept, o.maxDepth - depth, o);
  }
}
