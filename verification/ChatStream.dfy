/** The chat-completion accumulator: content and tool calls put together from chunks,
    whatever way they were split and interleaved.  Chunks are decoded: identifiers,
    types and names are trimmed, "" when missing; a fragment without index has index 0. */
module ChatStream {
  import Sorting

  datatype Fragment = Fragment(index: int, id: string, kind: string, name: string, arguments: string)

  /** The delta of one choice of one chunk. */
  datatype Delta = Delta(content: string, fragments: seq<Fragment>)

  datatype Call = Call(id: string, kind: string, name: string, arguments: string)

  const BLANK := Call("", "function", "", "")

  function Or(a: string, b: string): string {
    if a != "" then a else b
  }

  /** A call with one more fragment. */
  function Extend(c: Call, f: Fragment): Call {
    Call(Or(f.id, c.id), Or(f.kind, c.kind), Or(f.name, c.name), c.arguments + f.arguments)
  }

  // ----- what a stream is about -----

  function Content(deltas: seq<Delta>): string {
    if deltas == [] then "" else Content(deltas[..|deltas| - 1]) + deltas[|deltas| - 1].content
  }

  /** All fragments, in order. */
  function Fragments(deltas: seq<Delta>): seq<Fragment> {
    if deltas == [] then [] else Fragments(deltas[..|deltas| - 1]) + deltas[|deltas| - 1].fragments
  }

  /** The fragments of one index, in order. */
  function Own(fragments: seq<Fragment>, index: int): seq<Fragment> {
    if fragments == [] then []
    else
      var f := fragments[|fragments| - 1];
      Own(fragments[..|fragments| - 1], index) + (if f.index == index then [f] else [])
  }

  /** The call a sequence of fragments spells. */
  function Spelled(own: seq<Fragment>): Call {
    if own == [] then BLANK else Extend(Spelled(own[..|own| - 1]), own[|own| - 1])
  }

  function Indices(fragments: seq<Fragment>): set<int> {
    set f | f in fragments :: f.index
  }

  /** The calls of a stream, by index. */
  function CallsOf(fragments: seq<Fragment>): map<int, Call> {
    map i | i in Indices(fragments) :: Spelled(Own(fragments, i))
  }

  lemma OwnSnoc(fragments: seq<Fragment>, f: Fragment, i: int)
    ensures Spelled(Own(fragments + [f], i))
         == if i == f.index then Extend(Spelled(Own(fragments, i)), f) else Spelled(Own(fragments, i))
  {
    assert (fragments + [f])[..|fragments|] == fragments;
    var own := Own(fragments, i);
    if i == f.index { assert (own + [f])[..|own|] == own; } else { assert own + [] == own; }
  }

  lemma IndicesSnoc(fragments: seq<Fragment>, f: Fragment)
    ensures Indices(fragments + [f]) == Indices(fragments) + {f.index}
  {
    forall i ensures i in Indices(fragments + [f]) <==> i in Indices(fragments) + {f.index} {
      if i in Indices(fragments) {
        var g :| g in fragments && g.index == i;
        assert g in fragments + [f];
      }
      assert f in fragments + [f];
    }
  }

  /** A call with one more fragment, among the others. */
  function Touch(calls: map<int, Call>, f: Fragment): map<int, Call> {
    calls[f.index := Extend(if f.index in calls then calls[f.index] else BLANK, f)]
  }

  lemma CallSnoc(fragments: seq<Fragment>, f: Fragment, i: int)
    requires i in Indices(fragments) || i == f.index
    ensures Spelled(Own(fragments + [f], i)) == Touch(CallsOf(fragments), f)[i]
  {
    OwnSnoc(fragments, f, i);
    if f.index !in Indices(fragments) { NoneOwned(fragments, f.index); }
  }

  /** One fragment touches the call of its index and no other, so the order in which
      different calls are interleaved is lost. */
  lemma CallsSnoc(fragments: seq<Fragment>, f: Fragment)
    ensures CallsOf(fragments + [f]) == Touch(CallsOf(fragments), f)
  {
    var after, touched := CallsOf(fragments + [f]), Touch(CallsOf(fragments), f);
    IndicesSnoc(fragments, f);
    assert after.Keys == touched.Keys;
    forall i | i in after ensures after[i] == touched[i] { CallSnoc(fragments, f, i); }
  }

  /** What absorbing the fragments one by one leaves. */
  function Absorbed(fragments: seq<Fragment>): map<int, Call> {
    if fragments == [] then map[]
    else Touch(Absorbed(fragments[..|fragments| - 1]), fragments[|fragments| - 1])
  }

  /** Each index ends up with the call its own fragments spell, whatever came between
      them, and no other index is known. */
  lemma {:induction false} ChunksAreReassembled(fragments: seq<Fragment>)
    ensures Absorbed(fragments) == CallsOf(fragments)
  {
    if fragments == [] {
      assert CallsOf([]) == map[];
    } else {
      var rest, f := fragments[..|fragments| - 1], fragments[|fragments| - 1];
      assert rest + [f] == fragments;
      ChunksAreReassembled(rest);
      CallsSnoc(rest, f);
    }
  }

  lemma AbsorbedSnoc(before: seq<Fragment>, fragments: seq<Fragment>, i: nat)
    requires i < |fragments|
    ensures Absorbed(before + fragments[..i + 1]) == Touch(Absorbed(before + fragments[..i]), fragments[i])
  {
    var all := before + fragments[..i + 1];
    assert all[..|all| - 1] == before + fragments[..i];
  }

  lemma {:induction false} NoneOwned(fragments: seq<Fragment>, index: int)
    requires index !in Indices(fragments)
    ensures Own(fragments, index) == []
  {
    if fragments != [] {
      var rest := fragments[..|fragments| - 1];
      assert fragments[|fragments| - 1] in fragments;
      assert forall f :: f in rest ==> f in fragments;
      NoneOwned(rest, index);
    }
  }

  function Joined(own: seq<Fragment>): string {
    if own == [] then "" else Joined(own[..|own| - 1]) + own[|own| - 1].arguments
  }

  /** A call named in its first fragment keeps its names, and has the arguments of
      all its fragments joined in order. */
  lemma {:induction false} SplitCallIsJoined(own: seq<Fragment>)
    requires own != [] && forall i :: 1 <= i < |own| ==> own[i].id == own[i].kind == own[i].name == ""
    ensures Spelled(own) == Call(own[0].id, Or(own[0].kind, "function"), own[0].name, Joined(own))
  {
    var rest, f := own[..|own| - 1], own[|own| - 1];
    if rest == [] {
      assert Joined([]) + f.arguments == f.arguments;
    } else {
      SplitCallIsJoined(rest);
    }
  }

  /** Two streams whose calls have the same fragments, index by index, come out alike. */
  lemma InterleavingIsLost(a: seq<Fragment>, b: seq<Fragment>)
    requires forall i :: Own(a, i) == Own(b, i)
    ensures CallsOf(a) == CallsOf(b)
  {
    forall i ensures i in Indices(a) <==> i in Indices(b) {
      OwnedIffMentioned(a, i);
      OwnedIffMentioned(b, i);
    }
  }

  lemma {:induction false} OwnedIffMentioned(fragments: seq<Fragment>, index: int)
    ensures index in Indices(fragments) <==> Own(fragments, index) != []
  {
    if fragments != [] {
      var n := |fragments| - 1;
      OwnedIffMentioned(fragments[..n], index);
      assert fragments == fragments[..n] + [fragments[n]];
      assert Indices(fragments) == Indices(fragments[..n]) + {fragments[n].index};
    }
  }

  // ----- ascending indices -----

  predicate Ascending(xs: seq<int>) {
    forall i, j :: 0 <= i < j < |xs| ==> xs[i] < xs[j]
  }

  /** The order of the indices as a function value. */
  function Below(): (int, int) -> bool {
    (a: int, b: int) => a < b
  }

  lemma AscendingUnique(xs: seq<int>, ys: seq<int>)
    requires Ascending(xs) && Ascending(ys) && forall k :: k in xs <==> k in ys
    ensures xs == ys
  {
    forall i | 0 <= i < |xs| ensures xs[i] in ys { assert xs[i] in xs; }
    forall i | 0 <= i < |ys| ensures ys[i] in xs { assert ys[i] in ys; }
    Sorting.Unique(Below(), xs, ys);
  }

  function InsertInt(xs: seq<int>, key: int): (r: seq<int>)
    requires Ascending(xs) && key !in xs
    ensures Ascending(r) && forall k :: k in r <==> k in xs || k == key
  {
    ghost var keys := set k | k in xs + [key];
    assert Sorting.Orders(Below(), keys);
    Sorting.Insert(Below(), xs, key, keys)
  }

  lemma EmptyOrNot(keys: set<int>)
    ensures keys == {} || exists k :: k in keys
  {
    if forall k: int :: k !in keys { assert keys == {}; }
  }

  /** The integers of a set in ascending order. */
  ghost function Sorted(keys: set<int>): (r: seq<int>)
    ensures Ascending(r) && forall k :: k in r <==> k in keys
  {
    EmptyOrNot(keys);
    if keys == {} then []
    else
      var k :| k in keys;
      InsertInt(Sorted(keys - {k}), k)
  }

  method SortInts(keys: set<int>) returns (sorted: seq<int>)
    ensures sorted == Sorted(keys)
  {
    sorted := [];
    var rest := keys;
    while rest != {}
      invariant rest <= keys && Ascending(sorted)
      invariant forall k :: k in sorted <==> k in keys && k !in rest
    {
      EmptyOrNot(rest);
      var key :| key in rest;
      sorted := InsertInt(sorted, key);
      rest := rest - {key};
    }
    AscendingUnique(sorted, Sorted(keys));
  }

  lemma SortedAllIn(calls: map<int, Call>)
    ensures AllIn(Sorted(calls.Keys), calls)
  {
    forall n | 0 <= n < |Sorted(calls.Keys)| ensures Sorted(calls.Keys)[n] in calls {
      assert Sorted(calls.Keys)[n] in Sorted(calls.Keys);
    }
  }

  predicate AllIn(indices: seq<int>, calls: map<int, Call>) {
    forall n :: 0 <= n < |indices| ==> indices[n] in calls
  }

  /** The n-th tool call of the final response; a missing id is made up. */
  function Entry(c: Call, n: nat, madeUp: nat -> string): Call {
    Call(Or(c.id, madeUp(n)), Or(c.kind, "function"), c.name, c.arguments)
  }

  function Entries(indices: seq<int>, calls: map<int, Call>, madeUp: nat -> string): seq<Call>
    requires AllIn(indices, calls)
  {
    seq(|indices|, n requires 0 <= n < |indices| => Entry(calls[indices[n]], n, madeUp))
  }

  /** The tool calls of the final response: in strictly ascending index. */
  ghost function FinalCalls(calls: map<int, Call>, madeUp: nat -> string): seq<Call> {
    SortedAllIn(calls);
    Entries(Sorted(calls.Keys), calls, madeUp)
  }

  method BuildEntries(indices: seq<int>, calls: map<int, Call>, madeUp: nat -> string) returns (entries: seq<Call>)
    requires AllIn(indices, calls)
    ensures entries == Entries(indices, calls, madeUp)
  {
    entries := [];
    for n := 0 to |indices|
      invariant |entries| == n && forall k :: 0 <= k < n ==> entries[k] == Entry(calls[indices[k]], k, madeUp)
    {
      entries := entries + [Entry(calls[indices[n]], n, madeUp)];
    }
  }

  // ----- what is listed -----

  /** The last value that is not empty, or `otherwise` when all are. */
  predicate LastOr(values: seq<string>, otherwise: string, v: string) {
    || (v == otherwise && forall i :: 0 <= i < |values| ==> values[i] == "")
    || exists i :: 0 <= i < |values| && values[i] == v != "" && forall j :: i < j < |values| ==> values[j] == ""
  }

  lemma LastSnoc(values: seq<string>, otherwise: string, v: string, x: string)
    requires LastOr(values, otherwise, v)
    ensures LastOr(values + [x], otherwise, if x != "" then x else v)
  {
    var longer := values + [x];
    if x != "" {
      assert longer[|values|] == x;
    } else if exists i :: 0 <= i < |values| && values[i] == v != ""
                          && forall j :: i < j < |values| ==> values[j] == "" {
      var i :| 0 <= i < |values| && values[i] == v != "" && forall j :: i < j < |values| ==> values[j] == "";
      assert longer[i] == v;
    }
  }

  function Ids(own: seq<Fragment>): seq<string> {
    seq(|own|, i requires 0 <= i < |own| => own[i].id)
  }

  function Kinds(own: seq<Fragment>): seq<string> {
    seq(|own|, i requires 0 <= i < |own| => own[i].kind)
  }

  function CallNames(own: seq<Fragment>): seq<string> {
    seq(|own|, i requires 0 <= i < |own| => own[i].name)
  }

  /** A call put together from its own fragments: the last of each name given, and the
      arguments joined in order. */
  predicate PutTogether(own: seq<Fragment>, noId: string, c: Call) {
    && LastOr(Ids(own), noId, c.id) && LastOr(Kinds(own), "function", c.kind) && LastOr(CallNames(own), "", c.name)
    && c.arguments == Joined(own)
  }

  lemma {:induction false} SpelledPutsTogether(own: seq<Fragment>)
    ensures PutTogether(own, "", Spelled(own))
  {
    if own != [] {
      var rest, f := own[..|own| - 1], own[|own| - 1];
      SpelledPutsTogether(rest);
      var c := Spelled(rest);
      LastSnoc(Ids(rest), "", c.id, f.id);
      LastSnoc(Kinds(rest), "function", c.kind, f.kind);
      LastSnoc(CallNames(rest), "", c.name, f.name);
      assert Ids(own) == Ids(rest) + [f.id] && Kinds(own) == Kinds(rest) + [f.kind];
      assert CallNames(own) == CallNames(rest) + [f.name];
    }
  }

  /** The fragments at the places `at`, which are all those of an index, in order. */
  ghost predicate Selects(fragments: seq<Fragment>, index: int, own: seq<Fragment>, at: seq<nat>) {
    && |at| == |own| && Ascending(at)
    && (forall k :: 0 <= k < |at| ==> at[k] < |fragments| && own[k] == fragments[at[k]] && own[k].index == index)
    && (forall j :: 0 <= j < |fragments| && fragments[j].index == index ==> j in at)
  }

  /** An index owns exactly its fragments, in their order. */
  lemma {:induction false} OwnSelects(fragments: seq<Fragment>, index: int) returns (at: seq<nat>)
    ensures Selects(fragments, index, Own(fragments, index), at)
  {
    at := [];
    if fragments != [] {
      var n := |fragments| - 1;
      at := OwnSelects(fragments[..n], index);
      if fragments[n].index == index { at := at + [n]; }
      assert forall j :: 0 <= j < n ==> fragments[j] == fragments[..n][j];
    }
  }

  /** Content, fragments and arguments are joined in their order. */
  lemma {:induction false} ContentJoins(a: seq<Delta>, b: seq<Delta>)
    ensures Content(a + b) == Content(a) + Content(b)
  {
    if b == [] {
      assert a + b == a;
    } else {
      var rest := b[..|b| - 1];
      assert (a + b)[..|a + b| - 1] == a + rest;
      ContentJoins(a, rest);
    }
  }

  lemma {:induction false} FragmentsJoin(a: seq<Delta>, b: seq<Delta>)
    ensures Fragments(a + b) == Fragments(a) + Fragments(b)
  {
    if b == [] {
      assert a + b == a;
    } else {
      var rest := b[..|b| - 1];
      assert (a + b)[..|a + b| - 1] == a + rest;
      FragmentsJoin(a, rest);
    }
  }

  lemma {:induction false} ArgumentsJoin(a: seq<Fragment>, b: seq<Fragment>)
    ensures Joined(a + b) == Joined(a) + Joined(b)
  {
    if b == [] {
      assert a + b == a;
    } else {
      var rest := b[..|b| - 1];
      assert (a + b)[..|a + b| - 1] == a + rest;
      ArgumentsJoin(a, rest);
    }
  }

  lemma OneAlone(d: Delta, f: Fragment)
    ensures Content([d]) == d.content && Fragments([d]) == d.fragments && Joined([f]) == f.arguments
  {
    assert [d][..0] == [] && [f][..0] == [];
    assert Content([]) + d.content == d.content && Fragments([]) + d.fragments == d.fragments;
  }

  predicate Mentioned(fragments: seq<Fragment>, index: int) {
    exists f :: f in fragments && f.index == index
  }

  /** One entry for each index mentioned, the n-th for the n-th smallest, put together from the
      fragments of that index; only a missing id is made up. */
  ghost predicate Listed(fragments: seq<Fragment>, madeUp: nat -> string, entries: seq<Call>) {
    exists indices: seq<int> ::
      && Ascending(indices) && (forall i :: i in indices <==> Mentioned(fragments, i))
      && |entries| == |indices|
      && forall n :: 0 <= n < |entries| ==> PutTogether(Own(fragments, indices[n]), madeUp(n), entries[n])
  }

  lemma EntryPutsTogether(own: seq<Fragment>, n: nat, madeUp: nat -> string)
    ensures PutTogether(own, madeUp(n), Entry(Spelled(own), n, madeUp))
  {
    SpelledPutsTogether(own);
  }

  lemma SortedAreMentioned(fragments: seq<Fragment>)
    ensures forall i :: i in Sorted(CallsOf(fragments).Keys) <==> Mentioned(fragments, i)
  {
  }

  lemma EntriesPutTogether(fragments: seq<Fragment>, indices: seq<int>, madeUp: nat -> string, n: nat)
    requires AllIn(indices, CallsOf(fragments)) && n < |indices|
    ensures PutTogether(Own(fragments, indices[n]), madeUp(n), Entries(indices, CallsOf(fragments), madeUp)[n])
  {
    EntryPutsTogether(Own(fragments, indices[n]), n, madeUp);
  }

  /** The final list, told by the fragments alone. */
  lemma FinalCallsListed(fragments: seq<Fragment>, madeUp: nat -> string)
    ensures Listed(fragments, madeUp, FinalCalls(CallsOf(fragments), madeUp))
  {
    var calls := CallsOf(fragments);
    var indices, entries := Sorted(calls.Keys), FinalCalls(calls, madeUp);
    SortedAllIn(calls);
    SortedAreMentioned(fragments);
    forall n | 0 <= n < |entries| ensures PutTogether(Own(fragments, indices[n]), madeUp(n), entries[n]) {
      EntriesPutTogether(fragments, indices, madeUp, n);
    }
  }

  // ----- the accumulator -----

  class Accumulator {
    var content: string
    var calls: map<int, Call>

    constructor ()
      ensures content == "" && calls == map[]
    {
      content, calls := "", map[];
    }

    method AbsorbFragment(f: Fragment)
      modifies `calls
      ensures calls == Touch(old(calls), f)
    {
      var c := if f.index in calls then calls[f.index] else BLANK;
      if f.id != "" { c := c.(id := f.id); }
      if f.kind != "" { c := c.(kind := f.kind); }
      if f.name != "" { c := c.(name := f.name); }
      c := c.(arguments := c.arguments + f.arguments);
      calls := calls[f.index := c];
    }

    /** The fragments of a delta; `before` those absorbed so far. */
    method AbsorbFragments(fragments: seq<Fragment>, ghost before: seq<Fragment>)
      requires calls == Absorbed(before)
      modifies `calls
      ensures calls == Absorbed(before + fragments)
    {
      assert before + fragments[..0] == before;
      for i := 0 to |fragments|
        invariant calls == Absorbed(before + fragments[..i])
      {
        AbsorbedSnoc(before, fragments, i);
        AbsorbFragment(fragments[i]);
      }
      assert fragments[..|fragments|] == fragments;
    }

    /** One delta; `before` what was absorbed so far. */
    method Absorb(delta: Delta, ghost before: seq<Delta>)
      requires content == Content(before) && calls == Absorbed(Fragments(before))
      modifies this
      ensures content == Content(before + [delta]) && calls == Absorbed(Fragments(before + [delta]))
    {
      assert (before + [delta])[..|before|] == before;
      content := content + delta.content;
      AbsorbFragments(delta.fragments, Fragments(before));
    }

    /** The tool calls in ascending index. */
    method FinalToolCalls(madeUp: nat -> string) returns (entries: seq<Call>)
      ensures entries == FinalCalls(calls, madeUp)
    {
      var sorted := SortInts(calls.Keys);
      SortedAllIn(calls);
      entries := BuildEntries(sorted, calls, madeUp);
    }
  }

  /** A whole stream: the content joined, and the calls in ascending index, each
      with the arguments its own fragments spell. */
  method Reassemble(deltas: seq<Delta>, madeUp: nat -> string) returns (content: string, entries: seq<Call>)
    ensures content == Content(deltas) && entries == FinalCalls(CallsOf(Fragments(deltas)), madeUp)
    ensures Listed(Fragments(deltas), madeUp, entries)
  {
    var a := new Accumulator();
    for i := 0 to |deltas|
      invariant fresh(a) && a.content == Content(deltas[..i]) && a.calls == Absorbed(Fragments(deltas[..i]))
    {
      assert deltas[..i] + [deltas[i]] == deltas[..i + 1];
      a.Absorb(deltas[i], deltas[..i]);
    }
    assert deltas[..|deltas|] == deltas;
    ChunksAreReassembled(Fragments(deltas));
    content := a.content;
    entries := a.FinalToolCalls(madeUp);
    FinalCallsListed(Fragments(deltas), madeUp);
  }
}
