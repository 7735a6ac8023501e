/** Which call each event of a Responses stream speaks of, and the theorem that the accumulator puts
    every call together from its own events, whichever of its names they carry. */
module ResponsesCalls {
  import opened Wrappers
  import opened ResponsesStream

  predicate Speaks(e: Event) {
    match e
    case Added(_, item) => item.Some? && item.value.isCall
    case Delta(_, delta) => delta != ""
    case Done(_, arguments) => arguments != ""
    case _ => false
  }

  /** The names an event carries; those of an item come before those beside it. */
  function NamesOf(e: Event): Place
    requires Speaks(e)
  {
    match e
    case Added(p, Some(item)) =>
      Place(if item.id == "" then p.itemId else item.id, if item.callId == "" then p.callId else item.callId, p.index)
    case Delta(p, _) => p
    case Done(p, _) => p
  }

  predicate Nameless(p: Place) {
    p == Place("", "", None)
  }

  /** An event, and the number of the call it speaks of, in the order in which they come up. */
  datatype Labelled = Labelled(event: Event, call: nat)

  function EventsOf(stream: seq<Labelled>): seq<Event> {
    seq(|stream|, i requires 0 <= i < |stream| => stream[i].event)
  }

  /** The events of one call, in order. */
  function Own(stream: seq<Labelled>, call: nat): seq<Event> {
    if stream == [] then []
    else
      var last := stream[|stream| - 1];
      Own(stream[..|stream| - 1], call) + (if Speaks(last.event) && last.call == call then [last.event] else [])
  }

  /** How many calls have come up. */
  function Heard(stream: seq<Labelled>): nat {
    if stream == [] then 0
    else
      var before, last := Heard(stream[..|stream| - 1]), stream[|stream| - 1];
      if Speaks(last.event) && last.call >= before then before + 1 else before
  }

  /** The call spoken of last. */
  function Latest(stream: seq<Labelled>): Option<nat> {
    if stream == [] then None
    else if Speaks(stream[|stream| - 1].event) then Some(stream[|stream| - 1].call)
    else Latest(stream[..|stream| - 1])
  }

  // ----- by which names a call is known -----

  /** The first event of a call makes all its names known, and every item its own. */
  predicate GivesItem(e: Event, first: bool, id: string) {
    Speaks(e) && ((first && NamesOf(e).itemId == id) || (e.Added? && e.item.value.id == id))
  }

  predicate GivesCall(e: Event, first: bool, id: string) {
    Speaks(e) && ((first && NamesOf(e).callId == id) || (e.Added? && e.item.value.callId == id))
  }

  predicate GivesIndex(e: Event, first: bool, k: int) {
    Speaks(e) && first && NamesOf(e).index == Some(k)
  }

  predicate KnownByItem(own: seq<Event>, id: string) {
    id != "" && exists i :: 0 <= i < |own| && GivesItem(own[i], i == 0, id)
  }

  predicate KnownByCall(own: seq<Event>, id: string) {
    id != "" && exists i :: 0 <= i < |own| && GivesCall(own[i], i == 0, id)
  }

  predicate KnownByIndex(own: seq<Event>, k: int) {
    own != [] && GivesIndex(own[0], true, k)
  }

  /** The call is known by one of the names. */
  predicate Known(own: seq<Event>, p: Place) {
    || KnownByItem(own, p.itemId) || KnownByCall(own, p.callId)
    || (p.index.Some? && KnownByIndex(own, p.index.value))
  }

  /** The event speaks of the call: the last one spoken of when it names none, else the only one
      that is known by a name it carries, else a new one. */
  predicate SpeaksOf(stream: seq<Labelled>, e: Event, call: nat)
    requires Speaks(e)
  {
    var p := NamesOf(e);
    if Nameless(p) then call == (if Latest(stream).Some? then Latest(stream).value else Heard(stream))
    else call <= Heard(stream) && forall n: nat :: n < Heard(stream) ==> (Known(Own(stream, n), p) <==> n == call)
  }

  /** The labels tell the calls apart, and no event carries the names of two. */
  predicate Coherent(stream: seq<Labelled>) {
    stream == [] ||
    var before, last := stream[..|stream| - 1], stream[|stream| - 1];
    Coherent(before) && (Speaks(last.event) ==> SpeaksOf(before, last.event, last.call))
  }

  // ----- what a call's own events come to -----

  /** The last text that is not empty. */
  function LastFilled(texts: seq<string>): string {
    if texts == [] then ""
    else if texts[|texts| - 1] != "" then texts[|texts| - 1]
    else LastFilled(texts[..|texts| - 1])
  }

  /** What one of its events makes of a call's arguments. */
  function Extend(arguments: string, e: Event): string {
    match e
    case Added(_, Some(item)) => arguments + item.arguments
    case Delta(_, delta) => arguments + delta
    case Done(_, whole) => if whole == "" then arguments else whole
    case _ => arguments
  }

  /** The arguments a call's own events spell out. */
  function Spelled(own: seq<Event>): string {
    if own == [] then "" else Extend(Spelled(own[..|own| - 1]), own[|own| - 1])
  }

  function ItemOf(e: Event): Item {
    match e
    case Added(_, Some(item)) => item
    case _ => Item(false, "", "", "", "")
  }

  function ItemIds(own: seq<Event>): seq<string> {
    seq(|own|, i requires 0 <= i < |own| => ItemOf(own[i]).id)
  }

  function ItemCallIds(own: seq<Event>): seq<string> {
    seq(|own|, i requires 0 <= i < |own| => ItemOf(own[i]).callId)
  }

  function ItemNames(own: seq<Event>): seq<string> {
    seq(|own|, i requires 0 <= i < |own| => ItemOf(own[i]).name)
  }

  /** The call of these events: the last ids and the last name its items gave, the ids and the index of
      its first event where they gave none, and the arguments spelled out. */
  function CallOf(own: seq<Event>): Call
    requires own != [] && Speaks(own[0])
  {
    var p := NamesOf(own[0]);
    Call(LastFilled([p.itemId] + ItemIds(own)), LastFilled([p.callId] + ItemCallIds(own)), LastFilled(ItemNames(own)),
         p.index, Spelled(own))
  }

  lemma LastFilledSnoc(texts: seq<string>, text: string)
    ensures LastFilled(texts + [text]) == if text != "" then text else LastFilled(texts)
  {
    assert (texts + [text])[..|texts|] == texts;
  }

  lemma PrefixSnoc(first: string, texts: seq<string>, text: string, all: seq<string>)
    requires all == texts + [text]
    ensures LastFilled([first] + all) == if text != "" then text else LastFilled([first] + texts)
  {
    assert [first] + all == ([first] + texts) + [text];
    LastFilledSnoc([first] + texts, text);
  }

  lemma ItemsSnoc(own: seq<Event>, e: Event)
    ensures ItemIds(own + [e]) == ItemIds(own) + [ItemOf(e).id]
    ensures ItemCallIds(own + [e]) == ItemCallIds(own) + [ItemOf(e).callId]
    ensures ItemNames(own + [e]) == ItemNames(own) + [ItemOf(e).name]
  {
  }

  lemma SpelledSnoc(own: seq<Event>, e: Event)
    ensures Spelled(own + [e]) == Extend(Spelled(own), e)
  {
    assert (own + [e])[..|own|] == own;
  }

  /** What an event makes of its call. */
  function Grown(c: Call, e: Event): Call {
    var item := ItemOf(e);
    Call(if item.id != "" then item.id else c.id, if item.callId != "" then item.callId else c.callId,
         if item.name != "" then item.name else c.name, c.index, Extend(c.arguments, e))
  }

  lemma CallGrows(own: seq<Event>, e: Event)
    requires own != [] && Speaks(own[0])
    ensures CallOf(own + [e]) == Grown(CallOf(own), e)
  {
    var p := NamesOf(own[0]);
    ItemsSnoc(own, e);
    SpelledSnoc(own, e);
    PrefixSnoc(p.itemId, ItemIds(own), ItemOf(e).id, ItemIds(own + [e]));
    PrefixSnoc(p.callId, ItemCallIds(own), ItemOf(e).callId, ItemCallIds(own + [e]));
    LastFilledSnoc(ItemNames(own), ItemOf(e).name);
    assert (own + [e])[0] == own[0];
  }

  lemma OneText(text: string)
    ensures LastFilled([text]) == text
  {
    assert [text][..0] == [];
  }

  lemma TwoTexts(a: string, b: string)
    ensures LastFilled([a] + [b]) == if b != "" then b else a
  {
    LastFilledSnoc([a], b);
    OneText(a);
  }

  lemma OneItem(e: Event)
    ensures ItemIds([e]) == [ItemOf(e).id] && ItemCallIds([e]) == [ItemOf(e).callId]
    ensures ItemNames([e]) == [ItemOf(e).name]
  {
  }

  lemma OneSpelled(e: Event)
    ensures Spelled([e]) == Extend("", e)
  {
    assert [e][..0] == [];
  }

  lemma CallBegins(e: Event)
    requires Speaks(e)
    ensures var p := NamesOf(e); CallOf([e]) == Grown(Call(p.itemId, p.callId, "", p.index, ""), e)
  {
    OneItem(e);
    OneSpelled(e);
    TwoTexts(NamesOf(e).itemId, ItemOf(e).id);
    TwoTexts(NamesOf(e).callId, ItemOf(e).callId);
    OneText(ItemOf(e).name);
  }

  // ----- the accumulator finds the call -----

  /** The maps hold exactly the names the calls are known by. */
  ghost predicate Indexes(s: State, stream: seq<Labelled>) {
    && |s.order| == Heard(stream) && s.last == Latest(stream)
    && Names(s, stream) && Numbers(s, stream)
  }

  ghost predicate Names(s: State, stream: seq<Labelled>) {
    forall k: string, n: nat :: n < Heard(stream) ==> NameLeads(s, Own(stream, n), k, n)
  }

  /** The maps lead from a name to the n-th call exactly when its events make it known by that. */
  predicate NameLeads(s: State, own: seq<Event>, k: string, n: nat) {
    && (KnownByItem(own, k) <==> k in s.byItem && s.byItem[k] == n)
    && (KnownByCall(own, k) <==> k in s.byCall && s.byCall[k] == n)
  }

  predicate NumberLeads(s: State, own: seq<Event>, k: int, n: nat) {
    KnownByIndex(own, k) <==> k in s.byIndex && s.byIndex[k] == n
  }

  ghost predicate Numbers(s: State, stream: seq<Labelled>) {
    forall k: int, n: nat :: n < Heard(stream) ==> NumberLeads(s, Own(stream, n), k, n)
  }

  /** Where the names of a place lead: the item id first, then the call id, then the index. */
  lemma NamesRank(s: State, stream: seq<Labelled>, p: Place, n: nat)
    requires Valid(s) && Indexes(s, stream) && n < Heard(stream)
    ensures KnownByItem(Own(stream, n), p.itemId) ==> Find(s, p) == Some(n)
    ensures (forall m: nat :: m < Heard(stream) ==> !KnownByItem(Own(stream, m), p.itemId)) ==>
              && (KnownByCall(Own(stream, n), p.callId) ==> Find(s, p) == Some(n))
              && ((forall m: nat :: m < Heard(stream) ==> !KnownByCall(Own(stream, m), p.callId)) ==>
                    p.index.Some? && KnownByIndex(Own(stream, n), p.index.value) ==> Find(s, p) == Some(n))
  {
    assert NameLeads(s, Own(stream, n), p.itemId, n) && NameLeads(s, Own(stream, n), p.callId, n);
    assert p.index.Some? ==> NumberLeads(s, Own(stream, n), p.index.value, n);
    if p.itemId in s.byItem { assert NameLeads(s, Own(stream, s.byItem[p.itemId]), p.itemId, s.byItem[p.itemId]); }
    if p.callId in s.byCall { assert NameLeads(s, Own(stream, s.byCall[p.callId]), p.callId, s.byCall[p.callId]); }
  }

  /** An event finds the call it speaks of, or that there is none yet. */
  lemma FindsItsCall(s: State, stream: seq<Labelled>, e: Event, call: nat)
    requires Valid(s) && Indexes(s, stream) && Speaks(e) && SpeaksOf(stream, e, call)
    ensures Find(s, NamesOf(e)) == if call < Heard(stream) then Some(call) else None
    ensures call <= Heard(stream)
  {
    var p := NamesOf(e);
    if !Nameless(p) {
      assert call < Heard(stream) ==> Known(Own(stream, call), p);
      match Find(s, p)
      case Some(n) => FoundIsKnown(s, stream, p, n);
      case None => NotFoundIsUnknown(s, stream, p);
    }
  }

  lemma FoundIsKnown(s: State, stream: seq<Labelled>, p: Place, n: nat)
    requires Valid(s) && Indexes(s, stream) && !Nameless(p) && Find(s, p) == Some(n)
    ensures n < Heard(stream) && Known(Own(stream, n), p)
  {
    assert NameLeads(s, Own(stream, n), p.itemId, n) && NameLeads(s, Own(stream, n), p.callId, n);
    assert p.index.Some? ==> NumberLeads(s, Own(stream, n), p.index.value, n);
  }

  lemma NotFoundIsUnknown(s: State, stream: seq<Labelled>, p: Place)
    requires Valid(s) && Indexes(s, stream) && !Nameless(p) && Find(s, p) == None
    ensures forall n: nat :: n < Heard(stream) ==> !Known(Own(stream, n), p)
  {
    forall n: nat | n < Heard(stream) ensures !Known(Own(stream, n), p) {
      assert NameLeads(s, Own(stream, n), p.itemId, n) && NameLeads(s, Own(stream, n), p.callId, n);
      assert p.index.Some? ==> NumberLeads(s, Own(stream, n), p.index.value, n);
    }
  }

  // ----- one event -----

  lemma Snoc(stream: seq<Labelled>, l: Labelled)
    ensures Heard(stream + [l])
            == if Speaks(l.event) && l.call >= Heard(stream) then Heard(stream) + 1 else Heard(stream)
    ensures Latest(stream + [l]) == if Speaks(l.event) then Some(l.call) else Latest(stream)
    ensures forall n :: Own(stream + [l], n)
                        == if Speaks(l.event) && n == l.call then Own(stream, n) + [l.event] else Own(stream, n)
    ensures Coherent(stream + [l]) <==>
              Coherent(stream) && (Speaks(l.event) ==> SpeaksOf(stream, l.event, l.call))
  {
    assert (stream + [l])[..|stream|] == stream;
  }

  /** The calls that have come up have events, and no others do. */
  predicate OwnShape(stream: seq<Labelled>, n: nat) {
    if n < Heard(stream) then Own(stream, n) != [] && Speaks(Own(stream, n)[0]) else Own(stream, n) == []
  }

  lemma {:induction false} OwnShaped(stream: seq<Labelled>, n: nat)
    requires Coherent(stream)
    ensures OwnShape(stream, n)
    ensures Latest(stream).Some? ==> Latest(stream).value < Heard(stream)
  {
    if stream != [] {
      var before, last := stream[..|stream| - 1], stream[|stream| - 1];
      assert stream == before + [last];
      Snoc(before, last);
      OwnShaped(before, n);
    }
  }

  lemma KnownSnoc(own: seq<Event>, e: Event)
    requires Speaks(e)
    ensures forall k :: KnownByItem(own + [e], k) <==> KnownByItem(own, k) || (k != "" && GivesItem(e, own == [], k))
    ensures forall k :: KnownByCall(own + [e], k) <==> KnownByCall(own, k) || (k != "" && GivesCall(e, own == [], k))
    ensures forall k :: KnownByIndex(own + [e], k) <==> KnownByIndex(own, k) || GivesIndex(e, own == [], k)
  {
    var all := own + [e];
    assert forall i :: 0 <= i < |own| ==> all[i] == own[i];
    assert all[|own|] == e;
    forall k ensures KnownByItem(all, k) <==> KnownByItem(own, k) || (k != "" && GivesItem(e, own == [], k))
             ensures KnownByCall(all, k) <==> KnownByCall(own, k) || (k != "" && GivesCall(e, own == [], k)) {
      if i :| 0 <= i < |own| && GivesItem(own[i], i == 0, k) {
        assert GivesItem(all[i], i == 0, k);
      }
      if i :| 0 <= i < |own| && GivesCall(own[i], i == 0, k) {
        assert GivesCall(all[i], i == 0, k);
      }
    }
  }

  /** The record of the call, found or made, grows by the event, and its item's names lead to it. */
  lemma AbsorbGrows(s: State, e: Event)
    requires Valid(s) && Speaks(e)
    ensures var (t, c) := FindOrOpen(s, NamesOf(e));
            Absorb(s, e) == t.(order := t.order[c := Grown(t.order[c], e)], last := Some(c),
                               byItem := WithItem(t.byItem, ItemOf(e).id, c),
                               byCall := WithItem(t.byCall, ItemOf(e).callId, c))
  {
  }

  /** The accumulator after a stream holds its calls, each put together from its own events. */
  ghost predicate Reassembled(s: State, stream: seq<Labelled>) {
    && Indexes(s, stream)
    && forall n: nat :: n < Heard(stream) ==> OwnShape(stream, n) && s.order[n] == CallOf(Own(stream, n))
  }

  /** No other call is known by a name the event carries. */
  lemma OwnNames(stream: seq<Labelled>, e: Event, call: nat, n: nat)
    requires Coherent(stream) && Speaks(e) && SpeaksOf(stream, e, call) && n < Heard(stream) && n != call
    ensures !KnownByItem(Own(stream, n), NamesOf(e).itemId) && !KnownByCall(Own(stream, n), NamesOf(e).callId)
    ensures NamesOf(e).index.Some? ==> !KnownByIndex(Own(stream, n), NamesOf(e).index.value)
    ensures !KnownByItem(Own(stream, n), ItemOf(e).id) && !KnownByCall(Own(stream, n), ItemOf(e).callId)
  {
    if !Nameless(NamesOf(e)) { assert !Known(Own(stream, n), NamesOf(e)); }
  }

  /** One entry of a map of names, when call `c`, new if it is the `heard`-th, is entered under the names
      `first` and `second`. */
  lemma EntryGrows(m: map<string, nat>, heard: nat, c: nat, first: string, second: string, k: string, n: nat,
                   known: bool, grown: bool)
    requires c <= heard && (n < heard || n == c) && forall x :: x in m ==> m[x] < heard
    requires if n < heard then known <==> k in m && m[k] == n else !known
    requires n != c && k != "" && k in {first, second} ==> !known
    requires grown <==> known || (n == c && k != "" && ((c == heard && k == first) || k == second))
    ensures var entered := WithItem(if c == heard then WithItem(m, first, c) else m, second, c);
            grown <==> k in entered && entered[k] == n
  {
  }

  /** The maps once the event's call is found or made. */
  lemma MapsGrow(s: State, e: Event, c: nat)
    requires Valid(s) && Speaks(e) && c <= |s.order| && Find(s, NamesOf(e)) == if c < |s.order| then Some(c) else None
    ensures var r, isNew := Absorb(s, e), c == |s.order|;
            && r.byItem == WithItem(if isNew then WithItem(s.byItem, NamesOf(e).itemId, c) else s.byItem,
                                    ItemOf(e).id, c)
            && r.byCall == WithItem(if isNew then WithItem(s.byCall, NamesOf(e).callId, c) else s.byCall,
                                    ItemOf(e).callId, c)
            && |r.order| == (if isNew then c + 1 else |s.order|) && r.last == Some(c)
            && r.order[c] == Grown(if isNew then Call(NamesOf(e).itemId, NamesOf(e).callId, "", NamesOf(e).index, "")
                                   else s.order[c], e)
            && forall n :: 0 <= n < |s.order| && n != c ==> r.order[n] == s.order[n]
  {
    AbsorbGrows(s, e);
  }

  lemma KnownGrows(stream: seq<Labelled>, e: Event, call: nat, k: string, n: nat)
    requires Coherent(stream) && Speaks(e) && call <= Heard(stream) && (n < Heard(stream) || n == call)
    ensures var more, isNew := stream + [Labelled(e, call)], call == Heard(stream);
            && (KnownByItem(Own(more, n), k) <==>
                  || KnownByItem(Own(stream, n), k)
                  || (n == call && k != "" && ((isNew && k == NamesOf(e).itemId) || k == ItemOf(e).id)))
            && (KnownByCall(Own(more, n), k) <==>
                  || KnownByCall(Own(stream, n), k)
                  || (n == call && k != "" && ((isNew && k == NamesOf(e).callId) || k == ItemOf(e).callId)))
  {
    Snoc(stream, Labelled(e, call));
    OwnShaped(stream, n);
    KnownSnoc(Own(stream, n), e);
  }

  lemma NameMapsGrow(s: State, stream: seq<Labelled>, e: Event, call: nat, k: string, n: nat)
    requires Coherent(stream) && Valid(s) && Indexes(s, stream) && Speaks(e) && SpeaksOf(stream, e, call)
    requires call <= Heard(stream) && Find(s, NamesOf(e)) == if call < Heard(stream) then Some(call) else None
    requires n < Heard(stream) || n == call
    ensures NameLeads(Absorb(s, e), Own(stream + [Labelled(e, call)], n), k, n)
  {
    var heard, more, p := Heard(stream), stream + [Labelled(e, call)], NamesOf(e);
    assert n < heard ==> NameLeads(s, Own(stream, n), k, n);
    MapsGrow(s, e, call);
    KnownGrows(stream, e, call, k, n);
    if n != call { OwnNames(stream, e, call, n); }
    OwnShaped(stream, n);
    EntryGrows(s.byItem, heard, call, p.itemId, ItemOf(e).id, k, n, KnownByItem(Own(stream, n), k),
               KnownByItem(Own(more, n), k));
    EntryGrows(s.byCall, heard, call, p.callId, ItemOf(e).callId, k, n, KnownByCall(Own(stream, n), k),
               KnownByCall(Own(more, n), k));
  }

  lemma IndexGrows(stream: seq<Labelled>, e: Event, call: nat, k: int, n: nat)
    requires Coherent(stream) && Speaks(e) && call <= Heard(stream) && (n < Heard(stream) || n == call)
    ensures KnownByIndex(Own(stream + [Labelled(e, call)], n), k) <==>
              || KnownByIndex(Own(stream, n), k)
              || (n == call == Heard(stream) && NamesOf(e).index == Some(k))
  {
    Snoc(stream, Labelled(e, call));
    OwnShaped(stream, n);
    KnownSnoc(Own(stream, n), e);
  }

  lemma IndexMapIs(s: State, e: Event, c: nat)
    requires Valid(s) && Speaks(e) && c <= |s.order| && Find(s, NamesOf(e)) == if c < |s.order| then Some(c) else None
    ensures var p := NamesOf(e);
            Absorb(s, e).byIndex == if c == |s.order| && p.index.Some? then s.byIndex[p.index.value := c] else s.byIndex
  {
    AbsorbGrows(s, e);
  }

  lemma IndexMapGrows(s: State, stream: seq<Labelled>, e: Event, call: nat, k: int, n: nat)
    requires Coherent(stream) && Valid(s) && Indexes(s, stream) && Speaks(e) && SpeaksOf(stream, e, call)
    requires call <= Heard(stream) && Find(s, NamesOf(e)) == if call < Heard(stream) then Some(call) else None
    requires n < Heard(stream) || n == call
    ensures NumberLeads(Absorb(s, e), Own(stream + [Labelled(e, call)], n), k, n)
  {
    assert n < Heard(stream) ==> NumberLeads(s, Own(stream, n), k, n);
    IndexGrows(stream, e, call, k, n);
    IndexMapIs(s, e, call);
    OwnShaped(stream, n);
    if n != call { OwnNames(stream, e, call, n); }
  }

  lemma NamesGrow(s: State, stream: seq<Labelled>, e: Event, call: nat)
    requires Coherent(stream) && Valid(s) && Indexes(s, stream) && Speaks(e) && SpeaksOf(stream, e, call)
    requires call <= Heard(stream) && Find(s, NamesOf(e)) == if call < Heard(stream) then Some(call) else None
    ensures Names(Absorb(s, e), stream + [Labelled(e, call)])
  {
    var r, more := Absorb(s, e), stream + [Labelled(e, call)];
    Snoc(stream, Labelled(e, call));
    forall k: string, n: nat | n < Heard(more) ensures NameLeads(r, Own(more, n), k, n) {
      NameMapsGrow(s, stream, e, call, k, n);
    }
  }

  lemma NumbersGrow(s: State, stream: seq<Labelled>, e: Event, call: nat)
    requires Coherent(stream) && Valid(s) && Indexes(s, stream) && Speaks(e) && SpeaksOf(stream, e, call)
    requires call <= Heard(stream) && Find(s, NamesOf(e)) == if call < Heard(stream) then Some(call) else None
    ensures Numbers(Absorb(s, e), stream + [Labelled(e, call)])
  {
    var r, more := Absorb(s, e), stream + [Labelled(e, call)];
    Snoc(stream, Labelled(e, call));
    forall k: int, n: nat | n < Heard(more) ensures NumberLeads(r, Own(more, n), k, n) {
      IndexMapGrows(s, stream, e, call, k, n);
    }
  }

  lemma IndexesGrow(s: State, stream: seq<Labelled>, e: Event, call: nat)
    requires Coherent(stream) && Valid(s) && Indexes(s, stream) && Speaks(e) && SpeaksOf(stream, e, call)
    ensures Indexes(Absorb(s, e), stream + [Labelled(e, call)])
  {
    FindsItsCall(s, stream, e, call);
    NamesGrow(s, stream, e, call);
    NumbersGrow(s, stream, e, call);
    Snoc(stream, Labelled(e, call));
    MapsGrow(s, e, call);
  }

  lemma CallsGrow(s: State, stream: seq<Labelled>, e: Event, call: nat, n: nat)
    requires Coherent(stream) && Valid(s) && Speaks(e)
    requires |s.order| == Heard(stream) && call <= Heard(stream) && (n < Heard(stream) || n == call)
    requires Find(s, NamesOf(e)) == if call < Heard(stream) then Some(call) else None
    requires n < Heard(stream) ==> OwnShape(stream, n) && s.order[n] == CallOf(Own(stream, n))
    ensures var more, r := stream + [Labelled(e, call)], Absorb(s, e);
            OwnShape(more, n) && n < |r.order| && r.order[n] == CallOf(Own(more, n))
  {
    Snoc(stream, Labelled(e, call));
    MapsGrow(s, e, call);
    OwnShaped(stream, n);
    if n == call < Heard(stream) {
      CallGrows(Own(stream, n), e);
    } else if n == call {
      assert [] + [e] == [e];
      CallBegins(e);
    }
  }

  lemma EventKeeps(s: State, stream: seq<Labelled>, e: Event, call: nat)
    requires Coherent(stream) && Valid(s) && Reassembled(s, stream) && Speaks(e) && SpeaksOf(stream, e, call)
    ensures Reassembled(Absorb(s, e), stream + [Labelled(e, call)])
  {
    var more := stream + [Labelled(e, call)];
    FindsItsCall(s, stream, e, call);
    IndexesGrow(s, stream, e, call);
    Snoc(stream, Labelled(e, call));
    forall n: nat | n < Heard(more) ensures OwnShape(more, n) && Absorb(s, e).order[n] == CallOf(Own(more, n)) {
      CallsGrow(s, stream, e, call, n);
    }
  }

  lemma EventsSnoc(before: seq<Labelled>, last: Labelled)
    ensures AbsorbAll(EventsOf(before + [last])) == Absorb(AbsorbAll(EventsOf(before)), last.event)
  {
    var events := EventsOf(before + [last]);
    assert events[..|events| - 1] == EventsOf(before);
  }

  lemma NextKeeps(before: seq<Labelled>, last: Labelled)
    requires Coherent(before) && (Speaks(last.event) ==> SpeaksOf(before, last.event, last.call))
    requires Reassembled(AbsorbAll(EventsOf(before)), before)
    ensures Reassembled(AbsorbAll(EventsOf(before + [last])), before + [last])
  {
    EventsSnoc(before, last);
    if Speaks(last.event) {
      EventKeeps(AbsorbAll(EventsOf(before)), before, last.event, last.call);
    } else {
      SilenceKeeps(AbsorbAll(EventsOf(before)), before, last);
    }
  }

  /** Whatever comes between a call's events and whichever of its names each carries, the accumulator
      holds the calls in the order in which they came up, each as its own events spell it. */
  lemma {:induction false} StreamIsReassembled(stream: seq<Labelled>)
    requires Coherent(stream)
    ensures Reassembled(AbsorbAll(EventsOf(stream)), stream)
  {
    if stream != [] {
      var before, last := stream[..|stream| - 1], stream[|stream| - 1];
      StreamIsReassembled(before);
      NextKeeps(before, last);
      assert stream == before + [last];
    }
  }

  lemma SilentShape(stream: seq<Labelled>, l: Labelled)
    requires !Speaks(l.event)
    ensures Heard(stream + [l]) == Heard(stream) && Latest(stream + [l]) == Latest(stream)
    ensures forall n :: Own(stream + [l], n) == Own(stream, n)
  {
    Snoc(stream, l);
  }

  lemma SilenceCalls(s: State, t: State, a: seq<Labelled>, b: seq<Labelled>, n: nat)
    requires n < Heard(a) == Heard(b) == |s.order| && t.order == s.order && Own(a, n) == Own(b, n)
    requires OwnShape(a, n) && s.order[n] == CallOf(Own(a, n))
    ensures OwnShape(b, n) && t.order[n] == CallOf(Own(b, n))
  {
  }

  lemma SilenceKeeps(s: State, stream: seq<Labelled>, l: Labelled)
    requires Valid(s) && Reassembled(s, stream) && !Speaks(l.event)
    ensures Reassembled(Absorb(s, l.event), stream + [l])
  {
    var t, more := Absorb(s, l.event), stream + [l];
    SilenceIs(s, l.event);
    SilentShape(stream, l);
    SilenceIndexes(s, t, stream, more);
    forall n: nat | n < Heard(more) ensures OwnShape(more, n) && t.order[n] == CallOf(Own(more, n)) {
      SilenceCalls(s, t, stream, more, n);
    }
  }

  lemma SilenceIs(s: State, e: Event)
    requires Valid(s) && !Speaks(e)
    ensures Absorb(s, e) == s.(text := Absorb(s, e).text)
  {
  }

  lemma SilenceIndexes(s: State, t: State, a: seq<Labelled>, b: seq<Labelled>)
    requires Indexes(s, a) && t == s.(text := t.text)
    requires Heard(a) == Heard(b) && Latest(a) == Latest(b) && forall n :: Own(a, n) == Own(b, n)
    ensures Indexes(t, b)
  {
    forall k: string, n: nat | n < Heard(b) ensures NameLeads(t, Own(b, n), k, n) {
      assert Own(a, n) == Own(b, n) && NameLeads(s, Own(a, n), k, n);
    }
    forall k: int, n: nat | n < Heard(b) ensures NumberLeads(t, Own(b, n), k, n) {
      assert Own(a, n) == Own(b, n) && NumberLeads(s, Own(a, n), k, n);
    }
  }

  /** Two calls are known by names of the place. */
  ghost predicate Ambiguous(stream: seq<Labelled>, p: Place) {
    exists m: nat, n: nat :: m < n < Heard(stream) && Known(Own(stream, m), p) && Known(Own(stream, n), p)
  }

  /** Any event continues a coherent stream, as an event of one call, unless it carries names of two. */
  lemma ContinuesIff(stream: seq<Labelled>, e: Event)
    requires Coherent(stream)
    ensures (exists call: nat :: Coherent(stream + [Labelled(e, call)]))
            <==> !Speaks(e) || !Ambiguous(stream, NamesOf(e))
  {
    forall call: nat ensures Coherent(stream + [Labelled(e, call)]) <==> (Speaks(e) ==> SpeaksOf(stream, e, call)) {
      Snoc(stream, Labelled(e, call));
    }
    if !Speaks(e) {
      assert Coherent(stream + [Labelled(e, 0)]);
    } else if !Ambiguous(stream, NamesOf(e)) {
      var call := CallFor(stream, e);
      assert Coherent(stream + [Labelled(e, call)]);
    }
  }

  lemma CallFor(stream: seq<Labelled>, e: Event) returns (call: nat)
    requires Speaks(e) && !Ambiguous(stream, NamesOf(e))
    ensures SpeaksOf(stream, e, call)
  {
    var p := NamesOf(e);
    if Nameless(p) {
      call := if Latest(stream).Some? then Latest(stream).value else Heard(stream);
    } else if n: nat :| n < Heard(stream) && Known(Own(stream, n), p) {
      call := n;
    } else {
      call := Heard(stream);
    }
  }

  // ----- what that means -----

  function Joined(deltas: seq<Event>): string {
    if deltas == [] then ""
    else Joined(deltas[..|deltas| - 1]) + (if deltas[|deltas| - 1].Delta? then deltas[|deltas| - 1].delta else "")
  }

  predicate AllDeltas(events: seq<Event>) {
    forall e :: e in events ==> e.Delta?
  }

  lemma JoinedSnoc(deltas: seq<Event>, e: Event)
    ensures Joined(deltas + [e]) == Joined(deltas) + (if e.Delta? then e.delta else "")
  {
    assert (deltas + [e])[..|deltas|] == deltas;
  }

  lemma {:induction false} DeltasAppend(before: seq<Event>, deltas: seq<Event>)
    requires AllDeltas(deltas)
    ensures Spelled(before + deltas) == Spelled(before) + Joined(deltas)
  {
    if deltas == [] {
      assert before + deltas == before;
    } else {
      var rest, e := deltas[..|deltas| - 1], deltas[|deltas| - 1];
      assert e in deltas;
      DeltasAppend(before, rest);
      DeltaAppends(before + rest, rest, e);
      LastOfBoth(before, deltas);
    }
  }

  lemma LastOfBoth(before: seq<Event>, deltas: seq<Event>)
    requires deltas != []
    ensures var rest, e := deltas[..|deltas| - 1], deltas[|deltas| - 1];
            deltas == rest + [e] && before + deltas == (before + rest) + [e]
  {
  }

  lemma DeltaAppends(all: seq<Event>, deltas: seq<Event>, e: Event)
    requires e.Delta?
    ensures Spelled(all + [e]) == Spelled(all) + e.delta && Joined(deltas + [e]) == Joined(deltas) + e.delta
  {
    SpelledSnoc(all, e);
    JoinedSnoc(deltas, e);
  }

  /** A call's arguments: those of its last end that is not empty, else those its items brought, then the
      deltas that follow, joined in order. */
  lemma ArgumentsSpelled(before: seq<Event>, e: Event, deltas: seq<Event>)
    requires AllDeltas(deltas)
    ensures e.Done? && e.arguments != "" ==> Spelled(before + [e] + deltas) == e.arguments + Joined(deltas)
    ensures e.Added? && e.item.Some? ==>
              Spelled(before + [e] + deltas) == Spelled(before) + e.item.value.arguments + Joined(deltas)
  {
    SpelledSnoc(before, e);
    DeltasAppend(before + [e], deltas);
  }

  /** Streams whose calls come to the same come out alike: neither how their events are cut up, nor how
      they are mixed, nor which names they carry matters. */
  lemma SameCallsSameResult(a: seq<Labelled>, b: seq<Labelled>)
    requires Coherent(a) && Coherent(b) && Heard(a) == Heard(b)
    requires forall n: nat ::
               n < Heard(a) && OwnShape(a, n) && OwnShape(b, n) ==> CallOf(Own(a, n)) == CallOf(Own(b, n))
    ensures AbsorbAll(EventsOf(a)).order == AbsorbAll(EventsOf(b)).order
  {
    StreamIsReassembled(a);
    StreamIsReassembled(b);
  }

  /** What the final response lists: the calls that have a name, in order, as they are, but for an id made
      up by its place where there is none. */
  ghost predicate Lists(items: seq<Call>, calls: seq<Call>, madeUp: nat -> string, at: seq<nat>) {
    && |items| == |at| && (forall i, j :: 0 <= i < j < |at| ==> at[i] < at[j])
    && (forall i :: i in at <==> 0 <= i < |calls| && calls[i].name != "")
    && forall j :: 0 <= j < |items| ==>
         && at[j] < |calls|
         && items[j] == calls[at[j]].(id := if calls[at[j]].id == "" then madeUp(j) else calls[at[j]].id)
  }

  lemma ListsSnoc(items: seq<Call>, calls: seq<Call>, madeUp: nat -> string, at: seq<nat>, c: Call)
    requires Lists(items, calls, madeUp, at)
    ensures c.name == "" ==> Lists(items, calls + [c], madeUp, at)
    ensures c.name != "" ==>
              Lists(items + [c.(id := if c.id == "" then madeUp(|items|) else c.id)], calls + [c], madeUp,
                    at + [|calls|])
  {
    forall i | 0 <= i < |at| ensures at[i] < |calls| { assert at[i] in at; }
  }

  /** The calls of a stream, each put together from its own events. */
  ghost predicate CallsAre(stream: seq<Labelled>, calls: seq<Call>) {
    && |calls| == Heard(stream)
    && forall n: nat :: n < |calls| ==> OwnShape(stream, n) && calls[n] == CallOf(Own(stream, n))
  }

  /** The final response lists the calls of the stream. */
  ghost predicate Answers(stream: seq<Labelled>, madeUp: nat -> string, items: seq<Call>) {
    exists calls, at :: CallsAre(stream, calls) && Lists(items, calls, madeUp, at)
  }

  /** What the final response of a whole stream lists. */
  lemma FinalResponseIs(stream: seq<Labelled>, madeUp: nat -> string)
    requires Coherent(stream)
    ensures Answers(stream, madeUp, FinalCalls(AbsorbAll(EventsOf(stream)).order, madeUp))
  {
    StreamIsReassembled(stream);
    var calls := AbsorbAll(EventsOf(stream)).order;
    var at := FinalResponseLists(calls, madeUp);
    assert CallsAre(stream, calls);
  }

  /** However the events of a stream tell the calls apart. */
  ghost predicate AnswersAny(events: seq<Event>, madeUp: nat -> string, items: seq<Call>) {
    forall stream :: Coherent(stream) && EventsOf(stream) == events ==> Answers(stream, madeUp, items)
  }

  lemma {:induction false} FinalResponseLists(calls: seq<Call>, madeUp: nat -> string) returns (at: seq<nat>)
    ensures Lists(FinalCalls(calls, madeUp), calls, madeUp, at)
  {
    at := [];
    if calls != [] {
      var rest, c := calls[..|calls| - 1], calls[|calls| - 1];
      at := FinalResponseLists(rest, madeUp);
      assert rest + [c] == calls;
      ListsSnoc(FinalCalls(rest, madeUp), rest, madeUp, at, c);
      if c.name != "" { at := at + [|rest|]; }
    }
  }

  // ----- names a call does not learn -----

  const OPENED := Added(Place("i", "", None), Some(Item(true, "i", "c", "weather", "")))
  const CARRIED := Delta(Place("i", "", Some(0)), "{")
  const ALONE := Delta(Place("", "", Some(0)), "}")

  lemma FirstState()
    ensures var s := AbsorbAll([OPENED]);
            && s.order == [Call("i", "c", "weather", None, "")] && s.byIndex == map[]
            && "i" in s.byItem && s.byItem["i"] == 0
  {
    assert [OPENED][..0] == [];
    assert AbsorbAll([OPENED]) == Absorb(NOTHING, OPENED);
    assert "" + "" == "";
  }

  lemma LateStates()
    ensures var s := AbsorbAll([OPENED, CARRIED]);
            s.order == [Call("i", "c", "weather", None, "{")] && s.byIndex == map[]
  {
    FirstState();
    assert [OPENED, CARRIED][..1] == [OPENED];
    assert "" + "{" == "{";
  }

  lemma LateOrder()
    ensures AbsorbAll([OPENED, CARRIED, ALONE]).order
            == [Call("i", "c", "weather", None, "{"), Call("", "", "", Some(0), "}")]
  {
    LateStates();
    assert [OPENED, CARRIED, ALONE][..2] == [OPENED, CARRIED];
    assert "" + "}" == "}";
  }

  lemma FinalTakes(calls: seq<Call>, c: Call, madeUp: nat -> string)
    requires c.id != "" && c.name != ""
    ensures FinalCalls(calls + [c], madeUp) == FinalCalls(calls, madeUp) + [c]
  {
    assert (calls + [c])[..|calls|] == calls;
  }

  lemma FinalSkips(calls: seq<Call>, c: Call, madeUp: nat -> string)
    requires c.name == ""
    ensures FinalCalls(calls + [c], madeUp) == FinalCalls(calls, madeUp)
  {
    assert (calls + [c])[..|calls|] == calls;
  }

  lemma NamedAndNot(named: Call, other: Call, madeUp: nat -> string)
    requires named.name != "" && named.id != "" && other.name == ""
    ensures FinalCalls([named, other], madeUp) == [named]
  {
    FinalTakes([], named, madeUp);
    FinalSkips([named], other, madeUp);
    assert [named, other] == [named] + [other];
    assert [] + [named] == [named];
  }

  /** A call opened without an index does not learn it from a later event: an event that carries the
      index alone starts a call without a name, and what it says is lost. */
  lemma LateIndexIsLost(madeUp: nat -> string)
    ensures FinalCalls(AbsorbAll([OPENED, CARRIED, ALONE]).order, madeUp) == [Call("i", "c", "weather", None, "{")]
  {
    LateOrder();
    NamedAndNot(Call("i", "c", "weather", None, "{"), Call("", "", "", Some(0), "}"), madeUp);
  }
}
