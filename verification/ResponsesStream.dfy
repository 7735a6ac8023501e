/** What the Responses stream accumulator makes of a stream, event by event.  Events are decoded:
    identifiers and names are trimmed, "" when missing. */
module ResponsesStream {
  import opened Wrappers

  /** Where an event says it belongs. */
  datatype Place = Place(itemId: string, callId: string, index: Option<int>)

  /** The item of an `output_item.added` event. */
  datatype Item = Item(isCall: bool, id: string, callId: string, name: string, arguments: string)

  datatype Event = Text(delta: string)
                 | Added(place: Place, item: Option<Item>)
                 | Delta(place: Place, delta: string)
                 | Done(place: Place, arguments: string)
                 | Other

  datatype Call = Call(id: string, callId: string, name: string, index: Option<int>, arguments: string)

  /** The accumulator: calls in the order they were met, found again by item id, call
      id or output index (positions in `order`). */
  datatype State = State(order: seq<Call>, byItem: map<string, nat>, byCall: map<string, nat>, byIndex: map<int, nat>,
                         last: Option<nat>, text: string)

  const NOTHING := State([], map[], map[], map[], None, "")

  predicate Valid(s: State) {
    && (forall k :: k in s.byItem ==> s.byItem[k] < |s.order|)
    && (forall k :: k in s.byCall ==> s.byCall[k] < |s.order|)
    && (forall k :: k in s.byIndex ==> s.byIndex[k] < |s.order|)
    && (s.last.Some? ==> s.last.value < |s.order|)
  }

  /** The call already known for a place: by item id, else call id, else index, else,
      for an event that names nothing, the last one touched. */
  function Find(s: State, p: Place): (r: Option<nat>)
    requires Valid(s)
    ensures r.Some? ==> r.value < |s.order|
  {
    if p.itemId != "" && p.itemId in s.byItem then Some(s.byItem[p.itemId])
    else if p.callId != "" && p.callId in s.byCall then Some(s.byCall[p.callId])
    else if p.index.Some? && p.index.value in s.byIndex then
      var k: int := p.index.value;
      Some(s.byIndex[k])
    else if p.itemId == "" && p.callId == "" && p.index.None? then s.last
    else None
  }

  function WithItem(m: map<string, nat>, key: string, n: nat): map<string, nat> {
    if key == "" then m else m[key := n]
  }

  /** A call met for the first time. */
  function Open(s: State, p: Place): State {
    var n := |s.order|;
    s.(order := s.order + [Call(p.itemId, p.callId, "", p.index, "")],
       byItem := WithItem(s.byItem, p.itemId, n),
       byCall := WithItem(s.byCall, p.callId, n),
       byIndex := if p.index.Some? then s.byIndex[p.index.value := n] else s.byIndex)
  }

  function FindOrOpen(s: State, p: Place): (r: (State, nat))
    requires Valid(s)
    ensures Valid(r.0) && r.1 < |r.0.order|
  {
    match Find(s, p)
    case Some(n) => (s, n)
    case None => (Open(s, p), |s.order|)
  }

  /** Item fields override the event's own place. */
  function PlaceOf(p: Place, item: Item): Place {
    Place(if item.id != "" then item.id else p.itemId, if item.callId != "" then item.callId else p.callId, p.index)
  }

  /** What the item says about its call. */
  function Describe(c: Call, item: Item): Call {
    c.(id := if item.id != "" then item.id else c.id, callId := if item.callId != "" then item.callId else c.callId,
       name := if item.name != "" then item.name else c.name, arguments := c.arguments + item.arguments)
  }

  function Absorb(s: State, e: Event): (r: State)
    requires Valid(s)
    ensures Valid(r)
  {
    match e
    case Text(delta) => s.(text := s.text + delta)
    case Added(place, item) =>
      if item.None? || !item.value.isCall then s
      else
        var (t, n) := FindOrOpen(s, PlaceOf(place, item.value));
        t.(order := t.order[n := Describe(t.order[n], item.value)],
           byItem := WithItem(t.byItem, item.value.id, n), byCall := WithItem(t.byCall, item.value.callId, n),
           last := Some(n))
    case Delta(place, delta) =>
      if delta == "" then s
      else
        var (t, n) := FindOrOpen(s, place);
        t.(order := t.order[n := t.order[n].(arguments := t.order[n].arguments + delta)], last := Some(n))
    case Done(place, arguments) =>
      if arguments == "" then s
      else
        var (t, n) := FindOrOpen(s, place);
        t.(order := t.order[n := t.order[n].(arguments := arguments)], last := Some(n))
    case Other => s
  }

  function AbsorbAll(events: seq<Event>): (r: State)
    ensures Valid(r)
  {
    if events == [] then NOTHING else Absorb(AbsorbAll(events[..|events| - 1]), events[|events| - 1])
  }

  /** The calls of the final response; those without a name are left out, a missing
      id is made up. */
  function FinalCalls(calls: seq<Call>, madeUp: nat -> string): seq<Call> {
    if calls == [] then []
    else
      var c := calls[|calls| - 1];
      var before := FinalCalls(calls[..|calls| - 1], madeUp);
      if c.name == "" then before else before + [c.(id := if c.id != "" then c.id else madeUp(|before|))]
  }

  /** The pieces of answer text, joined in order. */
  function SaidText(events: seq<Event>): string {
    if events == [] then ""
    else if events[0].Text? then events[0].delta + SaidText(events[1..])
    else SaidText(events[1..])
  }

  lemma {:induction false} SaidSnoc(events: seq<Event>, e: Event)
    ensures SaidText(events + [e]) == SaidText(events) + (if e.Text? then e.delta else "")
  {
    if events == [] {
      assert [e][1..] == [];
    } else {
      assert (events + [e])[1..] == events[1..] + [e];
      SaidSnoc(events[1..], e);
    }
  }

  /** Whatever calls come between, the text is that of the text events. */
  lemma {:induction false} TextIsJoined(events: seq<Event>)
    ensures AbsorbAll(events).text == SaidText(events)
  {
    if events != [] {
      var rest, e := events[..|events| - 1], events[|events| - 1];
      assert rest + [e] == events;
      TextIsJoined(rest);
      SaidSnoc(rest, e);
    }
  }
}
