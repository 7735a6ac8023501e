/** The accumulator as the program keeps it: records shared by an order list and three
    maps, updated in place. */
module ResponsesAccumulator {
  import opened Wrappers
  import opened ResponsesStream
  import ResponsesCalls

  class CallRecord {
    var id: string
    var callId: string
    var name: string
    var index: Option<int>
    var arguments: string

    function View(): Call
      reads this
    {
      Call(id, callId, name, index, arguments)
    }

    constructor (id: string, callId: string, index: Option<int>)
      ensures View() == Call(id, callId, "", index, "")
    {
      this.id, this.callId, this.index, name, arguments := id, callId, index, "", "";
    }
  }

  type Names = map<string, CallRecord>

  /** A map of the program shows the positions of the specification's. */
  predicate Points(refs: Names, positions: map<string, nat>, order: seq<CallRecord>) {
    && refs.Keys == positions.Keys
    && forall k :: k in refs ==> positions[k] < |order| && refs[k] == order[positions[k]]
  }

  predicate PointsByIndex(refs: map<int, CallRecord>, positions: map<int, nat>, order: seq<CallRecord>) {
    && refs.Keys == positions.Keys
    && forall k :: k in refs ==> positions[k] < |order| && refs[k] == order[positions[k]]
  }

  predicate PointsTo(ref: CallRecord?, position: Option<nat>, order: seq<CallRecord>) {
    if position.None? then ref == null else position.value < |order| && ref == order[position.value]
  }

  predicate AllDistinct(order: seq<CallRecord>) {
    forall i, j :: 0 <= i < j < |order| ==> order[i] != order[j]
  }

  ghost predicate Shows(order: seq<CallRecord>, calls: seq<Call>)
    reads order
  {
    |order| == |calls| && forall i :: 0 <= i < |order| ==> order[i].View() == calls[i]
  }

  function Enter(refs: Names, key: string, r: CallRecord): Names {
    if key == "" then refs else refs[key := r]
  }

  lemma EnterPoints(refs: Names, positions: map<string, nat>, order: seq<CallRecord>, key: string, n: nat)
    requires Points(refs, positions, order) && n < |order|
    ensures Points(Enter(refs, key, order[n]), WithItem(positions, key, n), order)
  {
  }

  lemma PointsGrow(refs: Names, positions: map<string, nat>, order: seq<CallRecord>, r: CallRecord)
    requires Points(refs, positions, order)
    ensures Points(refs, positions, order + [r])
  {
  }

  class Accumulator {
    var byItem: map<string, CallRecord>
    var byCall: map<string, CallRecord>
    var byIndex: map<int, CallRecord>
    var order: seq<CallRecord>
    var last: CallRecord?
    var text: string
    /** What the maps and records amount to. */
    ghost var state: State

    /** The maps point at records of the order list. */
    ghost predicate Linked()
      reads this
    {
      && |order| == |state.order| && AllDistinct(order)
      && Points(byItem, state.byItem, order) && Points(byCall, state.byCall, order)
      && PointsByIndex(byIndex, state.byIndex, order)
      && PointsTo(last, state.last, order) && text == state.text
    }

    /** And every record shows the call `state` has in its place. */
    ghost predicate Valid()
      reads this, order
    {
      Linked() && Shows(order, state.order)
    }

    ghost function Records(): set<object>
      reads this
    {
      set r | r in order
    }

    constructor ()
      ensures Valid() && state == NOTHING && order == []
    {
      byItem, byCall, byIndex, order, last, text := map[], map[], map[], [], null, "";
      state := NOTHING;
    }

    /** The record already known for a place. */
    method Lookup(p: Place) returns (r: CallRecord?)
      requires Linked() && ResponsesStream.Valid(state)
      ensures PointsTo(r, Find(state, p), order)
    {
      if p.itemId != "" && p.itemId in byItem { return byItem[p.itemId]; }
      if p.callId != "" && p.callId in byCall { return byCall[p.callId]; }
      if p.index.Some? && p.index.value in byIndex { return byIndex[p.index.value]; }
      if p.itemId == "" && p.callId == "" && p.index.None? { return last; }
      return null;
    }

    /** A record for a call met for the first time. */
    method OpenRecord(p: Place) returns (r: CallRecord)
      requires Valid()
      modifies this
      ensures Valid() && state == Open(old(state), p) && order == old(order) + [r] && fresh(r)
    {
      r := new CallRecord(p.itemId, p.callId, p.index);
      EnterRecord(p, r);
    }

    /** The new record, appended and entered under its names. */
    method EnterRecord(p: Place, r: CallRecord)
      requires Valid() && r !in order && r.View() == Call(p.itemId, p.callId, "", p.index, "")
      modifies `order, `byItem, `byCall, `byIndex, `state
      ensures Valid() && state == Open(old(state), p) && order == old(order) + [r]
    {
      var n, grown := |order|, order + [r];
      PointsGrow(byItem, state.byItem, order, r);
      PointsGrow(byCall, state.byCall, order, r);
      EnterPoints(byItem, state.byItem, grown, p.itemId, n);
      EnterPoints(byCall, state.byCall, grown, p.callId, n);
      order, byItem, byCall := grown, Enter(byItem, p.itemId, r), Enter(byCall, p.callId, r);
      if p.index.Some? { byIndex := byIndex[p.index.value := r]; }
      state := Open(state, p);
    }

    /** The record of a place, made if there is none; `n` its position. */
    method Resolve(p: Place) returns (r: CallRecord, ghost n: nat)
      requires Valid() && ResponsesStream.Valid(state)
      modifies this
      ensures Valid() && (state, n) == FindOrOpen(old(state), p) && n < |order| && r == order[n]
      ensures order == old(order) || (order == old(order) + [r] && fresh(r))
    {
      n := |order|;
      var known := Lookup(p);
      if known != null {
        r, n := known, Find(state, p).value;
      } else {
        r := OpenRecord(p);
      }
    }

    /** One event of the stream. */
    method Absorb(e: Event)
      requires Valid() && ResponsesStream.Valid(state)
      modifies this, Records()
      ensures Valid() && state == ResponsesStream.Absorb(old(state), e)
      ensures fresh(Records() - old(Records()))
    {
      match e {
        case Text(delta) =>
          text := text + delta;
          state := state.(text := text);
        case Added(place, item) =>
          if item.Some? && item.value.isCall { AbsorbItem(place, item.value); }
        case Delta(place, delta) =>
          if delta != "" { AbsorbDelta(place, delta); }
        case Done(place, arguments) =>
          if arguments != "" { AbsorbDone(place, arguments); }
        case Other =>
      }
    }

    /** A function call item. */
    method AbsorbItem(place: Place, item: Item)
      requires Valid() && ResponsesStream.Valid(state) && item.isCall
      modifies this, Records()
      ensures Valid() && state == ResponsesStream.Absorb(old(state), Added(place, Some(item)))
      ensures fresh(Records() - old(Records()))
    {
      var r, n := Resolve(PlaceOf(place, item));
      DescribeRecord(r, n, item);
    }

    /** A piece of arguments. */
    method AbsorbDelta(place: Place, delta: string)
      requires Valid() && ResponsesStream.Valid(state) && delta != ""
      modifies this, Records()
      ensures Valid() && state == ResponsesStream.Absorb(old(state), Delta(place, delta))
      ensures fresh(Records() - old(Records()))
    {
      var r, n := Resolve(place);
      SetArguments(r, n, r.arguments + delta);
    }

    /** The arguments once more, whole. */
    method AbsorbDone(place: Place, arguments: string)
      requires Valid() && ResponsesStream.Valid(state) && arguments != ""
      modifies this, Records()
      ensures Valid() && state == ResponsesStream.Absorb(old(state), Done(place, arguments))
      ensures fresh(Records() - old(Records()))
    {
      var r, n := Resolve(place);
      SetArguments(r, n, arguments);
    }

    method SetArguments(r: CallRecord, ghost n: nat, arguments: string)
      requires Valid() && n < |order| && r == order[n]
      modifies r, `last, `state
      ensures Valid() && order == old(order)
      ensures state == old(state).(order := old(state).order[n := old(state).order[n].(arguments := arguments)],
                                   last := Some(n))
    {
      r.arguments := arguments;
      last := r;
      state := state.(order := state.order[n := state.order[n].(arguments := arguments)], last := Some(n));
    }

    /** What the item says, written into the record and the maps. */
    method DescribeRecord(r: CallRecord, ghost n: nat, item: Item)
      requires Valid() && n < |order| && r == order[n]
      modifies r, this
      ensures Valid() && order == old(order)
      ensures state == old(state).(order := old(state).order[n := Describe(old(state).order[n], item)], last := Some(n),
                                   byItem := WithItem(old(state).byItem, item.id, n),
                                   byCall := WithItem(old(state).byCall, item.callId, n))
    {
      EnterPoints(byItem, state.byItem, order, item.id, n);
      EnterPoints(byCall, state.byCall, order, item.callId, n);
      FillRecord(r, n, item);
      byItem, byCall := Enter(byItem, item.id, r), Enter(byCall, item.callId, r);
      state := state.(byItem := WithItem(state.byItem, item.id, n), byCall := WithItem(state.byCall, item.callId, n));
    }

    method FillRecord(r: CallRecord, ghost n: nat, item: Item)
      requires Valid() && n < |order| && r == order[n]
      modifies r, `last, `state
      ensures Valid() && order == old(order)
      ensures state == old(state).(order := old(state).order[n := Describe(old(state).order[n], item)], last := Some(n))
    {
      if item.id != "" { r.id := item.id; }
      if item.callId != "" { r.callId := item.callId; }
      if item.name != "" { r.name := item.name; }
      r.arguments := r.arguments + item.arguments;
      assert r.View() == Describe(state.order[n], item);
      last := r;
      state := state.(order := state.order[n := r.View()], last := Some(n));
    }

    /** The calls of the final response. */
    method FinalOutput(madeUp: nat -> string) returns (items: seq<Call>)
      requires Valid()
      ensures items == FinalCalls(state.order, madeUp)
    {
      items := [];
      for i := 0 to |order|
        invariant items == FinalCalls(state.order[..i], madeUp)
      {
        assert state.order[..i + 1][..i] == state.order[..i];
        var c := order[i];
        if c.name == "" { continue; }
        items := items + [Call(if c.id != "" then c.id else madeUp(|items|), c.callId, c.name, c.index, c.arguments)];
      }
      assert state.order[..|order|] == state.order;
    }
  }

  lemma AbsorbSnoc(events: seq<Event>, i: nat)
    requires i < |events|
    ensures AbsorbAll(events[..i + 1]) == ResponsesStream.Absorb(AbsorbAll(events[..i]), events[i])
  {
    assert events[..i + 1][..i] == events[..i];
  }

  /** A whole stream. */
  method AbsorbStream(a: Accumulator, events: seq<Event>)
    requires a.Valid() && a.state == NOTHING && a.order == []
    modifies a
    ensures a.Valid() && a.state == AbsorbAll(events)
  {
    for i := 0 to |events|
      invariant a.Valid() && a.state == AbsorbAll(events[..i])
      invariant fresh(a.Records())
    {
      AbsorbSnoc(events, i);
      a.Absorb(events[i]);
    }
    assert events[..|events|] == events;
  }

  /** The calls of the final response to a whole stream: however its events tell the calls apart, the
      calls that have a name, each put together from its own events. */
  method Reassemble(events: seq<Event>, madeUp: nat -> string) returns (items: seq<Call>)
    ensures items == FinalCalls(AbsorbAll(events).order, madeUp)
    ensures ResponsesCalls.AnswersAny(events, madeUp, items)
  {
    var a := new Accumulator();
    AbsorbStream(a, events);
    items := a.FinalOutput(madeUp);
    forall stream | ResponsesCalls.Coherent(stream) && ResponsesCalls.EventsOf(stream) == events
      ensures ResponsesCalls.Answers(stream, madeUp, items)
    {
      ResponsesCalls.FinalResponseIs(stream, madeUp);
    }
  }
}
