/** What the schema of a parameter type means: exactly the JSON values of that type. */
module ToolMeaning {
  import opened Wrappers
  import opened JsonSchema
  import opened StrictSchema
  import opened ToolSchema
  import ToolArguments
  import ToolRoundTrip

  /** The field a key stands for: the last one listed under it. */
  function FieldFor(fields: seq<Field>, key: string): (r: Option<nat>)
    ensures r.Some? ==> r.value < |fields|
  {
    if fields == [] then None
    else if ToolRoundTrip.Names(fields[|fields| - 1], key) then Some(|fields| - 1)
    else FieldFor(fields[..|fields| - 1], key)
  }

  /** `v` is a value of type `t`: objects have known keys with values of their
      fields' types, and every required key. */
  ghost predicate IsOf(t: GoType, v: Json)
    decreases v, t
  {
    match t
    case GPointer(elem) => IsOf(elem, v)
    case GString => v.Str?
    case GTime => v.Str?
    case GBool => v.Bool?
    case GInteger => v.Num? && v.n == v.n.Floor as real
    case GFloat => v.Num?
    case GAny => true
    case GList(elem) => v.Arr? && forall i :: 0 <= i < |v.items| ==> IsOf(elem, v.items[i])
    case GMap(elem) => v.Obj? && forall k :: k in v.fields ==> IsOf(elem, v.fields[k])
    case GStruct(fields) =>
      && v.Obj?
      && (forall k :: k in v.fields ==>
            FieldFor(fields, k).Some? && IsOf(fields[FieldFor(fields, k).value].typ, v.fields[k]))
      && (forall i :: 0 <= i < |fields| && Listable(fields[i]) && fields[i].required ==>
            SchemaKey(fields[i]) in v.fields)
  }

  lemma {:induction false} PropertyOfField(fields: seq<Field>, key: string)
    ensures key in PropertiesOf(fields) <==> FieldFor(fields, key).Some?
    ensures FieldFor(fields, key).Some? ==>
              var f := fields[FieldFor(fields, key).value]; PropertiesOf(fields)[key] == Annotate(Build(f.typ), f)
  {
    if fields != [] && !ToolRoundTrip.Names(fields[|fields| - 1], key) {
      PropertyOfField(fields[..|fields| - 1], key);
    }
  }

  lemma NotesMeanNothing(s: Schema, notes: map<string, string>, v: Json)
    ensures Valid(s.(notes := notes), v) <==> Valid(s, v)
  {
  }

  lemma RequiredPresent(fields: seq<Field>, present: set<string>)
    ensures (forall k :: k in RequiredOf(fields) ==> k in present)
            <==> forall i :: 0 <= i < |fields| && Listable(fields[i]) && fields[i].required ==>
                   SchemaKey(fields[i]) in present
  {
    if forall k :: k in RequiredOf(fields) ==> k in present {
      forall i | 0 <= i < |fields| && Listable(fields[i]) && fields[i].required
        ensures SchemaKey(fields[i]) in present {
        ToolRoundTrip.RequiredFieldIsListed(fields, i, SchemaKey(fields[i]));
      }
    } else {
      var k :| k in RequiredOf(fields) && k !in present;
      var i := ToolRoundTrip.RequiredHasField(fields, k);
    }
  }

  /** A value is an instance of the schema built for a type exactly when it is of the
      type. */
  lemma {:induction false} BuildMeansType(t: GoType, v: Json)
    ensures Valid(Build(t), v) <==> IsOf(t, v)
    decreases v, t, 1
  {
    match t
    case GPointer(elem) => BuildMeansType(elem, v);
    case GList(elem) =>
      if v.Arr? {
        forall i | 0 <= i < |v.items| ensures Valid(Build(elem), v.items[i]) <==> IsOf(elem, v.items[i]) {
          BuildMeansType(elem, v.items[i]);
        }
      }
    case GMap(elem) =>
      if v.Obj? {
        forall k | k in v.fields ensures Valid(Build(elem), v.fields[k]) <==> IsOf(elem, v.fields[k]) {
          BuildMeansType(elem, v.fields[k]);
        }
      }
    case GStruct(fields) => StructMeansType(t, v);
    case _ =>
  }

  lemma {:induction false} StructMeansType(t: GoType, v: Json)
    requires t.GStruct?
    ensures Valid(Build(t), v) <==> IsOf(t, v)
    decreases v, t, 0
  {
    var fields := t.fields;
    ClosedObjectValid(Build(t), v);
    if v.Obj? {
      RequiredPresent(fields, v.fields.Keys);
      forall k | k in v.fields
        ensures k in PropertiesOf(fields) <==> FieldFor(fields, k).Some?
        ensures k in PropertiesOf(fields) ==>
                  (Valid(PropertiesOf(fields)[k], v.fields[k])
                   <==> IsOf(fields[FieldFor(fields, k).value].typ, v.fields[k]))
      {
        PropertyOfField(fields, k);
        if FieldFor(fields, k).Some? {
          var f := fields[FieldFor(fields, k).value];
          NotesMeanNothing(Build(f.typ), Notes(Build(f.typ).notes, f), v.fields[k]);
          BuildMeansType(f.typ, v.fields[k]);
        }
      }
    }
  }

  /** When the fields suit the schema and no nested object has an optional key, whatever
      the model sends under the strict schema reaches the handler as a value of its
      parameter type. */
  lemma HandlerGetsItsType(fields: seq<Field>, w: Json) returns (args: ToolArguments.Arguments)
    requires var s := Build(GStruct(fields));
             && Rewritable(s) && ToolRoundTrip.SlotsSuit(s, ToolArguments.Slots(fields))
             && (forall k :: k in Props(s) ==> ToolRoundTrip.NothingOptional(Props(s)[k]))
             && Valid(Strict(s), w)
    ensures w.Obj? && ToolArguments.NormalizeSlots(ToolArguments.Slots(fields), w.fields) == ToolArguments.Ok(args)
    ensures IsOf(GStruct(fields), Obj(args)) && Fill(Build(GStruct(fields)), Obj(args)) == w
  {
    var s := Build(GStruct(fields));
    BuildIsTidy(GStruct(fields));
    StripIsFaithful(s, w);
    var v := Strip(s, w);
    ToolRoundTrip.SuitableGivesBack(s, ToolArguments.Slots(fields), v);
    BuildMeansType(GStruct(fields), v);
    args := v.fields;
  }
}
