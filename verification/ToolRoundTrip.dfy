/** Schema and arguments together: what a model fills in for a strict tool is what
    the handler gets without, and exactly when. */
module ToolRoundTrip {
  import opened Wrappers
  import opened Text
  import opened JsonSchema
  import opened StrictSchema
  import opened ToolSchema
  import opened ToolArguments
  import StrictLoss

  predicate Names(f: Field, key: string) {
    Listable(f) && SchemaKey(f) == key
  }

  // ----- fields and properties -----

  predicate NamesRequired(f: Field, key: string) {
    Names(f, key) && f.required
  }

  lemma {:induction false} PropertyHasField(fields: seq<Field>, key: string)
    ensures key in PropertiesOf(fields) <==> exists i :: 0 <= i < |fields| && Names(fields[i], key)
  {
    if fields != [] {
      var n := |fields| - 1;
      PropertyHasField(fields[..n], key);
      assert forall i :: 0 <= i < n ==> fields[..n][i] == fields[i];
      assert key in PropertiesOf(fields) <==> key in PropertiesOf(fields[..n]) || Names(fields[n], key);
    }
  }

  lemma RequiredSnoc(fields: seq<Field>, key: string)
    requires fields != []
    ensures key in RequiredOf(fields)
            <==> key in RequiredOf(fields[..|fields| - 1]) || NamesRequired(fields[|fields| - 1], key)
  {
  }

  lemma {:induction false} RequiredHasField(fields: seq<Field>, key: string) returns (i: nat)
    requires key in RequiredOf(fields)
    ensures i < |fields| && NamesRequired(fields[i], key)
  {
    RequiredSnoc(fields, key);
    i := |fields| - 1;
    if !NamesRequired(fields[i], key) { i := RequiredHasField(fields[..i], key); }
  }

  lemma {:induction false} RequiredFieldIsListed(fields: seq<Field>, i: nat, key: string)
    requires i < |fields| && NamesRequired(fields[i], key)
    ensures key in RequiredOf(fields)
  {
    RequiredSnoc(fields, key);
    if i < |fields| - 1 { RequiredFieldIsListed(fields[..|fields| - 1], i, key); }
  }

  lemma {:induction false} FieldHasProperty(fields: seq<Field>, i: nat)
    requires i < |fields| && Listable(fields[i])
    requires forall j :: i < j < |fields| ==> !Names(fields[j], SchemaKey(fields[i]))
    ensures SchemaKey(fields[i]) in PropertiesOf(fields)
    ensures PropertiesOf(fields)[SchemaKey(fields[i])] == Annotate(Build(fields[i].typ), fields[i])
  {
    var n := |fields| - 1;
    if i < n {
      assert !Names(fields[n], SchemaKey(fields[i]));
      FieldHasProperty(fields[..n], i);
    }
  }

  // ----- arguments the strict schema accepts -----

  lemma {:induction false} CoerceKeeps(t: GoType, v: Json)
    requires TypeFits(Build(t).types, v) && !v.Null?
    ensures Coerce(v, t) == Some(v)
  {
    if t.GPointer? { CoerceKeeps(t.elem, v); }
  }

  lemma NullableTyped(s: Schema, v: Json)
    requires TypeFits(Nullable(s).types, v) && !v.Null?
    ensures TypeFits(s.types, v)
  {
  }

  lemma StrictMemberTyped(s: Schema, key: string, v: Json)
    requires Tidy(s) && s.properties.Properties? && key in Props(s) && Tidy(Props(s)[key])
    requires key in Props(Strict(s)) && TypeFits(Props(Strict(s))[key].types, v) && !v.Null?
    ensures TypeFits(Props(s)[key].types, v)
  {
    StrictObject(s);
    var p := Strict(Props(s)[key]);
    StrictKeepsType(Props(s)[key]);
    if key in OptionalKeys(s) { NullableTyped(p, v); }
  }

  lemma StrictMembersTyped(s: Schema, w: Json)
    requires Tidy(s) && s.properties.Properties? && Valid(Strict(s), w)
    ensures w.Obj? && w.fields.Keys == Props(s).Keys
    ensures forall k :: k in w.fields && !w.fields[k].Null? ==> TypeFits(Props(s)[k].types, w.fields[k])
  {
    StrictObject(s);
    ClosedObjectValid(Strict(s), w);
    forall k | k in w.fields && !w.fields[k].Null? ensures TypeFits(Props(s)[k].types, w.fields[k]) {
      assert Tidy(s.properties.schemas[k]);
      StrictMemberTyped(s, k, w.fields[k]);
    }
  }

  /** The optional members that are null. */
  function NullOptionals(s: Schema, args: Arguments): set<string> {
    set k | k in args && k in OptionalKeys(s) && args[k].Null?
  }

  /** What the fields must do with a property: let its null go when it is optional, leave
      it alone when it accepts anything, and make it a boolean only when it is one. */
  predicate SlotSuits(s: Schema, slots: seq<Slot>, k: string)
    requires k in Props(s)
  {
    && (k in OptionalKeys(s) ==> DropsNull(slots, k))
    && (Props(s)[k].types.None? ==> !HasSlot(slots, k))
    && (BooleanSlot(slots, k) ==> Props(s)[k].types == Some(One(ABoolean)))
  }

  predicate SlotsSuit(s: Schema, slots: seq<Slot>) {
    forall k :: k in Props(s) ==> SlotSuits(s, slots, k)
  }

  lemma SuitableSettles(s: Schema, slots: seq<Slot>, k: string, v: Json, gone: bool)
    requires k in Props(s) && SlotSuits(s, slots, k) && (gone <==> k in OptionalKeys(s) && v.Null?)
    requires v.Null? && !gone ==> Props(s)[k].types.None?
    requires !v.Null? ==> TypeFits(Props(s)[k].types, v)
    ensures Settles(slots, k, v, gone)
  {
  }

  /** Arguments valid for the strict schema of such fields come back without the nulls of
      their optional keys and otherwise unchanged, top level only. */
  lemma StrictArgumentsLoseNulls(s: Schema, slots: seq<Slot>, w: Json)
    requires Tidy(s) && s.properties.Properties? && SlotsSuit(s, slots) && Valid(Strict(s), w)
    ensures w.Obj? && NormalizeSlots(slots, w.fields) == Ok(w.fields - NullOptionals(s, w.fields))
  {
    StrictMembersTyped(s, w);
    var gone := NullOptionals(s, w.fields);
    forall k | k in w.fields ensures Settles(slots, k, w.fields[k], k in gone) {
      assert SlotSuits(s, slots, k);
      if w.fields[k].Null? && k !in gone { NullIsUntyped(s, k, w); }
      SuitableSettles(s, slots, k, w.fields[k], k in gone);
    }
    NormalizesTo(slots, w.fields, gone);
  }

  lemma StrictMemberValid(s: Schema, r: Schema, k: string, w: Json)
    requires Tidy(s) && s.properties.Properties? && r == Strict(s) && r.types == Some(One(AnObject))
    requires r.additional == Some(Closed) && Valid(r, w) && w.Obj? && k in w.fields && k in Props(r)
    ensures Valid(Props(r)[k], w.fields[k])
  {
    ClosedObjectValid(r, w);
  }

  lemma UntypedNull(p: Schema)
    requires Valid(p, Null) && (p.types.None? || (p.types.value.One? && p.types.value.word != ANull))
    ensures p.types.None?
  {
  }

  /** A required member is null only where anything is accepted. */
  lemma NullIsUntyped(s: Schema, k: string, w: Json)
    requires Tidy(s) && s.properties.Properties? && Valid(Strict(s), w) && w.Obj?
    requires k in Props(s) && k !in OptionalKeys(s) && k in w.fields && w.fields[k].Null?
    ensures Props(s)[k].types.None?
  {
    var r, p := Strict(s), Props(s)[k];
    StrictObject(s);
    assert Valid(Strict(p), Null) by { StrictMemberValid(s, r, k, w); }
    assert Tidy(p) by { assert Tidy(s.properties.schemas[k]); }
    StrictKeepsType(p);
    UntypedNull(Strict(p));
  }

  // ----- how deep the inverse reaches -----

  /** No object inside `v` omits an optional key. */
  predicate Full(s: Schema, v: Json)
    decreases v
  {
    match v
    case Obj(fields) =>
      OptionalKeys(s) <= fields.Keys && forall k :: k in fields && k in Props(s) ==> Full(Props(s)[k], fields[k])
    case Arr(items) => s.items.Some? ==> forall i :: 0 <= i < |items| ==> Full(s.items.value, items[i])
    case _ => true
  }

  lemma {:induction false} FullIffFilled(s: Schema, v: Json)
    ensures Full(s, v) <==> Fill(s, v) == v
    decreases v
  {
    match v
    case Obj(fields) =>
      var filled := Fill(s, v).fields;
      forall k | k in fields && k in Props(s) ensures Full(Props(s)[k], fields[k]) <==> filled[k] == fields[k] {
        FullIffFilled(Props(s)[k], fields[k]);
      }
      if Full(s, v) { assert filled == fields; }
      if filled == fields { assert forall k :: k in OptionalKeys(s) ==> k in filled; }
    case Arr(items) =>
      if s.items.Some? {
        var filled := Fill(s, v).items;
        forall i | 0 <= i < |items| ensures Full(s.items.value, items[i]) <==> filled[i] == items[i] {
          FullIffFilled(s.items.value, items[i]);
        }
        if Full(s, v) { assert filled == items; }
      }
    case _ =>
  }

  /** What `NormalizeUndoesFill` asks of one property of an instance. */
  predicate ComesBack(s: Schema, slots: seq<Slot>, fields: map<string, Json>, k: string)
    requires k in Props(s)
  {
    if k !in fields then DropsNull(slots, k)
    else if fields[k].Null? then !HasSlot(slots, k)
    else (BooleanSlot(slots, k) ==> fields[k].Bool?) && Full(Props(s)[k], fields[k])
  }

  lemma MemberComesBack(s: Schema, slots: seq<Slot>, fields: map<string, Json>, k: string, filled: Json)
    requires k in Props(s) && filled == if k in fields then Fill(Props(s)[k], fields[k]) else Null
    ensures ComesBack(s, slots, fields, k)
            <==> FateOf(slots, k, filled) == if k in fields then Kept(fields[k]) else Gone
  {
    if filled.Null? {
      FateOfNull(slots, k);
    } else {
      FateOfValue(slots, k, filled);
      FullIffFilled(Props(s)[k], fields[k]);
    }
  }

  /** What the model fills in for a strict tool, the normaliser takes out again: for any
      fields and any instance, exactly when the first field of each absent key lets its
      null go, no field touches a null that was there, boolean fields meet booleans, and
      no nested object omits an optional key. */
  lemma NormalizeUndoesFill(s: Schema, slots: seq<Slot>, v: Json)
    requires Tidy(s) && s.properties.Properties? && Valid(s, v)
    ensures v.Obj?
    ensures NormalizeSlots(slots, Fill(s, v).fields) == Ok(v.fields)
            <==> forall k :: k in Props(s) && (k in v.fields || k in OptionalKeys(s)) ==>
                   ComesBack(s, slots, v.fields, k)
  {
    ClosedObjectValid(s, v);
    var filled := Fill(s, v).fields;
    assert filled.Keys == v.fields.Keys + OptionalKeys(s);
    forall k | k in filled
      ensures ComesBack(s, slots, v.fields, k)
              <==> FateOf(slots, k, filled[k]) == if k in v.fields then Kept(v.fields[k]) else Gone
    {
      MemberComesBack(s, slots, v.fields, k, filled[k]);
    }
    if NormalizeSlots(slots, filled).Err? {
      var k := RefusedArgument(slots, filled);
      assert !ComesBack(s, slots, v.fields, k);
    } else {
      AcceptedIff(slots, filled, v.fields);
    }
  }

  // ----- for every instance -----

  /** No object at any depth may omit a key. */
  predicate NothingOptional(s: Schema)
    decreases s
  {
    && OptionalKeys(s) == {}
    && (match s.properties case NoProperties => true
        case Properties(schemas) => forall k :: k in schemas ==> NothingOptional(schemas[k]))
    && (s.items.Some? ==> NothingOptional(s.items.value))
  }

  lemma {:induction false} NothingOptionalIsFull(s: Schema, v: Json)
    requires NothingOptional(s)
    ensures Full(s, v)
    decreases v
  {
    match v
    case Obj(fields) =>
      forall k | k in fields && k in Props(s) ensures Full(Props(s)[k], fields[k]) {
        assert NothingOptional(s.properties.schemas[k]);
        NothingOptionalIsFull(Props(s)[k], fields[k]);
      }
    case Arr(items) =>
      if s.items.Some? {
        forall i | 0 <= i < |items|
          ensures Full(s.items.value, items[i]) { NothingOptionalIsFull(s.items.value, items[i]); }
      }
    case _ =>
  }

  /** Otherwise some instance omits one. */
  lemma {:induction false} SomethingOmitted(s: Schema) returns (v: Json)
    requires Tidy(s) && !NothingOptional(s)
    ensures Valid(s, v) && !Full(s, v)
    decreases s
  {
    if s.types == Some(One(AnArray)) {
      var item := SomethingOmitted(s.items.value);
      v := Arr([item]);
      StrictSchema.ArrayValid(s, v);
      assert v.items[0] == item;
    } else if key :| key in OptionalKeys(s) {
      StrictLoss.SampleIsValid(s);
      var all := StrictLoss.Sample(s);
      v := Obj(all.fields - {key});
      StrictLoss.WithoutIsValid(s, key, all);
    } else {
      var key :| key in s.properties.schemas && !NothingOptional(s.properties.schemas[key]);
      var member := SomethingOmitted(s.properties.schemas[key]);
      v := StrictLoss.With(s, key, member);
      StrictLoss.WithIsValid(s, key, member);
      assert v.fields[key] == member;
    }
  }

  /** The normaliser gives every instance back. */
  ghost predicate GivesBack(s: Schema, slots: seq<Slot>) {
    forall v :: Valid(s, v) ==> v.Obj? && NormalizeSlots(slots, Fill(s, v).fields) == Ok(v.fields)
  }

  lemma SuitableGivesBack(s: Schema, slots: seq<Slot>, v: Json)
    requires Tidy(s) && s.properties.Properties? && Valid(s, v)
    requires SlotsSuit(s, slots) && forall k :: k in Props(s) ==> NothingOptional(Props(s)[k])
    ensures v.Obj? && NormalizeSlots(slots, Fill(s, v).fields) == Ok(v.fields)
  {
    ClosedObjectValid(s, v);
    forall k | k in Props(s) && (k in v.fields || k in OptionalKeys(s)) ensures ComesBack(s, slots, v.fields, k) {
      assert SlotSuits(s, slots, k);
      assert Tidy(s.properties.schemas[k]);
      if k in v.fields { NothingOptionalIsFull(Props(s)[k], v.fields[k]); }
    }
    NormalizeUndoesFill(s, slots, v);
  }

  /** An instance that does not come back, for a property the fields do not suit. */
  lemma UnsuitableLoses(s: Schema, slots: seq<Slot>, k: string) returns (v: Json)
    requires Tidy(s) && s.properties.Properties? && k in Props(s)
    requires !SlotSuits(s, slots, k) || !NothingOptional(Props(s)[k])
    ensures Valid(s, v) && v.Obj? && (k in v.fields || k in OptionalKeys(s)) && !ComesBack(s, slots, v.fields, k)
  {
    var p := s.properties.schemas[k];
    StrictLoss.SampleIsValid(s);
    var all := StrictLoss.Sample(s);
    if k in OptionalKeys(s) && !DropsNull(slots, k) {
      v := Obj(all.fields - {k});
      StrictLoss.WithoutIsValid(s, k, all);
    } else if p.types.None? && HasSlot(slots, k) {
      v := StrictLoss.With(s, k, Null);
      StrictLoss.WithIsValid(s, k, Null);
      assert v.fields[k] == Null;
    } else if !NothingOptional(p) {
      var member := SomethingOmitted(p);
      v := StrictLoss.With(s, k, member);
      StrictLoss.WithIsValid(s, k, member);
      assert v.fields[k] == member;
    } else {
      BooleanSlotIsSlot(slots, k);
      StrictLoss.SampleIsValid(p);
      v := StrictLoss.With(s, k, StrictLoss.Sample(p));
      StrictLoss.WithIsValid(s, k, StrictLoss.Sample(p));
      assert v.fields[k] == StrictLoss.Sample(p) && !v.fields[k].Null? && !v.fields[k].Bool?;
    }
  }

  lemma {:induction false} BooleanSlotIsSlot(slots: seq<Slot>, k: string)
    ensures BooleanSlot(slots, k) ==> HasSlot(slots, k)
  {
    if slots != [] { BooleanSlotIsSlot(slots[1..], k); }
  }

  /** Whatever the fields: every instance comes back exactly when the fields suit every
      property and no nested object has an optional key. */
  lemma GivesBackIff(s: Schema, slots: seq<Slot>)
    requires Tidy(s) && s.properties.Properties?
    ensures GivesBack(s, slots) <==> SlotsSuit(s, slots) && forall k :: k in Props(s) ==> NothingOptional(Props(s)[k])
  {
    if SlotsSuit(s, slots) && forall k :: k in Props(s) ==> NothingOptional(Props(s)[k]) {
      forall v | Valid(s, v) ensures v.Obj? && NormalizeSlots(slots, Fill(s, v).fields) == Ok(v.fields) {
        SuitableGivesBack(s, slots, v);
      }
    } else {
      var k :| k in Props(s) && (!SlotSuits(s, slots, k) || !NothingOptional(Props(s)[k]));
      var v := UnsuitableLoses(s, slots, k);
      NormalizeUndoesFill(s, slots, v);
    }
  }

  lemma OneListed(f: Field)
    requires Listable(f)
    ensures PropertiesOf([f]) == map[SchemaKey(f) := Annotate(Build(f.typ), f)]
    ensures RequiredOf([f]) == if f.required then [SchemaKey(f)] else []
  {
    assert [f][..0] == [];
    assert PropertiesOf([f][..0]) == map[] && RequiredOf([f][..0]) == [];
  }

  lemma OneField(f: Field)
    requires f.tag == "" && !f.hidden
    ensures ArgumentKey(f) == SchemaKey(f) == f.name
    ensures PropertiesOf([f]) == map[f.name := Annotate(Build(f.typ), f)]
    ensures RequiredOf([f]) == if f.required then [f.name] else []
  {
    assert Trim("") == "";
    OneListed(f);
  }

  const INNER := Field("Inner", false, "", false, "", "", GString)
  const OUTER := Field("Outer", false, "", true, "", "", GStruct([INNER]))

  lemma NestedSchema()
    ensures var s, nested := Build(GStruct([OUTER])), Build(OUTER.typ);
            && Rewritable(s) && Props(s).Keys == {"Outer"} && Listed(s) == ["Outer"]
            && OptionalKeys(nested) == {"Inner"} && Listed(nested) == []
            && forall v :: Valid(Props(s)["Outer"], v) <==> Valid(nested, v)
  {
    OneField(INNER);
    OneField(OUTER);
    assert Rewritable(Build(OUTER.typ));
  }

  /** An instance the normaliser does not give back: the null filled into a nested
      object stays there. */
  lemma NestedNullStays(v: Json)
    requires v == Obj(map["Outer" := Obj(map[])])
    ensures Valid(Build(GStruct([OUTER])), v)
    ensures NormalizeSlots(Slots([OUTER]), Fill(Build(GStruct([OUTER])), v).fields) != Ok(v.fields)
  {
    var s, nested := Build(GStruct([OUTER])), Build(OUTER.typ);
    OneField(OUTER);
    NestedSchema();
    ClosedObjectValid(nested, Obj(map[]));
    ClosedObjectValid(s, v);
    assert OptionalKeys(Props(s)["Outer"]) == OptionalKeys(nested);
    assert "Inner" in OptionalKeys(nested);
    assert !Full(Props(s)["Outer"], v.fields["Outer"]);
    assert !ComesBack(s, Slots([OUTER]), v.fields, "Outer");
    BuildIsTidy(GStruct([OUTER]));
    NormalizeUndoesFill(s, Slots([OUTER]), v);
  }

  // ----- a field whose argument has another name -----

  const MISNAMED := Field("F", false, " f", false, "", "", GString)

  lemma MisnamedKeys()
    ensures SchemaKey(MISNAMED) == "f" && ArgumentKey(MISNAMED) == " f"
  {
    var tag := " f";
    assert IsSpace(' ') && !IsSpace('f');
    assert TrimLeft(tag) == TrimLeft(tag[1..]) == "f";
    assert Trim(tag) == "f";
    assert Trimmed("f") && BeforeComma("f") == ['f'] + BeforeComma("f"[1..]) == "f";
    assert BeforeComma(tag) == [' '] + BeforeComma(tag[1..]) && tag[1..] == "f";
  }

  lemma MisnamedSchema()
    ensures var s := Build(GStruct([MISNAMED]));
            Tidy(s) && s.properties.Properties? && Rewritable(s) && Flat(s) && OptionalKeys(s) == {"f"}
              && Listed(s) == []
  {
    MisnamedKeys();
    OneListed(MISNAMED);
    BuildIsTidy(GStruct([MISNAMED]));
  }

  lemma MisnamedSlot()
    ensures !DropsNull(Slots([MISNAMED]), "f")
  {
    MisnamedKeys();
    var slots := Slots([MISNAMED]);
    assert slots[0] == SlotOf(MISNAMED) && slots[0].key[0] == ' ' && slots[1..] == [];
    assert !Owns(slots[0], "f") && !DropsNull(slots[1..], "f");
  }

  /** The schema's name is trimmed and the argument's is not: the null filled in for the
      one is never taken out under the other. */
  lemma MisnamedNullStays()
    ensures var s := Build(GStruct([MISNAMED]));
            && Rewritable(s) && Flat(s) && Valid(s, Obj(map[]))
            && NormalizeSlots(Slots([MISNAMED]), Fill(s, Obj(map[])).fields) != Ok(map[])
  {
    MisnamedSchema();
    MisnamedSlot();
    AbsentStays(Build(GStruct([MISNAMED])), Slots([MISNAMED]), "f");
  }

  lemma AbsentStays(s: Schema, slots: seq<Slot>, k: string)
    requires Tidy(s) && s.properties.Properties? && k in OptionalKeys(s) && !DropsNull(slots, k) && Listed(s) == []
    ensures Valid(s, Obj(map[])) && NormalizeSlots(slots, Fill(s, Obj(map[])).fields) != Ok(map[])
  {
    ClosedObjectValid(s, Obj(map[]));
    assert !ComesBack(s, slots, map[], k);
    NormalizeUndoesFill(s, slots, Obj(map[]));
  }

  // ----- flat parameters -----

  /** Scalars and lists of them. */
  predicate Flat(s: Schema) {
    && (forall k :: k in Props(s) ==> NothingOptional(Props(s)[k]))
    && (forall k :: k in Props(s) ==> Typed(Props(s)[k]) && Props(s)[k].types.value.word != AnObject)
  }

  /** No two fields share a name, in the schema or in the arguments. */
  predicate DistinctNames(fields: seq<Field>) {
    forall i, j :: 0 <= i < j < |fields| ==>
      && (SchemaKey(fields[i]) != "" ==> SchemaKey(fields[i]) != SchemaKey(fields[j]))
      && (ArgumentKey(fields[i]) != "" ==> ArgumentKey(fields[i]) != ArgumentKey(fields[j]))
  }

  lemma {:induction false} BeforeCommaOfPrefix(tag: string)
    requires tag != "" && IsSpace(tag[|tag| - 1]) && BeforeComma(tag) != tag
    ensures BeforeComma(tag[..|tag| - 1]) == BeforeComma(tag)
  {
    if tag[0] != ',' {
      var n := |tag| - 1;
      assert tag == [tag[0]] + tag[1..];
      if n > 0 {
        assert tag[..n][1..] == tag[1..][..n - 1];
        BeforeCommaOfPrefix(tag[1..]);
      }
    }
  }

  lemma {:induction false} BeforeCommaOfTrimmed(tag: string)
    requires BeforeComma(tag) != "" && Trimmed(BeforeComma(tag))
    ensures BeforeComma(TrimRight(tag)) == BeforeComma(tag)
  {
    if IsSpace(tag[|tag| - 1]) {
      BeforeCommaOfPrefix(tag);
      BeforeCommaOfTrimmed(tag[..|tag| - 1]);
    }
  }

  lemma {:induction false} BeforeCommaIsPrefix(tag: string)
    ensures BeforeComma(tag) <= tag
    ensures BeforeComma(tag) != tag ==> |BeforeComma(tag)| < |tag| && tag[|BeforeComma(tag)|] == ','
  {
    if tag != "" && tag[0] != ',' {
      BeforeCommaIsPrefix(tag[1..]);
      assert tag == [tag[0]] + tag[1..];
    }
  }

  /** Where the two names of a field differ, the argument's has blanks at an end. */
  lemma TrimmedNamesAgree(f: Field)
    requires ArgumentKey(f) != "" && Trimmed(ArgumentKey(f))
    ensures SchemaKey(f) == ArgumentKey(f)
  {
    var key := BeforeComma(f.tag);
    assert Trim("") == "";
    if f.tag != "" {
      BeforeCommaIsPrefix(f.tag);
      if key == "" {
        CommaFirst(f.tag);
      } else {
        assert f.tag[0] == key[0] && TrimLeft(f.tag) == f.tag;
        BeforeCommaOfTrimmed(f.tag);
        assert BeforeComma(Trim(f.tag)) == key && Trim(key) == key;
        assert Trim(f.tag) != "-" by { if Trim(f.tag) == "-" { DashOnly(f.tag); } }
      }
    }
  }

  lemma {:induction false} TrimRightKeeps(s: string, i: nat)
    requires i < |s| && !IsSpace(s[i])
    ensures |TrimRight(s)| > i
  {
    if IsSpace(s[|s| - 1]) { TrimRightKeeps(s[..|s| - 1], i); }
  }

  lemma CommaFirst(tag: string)
    requires tag != "" && BeforeComma(tag) == ""
    ensures Trim(tag) != "-" && Trim(tag) != "" && BeforeComma(Trim(tag)) == ""
  {
    assert tag[0] == ',' && TrimLeft(tag) == tag;
    TrimRightKeeps(tag, 0);
    assert Trim(tag)[0] == ',';
  }

  /** A tag that is a dash and blanks has no comma, so its name is the tag. */
  lemma DashOnly(tag: string)
    requires TrimLeft(tag) == tag && Trim(tag) == "-" && Trimmed(BeforeComma(tag)) && BeforeComma(tag) != ""
    ensures tag == "-"
  {
    BeforeCommaOfTrimmed(tag);
    assert BeforeComma("-") == ['-'] + BeforeComma("-"[1..]) == "-";
    BeforeCommaIsPrefix(tag);
    if BeforeComma(tag) != tag { TrimRightKeeps(tag, 1); }
  }

  /** The one field behind a property. */
  lemma FieldOf(fields: seq<Field>, key: string) returns (i: nat)
    requires DistinctNames(fields) && key in PropertiesOf(fields)
    ensures i < |fields| && Names(fields[i], key) && key != "" && Trimmed(key)
    ensures PropertiesOf(fields)[key] == Annotate(Build(fields[i].typ), fields[i])
    ensures key in RequiredOf(fields) <==> fields[i].required
    ensures forall j :: 0 <= j < |fields| && SchemaKey(fields[j]) == key ==> j == i
  {
    PropertyHasField(fields, key);
    i :| 0 <= i < |fields| && Names(fields[i], key);
    OneName(fields, key, i);
    RequiredIff(fields, key, i);
    FieldHasProperty(fields, i);
  }

  lemma OneName(fields: seq<Field>, key: string, i: nat)
    requires DistinctNames(fields) && i < |fields| && SchemaKey(fields[i]) == key != ""
    ensures forall j :: 0 <= j < |fields| && SchemaKey(fields[j]) == key ==> j == i
  {
  }

  lemma RequiredIff(fields: seq<Field>, key: string, i: nat)
    requires i < |fields| && Names(fields[i], key)
    requires forall j :: 0 <= j < |fields| && SchemaKey(fields[j]) == key ==> j == i
    ensures key in RequiredOf(fields) <==> fields[i].required
  {
    if fields[i].required { RequiredFieldIsListed(fields, i, key); }
    if key in RequiredOf(fields) { var j := RequiredHasField(fields, key); }
  }

  lemma {:induction false} BooleanSlotAt(fields: seq<Field>, key: string) returns (i: nat)
    requires BooleanSlot(Slots(fields), key)
    ensures i < |fields| && ArgumentKey(fields[i]) == key != "" && IsBoolean(fields[i].typ)
    decreases |fields|
  {
    assert Slots(fields)[0] == SlotOf(fields[0]) && Slots(fields)[1..] == Slots(fields[1..]);
    i := 0;
    if ArgumentKey(fields[0]) != key || key == "" || !IsBoolean(fields[0].typ) {
      i := BooleanSlotAt(fields[1..], key);
      i := i + 1;
    }
  }

  lemma {:induction false} DropsNullAt(fields: seq<Field>, key: string) returns (i: nat)
    requires DropsNull(Slots(fields), key)
    ensures i < |fields| && ArgumentKey(fields[i]) == key != "" && !fields[i].required
    decreases |fields|
  {
    assert Slots(fields)[0] == SlotOf(fields[0]) && Slots(fields)[1..] == Slots(fields[1..]);
    i := 0;
    if ArgumentKey(fields[0]) != key || key == "" {
      i := DropsNullAt(fields[1..], key);
      i := i + 1;
    }
  }

  lemma {:induction false} DropsNullFrom(fields: seq<Field>, i: nat)
    requires i < |fields| && ArgumentKey(fields[i]) != "" && !fields[i].required
    requires forall j :: 0 <= j < i ==> ArgumentKey(fields[j]) != ArgumentKey(fields[i])
    ensures DropsNull(Slots(fields), ArgumentKey(fields[i]))
    decreases i
  {
    assert Slots(fields)[0] == SlotOf(fields[0]) && Slots(fields)[1..] == Slots(fields[1..]);
    if i > 0 {
      assert fields[1..][i - 1] == fields[i];
      assert forall j :: 0 <= j < i - 1 ==> fields[1..][j] == fields[j + 1];
      DropsNullFrom(fields[1..], i - 1);
    }
  }

  lemma {:induction false} BooleanBuild(t: GoType)
    requires IsBoolean(t)
    ensures Build(t).types == Some(One(ABoolean))
  {
    if t.GPointer? { BooleanBuild(t.elem); }
  }

  lemma BooleanSlotIsBoolean(fields: seq<Field>, key: string)
    requires DistinctNames(fields) && key in PropertiesOf(fields) && BooleanSlot(Slots(fields), key)
    ensures PropertiesOf(fields)[key].types == Some(One(ABoolean))
  {
    var i := FieldOf(fields, key);
    var j := BooleanSlotAt(fields, key);
    TrimmedNamesAgree(fields[j]);
    assert i == j;
    BooleanBuild(fields[i].typ);
  }

  lemma NullDroppedIff(fields: seq<Field>, key: string, i: nat)
    requires DistinctNames(fields) && i < |fields| && Names(fields[i], key) && !fields[i].required && Trimmed(key)
             && key != ""
    ensures DropsNull(Slots(fields), key) <==> ArgumentKey(fields[i]) == key
  {
    if DropsNull(Slots(fields), key) {
      var j := DropsNullAt(fields, key);
      TrimmedNamesAgree(fields[j]);
      assert i == j;
    }
    if ArgumentKey(fields[i]) == key { DropsNullFrom(fields, i); }
  }

  /** Every optional field names its argument the way the schema does. */
  predicate OptionalNamesAgree(fields: seq<Field>) {
    forall i :: 0 <= i < |fields| && Listable(fields[i]) && !fields[i].required
      ==> ArgumentKey(fields[i]) == SchemaKey(fields[i])
  }

  lemma OptionalSuits(fields: seq<Field>, s: Schema)
    requires DistinctNames(fields) && Props(s) == PropertiesOf(fields) && Listed(s) == RequiredOf(fields)
    ensures (forall k :: k in OptionalKeys(s) ==> DropsNull(Slots(fields), k)) <==> OptionalNamesAgree(fields)
  {
    forall k | k in OptionalKeys(s) && OptionalNamesAgree(fields) ensures DropsNull(Slots(fields), k) {
      var i := FieldOf(fields, k);
      NullDroppedIff(fields, k, i);
    }
    if forall k :: k in OptionalKeys(s) ==> DropsNull(Slots(fields), k) {
      forall i | 0 <= i < |fields| && Listable(fields[i]) && !fields[i].required
        ensures ArgumentKey(fields[i]) == SchemaKey(fields[i])
      {
        var k := SchemaKey(fields[i]);
        assert Names(fields[i], k);
        PropertyHasField(fields, k);
        var j := FieldOf(fields, k);
        assert i == j && k in OptionalKeys(s);
        NullDroppedIff(fields, k, i);
      }
    }
  }

  /** For parameters of scalars and lists whose fields have names of their own, the
      normaliser is the inverse of the filling on every instance, and refuses none,
      exactly when the optional fields' names agree. */
  lemma FlatArgumentsRoundTrip(fields: seq<Field>)
    requires DistinctNames(fields) && Flat(Build(GStruct(fields)))
    ensures GivesBack(Build(GStruct(fields)), Slots(fields)) <==> OptionalNamesAgree(fields)
  {
    var s := Build(GStruct(fields));
    BuildIsTidy(GStruct(fields));
    GivesBackIff(s, Slots(fields));
    OptionalSuits(fields, s);
    forall k | k in Props(s)
      ensures SlotSuits(s, Slots(fields), k) <==> (k in OptionalKeys(s) ==> DropsNull(Slots(fields), k)) {
      if BooleanSlot(Slots(fields), k) { BooleanSlotIsBoolean(fields, k); }
    }
  }

  // ----- whole tools -----

  /** A tool's strict schema keeps the meaning of its parameters exactly when they
      hold no map and no optional field of any type. */
  lemma ToolSchemaIsLossless(t: GoType)
    ensures StrictLoss.Lossless(Build(t)) <==> Rewritable(Build(t))
  {
    BuildIsTidy(t);
    StrictLoss.LosslessIffRewritable(Build(t));
  }
}
