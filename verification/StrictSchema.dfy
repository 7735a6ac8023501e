/** `normalizeCodexJSONSchema`: every object closed, every property required, optional
    ones nullable; and exactly when that keeps the meaning of a schema. */
module StrictSchema {
  import opened Wrappers
  import opened JsonSchema
  import opened Text
  import Sorting

  // ----- sorted keys -----

  predicate Ascending(xs: seq<string>) {
    forall i, j :: 0 <= i < j < |xs| ==> Less(xs[i], xs[j])
  }

  /** `Less` as a function value. */
  function Alphabetic(): (string, string) -> bool {
    (a: string, b: string) => Less(a, b)
  }

  lemma AlphabeticOrders(keys: set<string>)
    ensures Sorting.Orders(Alphabetic(), keys)
  {
    forall a, b ensures Less(a, b) || a == b || Less(b, a)
                ensures !(Less(a, b) && Less(b, a)) {
      LessTotal(a, b);
    }
    forall a, b, c | Less(a, b) && Less(b, c) ensures Less(a, c) { LessTransitive(a, b, c); }
  }

  function InsertKey(xs: seq<string>, key: string): (r: seq<string>)
    requires Ascending(xs) && key !in xs
    ensures Ascending(r) && forall k :: k in r <==> k in xs || k == key
  {
    ghost var keys := set k | k in xs + [key];
    AlphabeticOrders(keys);
    Sorting.Insert(Alphabetic(), xs, key, keys)
  }

  /** Go's `sort.Strings` on the keys of a map. */
  ghost function SortedKeys(keys: set<string>): (r: seq<string>)
    ensures Ascending(r) && forall k :: k in r <==> k in keys
  {
    if keys == {} then []
    else
      var k :| k in keys;
      InsertKey(SortedKeys(keys - {k}), k)
  }

  /** The listed keys that name a property: trimmed, without repetition, in
      their first order. */
  function RequiredKeys(raw: seq<string>, keys: set<string>): (r: seq<string>) {
    if raw == [] then []
    else
      var rest := RequiredKeys(raw[..|raw| - 1], keys);
      var key := Trim(raw[|raw| - 1]);
      if key == "" || key !in keys || key in rest then rest else rest + [key]
  }

  // ----- the rewrite -----

  function Nullable(s: Schema): Schema {
    match s.types
    case None =>
      if s.properties.Properties? then s.(types := Some(Many([AnObject, ANull])))
      else if s.items.Some? then s.(types := Some(Many([AnArray, ANull])))
      else s
    case Some(One(word)) => if word == ANull then s else s.(types := Some(Many([word, ANull])))
    case Some(Many(words)) => if ANull in words then s else s.(types := Some(Many(words + [ANull])))
  }

  predicate IsObject(s: Schema) {
    s.types == Some(One(AnObject)) || s.properties.Properties?
  }

  /** The schema an object schema is closed to; `props` its rewritten properties. */
  ghost function CloseObject(s: Schema, props: map<string, Schema>, strict: bool): Schema {
    var required := RequiredKeys(Listed(s), props.Keys);
    s.(types := if s.types.Some? && s.types.value.One? then s.types else Some(One(AnObject)),
       properties := Properties(if strict then map k | k in props ::
                                               if k in required then props[k] else Nullable(props[k])
                                else props),
       required := Some(if strict then SortedKeys(props.Keys) else required),
       additional := Some(Closed))
  }

  /** The rewrite, strict or not, of a whole schema. */
  ghost function Normalize(s: Schema, strict: bool): Schema
    decreases s
  {
    var o := if IsObject(s) then CloseObject(s, NormalizeAll(s.properties, strict), strict) else s;
    match s.items
    case Some(items) => o.(items := Some(Normalize(items, strict)))
    case None => if s.types == Some(One(AnArray)) then o.(items := Some(EMPTY)) else o
  }

  ghost function NormalizeAll(p: Properties, strict: bool): map<string, Schema>
    decreases p
  {
    match p
    case NoProperties => map[]
    case Properties(schemas) => map k | k in schemas :: Normalize(schemas[k], strict)
  }

  ghost function Strict(s: Schema): Schema {
    Normalize(s, true)
  }

  // ----- the schemas tool definitions are made of -----

  predicate IsScalar(word: Word) {
    word in {AString, ABoolean, AnInteger, ANumber}
  }

  /** No keyword but the type and the annotations. */
  predicate Bare(s: Schema) {
    s.properties.NoProperties? && s.required.None? && s.additional.None? && s.items.None?
  }

  /** The required keys are properties; a key is never blank at its ends. */
  predicate KeysAgree(s: Schema) {
    && s.required.Some?
    && forall k :: k in s.required.value ==> k in Props(s) && Trimmed(k) && k != ""
  }

  /** Untyped, a scalar, an array, a map or a closed object. */
  predicate Tidy(s: Schema)
    decreases s
  {
    match s.types
    case None => Bare(s)
    case Some(Many(_)) => false
    case Some(One(AnArray)) =>
      s.items.Some? && Tidy(s.items.value) && Bare(s.(items := None))
    case Some(One(AnObject)) =>
      && s.items.None?
      && (match s.properties
          case NoProperties =>
            s.required.None? && s.additional.Some? && !s.additional.value.Closed?
            && (s.additional.value.Of? ==> Tidy(s.additional.value.schema))
          case Properties(schemas) =>
            s.additional == Some(Closed) && KeysAgree(s) && forall k :: k in schemas ==> Tidy(schemas[k]))
    case Some(One(word)) => IsScalar(word) && Bare(s)
  }

  /** No map anywhere, and no optional property that accepts anything. */
  predicate Rewritable(s: Schema)
    decreases s
  {
    && (s.types == Some(One(AnObject)) ==> s.properties.Properties?)
    && (match s.properties
        case NoProperties => true
        case Properties(schemas) =>
          && (forall k :: k in schemas ==> Rewritable(schemas[k]))
          && (forall k :: k in schemas && k in OptionalKeys(s) ==> schemas[k].types.Some?))
    && (s.items.Some? ==> Rewritable(s.items.value))
  }

  lemma {:induction false} RequiredKeysListed(raw: seq<string>, keys: set<string>, key: string)
    ensures key in RequiredKeys(raw, keys)
            <==> key != "" && key in keys && exists i :: 0 <= i < |raw| && Trim(raw[i]) == key
  {
    if raw != [] {
      RequiredKeysListed(raw[..|raw| - 1], keys, key);
      assert forall i :: 0 <= i < |raw| - 1 ==> raw[..|raw| - 1][i] == raw[i];
    }
  }

  lemma AgreedKeysListed(s: Schema, key: string)
    requires KeysAgree(s)
    ensures key in RequiredKeys(Listed(s), Props(s).Keys) <==> key in Listed(s)
  {
    RequiredKeysListed(Listed(s), Props(s).Keys, key);
    var raw := Listed(s);
    forall i | 0 <= i < |raw| ensures Trim(raw[i]) == raw[i] && raw[i] != "" && raw[i] in Props(s) {
      assert raw[i] in s.required.value;
    }
  }

  /** The strict form of a closed object. */
  lemma StrictObject(s: Schema)
    requires Tidy(s) && s.properties.Properties?
    ensures var r := Strict(s);
            && r.types == s.types && r.additional == Some(Closed) && r.items == None
            && Props(r).Keys == Props(s).Keys
            && (forall k :: k in Listed(r) <==> k in Props(s))
            && (forall k :: k in Props(s) ==>
                  Props(r)[k] == if k in OptionalKeys(s) then Nullable(Strict(Props(s)[k])) else Strict(Props(s)[k]))
  {
    var props := NormalizeAll(s.properties, true);
    assert props.Keys == Props(s).Keys;
    forall k | k in Props(s)
      ensures k in RequiredKeys(Listed(s), props.Keys) <==> k !in OptionalKeys(s)
    {
      AgreedKeysListed(s, k);
    }
  }

  /** The strict form of anything else that is tidy and not a map. */
  lemma StrictOther(s: Schema)
    requires Tidy(s) && s.properties.NoProperties? && s.types != Some(One(AnObject))
    ensures s.items.None? ==> Strict(s) == s
    ensures s.items.Some? ==> Strict(s) == s.(items := Some(Strict(s.items.value)))
  {
  }

  lemma StrictKeepsType(s: Schema)
    requires Tidy(s)
    ensures Strict(s).types == s.types
  {
    if s.properties.Properties? { StrictObject(s); }
  }

  lemma NullableAddsNull(s: Schema, v: Json)
    requires s.types.Some? && s.types.value.One? && s.types.value.word != ANull
    ensures Valid(Nullable(s), v) <==> v.Null? || Valid(s, v)
  {
    var word := s.types.value.word;
    assert TypeFits(Nullable(s).types, v) <==> v.Null? || HasType(v, word) by {
      assert word in [word, ANull] && ANull in [word, ANull];
    }
  }

  // ----- the rewrite is a bijection on instances -----

  /** What a closed object schema asks of the members of an instance. */
  ghost predicate MembersFit(s: Schema, fields: map<string, Json>) {
    && (forall k :: k in Listed(s) ==> k in fields)
    && (forall k :: k in fields ==> k in Props(s) && Valid(Props(s)[k], fields[k]))
  }

  lemma ClosedObjectValid(s: Schema, v: Json)
    requires s.types == Some(One(AnObject)) && s.additional == Some(Closed)
    ensures Valid(s, v) <==> v.Obj? && MembersFit(s, v.fields)
  {
  }

  lemma ArrayValid(s: Schema, v: Json)
    requires s.types == Some(One(AnArray)) && s.items.Some?
    ensures Valid(s, v) <==> v.Arr? && forall i :: 0 <= i < |v.items| ==> Valid(s.items.value, v.items[i])
  {
  }

  /** Outside objects and arrays the rewrite, filling and stripping do nothing. */
  lemma OtherValid(s: Schema, v: Json)
    requires Tidy(s) && s.types != Some(One(AnObject)) && s.types != Some(One(AnArray))
    ensures Strict(s) == s && Fill(s, v) == v && Strip(s, v) == v
  {
    StrictOther(s);
    if v.Obj? { assert Fill(s, v).fields == v.fields && Strip(s, v).fields == v.fields; }
  }

  /** `r` is `s` closed over the rewritten properties `props`. */
  ghost predicate ClosedOver(s: Schema, r: Schema, props: map<string, Schema>) {
    && s.types == r.types == Some(One(AnObject)) && s.additional == r.additional == Some(Closed)
    && Props(r).Keys == props.Keys == Props(s).Keys
    && (forall k :: k in Listed(s) ==> k in Props(s))
    && (forall k :: k in Listed(r) <==> k in Props(s))
    && (forall k :: k in props ==> Props(r)[k] == if k in OptionalKeys(s) then Nullable(props[k]) else props[k])
    && (forall k :: k in OptionalKeys(s) ==> Typed(props[k]) && Typed(Props(s)[k]))
  }

  predicate Typed(s: Schema) {
    s.types.Some? && s.types.value.One? && s.types.value.word != ANull
  }

  lemma MemberValid(s: Schema, r: Schema, props: map<string, Schema>, k: string, w: Json)
    requires ClosedOver(s, r, props) && k in props
    ensures Valid(Props(r)[k], w) <==> (k in OptionalKeys(s) && w.Null?) || Valid(props[k], w)
    ensures k in OptionalKeys(s) ==> !Valid(Props(s)[k], Null)
  {
    if k in OptionalKeys(s) { NullableAddsNull(props[k], w); }
  }

  lemma FilledMembersFit(s: Schema, r: Schema, props: map<string, Schema>, fields: map<string, Json>,
                         filled: map<string, Json>)
    requires ClosedOver(s, r, props) && MembersFit(s, fields) && filled.Keys == Props(s).Keys
    requires forall k :: k in filled ==> if k in fields then Valid(props[k], filled[k]) else filled[k].Null?
    ensures MembersFit(r, filled)
  {
    forall k | k in filled ensures k in Props(r) && Valid(Props(r)[k], filled[k]) {
      MemberValid(s, r, props, k, filled[k]);
    }
  }

  /** Stripping undoes what filled the members. */
  lemma StripFilled(s: Schema, fields: map<string, Json>, filled: map<string, Json>)
    requires filled.Keys == Props(s).Keys >= fields.Keys
    requires forall k :: k in fields ==>
               Strip(Props(s)[k], filled[k]) == fields[k] && (k in OptionalKeys(s) ==> !filled[k].Null?)
    requires forall k :: k in filled && k !in fields ==> k in OptionalKeys(s) && filled[k].Null?
    ensures Strip(s, Obj(filled)) == Obj(fields)
  {
    var r := Strip(s, Obj(filled)).fields;
    assert r.Keys == fields.Keys;
    assert forall k :: k in fields ==> r[k] == fields[k];
    assert r == fields;
  }

  lemma FillMembers(s: Schema, r: Schema, props: map<string, Schema>, v: Json)
    requires ClosedOver(s, r, props) && v.Obj? && MembersFit(s, v.fields)
    requires forall k :: k in v.fields ==> Valid(props[k], Fill(Props(s)[k], v.fields[k]))
                                           && Strip(Props(s)[k], Fill(Props(s)[k], v.fields[k])) == v.fields[k]
    ensures Fill(s, v).Obj? && MembersFit(r, Fill(s, v).fields) && Strip(s, Fill(s, v)) == v
  {
    var filled := Fill(s, v).fields;
    assert filled.Keys == Props(s).Keys;
    forall k | k in v.fields && k in OptionalKeys(s) ensures !filled[k].Null? {
      MemberValid(s, r, props, k, filled[k]);
    }
    FilledMembersFit(s, r, props, v.fields, filled);
    StripFilled(s, v.fields, filled);
  }

  lemma StrippedMembersFit(s: Schema, r: Schema, props: map<string, Schema>, fields: map<string, Json>,
                           stripped: map<string, Json>)
    requires ClosedOver(s, r, props) && MembersFit(r, fields)
    requires stripped.Keys == set k | k in fields && !(k in OptionalKeys(s) && fields[k].Null?)
    requires forall k :: k in stripped && Valid(props[k], fields[k]) ==> Valid(Props(s)[k], stripped[k])
    ensures MembersFit(s, stripped)
  {
    forall k | k in stripped ensures k in Props(s) && Valid(Props(s)[k], stripped[k]) {
      MemberValid(s, r, props, k, fields[k]);
    }
  }

  /** Filling undoes what stripped the members. */
  lemma FillStripped(s: Schema, fields: map<string, Json>, stripped: map<string, Json>)
    requires fields.Keys == Props(s).Keys
    requires stripped.Keys == set k | k in fields && !(k in OptionalKeys(s) && fields[k].Null?)
    requires forall k :: k in stripped ==> Fill(Props(s)[k], stripped[k]) == fields[k]
    ensures Fill(s, Obj(stripped)) == Obj(fields)
  {
    var r := Fill(s, Obj(stripped)).fields;
    assert r.Keys == fields.Keys;
    assert forall k :: k in fields ==> r[k] == fields[k];
    assert r == fields;
  }

  lemma StripMembers(s: Schema, r: Schema, props: map<string, Schema>, w: Json)
    requires ClosedOver(s, r, props) && w.Obj? && MembersFit(r, w.fields)
    requires forall k :: k in w.fields && Valid(props[k], w.fields[k]) ==>
                           Valid(Props(s)[k], Strip(Props(s)[k], w.fields[k]))
                           && Fill(Props(s)[k], Strip(Props(s)[k], w.fields[k])) == w.fields[k]
    ensures Strip(s, w).Obj? && MembersFit(s, Strip(s, w).fields) && Fill(s, Strip(s, w)) == w
  {
    var stripped := Strip(s, w).fields;
    StrippedMembersFit(s, r, props, w.fields, stripped);
    forall k | k in stripped ensures Fill(Props(s)[k], stripped[k]) == w.fields[k] {
      MemberValid(s, r, props, k, w.fields[k]);
    }
    FillStripped(s, w.fields, stripped);
  }

  /** The rewritten properties of an object, before any is made nullable. */
  ghost function StrictProps(s: Schema): map<string, Schema> {
    map k | k in Props(s) :: Strict(Props(s)[k])
  }

  lemma StrictClosesOver(s: Schema)
    requires Tidy(s) && s.properties.Properties? && Rewritable(s)
    ensures ClosedOver(s, Strict(s), StrictProps(s))
  {
    StrictObject(s);
    forall k | k in OptionalKeys(s) ensures Typed(StrictProps(s)[k]) && Typed(Props(s)[k]) {
      OptionalIsTyped(s, k);
      StrictKeepsType(Props(s)[k]);
    }
  }

  lemma OptionalIsTyped(s: Schema, k: string)
    requires Tidy(s) && s.properties.Properties? && Rewritable(s) && k in OptionalKeys(s)
    ensures Tidy(Props(s)[k]) && Typed(Props(s)[k])
  {
    assert Tidy(s.properties.schemas[k]) && s.properties.schemas[k].types.Some?;
  }

  /** Filling takes an instance to an instance of the strict schema, and stripping
      takes it back. */
  lemma {:induction false} FillIsFaithful(s: Schema, v: Json)
    requires Tidy(s) && Rewritable(s) && Valid(s, v)
    ensures Valid(Strict(s), Fill(s, v)) && Strip(s, Fill(s, v)) == v
    decreases v, 1
  {
    if s.types == Some(One(AnObject)) {
      FillObject(s, v);
    } else if s.types == Some(One(AnArray)) {
      FillArray(s, v);
    } else {
      OtherValid(s, v);
    }
  }

  lemma {:induction false} FillObject(s: Schema, v: Json)
    requires Tidy(s) && Rewritable(s) && Valid(s, v) && s.types == Some(One(AnObject))
    ensures Valid(Strict(s), Fill(s, v)) && Strip(s, Fill(s, v)) == v
    decreases v, 0
  {
    StrictClosesOver(s);
    ClosedObjectValid(s, v);
    forall k | k in v.fields
      ensures Valid(StrictProps(s)[k], Fill(Props(s)[k], v.fields[k]))
              && Strip(Props(s)[k], Fill(Props(s)[k], v.fields[k])) == v.fields[k]
    {
      FillIsFaithful(Props(s)[k], v.fields[k]);
    }
    FillMembers(s, Strict(s), StrictProps(s), v);
    ClosedObjectValid(Strict(s), Fill(s, v));
  }

  lemma {:induction false} FillArray(s: Schema, v: Json)
    requires Tidy(s) && Rewritable(s) && Valid(s, v) && s.types == Some(One(AnArray))
    ensures Valid(Strict(s), Fill(s, v)) && Strip(s, Fill(s, v)) == v
    decreases v, 0
  {
    ArrayValid(s, v);
    StrictOther(s);
    ArrayValid(Strict(s), Fill(s, v));
    var filled := Fill(s, v).items;
    forall i | 0 <= i < |filled|
      ensures Valid(Strict(s.items.value), filled[i]) && Strip(s.items.value, filled[i]) == v.items[i]
    {
      FillIsFaithful(s.items.value, v.items[i]);
    }
    assert Strip(s, Fill(s, v)).items == v.items;
  }

  /** Stripping takes an instance of the strict schema to an instance, and filling
      takes it back. */
  lemma {:induction false} StripIsFaithful(s: Schema, w: Json)
    requires Tidy(s) && Rewritable(s) && Valid(Strict(s), w)
    ensures Valid(s, Strip(s, w)) && Fill(s, Strip(s, w)) == w
    decreases w, 1
  {
    if s.types == Some(One(AnObject)) {
      StripObject(s, w);
    } else if s.types == Some(One(AnArray)) {
      StripArray(s, w);
    } else {
      OtherValid(s, w);
    }
  }

  lemma {:induction false} StripObject(s: Schema, w: Json)
    requires Tidy(s) && Rewritable(s) && Valid(Strict(s), w) && s.types == Some(One(AnObject))
    ensures Valid(s, Strip(s, w)) && Fill(s, Strip(s, w)) == w
    decreases w, 0
  {
    StrictClosesOver(s);
    ClosedObjectValid(Strict(s), w);
    forall k | k in w.fields && Valid(StrictProps(s)[k], w.fields[k])
      ensures Valid(Props(s)[k], Strip(Props(s)[k], w.fields[k]))
              && Fill(Props(s)[k], Strip(Props(s)[k], w.fields[k])) == w.fields[k]
    {
      StripIsFaithful(Props(s)[k], w.fields[k]);
    }
    StripMembers(s, Strict(s), StrictProps(s), w);
    ClosedObjectValid(s, Strip(s, w));
  }

  lemma {:induction false} StripArray(s: Schema, w: Json)
    requires Tidy(s) && Rewritable(s) && Valid(Strict(s), w) && s.types == Some(One(AnArray))
    ensures Valid(s, Strip(s, w)) && Fill(s, Strip(s, w)) == w
    decreases w, 0
  {
    StrictOther(s);
    ArrayValid(Strict(s), w);
    ArrayValid(s, Strip(s, w));
    var stripped := Strip(s, w).items;
    forall i | 0 <= i < |stripped|
      ensures Valid(s.items.value, stripped[i]) && Fill(s.items.value, stripped[i]) == w.items[i]
    {
      StripIsFaithful(s.items.value, w.items[i]);
    }
    assert Fill(s, Strip(s, w)).items == w.items;
  }

  // ----- stripping without a schema -----

  /** No untyped schema at any depth. */
  predicate AllTyped(s: Schema)
    decreases s
  {
    && Typed(s) && (s.items.Some? ==> AllTyped(s.items.value))
    && (match s.properties case NoProperties => true
        case Properties(schemas) => forall k :: k in schemas ==> AllTyped(schemas[k]))
  }

  lemma DropNullMembers(s: Schema, fields: map<string, Json>)
    requires fields.Keys <= Props(s).Keys && forall k :: k in fields && fields[k].Null? ==> k in OptionalKeys(s)
    requires forall k :: k in fields && !fields[k].Null? ==> DropNulls(fields[k]) == Strip(Props(s)[k], fields[k])
    ensures DropNulls(Obj(fields)) == Strip(s, Obj(fields))
  {
    var a, b := DropNulls(Obj(fields)).fields, Strip(s, Obj(fields)).fields;
    assert a.Keys == b.Keys;
    assert forall k :: k in a ==> a[k] == b[k];
    assert a == b;
  }

  lemma MemberDropsNulls(s: Schema, r: Schema, props: map<string, Schema>, k: string, w: Json)
    requires ClosedOver(s, r, props) && k in props && Typed(props[k]) && Valid(Props(r)[k], w)
    ensures w.Null? ==> k in OptionalKeys(s)
    ensures !w.Null? ==> Valid(props[k], w)
  {
    MemberValid(s, r, props, k, w);
  }

  lemma MembersDropNulls(s: Schema, r: Schema, props: map<string, Schema>, fields: map<string, Json>)
    requires ClosedOver(s, r, props) && MembersFit(r, fields)
    requires forall k :: k in props ==> Typed(props[k])
    requires forall k :: k in fields && Valid(props[k], fields[k]) ==>
               DropNulls(fields[k]) == Strip(Props(s)[k], fields[k])
    ensures DropNulls(Obj(fields)) == Strip(s, Obj(fields))
  {
    forall k | k in fields
      ensures fields[k].Null? ==> k in OptionalKeys(s)
      ensures !fields[k].Null? ==> Valid(props[k], fields[k])
    {
      MemberDropsNulls(s, r, props, k, fields[k]);
    }
    DropNullMembers(s, fields);
  }

  /** On instances of the strict form of fully typed schemas, dropping every null member
      is the inverse of filling. */
  lemma {:induction false} DropNullsIsStrip(s: Schema, w: Json)
    requires Tidy(s) && Rewritable(s) && AllTyped(s) && Valid(Strict(s), w)
    ensures DropNulls(w) == Strip(s, w)
    decreases w
  {
    if s.types == Some(One(AnObject)) {
      StrictClosesOver(s);
      ClosedObjectValid(Strict(s), w);
      forall k | k in Props(s) ensures Typed(StrictProps(s)[k]) && AllTyped(Props(s)[k]) {
        assert AllTyped(s.properties.schemas[k]);
        StrictKeepsType(Props(s)[k]);
      }
      forall k | k in w.fields && Valid(StrictProps(s)[k], w.fields[k])
        ensures DropNulls(w.fields[k]) == Strip(Props(s)[k], w.fields[k])
      {
        DropNullsIsStrip(Props(s)[k], w.fields[k]);
      }
      MembersDropNulls(s, Strict(s), StrictProps(s), w.fields);
    } else if s.types == Some(One(AnArray)) {
      StrictOther(s);
      ArrayValid(Strict(s), w);
      forall i | 0 <= i < |w.items| ensures DropNulls(w.items[i]) == Strip(s.items.value, w.items[i]) {
        DropNullsIsStrip(s.items.value, w.items[i]);
      }
      assert DropNulls(w).items == Strip(s, w).items;
    }
  }
}
