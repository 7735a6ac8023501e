/** Where the strict rewrite loses meaning: exactly at maps, which are closed to empty
    objects, and at optional properties that accept anything. */
module StrictLoss {
  import opened Wrappers
  import opened JsonSchema
  import opened StrictSchema

  /** Filling maps the instances of `s` one-to-one into those of its strict form. */
  ghost predicate Lossless(s: Schema) {
    && (forall v :: Valid(s, v) ==> Valid(Strict(s), Fill(s, v)))
    && (forall v, u :: Valid(s, v) && Valid(s, u) && Fill(s, v) == Fill(s, u) ==> v == u)
  }

  /** An instance that does not survive, or two that become one. */
  ghost predicate Lost(s: Schema, v: Json, u: Json) {
    && Valid(s, v)
    && (Valid(Strict(s), Fill(s, v)) ==> Valid(s, u) && v != u && Fill(s, v) == Fill(s, u))
  }

  /** An instance with every property. */
  function Sample(s: Schema): Json
    decreases s
  {
    match s.types
    case Some(One(AString)) => Str("")
    case Some(One(ABoolean)) => Bool(false)
    case Some(One(AnInteger)) => Num(0.0)
    case Some(One(ANumber)) => Num(0.0)
    case Some(One(AnArray)) => Arr([])
    case Some(One(AnObject)) => Obj(SampleAll(s.properties))
    case _ => Null
  }

  function SampleAll(p: Properties): map<string, Json>
    decreases p
  {
    match p
    case NoProperties => map[]
    case Properties(schemas) => map k | k in schemas :: Sample(schemas[k])
  }

  lemma {:induction false} SampleIsValid(s: Schema)
    requires Tidy(s)
    ensures Valid(s, Sample(s))
    decreases s
  {
    if s.types == Some(One(AnObject)) && s.properties.Properties? {
      forall k | k in s.properties.schemas ensures Valid(Props(s)[k], Sample(s).fields[k]) {
        SampleIsValid(s.properties.schemas[k]);
      }
      ClosedObjectValid(s, Sample(s));
    }
  }

  lemma MapLoses(s: Schema) returns (v: Json)
    requires Tidy(s) && s.types == Some(One(AnObject)) && s.properties.NoProperties?
    ensures Lost(s, v, v) && v.Obj? && v.fields != map[]
  {
    var item := match s.additional.value case Of(schema) => Sample(schema) case _ => Null;
    v := Obj(map["" := item]);
    if s.additional.value.Of? { SampleIsValid(s.additional.value.schema); }
    assert Fill(s, v).fields == v.fields;
    assert NormalizeAll(s.properties, true) == map[];
    assert Props(Strict(s)) == map[] && Strict(s).additional == Some(Closed);
    assert "" in v.fields;
  }

  /** Members that differ in one place only. */
  function With(s: Schema, key: string, v: Json): Json {
    Obj(SampleAll(s.properties)[key := v])
  }

  lemma WithIsValid(s: Schema, key: string, v: Json)
    requires Tidy(s) && s.properties.Properties? && key in Props(s) && Valid(Props(s)[key], v)
    ensures Valid(s, With(s, key, v))
  {
    forall k | k in s.properties.schemas ensures Valid(Props(s)[k], Sample(s.properties.schemas[k])) {
      SampleIsValid(s.properties.schemas[k]);
    }
    ClosedObjectValid(s, With(s, key, v));
  }

  /** Members that fill alike give one filled object. */
  lemma FillSame(s: Schema, f: map<string, Json>, g: map<string, Json>)
    requires g.Keys <= f.Keys <= g.Keys + OptionalKeys(s)
    requires forall k :: k in g ==> if k in Props(s) then Fill(Props(s)[k], f[k]) == Fill(Props(s)[k], g[k])
                                    else f[k] == g[k]
    requires forall k :: k in f && k !in g ==> Fill(Props(s)[k], f[k]) == Null
    ensures Fill(s, Obj(f)) == Fill(s, Obj(g))
  {
    var a, b := Fill(s, Obj(f)).fields, Fill(s, Obj(g)).fields;
    assert a.Keys == b.Keys;
    forall k | k in a ensures a[k] == b[k] {
      if k !in g && k in f { assert a[k] == Fill(Props(s)[k], f[k]); }
    }
    assert a == b;
  }

  lemma WithoutIsValid(s: Schema, key: string, v: Json)
    requires Tidy(s) && s.properties.Properties? && key in OptionalKeys(s) && Valid(s, v)
    ensures v.Obj? && Valid(s, Obj(v.fields - {key}))
  {
    ClosedObjectValid(s, v);
    ClosedObjectValid(s, Obj(v.fields - {key}));
  }

  lemma UntypedLoses(s: Schema, key: string) returns (v: Json, u: Json)
    requires Tidy(s) && s.properties.Properties? && key in OptionalKeys(s) && Props(s)[key].types.None?
    ensures Lost(s, v, u)
  {
    v := With(s, key, Null);
    u := Obj(v.fields - {key});
    WithIsValid(s, key, Null);
    WithoutIsValid(s, key, v);
    assert key in v.fields && key !in u.fields;
    assert Fill(Props(s)[key], Null) == Null;
    FillSame(s, v.fields, u.fields);
  }

  /** A lost member of a closed object is lost to its strict form as well. */
  lemma MemberNotStrict(s: Schema, key: string, v: Json)
    requires Tidy(s) && s.properties.Properties? && key in Props(s) && v.Obj? && key in v.fields
    requires Tidy(Props(s)[key]) && Typed(Props(s)[key]) && Valid(Props(s)[key], v.fields[key])
    requires !Valid(Strict(Props(s)[key]), Fill(Props(s)[key], v.fields[key]))
    ensures !Valid(Strict(s), Fill(s, v))
  {
    var p, w := Props(s)[key], Fill(Props(s)[key], v.fields[key]);
    StrictKeepsType(p);
    NullableAddsNull(Strict(p), w);
    assert !Valid(Nullable(Strict(p)), w);
    StrictObject(s);
    var filled := Fill(s, v);
    assert filled.fields[key] == w;
    ClosedObjectValid(Strict(s), filled);
  }

  lemma MemberLoses(s: Schema, key: string, v: Json, u: Json)
    requires Tidy(s) && s.properties.Properties? && key in Props(s)
    requires Tidy(Props(s)[key]) && Typed(Props(s)[key]) && Lost(Props(s)[key], v, u)
    ensures Lost(s, With(s, key, v), With(s, key, u))
  {
    var p := Props(s)[key];
    WithIsValid(s, key, v);
    if Valid(Strict(p), Fill(p, v)) {
      WithIsValid(s, key, u);
      WithMerges(s, key, v, u);
    } else {
      MemberNotStrict(s, key, With(s, key, v));
    }
  }

  lemma WithMerges(s: Schema, key: string, v: Json, u: Json)
    requires key in Props(s) && v != u && Fill(Props(s)[key], v) == Fill(Props(s)[key], u)
    ensures With(s, key, v) != With(s, key, u) && Fill(s, With(s, key, v)) == Fill(s, With(s, key, u))
  {
    assert With(s, key, v).fields[key] == v && With(s, key, u).fields[key] == u;
    FillSame(s, With(s, key, v).fields, With(s, key, u).fields);
  }

  lemma ItemLoses(s: Schema, v: Json, u: Json)
    requires Tidy(s) && s.types == Some(One(AnArray)) && Lost(s.items.value, v, u)
    ensures Lost(s, Arr([v]), Arr([u]))
  {
    assert [v][0] == v && [u][0] == u;
    ArrayValid(s, Arr([v]));
    if Valid(Strict(s.items.value), Fill(s.items.value, v)) {
      ArrayValid(s, Arr([u]));
      assert Fill(s, Arr([v])).items == Fill(s, Arr([u])).items;
    } else {
      var filled := Fill(s, Arr([v]));
      StrictOther(s);
      ArrayValid(Strict(s), filled);
      assert filled.items[0] == Fill(s.items.value, v);
    }
  }

  lemma {:induction false} NotRewritableLoses(s: Schema) returns (v: Json, u: Json)
    requires Tidy(s) && !Rewritable(s)
    ensures Lost(s, v, u)
    decreases s
  {
    if s.types == Some(One(AnArray)) {
      v, u := NotRewritableLoses(s.items.value);
      ItemLoses(s, v, u);
      v, u := Arr([v]), Arr([u]);
    } else if s.properties.NoProperties? {
      v := MapLoses(s);
      u := v;
    } else if key :| key in s.properties.schemas && key in OptionalKeys(s) && s.properties.schemas[key].types.None? {
      v, u := UntypedLoses(s, key);
    } else {
      var key :| key in s.properties.schemas && !Rewritable(s.properties.schemas[key]);
      v, u := NotRewritableLoses(s.properties.schemas[key]);
      MemberLoses(s, key, v, u);
      v, u := With(s, key, v), With(s, key, u);
    }
  }

  /** The rewrite keeps the meaning of a tool's schema exactly when the schema has
      no map and no optional property that accepts anything. */
  lemma LosslessIffRewritable(s: Schema)
    requires Tidy(s)
    ensures Lossless(s) <==> Rewritable(s)
  {
    if Rewritable(s) {
      forall v | Valid(s, v) ensures Valid(Strict(s), Fill(s, v)) && Strip(s, Fill(s, v)) == v {
        FillIsFaithful(s, v);
      }
    } else {
      var v, u := NotRewritableLoses(s);
    }
  }
}
