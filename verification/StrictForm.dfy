/** What the rewrite makes of any schema, strict or not, whether or not it is one a tool's
    parameter type gives; and exactly when the rewrite that is not strict keeps the meaning. */
module StrictForm {
  import opened Wrappers
  import opened Text
  import opened JsonSchema
  import opened StrictSchema
  import opened StrictLoss

  /** The required list names the property, blanks at its ends aside. */
  predicate Named(s: Schema, key: string) {
    key != "" && key in Props(s) && exists i :: 0 <= i < |Listed(s)| && Trim(Listed(s)[i]) == key
  }

  predicate Distinct(xs: seq<string>) {
    forall i, j :: 0 <= i < j < |xs| ==> xs[i] != xs[j]
  }

  lemma {:induction false} RequiredKeysDistinct(raw: seq<string>, keys: set<string>)
    ensures Distinct(RequiredKeys(raw, keys))
  {
    if raw != [] { RequiredKeysDistinct(raw[..|raw| - 1], keys); }
  }

  /** The first mention of a key in a required list. */
  predicate FirstAt(raw: seq<string>, p: nat, key: string) {
    p < |raw| && Trim(raw[p]) == key && forall q :: 0 <= q < p ==> Trim(raw[q]) != key
  }

  /** The keys stand in the order in which they are first mentioned. */
  ghost predicate FirstNamedFirst(raw: seq<string>, keys: seq<string>) {
    forall i, j, p: nat, q: nat ::
      0 <= i < j < |keys| && FirstAt(raw, p, keys[i]) && FirstAt(raw, q, keys[j]) ==> p < q
  }

  lemma FirstAtPrefix(raw: seq<string>, p: nat, key: string)
    requires raw != [] && FirstAt(raw, p, key)
    ensures var front := raw[..|raw| - 1];
            if p < |front| then FirstAt(front, p, key) else forall q: nat :: !FirstAt(front, q, key)
  {
  }

  lemma {:induction false} RequiredKeysOrdered(raw: seq<string>, keys: set<string>)
    ensures FirstNamedFirst(raw, RequiredKeys(raw, keys))
  {
    if raw != [] {
      var front := raw[..|raw| - 1];
      var r, rest := RequiredKeys(raw, keys), RequiredKeys(front, keys);
      RequiredKeysOrdered(front, keys);
      forall i, j, p: nat, q: nat | 0 <= i < j < |r| && FirstAt(raw, p, r[i]) && FirstAt(raw, q, r[j])
        ensures p < q
      {
        assert rest[i] == r[i];
        RequiredKeysListed(front, keys, r[i]);
        FirstAtPrefix(raw, p, r[i]);
        FirstAtPrefix(raw, q, r[j]);
        if j == |rest| {
          RequiredKeysListed(front, keys, r[j]);
        }
      }
    }
  }

  lemma ClosedForm(s: Schema, props: map<string, Schema>, strict: bool)
    requires props.Keys == Props(s).Keys
    ensures var r := CloseObject(s, props, strict);
            && r.properties.Properties? && Props(r).Keys == props.Keys
            && forall k :: k in props ==>
                 Props(r)[k] == if !strict || Named(s, k) then props[k] else Nullable(props[k])
  {
    forall k ensures k in RequiredKeys(Listed(s), props.Keys) <==> Named(s, k) {
      RequiredKeysListed(Listed(s), props.Keys, k);
    }
  }

  lemma ClosedRequires(s: Schema, props: map<string, Schema>, strict: bool)
    requires props.Keys == Props(s).Keys
    ensures var r := CloseObject(s, props, strict);
            && r.required.Some? && Distinct(Listed(r))
            && (if strict then Ascending(Listed(r)) else FirstNamedFirst(Listed(s), Listed(r)))
            && forall k :: k in Listed(r) <==> k in props && (strict || Named(s, k))
  {
    RequiredKeysDistinct(Listed(s), props.Keys);
    RequiredKeysOrdered(Listed(s), props.Keys);
    AscendingDistinct(SortedKeys(props.Keys));
    forall k ensures k in RequiredKeys(Listed(s), props.Keys) <==> Named(s, k) {
      RequiredKeysListed(Listed(s), props.Keys, k);
    }
  }

  /** An object schema is closed over its rewritten properties, and then gets its items. */
  lemma NormalizedObject(s: Schema, strict: bool)
    requires IsObject(s)
    ensures var r, c := Normalize(s, strict), CloseObject(s, NormalizeAll(s.properties, strict), strict);
            && r.types == c.types && r.properties == c.properties && r.required == c.required
            && r.additional == c.additional && r.notes == c.notes
  {
  }

  /** Any object schema comes out closed, its properties under their keys and rewritten.  Strict,
      it requires them all, in ascending order, and those it did not name take null besides; not
      strict, it requires those it named, each once. */
  lemma ObjectForm(s: Schema, strict: bool)
    requires s.types == Some(One(AnObject)) || s.properties.Properties?
    ensures var r := Normalize(s, strict);
            && r.types == Some(if s.types.Some? && s.types.value.One? then s.types.value else One(AnObject))
            && r.properties.Properties? && Props(r).Keys == Props(s).Keys
            && r.additional == Some(Closed) && r.notes == s.notes && r.required.Some? && Distinct(Listed(r))
            && (if strict then Ascending(Listed(r)) else FirstNamedFirst(Listed(s), Listed(r)))
            && (forall k :: k in Listed(r) <==> k in Props(s) && (strict || Named(s, k)))
            && (forall k :: k in Props(s) ==>
                  Props(r)[k] == if !strict || Named(s, k) then Normalize(Props(s)[k], strict)
                                 else Nullable(Normalize(Props(s)[k], strict)))
  {
    var props := NormalizeAll(s.properties, strict);
    assert props.Keys == Props(s).Keys;
    NormalizedObject(s, strict);
    ClosedForm(s, props, strict);
    ClosedRequires(s, props, strict);
  }

  lemma AscendingDistinct(xs: seq<string>)
    requires Ascending(xs)
    ensures Distinct(xs)
  {
    forall i, j | 0 <= i < j < |xs| ensures xs[i] != xs[j] {
      LessTotal(xs[i], xs[j]);
    }
  }

  /** Any other schema keeps all its keywords but the items, and an array gets some. */
  lemma OtherForm(s: Schema, strict: bool)
    ensures var r := Normalize(s, strict);
            && (s.types != Some(One(AnObject)) && s.properties.NoProperties? ==> r.(items := None) == s.(items := None))
            && (s.items.Some? ==> r.items == Some(Normalize(s.items.value, strict)))
            && (s.items.None? ==> r.items == if s.types == Some(One(AnArray)) then Some(EMPTY) else None)
  {
  }

  lemma AnyOfMore(words: seq<Word>, v: Json)
    ensures TypeFits(Some(Many(words + [ANull])), v) <==> TypeFits(Some(Many(words)), v) || v.Null?
  {
    if v.Null? {
      assert ANull in words + [ANull];
    }
    if word :| word in words && HasType(v, word) {
      assert word in words + [ANull];
    }
  }

  lemma OneOrNull(word: Word, v: Json)
    ensures TypeFits(Some(Many([word, ANull])), v) <==> HasType(v, word) || v.Null?
  {
    AnyOfMore([word], v);
    assert [word] + [ANull] == [word, ANull];
    if HasType(v, word) {
      assert word in [word];
    }
  }

  lemma NullFits(types: Types, v: Json)
    requires v.Null?
    ensures TypeFits(Some(types), v) <==> types == One(ANull) || (types.Many? && ANull in types.words)
  {
  }

  /** Making any schema nullable lets null in.  It shuts nothing out, but an untyped schema with
      properties is left with the objects and one with items with the arrays. */
  lemma NullableMeans(s: Schema, v: Json)
    ensures Valid(Nullable(s), v)
            <==> || v.Null?
                 || (Valid(s, v)
                     && (s.types.None? ==> if s.properties.Properties? then v.Obj? else s.items.Some? ==> v.Arr?))
  {
    match s.types
    case None =>
      OneOrNull(AnObject, v);
      OneOrNull(AnArray, v);
    case Some(One(word)) => OneOrNull(word, v);
    case Some(Many(words)) =>
      AnyOfMore(words, v);
      if v.Null? { NullFits(Many(words), v); }
  }

  // ----- the rewrite that is not strict -----

  ghost function Loose(s: Schema): Schema {
    Normalize(s, false)
  }

  /** No object without properties of its own, at any depth. */
  predicate NoMaps(s: Schema)
    decreases s
  {
    && (s.types == Some(One(AnObject)) ==> s.properties.Properties?)
    && (match s.properties
        case NoProperties => true
        case Properties(schemas) => forall k :: k in schemas ==> NoMaps(schemas[k]))
    && (s.items.Some? ==> NoMaps(s.items.value))
  }

  lemma NamedIsListed(s: Schema, k: string)
    requires Tidy(s) && s.properties.Properties?
    ensures Named(s, k) <==> k in Listed(s)
  {
    AgreedKeysListed(s, k);
    RequiredKeysListed(Listed(s), Props(s).Keys, k);
  }

  lemma LooseMembers(s: Schema, v: Json)
    requires Tidy(s) && s.properties.Properties?
    ensures Valid(Loose(s), v) <==>
              && v.Obj? && (forall k :: k in Listed(s) ==> k in v.fields)
              && forall k :: k in v.fields ==> k in Props(s) && Valid(Loose(Props(s)[k]), v.fields[k])
  {
    ObjectForm(s, false);
    forall k ensures Named(s, k) <==> k in Listed(s) { NamedIsListed(s, k); }
    ClosedObjectValid(Loose(s), v);
  }

  lemma {:induction false} LooseIsFaithful(s: Schema, v: Json)
    requires Tidy(s) && NoMaps(s)
    ensures Valid(Loose(s), v) <==> Valid(s, v)
    decreases v
  {
    if s.types == Some(One(AnObject)) {
      LooseMembers(s, v);
      ClosedObjectValid(s, v);
      if v.Obj? {
        forall k | k in v.fields && k in Props(s)
          ensures Valid(Loose(Props(s)[k]), v.fields[k]) <==> Valid(Props(s)[k], v.fields[k])
        {
          LooseIsFaithful(s.properties.schemas[k], v.fields[k]);
        }
      }
    } else if s.types == Some(One(AnArray)) {
      OtherForm(s, false);
      ArrayValid(s, v);
      ArrayValid(Loose(s), v);
      if v.Arr? {
        forall i | 0 <= i < |v.items|
          ensures Valid(Loose(s.items.value), v.items[i]) <==> Valid(s.items.value, v.items[i])
        {
          LooseIsFaithful(s.items.value, v.items[i]);
        }
      }
    } else {
      OtherForm(s, false);
    }
  }

  lemma {:induction false} MapIsRefused(s: Schema) returns (v: Json)
    requires Tidy(s) && !NoMaps(s)
    ensures Valid(s, v) && !Valid(Loose(s), v)
    decreases s
  {
    if s.types == Some(One(AnArray)) {
      v := MapIsRefused(s.items.value);
      OtherForm(s, false);
      assert [v][0] == v;
      ArrayValid(s, Arr([v]));
      ArrayValid(Loose(s), Arr([v]));
      v := Arr([v]);
    } else if s.properties.NoProperties? {
      v := MapLoses(s);
      ObjectForm(s, false);
      ClosedObjectValid(Loose(s), v);
      assert v.fields != map[];
    } else {
      var key :| key in s.properties.schemas && !NoMaps(s.properties.schemas[key]);
      var u := MapIsRefused(s.properties.schemas[key]);
      WithIsValid(s, key, u);
      v := With(s, key, u);
      LooseMembers(s, v);
      assert v.fields[key] == u;
    }
  }

  /** Not strict, the rewrite leaves a tool's schema with its instances exactly when the schema
      has no map; with one, it refuses an instance. */
  lemma LooseKeepsMeaningIff(s: Schema)
    requires Tidy(s)
    ensures (forall v :: Valid(Loose(s), v) <==> Valid(s, v)) <==> NoMaps(s)
  {
    if NoMaps(s) {
      forall v ensures Valid(Loose(s), v) <==> Valid(s, v) { LooseIsFaithful(s, v); }
    } else {
      var v := MapIsRefused(s);
    }
  }
}
