/** The schema rewrite as the program runs it: loops over properties and required keys. */
module StrictRewrite {
  import opened Wrappers
  import opened Text
  import opened JsonSchema
  import opened StrictSchema
  import Sorting

  /** The keys in ascending order do not depend on how the map is walked. */
  lemma AscendingUnique(xs: seq<string>, ys: seq<string>)
    requires Ascending(xs) && Ascending(ys)
    requires forall k :: k in xs <==> k in ys
    ensures xs == ys
  {
    AlphabeticOrders(set k | k in xs);
    Sorting.Unique(Alphabetic(), xs, ys);
  }

  method SortKeys(keys: set<string>) returns (sorted: seq<string>)
    ensures sorted == SortedKeys(keys)
  {
    sorted := [];
    var rest := keys;
    while rest != {}
      invariant rest <= keys && Ascending(sorted)
      invariant forall k :: k in sorted <==> k in keys && k !in rest
    {
      var key :| key in rest;
      sorted := InsertKey(sorted, key);
      rest := rest - {key};
    }
    AscendingUnique(sorted, SortedKeys(keys));
  }

  lemma {:induction false} NoKeysNoneRequired(raw: seq<string>)
    ensures RequiredKeys(raw, {}) == []
  {
    if raw != [] { NoKeysNoneRequired(raw[..|raw| - 1]); }
  }

  method NormalizeRequiredKeys(raw: seq<string>, keys: set<string>, strict: bool) returns (required: seq<string>)
    ensures required == if strict then SortedKeys(keys) else RequiredKeys(raw, keys)
  {
    if keys == {} {
      NoKeysNoneRequired(raw);
      return [];
    }
    required := [];
    for i := 0 to |raw|
      invariant required == RequiredKeys(raw[..i], keys)
    {
      assert raw[..i + 1][..i] == raw[..i];
      var key := Trim(raw[i]);
      if key == "" || key !in keys || key in required { continue; }
      required := required + [key];
    }
    assert raw[..|raw|] == raw;
    if strict { required := SortKeys(keys); }
  }

  method RewriteAll(schemas: map<string, Schema>, strict: bool) returns (props: map<string, Schema>)
    ensures props == NormalizeAll(Properties(schemas), strict)
    decreases Properties(schemas)
  {
    props := map[];
    var rest := schemas.Keys;
    while rest != {}
      invariant rest <= schemas.Keys && props.Keys == schemas.Keys - rest
      invariant forall k :: k in props ==> props[k] == Normalize(schemas[k], strict)
      decreases rest
    {
      var key :| key in rest;
      var rewritten := Rewrite(schemas[key], strict);
      props, rest := props[key := rewritten], rest - {key};
    }
  }

  method MakeOptionalNullable(props: map<string, Schema>, required: seq<string>) returns (r: map<string, Schema>)
    ensures r == map k | k in props :: if k in required then props[k] else Nullable(props[k])
  {
    r := props;
    var rest := props.Keys;
    while rest != {}
      invariant rest <= props.Keys == r.Keys
      invariant forall k :: k in props ==> r[k] == if k in rest || k in required then props[k] else Nullable(props[k])
    {
      var key :| key in rest;
      if key !in required { r := r[key := Nullable(props[key])]; }
      rest := rest - {key};
    }
  }

  method Rewrite(s: Schema, strict: bool) returns (r: Schema)
    ensures r == Normalize(s, strict)
    decreases s
  {
    r := s;
    if IsObject(s) {
      if s.types.None? || s.types.value.Many? { r := r.(types := Some(One(AnObject))); }
      var props := map[];
      if s.properties.Properties? { props := RewriteAll(s.properties.schemas, strict); }
      assert props == NormalizeAll(s.properties, strict);
      var keys := props.Keys;
      if strict {
        var original := NormalizeRequiredKeys(Listed(s), keys, false);
        props := MakeOptionalNullable(props, original);
      }
      var required := NormalizeRequiredKeys(Listed(s), keys, strict);
      r := r.(properties := Properties(props), required := Some(required), additional := Some(Closed));
      assert r == CloseObject(s, NormalizeAll(s.properties, strict), strict);
    }
    if s.items.Some? {
      var items := Rewrite(s.items.value, strict);
      r := r.(items := Some(items));
    } else if s.types == Some(One(AnArray)) {
      r := r.(items := Some(EMPTY));
    }
  }
}
