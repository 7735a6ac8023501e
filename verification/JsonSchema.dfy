/** JSON values, the schema keywords the tool definitions use and what they mean:
    JSON Schema Validation 2020-12, sections 6.1.1 (type) and 6.5.3 (required); JSON
    Schema Core 2020-12, section 10.3 (properties, additionalProperties, items). */
module JsonSchema {
  import opened Wrappers

  datatype Json =
    | Null
    | Bool(b: bool)
    | Num(n: real)
    | Str(s: string)
    | Arr(items: seq<Json>)
    | Obj(fields: map<string, Json>)

  datatype Word = AString | ABoolean | AnInteger | ANumber | AnArray | AnObject | ANull

  /** The `type` keyword: one word or a list. */
  datatype Types = One(word: Word) | Many(words: seq<Word>)

  /** The `additionalProperties` keyword: true, false or a schema. */
  datatype Additional = Open | Closed | Of(schema: Schema)

  datatype Properties = NoProperties | Properties(schemas: map<string, Schema>)

  datatype Schema = Schema(types: Option<Types>, properties: Properties, required: Option<seq<string>>,
                           additional: Option<Additional>, items: Option<Schema>, notes: map<string, string>)

  const EMPTY := Schema(None, NoProperties, None, None, None, map[])

  predicate HasType(v: Json, word: Word) {
    match word
    case ANull => v.Null?
    case ABoolean => v.Bool?
    case AString => v.Str?
    case ANumber => v.Num?
    case AnInteger => v.Num? && v.n == v.n.Floor as real
    case AnArray => v.Arr?
    case AnObject => v.Obj?
  }

  predicate TypeFits(types: Option<Types>, v: Json) {
    match types
    case None => true
    case Some(One(word)) => HasType(v, word)
    case Some(Many(words)) => exists word :: word in words && HasType(v, word)
  }

  function Props(s: Schema): map<string, Schema> {
    if s.properties.Properties? then s.properties.schemas else map[]
  }

  function Listed(s: Schema): seq<string> {
    if s.required.Some? then s.required.value else []
  }

  /** `v` is an instance of `s`. */
  predicate Valid(s: Schema, v: Json)
    decreases v
  {
    && TypeFits(s.types, v)
    && (v.Obj? ==>
          && (forall k :: k in Listed(s) ==> k in v.fields)
          && (forall k :: k in v.fields ==>
                if k in Props(s) then Valid(Props(s)[k], v.fields[k])
                else match s.additional
                     case Some(Closed) => false
                     case Some(Of(schema)) => Valid(schema, v.fields[k])
                     case _ => true))
    && (v.Arr? && s.items.Some? ==> forall i :: 0 <= i < |v.items| ==> Valid(s.items.value, v.items[i]))
  }

  /** The properties an instance may omit. */
  function OptionalKeys(s: Schema): set<string> {
    Props(s).Keys - set k | k in Listed(s)
  }

  /** Absent optional keys filled with null, at every depth. */
  function Fill(s: Schema, v: Json): Json
    decreases v
  {
    match v
    case Obj(fields) =>
      Obj(map k | k in fields.Keys + OptionalKeys(s) ::
            if k !in fields then Null else if k in Props(s) then Fill(Props(s)[k], fields[k]) else fields[k])
    case Arr(items) =>
      if s.items.None? then v else Arr(seq(|items|, i requires 0 <= i < |items| => Fill(s.items.value, items[i])))
    case _ => v
  }

  /** Nulls of optional keys dropped, at every depth. */
  function Strip(s: Schema, v: Json): Json
    decreases v
  {
    match v
    case Obj(fields) =>
      Obj(map k | k in fields && !(k in OptionalKeys(s) && fields[k].Null?) ::
            if k in Props(s) then Strip(Props(s)[k], fields[k]) else fields[k])
    case Arr(items) =>
      if s.items.None? then v else Arr(seq(|items|, i requires 0 <= i < |items| => Strip(s.items.value, items[i])))
    case _ => v
  }

  /** Null members dropped at every depth, without looking at a schema. */
  function DropNulls(v: Json): Json
    decreases v
  {
    match v
    case Obj(fields) => Obj(map k | k in fields && !fields[k].Null? :: DropNulls(fields[k]))
    case Arr(items) => Arr(seq(|items|, i requires 0 <= i < |items| => DropNulls(items[i])))
    case _ => v
  }
}
