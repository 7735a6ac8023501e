/** The schema of a tool's parameter type, and the normalisation of the arguments a
    model sends back for it. */
module ToolSchema {
  import opened Wrappers
  import opened Text
  import opened JsonSchema
  import opened StrictSchema

  type Identifier = s: string | s != "" && Trimmed(s) witness "A"

  /** A Go type as reflection shows it. */
  datatype GoType = GString | GBool | GInteger | GFloat | GTime | GAny
                  | GList(elem: GoType) | GMap(elem: GoType) | GPointer(elem: GoType) | GStruct(fields: seq<Field>)

  /** `hidden`: unexported and not embedded; `required` and `format`: what the
      validation tag says. */
  datatype Field = Field(name: Identifier, hidden: bool, tag: string, required: bool, format: string,
                         description: string, typ: GoType)

  function BeforeComma(s: string): string {
    if s == "" || s[0] == ',' then "" else [s[0]] + BeforeComma(s[1..])
  }

  /** The property name of a field in the schema; "" for none. */
  function SchemaKey(f: Field): (r: string)
    ensures Trimmed(r)
  {
    var tag := Trim(f.tag);
    if tag == "-" then ""
    else if tag == "" || Trim(BeforeComma(tag)) == "" then f.name
    else Trim(BeforeComma(tag))
  }

  /** The argument key of a field; unlike the schema's, not trimmed. */
  function ArgumentKey(f: Field): string {
    if f.tag == "-" then ""
    else if f.tag == "" || BeforeComma(f.tag) == "" then f.name
    else BeforeComma(f.tag)
  }

  function OfType(word: Word): Schema {
    EMPTY.(types := Some(One(word)))
  }

  /** The annotations of a field: its description and its format. */
  function Notes(notes: map<string, string>, f: Field): map<string, string> {
    var described := if Blank(f.description) then notes else notes["description" := Trim(f.description)];
    if f.format == "" then described else described["format" := f.format]
  }

  function Annotate(s: Schema, f: Field): Schema {
    s.(notes := Notes(s.notes, f))
  }

  function Build(t: GoType): Schema
    decreases t, 0
  {
    match t
    case GPointer(elem) => Build(elem)
    case GString => OfType(AString)
    case GBool => OfType(ABoolean)
    case GInteger => OfType(AnInteger)
    case GFloat => OfType(ANumber)
    case GTime => OfType(AString).(notes := map["format" := "date-time"])
    case GList(elem) => OfType(AnArray).(items := Some(Build(elem)))
    case GMap(elem) => OfType(AnObject).(additional := Some(if elem.GAny? then Open else Of(Build(elem))))
    case GStruct(fields) =>
      OfType(AnObject).(properties := Properties(PropertiesOf(fields)), required := Some(RequiredOf(fields)),
                        additional := Some(Closed))
    case GAny => EMPTY
  }

  predicate Listable(f: Field) {
    !f.hidden && SchemaKey(f) != ""
  }

  /** The properties of a struct; a later field takes a key over. */
  function PropertiesOf(fields: seq<Field>): map<string, Schema>
    decreases fields
  {
    if fields == [] then map[]
    else
      var f := fields[|fields| - 1];
      var before := PropertiesOf(fields[..|fields| - 1]);
      if Listable(f) then before[SchemaKey(f) := Annotate(Build(f.typ), f)] else before
  }

  function RequiredOf(fields: seq<Field>): seq<string> {
    if fields == [] then []
    else
      var f := fields[|fields| - 1];
      RequiredOf(fields[..|fields| - 1]) + (if Listable(f) && f.required then [SchemaKey(f)] else [])
  }

  // ----- what every built schema looks like -----

  /** The annotations a Go type comes with, behind any number of references. */
  predicate IsTime(t: GoType) {
    t.GTime? || (t.GPointer? && IsTime(t.elem))
  }

  lemma {:induction false} BuiltNotes(t: GoType)
    ensures Build(t).notes == if IsTime(t) then map["format" := "date-time"] else map[]
  {
    if t.GPointer? { BuiltNotes(t.elem); }
  }

  /** What the schema tells the model about a field: the description, when it has one, and a format:
      the one its tag asks for, else that of a time. */
  lemma AnnotationsAre(f: Field)
    ensures var notes := Annotate(Build(f.typ), f).notes;
            && notes.Keys <= {"description", "format"}
            && ("description" in notes <==> !Blank(f.description))
            && (!Blank(f.description) ==> notes["description"] == Trim(f.description))
            && ("format" in notes <==> f.format != "" || IsTime(f.typ))
            && (f.format != "" ==> notes["format"] == f.format)
            && (f.format == "" && IsTime(f.typ) ==> notes["format"] == "date-time")
  {
    BuiltNotes(f.typ);
  }

  predicate ListedAs(f: Field, key: string) {
    !f.hidden && SchemaKey(f) == key != ""
  }

  /** The part of a tag before its first comma. */
  predicate IsHead(tag: string, head: string) {
    head <= tag && ',' !in head && (|head| < |tag| ==> tag[|head|] == ',')
  }

  lemma {:induction false} HeadIs(tag: string, head: string)
    requires IsHead(tag, head)
    ensures BeforeComma(tag) == head
  {
    if head != "" {
      assert head == [head[0]] + head[1..] && tag == [tag[0]] + tag[1..];
      HeadIs(tag[1..], head[1..]);
    }
  }

  /** The two keys of a field: a tag that is a dash hides it, the head of another names it, and one whose
      head is empty leaves it its own name; the schema's key is looked for between blanks. */
  lemma KeysOfField(f: Field, head: string, bare: string)
    requires IsHead(f.tag, head) && IsHead(Trim(f.tag), bare)
    ensures SchemaKey(f) == if Trim(f.tag) == "-" then "" else if Trim(bare) != "" then Trim(bare) else f.name
    ensures ArgumentKey(f) == if f.tag == "-" then "" else if head != "" then head else f.name
  {
    HeadIs(f.tag, head);
    HeadIs(Trim(f.tag), bare);
  }

  lemma PropertiesSnoc(front: seq<Field>, f: Field, key: string)
    ensures ListedAs(f, key) ==> key in PropertiesOf(front + [f])
                                 && PropertiesOf(front + [f])[key] == Annotate(Build(f.typ), f)
    ensures !ListedAs(f, key) ==> (key in PropertiesOf(front + [f]) <==> key in PropertiesOf(front))
    ensures !ListedAs(f, key) && key in PropertiesOf(front) ==>
              PropertiesOf(front + [f])[key] == PropertiesOf(front)[key]
  {
    assert (front + [f])[..|front|] == front;
  }

  /** Every field that is not hidden has a property under its key. */
  lemma {:induction false} FieldHasProperty(fields: seq<Field>, i: nat)
    requires i < |fields| && !fields[i].hidden && SchemaKey(fields[i]) != ""
    ensures SchemaKey(fields[i]) in PropertiesOf(fields)
  {
    var front, last := fields[..|fields| - 1], fields[|fields| - 1];
    assert fields == front + [last];
    PropertiesSnoc(front, last, SchemaKey(fields[i]));
    if i < |front| { FieldHasProperty(front, i); }
  }

  /** A key stands for the last field listed under it. */
  lemma {:induction false} LastFieldHasKey(fields: seq<Field>, key: string) returns (i: nat)
    requires key in PropertiesOf(fields)
    ensures i < |fields| && ListedAs(fields[i], key)
    ensures forall j :: i < j < |fields| ==> !ListedAs(fields[j], key)
    ensures PropertiesOf(fields)[key] == Annotate(Build(fields[i].typ), fields[i])
  {
    i := |fields| - 1;
    var front := fields[..i];
    assert fields == front + [fields[i]];
    PropertiesSnoc(front, fields[i], key);
    if !ListedAs(fields[i], key) { i := LastFieldHasKey(front, key); }
  }

  lemma NotesAreTidy(s: Schema, notes: map<string, string>)
    requires Tidy(s)
    ensures Tidy(s.(notes := notes))
  {
  }

  lemma {:induction false} BuildIsTidy(t: GoType)
    ensures Tidy(Build(t))
    decreases t, 0
  {
    match t
    case GPointer(elem) => BuildIsTidy(elem);
    case GList(elem) => BuildIsTidy(elem);
    case GMap(elem) => BuildIsTidy(elem);
    case GStruct(fields) => FieldsAreTidy(fields);
    case _ =>
  }

  lemma {:induction false} FieldsAreTidy(fields: seq<Field>)
    ensures forall k :: k in PropertiesOf(fields) ==> Tidy(PropertiesOf(fields)[k])
    ensures forall k :: k in RequiredOf(fields) ==> k in PropertiesOf(fields) && Trimmed(k) && k != ""
    decreases fields
  {
    if fields != [] {
      var f := fields[|fields| - 1];
      FieldsAreTidy(fields[..|fields| - 1]);
      BuildIsTidy(f.typ);
      NotesAreTidy(Build(f.typ), Notes(Build(f.typ).notes, f));
    }
  }
}
