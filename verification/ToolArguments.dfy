/** `normalizeToolArguments`, and how far it undoes what the strict schema made the
    model fill in. */
module ToolArguments {
  import opened Wrappers
  import opened Text
  import opened JsonSchema
  import opened ToolSchema

  type Arguments = map<string, Json>

  datatype Result = Ok(args: Arguments) | Err(key: string)

  /** A value for a boolean target may be a word or 0 or 1; None when it is not one. */
  function Coerce(v: Json, t: GoType): Option<Json> {
    match t
    case GPointer(elem) => if v.Null? then Some(Null) else Coerce(v, elem)
    case GBool =>
      (match v
       case Bool(_) => Some(v)
       case Str(s) =>
         var word := Lower(Trim(s));
         if word in {"true", "1", "yes", "y"} then Some(Bool(true))
         else if word in {"false", "0", "no", "n"} then Some(Bool(false))
         else None
       case Num(n) => if n == 1.0 then Some(Bool(true)) else if n == 0.0 then Some(Bool(false)) else None
       case _ => None)
    case _ => Some(v)
  }

  /** What a field means to the arguments. */
  datatype Slot = Slot(key: string, required: bool, typ: GoType)

  function SlotOf(f: Field): Slot {
    Slot(ArgumentKey(f), f.required, f.typ)
  }

  function Slots(fields: seq<Field>): seq<Slot> {
    seq(|fields|, i requires 0 <= i < |fields| => SlotOf(fields[i]))
  }

  function NormalizeSlot(slot: Slot, args: Arguments): Result {
    if slot.key == "" || slot.key !in args then Ok(args)
    else if args[slot.key].Null? then if slot.required then Err(slot.key) else Ok(args - {slot.key})
    else match Coerce(args[slot.key], slot.typ)
         case None => Err(slot.key)
         case Some(v) => Ok(args[slot.key := v])
  }

  function NormalizeSlots(slots: seq<Slot>, args: Arguments): Result {
    if slots == [] then Ok(args)
    else match NormalizeSlot(slots[0], args)
         case Err(key) => Err(key)
         case Ok(rest) => NormalizeSlots(slots[1..], rest)
  }

  /** The fields looked at: those of a struct, also behind one reference. */
  function TemplateFields(template: Option<GoType>): seq<Field> {
    match template
    case Some(GStruct(fields)) => fields
    case Some(GPointer(GStruct(fields))) => fields
    case _ => []
  }

  /** A struct of these fields, or a reference to one. */
  predicate IsTemplate(template: Option<GoType>, fields: seq<Field>) {
    template == Some(GStruct(fields)) || template == Some(GPointer(GStruct(fields)))
  }

  /** Field by field, on a copy of the arguments; without fields they stay as they are. */
  method NormalizeToolArguments(template: Option<GoType>, args: Arguments) returns (r: Result)
    ensures r == NormalizeSlots(Slots(TemplateFields(template)), args)
    ensures forall fields :: IsTemplate(template, fields) ==> r == NormalizeSlots(Slots(fields), args)
    ensures (forall fields :: !IsTemplate(template, fields)) ==> r == Ok(args)
  {
    var fields := TemplateFields(template);
    assert fields != [] ==> IsTemplate(template, fields);
    var normalized := args;
    for i := 0 to |fields|
      invariant NormalizeSlots(Slots(fields), args) == NormalizeSlots(Slots(fields)[i..], normalized)
    {
      var slot := SlotOf(fields[i]);
      assert Slots(fields)[i..][0] == slot && Slots(fields)[i..][1..] == Slots(fields)[i + 1..];
      if slot.key == "" || slot.key !in normalized { continue; }
      if normalized[slot.key].Null? {
        if slot.required { return Err(slot.key); }
        normalized := normalized - {slot.key};
        continue;
      }
      var coerced := Coerce(normalized[slot.key], slot.typ);
      if coerced.None? { return Err(slot.key); }
      normalized := normalized[slot.key := coerced.value];
    }
    return Ok(normalized);
  }

  // ----- what becomes of one argument -----

  datatype Fate = Refused | Gone | Kept(value: Json)

  predicate Owns(slot: Slot, key: string) {
    slot.key == key && key != ""
  }

  /** The slots of its key handle an argument one after the other. */
  function FateOf(slots: seq<Slot>, key: string, v: Json): Fate {
    if slots == [] then Kept(v)
    else if !Owns(slots[0], key) then FateOf(slots[1..], key, v)
    else if v.Null? then if slots[0].required then Refused else Gone
    else match Coerce(v, slots[0].typ)
         case None => Refused
         case Some(u) => FateOf(slots[1..], key, u)
  }

  lemma StepKeepsFates(slots: seq<Slot>, args: Arguments, next: Arguments, key: string)
    requires slots != [] && NormalizeSlot(slots[0], args) == Ok(next)
    ensures key in next ==> key in args && FateOf(slots, key, args[key]) == FateOf(slots[1..], key, next[key])
    ensures key in args && key !in next ==> FateOf(slots, key, args[key]) == Gone
  {
  }

  /** Arguments that are accepted: each comes out as its own slots leave it. */
  lemma {:induction false} AcceptedArgument(slots: seq<Slot>, args: Arguments, key: string)
    requires NormalizeSlots(slots, args).Ok?
    ensures var r := NormalizeSlots(slots, args).args;
            && (key in r <==> key in args && FateOf(slots, key, args[key]).Kept?)
            && (key in r ==> FateOf(slots, key, args[key]) == Kept(r[key]))
            && (key in args ==> !FateOf(slots, key, args[key]).Refused?)
  {
    if slots != [] {
      var next := NormalizeSlot(slots[0], args).args;
      StepKeepsFates(slots, args, next, key);
      AcceptedArgument(slots[1..], next, key);
    }
  }

  /** Arguments are refused for one of them, and the error names it. */
  lemma {:induction false} RefusedArgument(slots: seq<Slot>, args: Arguments) returns (key: string)
    requires NormalizeSlots(slots, args).Err?
    ensures NormalizeSlots(slots, args) == Err(key)
    ensures key in args && FateOf(slots, key, args[key]).Refused?
  {
    match NormalizeSlot(slots[0], args)
    case Err(_) => key := slots[0].key;
    case Ok(next) =>
      key := RefusedArgument(slots[1..], next);
      StepKeepsFates(slots, args, next, key);
  }

  predicate HasSlot(slots: seq<Slot>, key: string) {
    slots != [] && (Owns(slots[0], key) || HasSlot(slots[1..], key))
  }

  /** The first slot of the key lets a null go. */
  predicate DropsNull(slots: seq<Slot>, key: string) {
    slots != [] && if Owns(slots[0], key) then !slots[0].required else DropsNull(slots[1..], key)
  }

  predicate IsBoolean(t: GoType) {
    t.GBool? || (t.GPointer? && IsBoolean(t.elem))
  }

  predicate BooleanSlot(slots: seq<Slot>, key: string) {
    slots != [] && ((Owns(slots[0], key) && IsBoolean(slots[0].typ)) || BooleanSlot(slots[1..], key))
  }

  /** A value stays as it is iff it is boolean or no boolean is asked for; what a boolean
      slot makes of it otherwise is a boolean or a refusal. */
  lemma {:induction false} CoerceIff(v: Json, t: GoType)
    requires !v.Null?
    ensures Coerce(v, t) == Some(v) <==> IsBoolean(t) ==> v.Bool?
    ensures Coerce(v, t).Some? && Coerce(v, t).value != v ==> Coerce(v, t).value.Bool? && (v.Str? || v.Num?)
  {
    if t.GPointer? { CoerceIff(v, t.elem); }
  }

  /** The words and numbers a boolean is made of, in any case and with blanks around them. */
  predicate MeansTrue(v: Json) {
    match v
    case Bool(b) => b
    case Num(n) => n == 1.0
    case Str(s) => var word := Lower(Trim(s)); word == "true" || word == "1" || word == "yes" || word == "y"
    case _ => false
  }

  predicate MeansFalse(v: Json) {
    match v
    case Bool(b) => !b
    case Num(n) => n == 0.0
    case Str(s) => var word := Lower(Trim(s)); word == "false" || word == "0" || word == "no" || word == "n"
    case _ => false
  }

  /** A boolean is asked for: what means true becomes true, what means false becomes false, and
      everything else is refused, but for a null where the boolean is behind a reference, which stays. */
  lemma {:induction false} BooleanWords(v: Json, t: GoType)
    requires IsBoolean(t)
    ensures Coerce(v, t) == Some(Bool(true)) <==> MeansTrue(v)
    ensures Coerce(v, t) == Some(Bool(false)) <==> MeansFalse(v)
    ensures Coerce(v, t) == Some(Null) <==> v.Null? && t.GPointer?
    ensures Coerce(v, t) == None <==> !MeansTrue(v) && !MeansFalse(v) && !(v.Null? && t.GPointer?)
  {
    if t.GPointer? { BooleanWords(v, t.elem); }
  }

  lemma {:induction false} FateOfNull(slots: seq<Slot>, key: string)
    ensures FateOf(slots, key, Null) == Gone <==> DropsNull(slots, key)
    ensures FateOf(slots, key, Null) == Kept(Null) <==> !HasSlot(slots, key)
  {
    if slots != [] { FateOfNull(slots[1..], key); }
  }

  lemma {:induction false} FateOfValue(slots: seq<Slot>, key: string, v: Json)
    requires !v.Null?
    ensures FateOf(slots, key, v) == Kept(v) <==> BooleanSlot(slots, key) ==> v.Bool?
    ensures FateOf(slots, key, v).Kept? && FateOf(slots, key, v) != Kept(v)
            ==> FateOf(slots, key, v).value.Bool? && (v.Str? || v.Num?)
    ensures FateOf(slots, key, v) != Gone
    decreases slots
  {
    if slots != [] {
      if Owns(slots[0], key) {
        CoerceIff(v, slots[0].typ);
        var u := Coerce(v, slots[0].typ);
        if u.Some? { FateOfValue(slots[1..], key, u.value); }
      } else {
        FateOfValue(slots[1..], key, v);
      }
    }
  }

  /** What `NormalizesTo` asks of one argument. */
  predicate Settles(slots: seq<Slot>, key: string, v: Json, gone: bool) {
    if v.Null? then if gone then DropsNull(slots, key) else !HasSlot(slots, key)
    else !gone && (BooleanSlot(slots, key) ==> v.Bool?)
  }

  /** For any fields and any arguments: they lose the keys of `gone` and nothing else
      exactly when every one of those is a null its first field lets go, no other null has
      a field, and every value a boolean field gets is a boolean. */
  lemma NormalizesTo(slots: seq<Slot>, args: Arguments, gone: set<string>)
    requires gone <= args.Keys
    ensures NormalizeSlots(slots, args) == Ok(args - gone)
            <==> forall k :: k in args ==> Settles(slots, k, args[k], k in gone)
  {
    forall k | k in args
      ensures Settles(slots, k, args[k], k in gone)
              <==> FateOf(slots, k, args[k]) == if k in gone then Gone else Kept(args[k])
    {
      if args[k].Null? { FateOfNull(slots, k); } else { FateOfValue(slots, k, args[k]); }
    }
    if NormalizeSlots(slots, args).Err? {
      var k := RefusedArgument(slots, args);
      assert !Settles(slots, k, args[k], k in gone);
    } else {
      AcceptedIff(slots, args, args - gone);
    }
  }

  lemma AcceptedIff(slots: seq<Slot>, args: Arguments, r: Arguments)
    requires NormalizeSlots(slots, args).Ok? && r.Keys <= args.Keys
    ensures NormalizeSlots(slots, args) == Ok(r)
            <==> forall k :: k in args ==> FateOf(slots, k, args[k]) == if k in r then Kept(r[k]) else Gone
  {
    var out := NormalizeSlots(slots, args).args;
    forall k ensures k in args ==> (FateOf(slots, k, args[k]) == if k in out then Kept(out[k]) else Gone) {
      AcceptedArgument(slots, args, k);
    }
    forall k | k in out ensures k in args { AcceptedArgument(slots, args, k); }
    if forall k :: k in args ==> FateOf(slots, k, args[k]) == if k in r then Kept(r[k]) else Gone {
      assert out.Keys == r.Keys;
      assert out == r;
    }
  }
}
