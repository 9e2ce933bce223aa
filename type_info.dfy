/** Coercion of request text into typed values, the registry of custom
    converters it consults, and the walk that finds the type of a dotted field
    expression through an entity schema. */
module TypeInfo {
  import opened Errors
  import opened Lang
  import opened ReservedValues
  import opened Values

  /** The classes coercion and the field walk tell apart. A primitive type is
      a class of its own (`long.class` is not `Long.class`): the converter
      table keys them apart, and only the built-in class tests treat a
      primitive like its box. */
  datatype Clazz =
    | StringClass
    | LongClass
    | LongPrimitive
    | IntegerClass
    | IntPrimitive
    | ObjectIdClass
    | BooleanClass
    | BooleanPrimitive
    | EnumClass(name: string, constants: seq<string>)
    | DateClass
    | ListClass
    | CollectionClass
    | IterableClass
    | ObjectClass
    | OtherClass(name: string)   // an entity, a map, or any other class

  /** A registered converter's `deserialize`; None stands for an exception. */
  type Deserializer = string -> Option<Value>

  type Converters = map<Clazz, Deserializer>

  /** The process-wide converter table. */
  class ConverterRegistry {
    var converters: Converters

    constructor ()
      ensures converters == map[]
    {
      converters := map[];
    }

    /** `addConverter`: a converter for a class that already has one replaces it
        (the source only logs a warning). */
    method AddConverter(target: Clazz, deserialize: Deserializer)
      modifies this
      ensures converters == old(converters)[target := deserialize]
    {
      converters := converters[target := deserialize];
    }
  }

  // ---------------------------------------------------------------------------
  // Built-in coercions
  // ---------------------------------------------------------------------------

  predicate IsHexDigit(c: char) {
    IsDigit(c) || 'a' <= c <= 'f' || 'A' <= c <= 'F'
  }

  /** `ObjectId.isValid`: exactly 24 hexadecimal digits, in either case. */
  predicate IsObjectIdText(s: string) {
    |s| == 24 && forall i :: 0 <= i < |s| ==> IsHexDigit(s[i])
  }

  /** The hexadecimal text an ObjectId prints: valid text stays valid, no
      upper-case letter remains, every other character is kept, and the
      result names the same id ignoring case. */
  function LowerAscii(s: string): (r: string)
    ensures |r| == |s|
    ensures IsObjectIdText(s) ==> IsObjectIdText(r)
    ensures forall i :: 0 <= i < |r| ==> !IsUpperAscii(r[i])
    ensures forall i :: 0 <= i < |s| && !IsUpperAscii(s[i]) ==> r[i] == s[i]
    ensures EqualsIgnoreCase(r, s)
  {
    seq(|s|, i requires 0 <= i < |s| => ToLowerAscii(s[i]))
  }

  /** The class a coerced value belongs to, when coercion can produce it. */
  predicate TypedBy(v: Value, clazz: Clazz) {
    match v
    case VString(_) => clazz == StringClass
    case VLong(n) => (clazz == LongClass || clazz == LongPrimitive) && LongMin <= n <= LongMax
    case VInt(n) => (clazz == IntegerClass || clazz == IntPrimitive) && IntMin <= n <= IntMax
    case VBool(_) => clazz == BooleanClass || clazz == BooleanPrimitive
    case VObjectId(h) =>
      clazz == ObjectIdClass && IsObjectIdText(h) && forall i :: 0 <= i < |h| ==> !IsUpperAscii(h[i])
    case VEnum(c) => clazz.EnumClass? && c in clazz.constants
    case VDate(ms) => clazz == DateClass && LongMin <= ms <= LongMax
    case _ => false
  }

  /** The chain of class tests after the reserved tokens and the converters;
      every exception inside it becomes a PARAMS_ERROR, and a class no test
      matches is unsupported, which is a PARAMS_ERROR as well. */
  function BuiltIn(s: string, clazz: Clazz): (r: Result<Value>)
    ensures r.Err? ==> r.failure == RestDsl(ParamsError)
    ensures r.Ok? ==> TypedBy(r.value, clazz)
    ensures clazz == StringClass ==> r == Ok(VString(s))
    ensures clazz == BooleanClass || clazz == BooleanPrimitive ==> r.Ok?
  {
    match clazz
    case StringClass => Ok(VString(s))
    case LongClass | LongPrimitive =>
      var n := ParseLong(s);
      if n.Some? then Ok(VLong(n.value)) else Raise(ParamsError)
    case IntegerClass | IntPrimitive =>
      var n := ParseInt(s);
      if n.Some? then Ok(VInt(n.value)) else Raise(ParamsError)
    case ObjectIdClass =>
      if IsObjectIdText(s) then Ok(VObjectId(LowerAscii(s))) else Raise(ParamsError)
    case BooleanClass | BooleanPrimitive => Ok(VBool(EqualsIgnoreCase(s, "true")))
    case EnumClass(_, constants) =>
      if s in constants then Ok(VEnum(s)) else Raise(ParamsError)
    case DateClass =>
      var n := ParseLong(s);
      if n.Some? then Ok(VDate(n.value)) else Raise(ParamsError)
    case _ => Raise(ParamsError)
  }

  /** `getValue`: reserved tokens first, then a registered converter, then the
      built-in class tests. */
  function GetValue(converters: Converters, s: string, clazz: Clazz): (r: Result<Value>)
    ensures r.Err? ==> r.failure == RestDsl(ParamsError)
  {
    var reserved := FromString(s);
    if reserved.Some? then
      if reserved.value == Null then Ok(VNull) else Ok(VReserved(reserved.value))
    else if clazz in converters then
      var v := converters[clazz](s);
      if v.Some? then Ok(v.value) else Raise(ParamsError)
    else BuiltIn(s, clazz)
  }

  /** A reserved token coerces the same way whatever the class and whatever
      converters are registered: `$null` to null, the others to themselves. */
  lemma ReservedFirst(m1: Converters, m2: Converters, s: string, c1: Clazz, c2: Clazz)
    requires FromString(s).Some?
    ensures GetValue(m1, s, c1) == GetValue(m2, s, c2)
    ensures GetValue(m1, s, c1) == if s == StrVal(Null) then Ok(VNull) else Ok(VReserved(FromString(s).value))
  {
  }

  /** A registered converter decides the coercion of every other text for its
      class, and registering one leaves the other classes alone. */
  lemma ConverterPrecedence(m: Converters, target: Clazz, f: Deserializer, s: string, other: Clazz)
    requires FromString(s).None?
    ensures GetValue(m[target := f], s, target) == if f(s).Some? then Ok(f(s).value) else Raise(ParamsError)
    ensures other != target ==> GetValue(m[target := f], s, other) == GetValue(m, s, other)
  {
  }

  /** The class tests coerce a primitive as its box, but a converter
      registered for the box is not consulted for the primitive: with one for
      `Long.class` only, a `long` field's text is read by `Long.valueOf`. */
  lemma PrimitiveApartFromBox(m: Converters, f: Deserializer, s: string)
    requires FromString(s).None? && LongPrimitive !in m
    ensures BuiltIn(s, LongPrimitive) == BuiltIn(s, LongClass)
    ensures BuiltIn(s, IntPrimitive) == BuiltIn(s, IntegerClass)
    ensures BuiltIn(s, BooleanPrimitive) == BuiltIn(s, BooleanClass)
    ensures GetValue(m[LongClass := f], s, LongPrimitive) == BuiltIn(s, LongClass)
  {
  }

  /** Without a converter, a non-reserved text is coerced by the class tests
      alone, and a class none of them names is unsupported. */
  lemma UnsupportedClass(m: Converters, s: string, clazz: Clazz)
    requires clazz !in m && FromString(s).None?
    requires clazz in {ListClass, CollectionClass, IterableClass, ObjectClass} || clazz.OtherClass?
    ensures GetValue(m, s, clazz) == Raise(ParamsError)
  {
  }

  /** Coercion inverts `toString` on every value it can produce: numbers print
      in base 10, booleans as `true`/`false`, object ids as lower-case hex and
      enum constants as their names. */
  lemma {:induction false} CoerceToText(m: Converters, v: Value, clazz: Clazz, fmt: DateFormats)
    requires TypedBy(v, clazz) && !v.VDate?
    requires clazz !in m
    requires (v.VString? || v.VEnum?) ==> FromString(ToText(v, fmt)).None?
    ensures GetValue(m, ToText(v, fmt), clazz) == Ok(v)
  {
    match v
    case VLong(n) =>
      ParseDecimalString(n);
      DecimalNotReserved(n);
    case VInt(n) =>
      ParseDecimalString(n);
      DecimalNotReserved(n);
    case VBool(b) =>
      assert FromString(ToText(v, fmt)).None?;
    case VObjectId(h) =>
      assert FromString(h).None? by { assert |h| == 24; }
      assert LowerAscii(h) == h;
    case _ =>
  }

  /** A decimal number never looks like a reserved token. */
  lemma DecimalNotReserved(n: int)
    ensures FromString(DecimalString(n)).None?
  {
    var s := DecimalString(n);
    assert s != [] && s[0] != '$' by {
      if n < 0 {
        assert s[0] == '-';
      } else {
        assert IsDigit(NatDigits(n)[0]);
      }
    }
  }

  /** Dates are epoch milliseconds in base 10. */
  lemma CoerceDate(m: Converters, ms: int)
    requires DateClass !in m && LongMin <= ms <= LongMax
    ensures GetValue(m, DecimalString(ms), DateClass) == Ok(VDate(ms))
  {
    ParseDecimalString(ms);
    DecimalNotReserved(ms);
  }

  /** `getValue("123", Long)` is 123; `getValue("123X", Long)` is a PARAMS_ERROR. */
  lemma LongExamples(m: Converters)
    requires LongClass !in m
    ensures GetValue(m, "123", LongClass) == Ok(VLong(123))
    ensures GetValue(m, "123X", LongClass) == Raise(ParamsError)
  {
    assert DigitsValue("123") == 123 by {
      assert "123"[..2] == "12" && "12"[..1] == "1";
    }
    ParseDecimalAccepts("123X");
    assert !IsDigit("123X"[3]);
  }

  // ---------------------------------------------------------------------------
  // Field expressions
  // ---------------------------------------------------------------------------

  /** The entity schema: a field's declared type, and the element type of a
      list (or the value type of a map) field. Both fail on an unknown field. */
  datatype Schema = Schema(
    fieldType: (Clazz, string) -> Result<Clazz>,
    normalizedType: (Clazz, string) -> Result<Clazz>)

  /** `c.isAssignableFrom(List.class)`: `c` is List or one of its supertypes. */
  predicate AssignableFromList(c: Clazz) {
    c == ListClass || c == CollectionClass || c == IterableClass || c == ObjectClass
  }

  /** The class the walk continues with after field `f` of `cl`: the element type
      for a list-typed field, the field type otherwise. */
  function Step(schema: Schema, cl: Clazz, f: string): (r: Result<Clazz>)
    ensures schema.fieldType(cl, f).Err? ==> r == schema.fieldType(cl, f)
    ensures schema.fieldType(cl, f).Ok? && AssignableFromList(schema.fieldType(cl, f).value) ==>
      r == schema.normalizedType(cl, f)
    ensures schema.fieldType(cl, f).Ok? && !AssignableFromList(schema.fieldType(cl, f).value) ==>
      r == schema.fieldType(cl, f)
  {
    var nested :- schema.fieldType(cl, f);
    if AssignableFromList(nested) then schema.normalizedType(cl, f) else Ok(nested)
  }

  /** The private recursive `getFieldExpressionClazz`: walks `fields` from
      position `ptr`, remembering the class that declared the last field. */
  function FieldWalk(schema: Schema, cl: Clazz, prev: Option<Clazz>, fields: seq<string>, ptr: nat)
    : (r: Result<(Clazz, Option<Clazz>)>)
    ensures ptr >= |fields| ==> r == Ok((cl, prev))
    ensures ptr < |fields| && r.Ok? ==> r.value.1.Some?
    decreases |fields| - ptr
  {
    if ptr >= |fields| then Ok((cl, prev))
    else
      var next :- Step(schema, cl, fields[ptr]);
      FieldWalk(schema, next, Some(cl), fields, ptr + 1)
  }

  /** The public `getFieldExpressionClazz`: the walk over the dot-separated
      segments, starting at the entity class with no parent. */
  function FieldExpressionClazz(schema: Schema, cl: Clazz, expr: string): (r: Result<(Clazz, Option<Clazz>)>)
    ensures r.Ok? ==> r.value.1.Some?
  {
    FieldWalk(schema, cl, None, Split(expr, '.'), 0)
  }

  /** The walk over `fs + [f]` is the walk over `fs` followed by one step: the
      result is the type reached through the last segment, and its parent is
      the class that declares that segment. */
  lemma {:induction false} FieldWalkSnoc(schema: Schema, cl: Clazz, prev: Option<Clazz>, fs: seq<string>, f: string, ptr: nat)
    requires ptr <= |fs|
    ensures FieldWalk(schema, cl, prev, fs + [f], ptr) ==
      match FieldWalk(schema, cl, prev, fs, ptr)
      case Err(e) => Err(e)
      case Ok(last) =>
        match Step(schema, last.0, f)
        case Err(e) => Err(e)
        case Ok(t) => Ok((t, Some(last.0)))
    decreases |fs| - ptr
  {
    var gs := fs + [f];
    if ptr < |fs| {
      assert gs[ptr] == fs[ptr];
      var next := Step(schema, cl, fs[ptr]);
      if next.Ok? {
        FieldWalkSnoc(schema, next.value, Some(cl), fs, f, ptr + 1);
      }
    } else {
      assert gs[ptr] == f;
    }
  }

  /** A single segment names a field of the entity itself. */
  lemma SingleSegment(schema: Schema, cl: Clazz, name: string)
    requires '.' !in name
    ensures FieldExpressionClazz(schema, cl, name) ==
      match Step(schema, cl, name)
      case Err(e) => Err(e)
      case Ok(t) => Ok((t, Some(cl)))
  {
    assert Split(name, '.') == [name];
  }
}
