/** The values a criterion or an id can hold once coerced from text. */
module Values {
  import opened Errors
  import opened Lang
  import opened ReservedValues

  /** A coerced value: one per Java type the coercion can produce. */
  datatype Value =
    | VNull                     // Java null (the `$null` token)
    | VReserved(r: Reserved)    // `$any` or `$exists`
    | VString(s: string)
    | VLong(n: int)
    | VInt(n: int)
    | VBool(b: bool)
    | VObjectId(hex: string)    // 24 lower-case hex digits
    | VEnum(constant: string)
    | VDate(millis: int)
    | VCustom(text: string)     // what a registered converter produced, by its toString

  /** The date renderings the library provides: the ISO pattern used for
      criteria, and `Date.toString`. */
  datatype DateFormats = DateFormats(iso: int -> string, plain: int -> string)

  /** `criteriaValToStr`: null as `$null`, reserved values as their token,
      dates in the ISO pattern, anything else by its `toString`. */
  function CriteriaValToStr(v: Value, fmt: DateFormats): (r: string)
    ensures v == VNull ==> r == StrVal(Null)
    ensures v.VReserved? ==> r == StrVal(v.r)
    ensures v.VString? ==> r == v.s
  {
    match v
    case VNull => StrVal(Null)
    case VReserved(x) => StrVal(x)
    case VDate(ms) => fmt.iso(ms)
    case _ => ToText(v, fmt)
  }

  /** `Object.toString` of a non-null value. */
  function ToText(v: Value, fmt: DateFormats): string
    requires v != VNull
  {
    match v
    case VReserved(x) => StrVal(x)
    case VString(s) => s
    case VLong(n) => DecimalString(n)
    case VInt(n) => DecimalString(n)
    case VBool(b) => if b then "true" else "false"
    case VObjectId(h) => h
    case VEnum(c) => c
    case VDate(ms) => fmt.plain(ms)
    case VCustom(t) => t
  }

  /** Guava `Joiner.join` on values: their `toString`s separated by `sep`; a
      null element makes the joiner throw. */
  function JoinValues(vs: seq<Value>, sep: string, fmt: DateFormats): (r: Result<string>)
    ensures r.Err? <==> VNull in vs
    ensures r.Err? ==> r.failure == NullPointer
  {
    if VNull in vs then Err(NullPointer)
    else Ok(Join(seq(|vs|, i requires 0 <= i < |vs| => ToText(vs[i], fmt)), sep))
  }
}
