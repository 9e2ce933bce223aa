/** The reserved criteria tokens `$null`, `$any` and `$exists`. */
module ReservedValues {
  import opened Errors

  datatype Reserved = Null | Any | Exists

  /** The token that stands for a reserved value; it is also the value's
      `toString`. */
  function StrVal(r: Reserved): string
  {
    match r
    case Null => "$null"
    case Any => "$any"
    case Exists => "$exists"
  }

  /** The reserved value a token names, or None for any other text. */
  function FromString(s: string): (r: Option<Reserved>)
    ensures r.Some? <==> s in {"$null", "$any", "$exists"}
    ensures r.Some? ==> StrVal(r.value) == s
  {
    if s == "$null" then Some(Null)
    else if s == "$any" then Some(Any)
    else if s == "$exists" then Some(Exists)
    else None
  }

  /** Looking a token up gives back the value it names. */
  lemma FromStringStrVal(r: Reserved)
    ensures FromString(StrVal(r)) == Some(r)
  {
  }

  /** Distinct reserved values have distinct tokens. */
  lemma StrValInjective(a: Reserved, b: Reserved)
    requires StrVal(a) == StrVal(b)
    ensures a == b
  {
    FromStringStrVal(a);
    FromStringStrVal(b);
  }
}
