/** Reading an RFC 3339 timestamp from a JSON string: the token check, the
    rewrite of the time offset into the form the Java date patterns accept,
    and the order in which the patterns are tried. */
module Rfc3339 {
  import opened Errors
  import opened Lang

  /** The kind of the JSON token the parser is positioned on. */
  datatype JsonToken =
    | ValueString
    | ValueNumberInt
    | ValueNumberFloat
    | ValueTrue
    | ValueFalse
    | ValueNull
    | StartObject
    | StartArray

  /** The four date patterns, as partial parsers from text to epoch
      milliseconds: `yyyy-MM-dd'T'HH:mm:ss'Z'`, the same with six fractional
      digits (used leniently), `yyyy-MM-dd'T'HH:mm:ssZ`, and the same with
      three fractional digits (used leniently). */
  datatype Patterns = Patterns(
    zulu: string -> Option<int>,
    zuluFractional: string -> Option<int>,
    offset: string -> Option<int>,
    offsetFractional: string -> Option<int>)

  /** A pattern, and when it refuses the text the fractional-seconds pattern;
      a `ParseException` when both refuse. */
  function TryPatterns(first: string -> Option<int>, fallback: string -> Option<int>, s: string): (r: Result<int>)
    ensures r.Ok? <==> first(s).Some? || fallback(s).Some?
    ensures r.Err? ==> r.failure == ParseFailure
    ensures first(s).Some? ==> r == Ok(first(s).value)
    ensures first(s).None? && fallback(s).Some? ==> r == Ok(fallback(s).value)
  {
    match first(s)
    case Some(d) => Ok(d)
    case None =>
      match fallback(s)
      case Some(d) => Ok(d)
      case None => Err(ParseFailure)
  }

  /** Step two of the non-zulu path: the text up to the first `:` of the
      offset and the text after it, when it has one. */
  function DropFirstColon(offset: string): (r: string)
  {
    if |offset| == 0 then offset
    else if offset[0] == ':' then offset[1..]
    else [offset[0]] + DropFirstColon(offset[1..])
  }

  /** Steps one and two of the non-zulu path: the offset is the text from the
      LAST `+`, and loses its first `:`. Without a `+` the `substring(0, -1)`
      throws. */
  function RemoveOffsetColon(s: string): (r: Result<string>)
    ensures r.Err? <==> '+' !in s
    ensures r.Err? ==> r.failure == IndexOutOfBounds
  {
    var p := LastIndexOf(s, '+');
    if p < 0 then Err(IndexOutOfBounds)
    else Ok(s[..p] + DropFirstColon(s[p..]))
  }

  /** `parseRFC3339Date`: a text ending in `Z` goes to the zulu patterns as
      it is; any other text has its offset rewritten and goes to the offset
      patterns. */
  function ParseRfc3339Date(s: string, pats: Patterns): (r: Result<int>)
  {
    if EndsWith(s, "Z") then TryPatterns(pats.zulu, pats.zuluFractional, s)
    else
      var t :- RemoveOffsetColon(s);
      TryPatterns(pats.offset, pats.offsetFractional, t)
  }

  /** `deserialize`: anything but a string token, a null text and a
      `ParseException` become a mapping exception; the
      `IndexOutOfBoundsException` of a missing `+` is not caught. */
  function Deserialize(token: JsonToken, text: Option<string>, pats: Patterns): (r: Result<int>)
  {
    if token != ValueString then Err(MappingError)
    else if text.None? then Err(MappingError)
    else
      var d := ParseRfc3339Date(text.value, pats);
      if d == Err(ParseFailure) then Err(MappingError) else d
  }

  // ---------------------------------------------------------------------------
  // The offset rewrite
  // ---------------------------------------------------------------------------

  /** The colon-free text before the first `:` is kept, and so is
      everything after it. */
  lemma {:induction false} DropColonAt(x: string, y: string)
    requires ':' !in x
    ensures DropFirstColon(x + [':'] + y) == x + y
  {
    if |x| > 0 {
      assert (x + [':'] + y)[1..] == x[1..] + [':'] + y;
      DropColonAt(x[1..], y);
    } else {
      assert x + [':'] + y == [':'] + y;
    }
  }

  /** An offset without `:` is kept; otherwise exactly one character goes,
      and it is the first `:`. */
  lemma DropOneColon(o: string)
    ensures ':' !in o ==> DropFirstColon(o) == o
    ensures ':' in o ==> var i := IndexOf(o, ':');
                         DropFirstColon(o) == o[..i] + o[i + 1..]
  {
    if ':' in o {
      var i := IndexOf(o, ':');
      assert o == o[..i] + [':'] + o[i + 1..];
      DropColonAt(o[..i], o[i + 1..]);
    } else {
      NoColonKept(o);
    }
  }

  lemma {:induction false} NoColonKept(o: string)
    requires ':' !in o
    ensures DropFirstColon(o) == o
  {
    if |o| > 0 {
      NoColonKept(o[1..]);
    }
  }

  /** An offset `+hh:mm` (any text after the last `+`, the part before its
      first `:` being free of `:`) loses exactly that `:`; the date and time
      before the `+` are kept, colons and all. */
  lemma OffsetColonRemoved(dateTime: string, hh: string, mm: string)
    requires '+' !in hh && '+' !in mm && ':' !in hh
    ensures RemoveOffsetColon(dateTime + "+" + hh + ":" + mm) == Ok(dateTime + ("+" + hh + mm))
  {
    var off := "+" + hh + ":" + mm;
    var s := dateTime + off;
    assert dateTime + "+" + hh + ":" + mm == s;
    LastBeforeFree(dateTime, off, '+');
    assert s[..|dateTime|] == dateTime && s[|dateTime|..] == off;
    assert off == ("+" + hh) + [':'] + mm;
    DropColonAt("+" + hh, mm);
  }

  /** The position of the last `c` in `x + y` when `y` starts with `c` and
      holds no other. */
  lemma LastBeforeFree(x: string, y: string, c: char)
    requires |y| > 0 && y[0] == c && c !in y[1..]
    ensures LastIndexOf(x + y, c) == |x|
  {
    var s := x + y;
    assert s[|x|] == c;
    assert s[|x| + 1..] == y[1..];
  }

  /** An offset without `:` (`+0100`) is left as it is. */
  lemma OffsetWithoutColonUnchanged(dateTime: string, offset: string)
    requires '+' !in offset && ':' !in offset
    ensures RemoveOffsetColon(dateTime + "+" + offset) == Ok(dateTime + ("+" + offset))
  {
    OffsetRewritten(dateTime, offset);
    NoColonKept(offset);
  }

  /** Whatever the offset after the last `+`, the text before the `+` is
      kept and only the offset is rewritten. */
  lemma OffsetRewritten(dateTime: string, offset: string)
    requires '+' !in offset
    ensures RemoveOffsetColon(dateTime + "+" + offset) == Ok(dateTime + ("+" + DropFirstColon(offset)))
  {
    var o := "+" + offset;
    assert dateTime + "+" + offset == dateTime + o;
    LastBeforeFree(dateTime, o, '+');
    var s := dateTime + o;
    assert s[..|dateTime|] == dateTime && s[|dateTime|..] == o;
    assert o[1..] == offset;
    assert DropFirstColon(o) == "+" + DropFirstColon(offset);
    assert RemoveOffsetColon(s) == Ok(dateTime + DropFirstColon(o));
  }

  // ---------------------------------------------------------------------------
  // Parsing and deserialising
  // ---------------------------------------------------------------------------

  /** A text ending in `Z` is not rewritten: the zulu pattern is tried on it,
      then the fractional one, and nothing else. */
  lemma ZuluPath(s: string, pats: Patterns)
    requires EndsWith(s, "Z")
    ensures ParseRfc3339Date(s, pats).Ok? <==> pats.zulu(s).Some? || pats.zuluFractional(s).Some?
    ensures pats.zulu(s).Some? ==> ParseRfc3339Date(s, pats) == Ok(pats.zulu(s).value)
    ensures ParseRfc3339Date(s, pats).Err? ==> ParseRfc3339Date(s, pats).failure == ParseFailure
  {
  }

  /** Any other text that holds a `+` is parsed by the offset patterns after
      the rewrite, in the same order. */
  lemma OffsetPath(s: string, pats: Patterns)
    requires !EndsWith(s, "Z") && '+' in s
    ensures var t := RemoveOffsetColon(s).value;
            && (ParseRfc3339Date(s, pats).Ok? <==> pats.offset(t).Some? || pats.offsetFractional(t).Some?)
            && (pats.offset(t).Some? ==> ParseRfc3339Date(s, pats) == Ok(pats.offset(t).value))
            && (ParseRfc3339Date(s, pats).Err? ==> ParseRfc3339Date(s, pats).failure == ParseFailure)
  {
  }

  /** The failures that reach the caller of `deserialize`: a mapping
      exception for a non-string token, a null text or a refused text, and
      the uncaught IndexOutOfBounds exactly for a non-`Z` text without `+`. */
  lemma DeserializeFailures(token: JsonToken, text: Option<string>, pats: Patterns)
    ensures var r := Deserialize(token, text, pats);
            && (token != ValueString || text.None? ==> r == Err(MappingError))
            && (r.Err? ==> r.failure == MappingError || r.failure == IndexOutOfBounds)
            && (r == Err(IndexOutOfBounds) <==>
                  token == ValueString && text.Some? && !EndsWith(text.value, "Z") && '+' !in text.value)
  {
    if token == ValueString && text.Some? {
      var s := text.value;
      if EndsWith(s, "Z") {
        ZuluPath(s, pats);
      } else if '+' in s {
        OffsetPath(s, pats);
      }
    }
  }

  /** A successful deserialisation yields what the parsing yields. */
  lemma DeserializeOk(token: JsonToken, text: Option<string>, pats: Patterns)
    ensures Deserialize(token, text, pats).Ok? <==>
              token == ValueString && text.Some? && ParseRfc3339Date(text.value, pats).Ok?
    ensures Deserialize(token, text, pats).Ok? ==> Deserialize(token, text, pats) == ParseRfc3339Date(text.value, pats)
  {
  }

  /** A negative offset, which section 5.6 of RFC 3339 allows, is not
      handled: `2020-01-01T10:00:00-05:00` escapes as IndexOutOfBounds
      whatever the patterns accept. */
  lemma NegativeOffsetExample(pats: Patterns)
    ensures Deserialize(ValueString, Some("2020-01-01T10:00:00-05:00"), pats) == Err(IndexOutOfBounds)
  {
    var s := "2020-01-01T10:00:00-05:00";
    assert s[|s| - 1] == '0';
    assert !EndsWith(s, "Z");
    assert '+' !in s;
    DeserializeFailures(ValueString, Some(s), pats);
  }

  /** A positive offset: `+01:00` becomes `+0100`. */
  lemma PositiveOffsetExample()
    ensures RemoveOffsetColon("2020-01-01T10:00:00+01:00") == Ok("2020-01-01T10:00:00+0100")
  {
    assert "2020-01-01T10:00:00" + "+" + "01" + ":" + "00" == "2020-01-01T10:00:00+01:00";
    assert "2020-01-01T10:00:00" + ("+" + "01" + "00") == "2020-01-01T10:00:00+0100";
    OffsetColonRemoved("2020-01-01T10:00:00", "01", "00");
  }
}
