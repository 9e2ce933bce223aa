/** EntityIndexInfo: the storage indexes of an entity translated to Java field
    names, and the set of their leading prefixes that decides whether a query
    is index-safe. */
module IndexInfo {
  import opened Errors
  import opened Lang
  import opened Multimaps
  import opened TypeInfo

  /** The value of one index key, as the storage reports it: `hashed`, a
      number (given by its `intValue()`), or text that is neither. */
  datatype KeyValue = Hashed | Number(intValue: int) | Unparseable

  /** The storage mapping of one field: its Java name, its declared type, the
      element type of a list and the concrete type otherwise. */
  datatype MappedField = MappedField(javaName: string, fieldType: Clazz, subType: Clazz, concreteType: Clazz)

  /** The mapped field of a storage name in a class, or None when unmapped. */
  type Mapper = (Clazz, string) -> Option<MappedField>

  /** An index definition: its keys, in order, with their values. */
  type IndexKey = seq<(string, KeyValue)>

  // ---------------------------------------------------------------------------
  // Translating storage names
  // ---------------------------------------------------------------------------

  /** The class the walk continues with after a mapped field. */
  function NextClazz(mf: MappedField): Clazz
  {
    if AssignableFromList(mf.fieldType) then mf.subType else mf.concreteType
  }

  /** The Java names along a dotted storage path, or None at the first unmapped
      component. */
  function JavaNames(mapper: Mapper, cl: Clazz, comps: seq<string>): (r: Option<seq<string>>)
    ensures r.Some? ==> |r.value| == |comps|
    decreases |comps|
  {
    if |comps| == 0 then Some([])
    else
      var mf := mapper(cl, comps[0]);
      if mf.None? then None
      else
        var rest := JavaNames(mapper, NextClazz(mf.value), comps[1..]);
        if rest.None? then None else Some([mf.value.javaName] + rest.value)
  }

  /** `getJavaFieldNames`: the dotted Java name of a storage name, or null. */
  function JavaFieldName(mapper: Mapper, cl: Clazz, mongoName: string): (r: Option<string>)
  {
    var names := JavaNames(mapper, cl, Split(mongoName, '.'));
    if names.None? then None else Some(Join(names.value, "."))
  }

  /** `xs` in front of the names, if there are any. */
  function Prepend(xs: seq<string>, names: Option<seq<string>>): Option<seq<string>>
  {
    if names.None? then None else Some(xs + names.value)
  }

  /** One step of the walk: a mapped head moves its Java name to the front. */
  lemma PrependStep(mapper: Mapper, cl: Clazz, xs: seq<string>, comps: seq<string>)
    requires |comps| > 0
    ensures var mf := mapper(cl, comps[0]);
      Prepend(xs, JavaNames(mapper, cl, comps))
        == if mf.None? then None
           else Prepend(xs + [mf.value.javaName], JavaNames(mapper, NextClazz(mf.value), comps[1..]))
  {
    var mf := mapper(cl, comps[0]);
    if mf.Some? {
      var rest := JavaNames(mapper, NextClazz(mf.value), comps[1..]);
      if rest.Some? {
        assert xs + ([mf.value.javaName] + rest.value) == (xs + [mf.value.javaName]) + rest.value;
      }
    }
  }

  /** The loop of `getJavaFieldNames`, one component and one class at a time. */
  method GetJavaFieldNames(mapper: Mapper, entity: Clazz, mongoName: string) returns (r: Option<string>)
    ensures r == JavaFieldName(mapper, entity, mongoName)
  {
    var comps := Split(mongoName, '.');
    var javaComps: seq<string> := [];
    var current := entity;
    var i := 0;
    ghost var whole := JavaNames(mapper, entity, comps);
    assert whole == Prepend(javaComps, JavaNames(mapper, current, comps[i..])) by {
      assert comps[0..] == comps;
      if whole.Some? {
        assert [] + whole.value == whole.value;
      }
    }
    while i < |comps|
      invariant 0 <= i <= |comps|
      invariant whole == Prepend(javaComps, JavaNames(mapper, current, comps[i..]))
    {
      PrependStep(mapper, current, javaComps, comps[i..]);
      assert comps[i..][1..] == comps[i + 1..];
      var mf := mapper(current, comps[i]);
      if mf.None? {
        return None;
      }
      javaComps := javaComps + [mf.value.javaName];
      current := NextClazz(mf.value);
      i := i + 1;
    }
    assert javaComps + [] == javaComps;
    return Some(Join(javaComps, "."));
  }

  // ---------------------------------------------------------------------------
  // Index strings
  // ---------------------------------------------------------------------------

  /** The direction a key value stands for: `hashed` counts as ascending, and
      text that is not a number has none. */
  function Direction(val: KeyValue): (d: Option<int>)
  {
    match val
    case Hashed => Some(1)
    case Number(n) => Some(n)
    case Unparseable => None
  }

  /** The component one key contributes: `-name` when descending, `name` when
      ascending, nothing for an unmapped key or any other value. */
  function Component(mapper: Mapper, cl: Clazz, key: (string, KeyValue)): (r: Option<string>)
  {
    var name := JavaFieldName(mapper, cl, key.0);
    if name.None? then None
    else
      var d := Direction(key.1);
      if d == Some(-1) then Some("-" + name.value)
      else if d == Some(1) then Some(name.value)
      else None
  }

  /** The components of an index, in key order. */
  function Components(mapper: Mapper, cl: Clazz, keys: IndexKey): (r: seq<string>)
    ensures |r| <= |keys|
  {
    if |keys| == 0 then []
    else
      var c := Component(mapper, cl, keys[|keys| - 1]);
      Components(mapper, cl, keys[..|keys| - 1]) + (if c.Some? then [c.value] else [])
  }

  /** An index as the comma-joined list of its components. */
  function IndexString(mapper: Mapper, cl: Clazz, keys: IndexKey): string
  {
    Join(Components(mapper, cl, keys), ",")
  }

  function IndexStrings(mapper: Mapper, cl: Clazz, info: seq<IndexKey>): (r: seq<string>)
    ensures |r| == |info|
    ensures forall i :: 0 <= i < |info| ==> r[i] == IndexString(mapper, cl, info[i])
  {
    if |info| == 0 then []
    else IndexStrings(mapper, cl, info[..|info| - 1]) + [IndexString(mapper, cl, info[|info| - 1])]
  }

  /** A descending key is recorded with a leading `-`, an ascending or hashed
      key by its name, and an unmapped key, a non-numeric value other than
      `hashed` or any number other than ±1 is skipped. */
  lemma ComponentCases(mapper: Mapper, cl: Clazz, key: (string, KeyValue))
    ensures JavaFieldName(mapper, cl, key.0).None? ==> Component(mapper, cl, key).None?
    ensures JavaFieldName(mapper, cl, key.0).Some? && key.1 == Number(-1) ==>
      Component(mapper, cl, key) == Some("-" + JavaFieldName(mapper, cl, key.0).value)
    ensures JavaFieldName(mapper, cl, key.0).Some? && (key.1 == Number(1) || key.1 == Hashed) ==>
      Component(mapper, cl, key) == Some(JavaFieldName(mapper, cl, key.0).value)
    ensures key.1 == Unparseable || (key.1.Number? && key.1.intValue != 1 && key.1.intValue != -1) ==>
      Component(mapper, cl, key).None?
  {
  }

  // ---------------------------------------------------------------------------
  // computeMaps
  // ---------------------------------------------------------------------------

  /** The parts of an index string with every `-` removed. */
  function SanitizedParts(index: string): (r: seq<string>)
    ensures |r| >= 1
  {
    Split(RemoveChar(index, '-'), ',')
  }

  /** The leading runs of `parts`, comma-joined: one, two, ... all of them. */
  function Prefixes(parts: seq<string>): (r: seq<string>)
    ensures |r| == |parts|
  {
    seq(|parts|, k requires 0 <= k < |parts| => Join(parts[..k + 1], ","))
  }

  /** The prefix set after the given index strings, in insertion order. */
  function PrefixSet(indexes: seq<string>): (r: seq<string>)
    ensures Distinct(r)
  {
    if |indexes| == 0 then []
    else AddAll(PrefixSet(indexes[..|indexes| - 1]), Prefixes(SanitizedParts(indexes[|indexes| - 1])))
  }

  class EntityIndexInfo {
    var indexesMap: seq<string>
    var indexPrefixMap: seq<string>

    /** Translates every index and computes both sets. */
    constructor (mapper: Mapper, entity: Clazz, info: seq<IndexKey>)
      ensures indexesMap == Dedup(IndexStrings(mapper, entity, info))
      ensures indexPrefixMap == PrefixSet(IndexStrings(mapper, entity, info))
    {
      var indexStrings := TranslateIndexes(mapper, entity, info);
      indexesMap := [];
      indexPrefixMap := [];
      new;
      ComputeMaps(indexStrings);
    }

    /** `computeMaps`: every index string joins the index set, and each of its
        sanitised leading runs joins the prefix set. */
    method ComputeMaps(indexStrings: seq<string>)
      requires indexesMap == [] && indexPrefixMap == []
      modifies this
      ensures indexesMap == Dedup(indexStrings)
      ensures indexPrefixMap == PrefixSet(indexStrings)
    {
      var n := 0;
      while n < |indexStrings|
        invariant 0 <= n <= |indexStrings|
        invariant indexesMap == AddAll([], indexStrings[..n])
        invariant indexPrefixMap == PrefixSet(indexStrings[..n])
      {
        var indexString := indexStrings[n];
        MapsStep(indexStrings, n);
        indexesMap := AddAll(indexesMap, [indexString]);
        AddPrefixes(SanitizedParts(indexString));
        n := n + 1;
      }
      assert indexStrings[..|indexStrings|] == indexStrings;
    }

    /** The inner loop of `computeMaps`: the running comma-joined prefix of the
        parts joins the prefix set at every step. */
    method AddPrefixes(split: seq<string>)
      requires |split| >= 1
      modifies this
      ensures indexesMap == old(indexesMap)
      ensures indexPrefixMap == AddAll(old(indexPrefixMap), Prefixes(split))
    {
      ghost var p0 := indexPrefixMap;
      var acc := split[0];
      indexPrefixMap := AddAll(indexPrefixMap, [acc]);
      assert Prefixes(split[..1]) == [acc] by {
        assert split[..1] == [split[0]];
      }
      var i := 1;
      while i < |split|
        invariant 1 <= i <= |split|
        invariant indexesMap == old(indexesMap)
        invariant acc == Join(split[..i], ",")
        invariant indexPrefixMap == AddAll(p0, Prefixes(split[..i]))
      {
        PrefixStep(p0, split, i, acc);
        acc := acc + "," + split[i];
        indexPrefixMap := AddAll(indexPrefixMap, [acc]);
        i := i + 1;
      }
      assert split[..|split|] == split;
    }
  }

  lemma IndexStringsSnoc(mapper: Mapper, cl: Clazz, info: seq<IndexKey>, i: nat)
    requires i < |info|
    ensures IndexStrings(mapper, cl, info[..i + 1]) == IndexStrings(mapper, cl, info[..i]) + [Join(Components(mapper, cl, info[i]), ",")]
  {
    assert info[..i + 1][..i] == info[..i];
  }

  /** One pass of the outer loop of `computeMaps`. */
  lemma MapsStep(indexStrings: seq<string>, n: nat)
    requires n < |indexStrings|
    ensures AddAll([], indexStrings[..n + 1]) == AddAll(AddAll([], indexStrings[..n]), [indexStrings[n]])
    ensures PrefixSet(indexStrings[..n + 1]) == AddAll(PrefixSet(indexStrings[..n]), Prefixes(SanitizedParts(indexStrings[n])))
  {
    var init := indexStrings[..n + 1];
    assert init == indexStrings[..n] + [indexStrings[n]];
    AddAllConcat([], indexStrings[..n], [indexStrings[n]]);
    PrefixSetSnoc(init);
  }

  lemma PrefixSetSnoc(indexes: seq<string>)
    requires |indexes| > 0
    ensures PrefixSet(indexes) == AddAll(PrefixSet(indexes[..|indexes| - 1]), Prefixes(SanitizedParts(indexes[|indexes| - 1])))
  {
  }

  /** One pass of the inner loop of `computeMaps`. */
  lemma PrefixStep(p0: seq<string>, split: seq<string>, i: nat, acc: string)
    requires 1 <= i < |split| && acc == Join(split[..i], ",")
    ensures Join(split[..i + 1], ",") == acc + "," + split[i]
    ensures AddAll(AddAll(p0, Prefixes(split[..i])), [acc + "," + split[i]]) == AddAll(p0, Prefixes(split[..i + 1]))
  {
    JoinSnoc(split[..i], split[i], ",");
    assert split[..i + 1] == split[..i] + [split[i]];
    PrefixesSnoc(split, i);
    AddAllConcat(p0, Prefixes(split[..i]), [acc + "," + split[i]]);
  }

  lemma ComponentsSnoc(mapper: Mapper, cl: Clazz, keys: IndexKey, j: nat)
    requires j < |keys|
    ensures var c := Component(mapper, cl, keys[j]);
      Components(mapper, cl, keys[..j + 1]) == Components(mapper, cl, keys[..j]) + (if c.Some? then [c.value] else [])
  {
    assert keys[..j + 1][..j] == keys[..j];
  }

  /** The index strings of all indexes, translated one by one. */
  method TranslateIndexes(mapper: Mapper, entity: Clazz, info: seq<IndexKey>) returns (indexStrings: seq<string>)
    ensures indexStrings == IndexStrings(mapper, entity, info)
  {
    indexStrings := [];
    var i := 0;
    while i < |info|
      invariant 0 <= i <= |info|
      invariant indexStrings == IndexStrings(mapper, entity, info[..i])
    {
      var components := TranslateKeys(mapper, entity, info[i]);
      IndexStringsSnoc(mapper, entity, info, i);
      indexStrings := indexStrings + [Join(components, ",")];
      i := i + 1;
    }
    assert info[..|info|] == info;
  }

  /** The components of one index, collected key by key. */
  method TranslateKeys(mapper: Mapper, entity: Clazz, keys: IndexKey) returns (components: seq<string>)
    ensures components == Components(mapper, entity, keys)
  {
    components := [];
    var j := 0;
    while j < |keys|
      invariant 0 <= j <= |keys|
      invariant components == Components(mapper, entity, keys[..j])
    {
      var name := GetJavaFieldNames(mapper, entity, keys[j].0);
      var c: Option<string> := None;
      if name.Some? {
        var d := Direction(keys[j].1);
        if d == Some(-1) {
          c := Some("-" + name.value);
        } else if d == Some(1) {
          c := Some(name.value);
        }
      }
      assert c == Component(mapper, entity, keys[j]);
      ComponentsSnoc(mapper, entity, keys, j);
      if c.Some? {
        components := components + [c.value];
      }
      j := j + 1;
    }
    assert keys[..|keys|] == keys;
  }

  /** `Joiner` puts the separator before each later part. */
  lemma {:induction false} JoinSnoc(parts: seq<string>, x: string, sep: string)
    requires |parts| >= 1
    ensures Join(parts + [x], sep) == Join(parts, sep) + sep + x
  {
    if |parts| > 1 {
      assert (parts + [x])[1..] == parts[1..] + [x];
      JoinSnoc(parts[1..], x, sep);
    } else {
      assert (parts + [x])[1..] == [x];
    }
  }

  lemma PrefixesSnoc(split: seq<string>, i: nat)
    requires 1 <= i < |split|
    ensures Prefixes(split[..i + 1]) == Prefixes(split[..i]) + [Join(split[..i + 1], ",")]
  {
    var a := Prefixes(split[..i + 1]);
    var b := Prefixes(split[..i]) + [Join(split[..i + 1], ",")];
    forall k | 0 <= k < |a|
      ensures a[k] == b[k]
    {
      assert split[..i + 1][..k + 1] == split[..k + 1];
      if k < i {
        assert split[..i][..k + 1] == split[..k + 1];
      }
    }
  }

  /** `addAll` of two lists is `addAll` of the first, then of the second. */
  lemma {:induction false} AddAllConcat(xs: seq<string>, a: seq<string>, b: seq<string>)
    ensures AddAll(xs, a + b) == AddAll(AddAll(xs, a), b)
    decreases |a|
  {
    if |a| > 0 {
      assert (a + b)[1..] == a[1..] + b;
      AddAllConcat(if a[0] in xs then xs else xs + [a[0]], a[1..], b);
    } else {
      assert a + b == b;
    }
  }

  // ---------------------------------------------------------------------------
  // Properties of the two sets
  // ---------------------------------------------------------------------------

  /** The index set holds every index string once. */
  lemma IndexSetContents(indexes: seq<string>)
    ensures Elems(Dedup(indexes)) == Elems(indexes) && Distinct(Dedup(indexes))
  {
  }

  /** `x` is a leading run of some index. */
  predicate IsIndexPrefix(indexes: seq<string>, x: string) {
    exists i :: 0 <= i < |indexes| && x in Prefixes(SanitizedParts(indexes[i]))
  }

  /** The prefix set holds exactly the leading runs of the indexes. */
  lemma {:induction false} PrefixSetMembers(indexes: seq<string>, x: string)
    ensures x in PrefixSet(indexes) <==> IsIndexPrefix(indexes, x)
  {
    if |indexes| > 0 {
      var init := indexes[..|indexes| - 1];
      var last := indexes[|indexes| - 1];
      var lastPrefixes := Prefixes(SanitizedParts(last));
      PrefixSetMembers(init, x);
      assert Elems(PrefixSet(indexes)) == Elems(PrefixSet(init)) + Elems(lastPrefixes);
      assert x in PrefixSet(indexes) <==> x in Elems(PrefixSet(init)) + Elems(lastPrefixes);
      if x in PrefixSet(init) {
        var i :| 0 <= i < |init| && x in Prefixes(SanitizedParts(init[i]));
        assert init[i] == indexes[i];
      }
      if x in lastPrefixes {
        assert x in Prefixes(SanitizedParts(indexes[|indexes| - 1]));
      }
      if IsIndexPrefix(indexes, x) {
        var i :| 0 <= i < |indexes| && x in Prefixes(SanitizedParts(indexes[i]));
        if i < |indexes| - 1 {
          assert init[i] == indexes[i];
          assert IsIndexPrefix(init, x);
        } else {
          assert x in Elems(lastPrefixes);
        }
      }
    }
  }

  /** The first sanitised component of every index is in the prefix set. */
  lemma FirstComponentIsPrefix(indexes: seq<string>, i: nat)
    requires i < |indexes|
    ensures SanitizedParts(indexes[i])[0] in PrefixSet(indexes)
  {
    var parts := SanitizedParts(indexes[i]);
    FirstPrefix(parts);
    assert parts[0] in Prefixes(parts);
    PrefixSetMembers(indexes, parts[0]);
  }

  /** Every prefix after the first holds a comma. */
  lemma LongerPrefixHasComma(parts: seq<string>, k: nat)
    requires 0 < k < |parts|
    ensures ',' in Prefixes(parts)[k]
  {
    JoinSnoc(parts[..k], parts[k], ",");
    assert parts[..k + 1] == parts[..k] + [parts[k]];
    var j := Join(parts[..k], ",");
    assert Prefixes(parts)[k] == j + "," + parts[k];
    assert (j + "," + parts[k])[|j|] == ',';
  }

  /** The first prefix is the first part. */
  lemma FirstPrefix(parts: seq<string>)
    requires |parts| > 0
    ensures Prefixes(parts)[0] == parts[0]
  {
    assert parts[..1] == [parts[0]];
  }

  /** A bare field name in the prefix set is the first component of some
      index. */
  lemma BareNameIsFirstComponent(indexes: seq<string>, name: string)
    requires name in PrefixSet(indexes) && ',' !in name
    ensures exists i :: 0 <= i < |indexes| && name == SanitizedParts(indexes[i])[0]
  {
    PrefixSetMembers(indexes, name);
    var i :| 0 <= i < |indexes| && name in Prefixes(SanitizedParts(indexes[i]));
    var parts := SanitizedParts(indexes[i]);
    var ps := Prefixes(parts);
    var k :| 0 <= k < |ps| && ps[k] == name;
    if k > 0 {
      LongerPrefixHasComma(parts, k);
      assert false;
    }
    FirstPrefix(parts);
  }
}
