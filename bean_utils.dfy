/** The JavaBeans helpers the patch pipeline uses: accessor names, and the
    loops over a bean class's property descriptors that merge, compare,
    patch and list property values. */
module Beans {
  import opened Errors
  import opened Lang

  // ---------------------------------------------------------------------------
  // Beans and their properties
  // ---------------------------------------------------------------------------

  /** A property value as `Objects.equal` compares it: null, a scalar (by its
      value), or a collection of values. */
  datatype BeanValue = Null | Scalar(repr: string) | Collection(items: seq<string>)

  /** A property descriptor: the property's name and whether the class has a
      getter and a setter for it. */
  datatype Property = Property(name: string, readable: bool, writable: bool)

  /** A bean: the property descriptors of its class, in introspection order,
      and the values its getters return. */
  class Bean {
    const props: seq<Property>
    var values: map<string, BeanValue>

    constructor (props: seq<Property>, values: map<string, BeanValue>)
      ensures this.props == props && this.values == values
    {
      this.props := props;
      this.values := values;
    }

    /** What the getter of `name` returns. */
    function Read(name: string): (v: BeanValue)
      reads this
    {
      ValueIn(values, name)
    }
  }

  /** The value a property holds in a value map; null when the map has none. */
  function ValueIn(vs: map<string, BeanValue>, name: string): (v: BeanValue)
  {
    if name in vs then vs[name] else Null
  }

  /** The property names of a class are distinct. */
  predicate DistinctNames(ps: seq<Property>) {
    forall i, j :: 0 <= i < j < |ps| ==> ps[i].name != ps[j].name
  }

  /** No earlier descriptor shares the last one's name. */
  lemma LastNameFresh(ps: seq<Property>)
    requires DistinctNames(ps) && |ps| > 0
    ensures forall q :: q in ps[..|ps| - 1] ==> q.name != ps[|ps| - 1].name
  {
    forall q | q in ps[..|ps| - 1]
      ensures q.name != ps[|ps| - 1].name
    {
      var j :| 0 <= j < |ps| - 1 && ps[..|ps| - 1][j] == q;
      assert ps[j] == q;
    }
  }

  /** Whether a property has both a getter and a setter. */
  predicate ReadWrite(p: Property) {
    p.readable && p.writable
  }

  // ---------------------------------------------------------------------------
  // Accessor names
  // ---------------------------------------------------------------------------

  /** The capitalisation the accessor names share: a lower-case first
      character is upper-cased unless the second character is upper-case.
      `charAt(0)` on an empty name throws. */
  function Capitalized(property: string): (r: Result<string>)
    ensures r.Err? <==> property == []
    ensures r.Err? ==> r.failure == IndexOutOfBounds
  {
    if property == [] then Err(IndexOutOfBounds)
    else if IsLowerAscii(property[0]) && (|property| == 1 || !IsUpperAscii(property[1])) then
      Ok([ToUpperAscii(property[0])] + property[1..])
    else Ok(property)
  }

  /** `getSetterMethodName`. */
  function SetterName(property: string): (r: Result<string>)
    ensures r.Err? <==> property == []
    ensures r.Ok? ==> |r.value| == |property| + 3 && r.value[..3] == "set" && r.value[4..] == property[1..]
  {
    var c :- Capitalized(property);
    Ok("set" + c)
  }

  /** `getGetterMethodName`: `is` for a boolean property, `get` otherwise. */
  function GetterName(property: string, booleanValue: bool): (r: Result<string>)
    ensures r.Err? <==> property == []
    ensures r.Ok? ==> var prefix := if booleanValue then "is" else "get";
                      |r.value| == |prefix| + |property| && r.value[..|prefix|] == prefix
                      && r.value[|prefix| + 1..] == property[1..]
  {
    var c :- Capitalized(property);
    Ok((if booleanValue then "is" else "get") + c)
  }

  /** The JDK's `java.beans.Introspector.decapitalize`, the JavaBeans rule
      that derives a property name from the part of an accessor name after
      its prefix. `Introspector.getBeanInfo` applies it when `merge`,
      `shallowDifferences`, `patch` and `getNonNullFields` list a bean's
      properties (BeanUtils.java:58 and 621); it is not code of the
      repository. */
  function Decapitalize(name: string): (r: string)
    ensures |r| == |name|
    ensures |name| > 0 ==> r[1..] == name[1..]
    ensures |name| > 0 && !(|name| > 1 && IsUpperAscii(name[1])) ==> !IsUpperAscii(r[0])
  {
    if name == [] then name
    else if |name| > 1 && IsUpperAscii(name[0]) && IsUpperAscii(name[1]) then name
    else [ToLowerAscii(name[0])] + name[1..]
  }

  /** Only the first character may change, and it changes exactly when the
      rule applies, into its upper-case form. */
  lemma CapitalizedShape(property: string)
    requires property != []
    ensures var c := Capitalized(property).value;
            && |c| == |property|
            && c[1..] == property[1..]
            && (c[0] != property[0] <==> IsLowerAscii(property[0]) && (|property| == 1 || !IsUpperAscii(property[1])))
            && (c[0] == ToUpperAscii(property[0]) || c[0] == property[0])
  {
  }

  /** Capitalising twice is capitalising once. */
  lemma CapitalizedIdempotent(property: string)
    requires property != []
    ensures Capitalized(Capitalized(property).value) == Capitalized(property)
  {
  }

  /** The setter and the non-boolean getter differ only in their prefix. */
  lemma AccessorNamesAgree(property: string)
    requires property != []
    ensures var s := SetterName(property).value;
            var g := GetterName(property, false).value;
            var i := GetterName(property, true).value;
            && s[..3] == "set" && g[..3] == "get" && i[..2] == "is"
            && s[3..] == g[3..] == i[2..] == Capitalized(property).value
  {
    var c := Capitalized(property).value;
    assert SetterName(property).value == "set" + c;
    assert GetterName(property, false).value == "get" + c;
    assert GetterName(property, true).value == "is" + c;
  }

  /** The names round-trip through JavaBeans introspection: a property name
      that starts with a lower-case letter followed by anything but an
      upper-case letter is what `decapitalize` recovers from its accessor
      name. */
  lemma AccessorRoundTrip(property: string)
    requires property != [] && IsLowerAscii(property[0])
    requires |property| == 1 || !IsUpperAscii(property[1])
    ensures Decapitalize(SetterName(property).value[3..]) == property
    ensures Decapitalize(GetterName(property, false).value[3..]) == property
  {
    AccessorNamesAgree(property);
    var c := Capitalized(property).value;
    assert c == [ToUpperAscii(property[0])] + property[1..];
    assert ToLowerAscii(ToUpperAscii(property[0])) == property[0];
    assert [property[0]] + property[1..] == property;
  }

  /** A property whose second letter is upper-case keeps its first letter:
      `xName` has the accessor `getxName`, which `decapitalize` maps back to
      `xName` too. */
  lemma SecondUpperKept(property: string)
    requires |property| > 1 && IsLowerAscii(property[0]) && IsUpperAscii(property[1])
    ensures GetterName(property, false) == Ok("get" + property)
    ensures Decapitalize(property) == property
  {
  }

  /** `name` gives `setName`, `getName` and `isName`. */
  lemma AccessorExample()
    ensures SetterName("name") == Ok("setName")
    ensures GetterName("name", false) == Ok("getName")
    ensures GetterName("name", true) == Ok("isName")
  {
    assert ToUpperAscii('n') == 'N';
    assert Capitalized("name") == Ok(['N'] + "ame");
    assert ['N'] + "ame" == "Name";
    assert "set" + "Name" == "setName" && "get" + "Name" == "getName" && "is" + "Name" == "isName";
  }

  // ---------------------------------------------------------------------------
  // Copy predicates
  // ---------------------------------------------------------------------------

  /** What a copy predicate is shown: the property's name, its value on the
      target and its value on the source. */
  datatype PropertyChange = PropertyChange(name: string, oldValue: BeanValue, newValue: BeanValue)

  /** The copy predicates: the two built-in ones and a caller-supplied one. */
  datatype CopyRule =
    | NewNotNullOldNull
    | NewNotNull
    | Custom(test: PropertyChange -> bool)

  /** Whether a copy predicate accepts a change. */
  predicate Applies(rule: CopyRule, c: PropertyChange) {
    match rule
    case NewNotNullOldNull => c.newValue != Null && c.oldValue == Null
    case NewNotNull => c.newValue != Null
    case Custom(test) => test(c)
  }

  /** A deep-merge configuration: the nested keys and an optional copy
      predicate. */
  datatype MergeConfig = MergeConfig(keys: Option<map<string, Option<MergeConfig>>>, copyPredicate: Option<CopyRule>)

  /** `getCopyPredicate`: the configured predicate, else "new not null" when
      nested keys are configured, else the default "new not null and old
      null". */
  function CopyPredicateOf(config: Option<MergeConfig>): (rule: CopyRule)
  {
    match config
    case None => NewNotNullOldNull
    case Some(c) =>
      if c.copyPredicate.Some? then c.copyPredicate.value
      else if c.keys.Some? then NewNotNull
      else NewNotNullOldNull
  }

  /** Without a configured predicate the choice depends only on whether
      nested keys are configured; a configured one always wins. */
  lemma CopyPredicateCases(config: Option<MergeConfig>)
    ensures config.None? ==> CopyPredicateOf(config) == NewNotNullOldNull
    ensures config.Some? && config.value.copyPredicate.Some? ==> CopyPredicateOf(config) == config.value.copyPredicate.value
    ensures config.Some? && config.value.copyPredicate.None? ==>
              CopyPredicateOf(config) == (if config.value.keys.Some? then NewNotNull else NewNotNullOldNull)
  {
  }

  // ---------------------------------------------------------------------------
  // merge
  // ---------------------------------------------------------------------------

  /** Whether `merge` looks at a property: it is in the merge set (when there
      is one) and has a getter and a setter. */
  predicate MergeSelected(p: Property, mergeProperties: Option<set<string>>) {
    (mergeProperties.None? || p.name in mergeProperties.value) && ReadWrite(p)
  }

  /** The target's values after `merge` and whether it reports an update. */
  datatype MergeState = MergeState(values: map<string, BeanValue>, updated: bool)

  /** `merge` over a prefix of the descriptors: each selected property whose
      change the predicate accepts is written from the source. */
  function MergeFold(ps: seq<Property>, from: map<string, BeanValue>, mergeProperties: Option<set<string>>,
                     rule: CopyRule, target: map<string, BeanValue>): (s: MergeState)
    decreases |ps|
  {
    if |ps| == 0 then MergeState(target, false)
    else
      var s := MergeFold(ps[..|ps| - 1], from, mergeProperties, rule, target);
      MergeStep(s, ps[|ps| - 1], from, mergeProperties, rule)
  }

  /** One iteration of the `merge` loop. */
  function MergeStep(s: MergeState, p: Property, from: map<string, BeanValue>, mergeProperties: Option<set<string>>,
                     rule: CopyRule): (t: MergeState)
  {
    var newValue := ValueIn(from, p.name);
    if MergeSelected(p, mergeProperties) && Applies(rule, PropertyChange(p.name, ValueIn(s.values, p.name), newValue))
    then MergeState(s.values[p.name := newValue], true)
    else s
  }

  /** `merge(target, from, mergeProperties, copyPredicate)`. The source is
      read as it stood when the call began. */
  method Merge(target: Bean, from: Bean, mergeProperties: Option<set<string>>, rule: CopyRule) returns (updated: bool)
    modifies target
    ensures MergeState(target.values, updated) == MergeFold(target.props, old(from.values), mergeProperties, rule, old(target.values))
  {
    var fromValues := from.values;
    var ps := target.props;
    updated := false;
    var i := 0;
    while i < |ps|
      invariant 0 <= i <= |ps|
      invariant MergeState(target.values, updated) == MergeFold(ps[..i], fromValues, mergeProperties, rule, old(target.values))
    {
      var p := ps[i];
      if MergeSelected(p, mergeProperties) {
        var originalValue := target.Read(p.name);
        var newValue := ValueIn(fromValues, p.name);
        if Applies(rule, PropertyChange(p.name, originalValue, newValue)) {
          target.values := target.values[p.name := newValue];
          updated := true;
        }
      }
      assert ps[..i + 1][..i] == ps[..i];
      i := i + 1;
    }
    assert ps[..|ps|] == ps;
  }

  /** `merge(target, from, mergeProperties)`: the default predicate. */
  method MergeDefault(target: Bean, from: Bean, mergeProperties: Option<set<string>>) returns (updated: bool)
    modifies target
    ensures MergeState(target.values, updated) ==
              MergeFold(target.props, old(from.values), mergeProperties, NewNotNullOldNull, old(target.values))
  {
    updated := Merge(target, from, mergeProperties, NewNotNullOldNull);
  }

  /** A property that `merge` does not select, under any descriptor of that
      name, keeps its value. */
  lemma {:induction false} MergeUntouched(ps: seq<Property>, from: map<string, BeanValue>, mergeProperties: Option<set<string>>,
                                          rule: CopyRule, target: map<string, BeanValue>, name: string)
    requires forall p :: p in ps && p.name == name ==> !MergeSelected(p, mergeProperties)
    ensures ValueIn(MergeFold(ps, from, mergeProperties, rule, target).values, name) == ValueIn(target, name)
    decreases |ps|
  {
    if |ps| > 0 {
      var init := ps[..|ps| - 1];
      assert forall p :: p in init ==> p in ps;
      MergeUntouched(init, from, mergeProperties, rule, target, name);
    }
  }

  /** With distinct names, each selected property ends up with the source's
      value exactly when the predicate accepts the change from the target's
      original value; every other value is the original. */
  lemma {:induction false} MergeValue(ps: seq<Property>, from: map<string, BeanValue>, mergeProperties: Option<set<string>>,
                                      rule: CopyRule, target: map<string, BeanValue>, p: Property)
    requires DistinctNames(ps) && p in ps
    ensures var old_ := ValueIn(target, p.name);
            var new_ := ValueIn(from, p.name);
            ValueIn(MergeFold(ps, from, mergeProperties, rule, target).values, p.name) ==
              if MergeSelected(p, mergeProperties) && Applies(rule, PropertyChange(p.name, old_, new_)) then new_ else old_
    decreases |ps|
  {
    var init := ps[..|ps| - 1];
    var last := ps[|ps| - 1];
    assert DistinctNames(init);
    if last == p {
      LastNameFresh(ps);
      MergeUntouched(init, from, mergeProperties, rule, target, p.name);
    } else {
      var k :| 0 <= k < |ps| && ps[k] == p;
      assert k < |ps| - 1;
      assert init[k] == p;
      assert last.name != p.name;
      MergeValue(init, from, mergeProperties, rule, target, p);
    }
  }

  /** With distinct names, `merge` reports an update exactly when some
      selected property's change from the original values is accepted. */
  lemma {:induction false} MergeUpdated(ps: seq<Property>, from: map<string, BeanValue>, mergeProperties: Option<set<string>>,
                                        rule: CopyRule, target: map<string, BeanValue>)
    requires DistinctNames(ps)
    ensures MergeFold(ps, from, mergeProperties, rule, target).updated <==>
              exists p :: p in ps && MergeSelected(p, mergeProperties) &&
                Applies(rule, PropertyChange(p.name, ValueIn(target, p.name), ValueIn(from, p.name)))
    decreases |ps|
  {
    if |ps| > 0 {
      var init := ps[..|ps| - 1];
      var last := ps[|ps| - 1];
      assert DistinctNames(init);
      MergeUpdated(init, from, mergeProperties, rule, target);
      LastNameFresh(ps);
      MergeUntouched(init, from, mergeProperties, rule, target, last.name);
      assert forall p :: p in ps <==> p in init || p == last;
    }
  }

  /** The default `merge` fills exactly the null properties for which the
      source has a value. */
  lemma DefaultMerge(ps: seq<Property>, from: map<string, BeanValue>, mergeProperties: Option<set<string>>,
                     target: map<string, BeanValue>, p: Property)
    requires DistinctNames(ps) && p in ps
    ensures var v := ValueIn(MergeFold(ps, from, mergeProperties, NewNotNullOldNull, target).values, p.name);
            v == if MergeSelected(p, mergeProperties) && ValueIn(target, p.name) == Null && ValueIn(from, p.name) != Null
                 then ValueIn(from, p.name) else ValueIn(target, p.name)
  {
    MergeValue(ps, from, mergeProperties, NewNotNullOldNull, target, p);
  }

  // ---------------------------------------------------------------------------
  // shallowDifferences
  // ---------------------------------------------------------------------------

  /** Whether `shallowDifferences` compares a property: listed when `ignore`
      is false, unlisted when it is true, and with a getter and a setter. */
  predicate Compared(p: Property, properties: set<string>, ignore: bool) {
    (p.name in properties) != ignore && ReadWrite(p)
  }

  /** The two escapes before the comparison: a null new value when new nulls
      are ignored, and a null against an empty collection when empty
      collections count as null. */
  predicate Skipped(oldValue: BeanValue, newValue: BeanValue, ignoreNewNulls: bool, ignoreEmptyCollections: bool) {
    || (ignoreNewNulls && newValue == Null)
    || (ignoreEmptyCollections && oldValue.Collection? && oldValue.items == [] && newValue == Null)
    || (ignoreEmptyCollections && newValue.Collection? && newValue.items == [] && oldValue == Null)
  }

  /** Whether a property shows up in the differences. */
  predicate Reported(p: Property, oldValues: map<string, BeanValue>, newValues: map<string, BeanValue>,
                     properties: set<string>, ignoreNewNulls: bool, ignoreEmptyCollections: bool, ignore: bool) {
    var o := ValueIn(oldValues, p.name);
    var n := ValueIn(newValues, p.name);
    Compared(p, properties, ignore) && !Skipped(o, n, ignoreNewNulls, ignoreEmptyCollections) && o != n
  }

  /** The differences found over a prefix of the descriptors. */
  function DiffFold(ps: seq<Property>, oldValues: map<string, BeanValue>, newValues: map<string, BeanValue>,
                    properties: set<string>, ignoreNewNulls: bool, ignoreEmptyCollections: bool, ignore: bool): (changes: map<string, BeanValue>)
    decreases |ps|
  {
    if |ps| == 0 then map[]
    else
      var changes := DiffFold(ps[..|ps| - 1], oldValues, newValues, properties, ignoreNewNulls, ignoreEmptyCollections, ignore);
      var p := ps[|ps| - 1];
      if Reported(p, oldValues, newValues, properties, ignoreNewNulls, ignoreEmptyCollections, ignore)
      then changes[p.name := ValueIn(newValues, p.name)]
      else changes
  }

  /** `shallowDifferences(oldBean, newBean, properties, ignoreNewNulls,
      ignoreEmptyCollections, ignore)`, over the old bean's descriptors. */
  method ShallowDifferences(oldBean: Bean, newBean: Bean, properties: set<string>, ignoreNewNulls: bool,
                            ignoreEmptyCollections: bool, ignore: bool) returns (changes: map<string, BeanValue>)
    ensures changes == DiffFold(oldBean.props, oldBean.values, newBean.values, properties, ignoreNewNulls, ignoreEmptyCollections, ignore)
  {
    var ps := oldBean.props;
    changes := map[];
    var i := 0;
    while i < |ps|
      invariant 0 <= i <= |ps|
      invariant changes == DiffFold(ps[..i], oldBean.values, newBean.values, properties, ignoreNewNulls, ignoreEmptyCollections, ignore)
    {
      var p := ps[i];
      var contains := p.name in properties;
      if !((contains && ignore) || (!contains && !ignore)) && ReadWrite(p) {
        var oldValue := oldBean.Read(p.name);
        var newValue := newBean.Read(p.name);
        if !Skipped(oldValue, newValue, ignoreNewNulls, ignoreEmptyCollections) && oldValue != newValue {
          changes := changes[p.name := newValue];
        }
      }
      assert ps[..i + 1][..i] == ps[..i];
      i := i + 1;
    }
    assert ps[..|ps|] == ps;
  }

  /** `shallowDifferences(oldBean, newBean, ignoreProperties, ignoreNewNulls,
      ignoreEmptyCollections)`: the listed properties are the ignored ones. */
  method ShallowDifferencesIgnoring(oldBean: Bean, newBean: Bean, ignoreProperties: set<string>, ignoreNewNulls: bool,
                                    ignoreEmptyCollections: bool) returns (changes: map<string, BeanValue>)
    ensures changes == DiffFold(oldBean.props, oldBean.values, newBean.values, ignoreProperties, ignoreNewNulls, ignoreEmptyCollections, true)
  {
    changes := ShallowDifferences(oldBean, newBean, ignoreProperties, ignoreNewNulls, ignoreEmptyCollections, true);
  }

  /** `shallowDifferences(oldBean, newBean)`: nothing ignored, nulls and
      empty collections compared as they are. */
  method ShallowDifferencesAll(oldBean: Bean, newBean: Bean) returns (changes: map<string, BeanValue>)
    ensures changes == DiffFold(oldBean.props, oldBean.values, newBean.values, {}, false, false, true)
  {
    changes := ShallowDifferencesIgnoring(oldBean, newBean, {}, false, false);
  }

  /** The differences hold exactly the reported properties, each mapped to
      its new value. */
  lemma {:induction false} DiffContents(ps: seq<Property>, oldValues: map<string, BeanValue>, newValues: map<string, BeanValue>,
                                        properties: set<string>, ignoreNewNulls: bool, ignoreEmptyCollections: bool, ignore: bool, name: string)
    ensures var changes := DiffFold(ps, oldValues, newValues, properties, ignoreNewNulls, ignoreEmptyCollections, ignore);
            && (name in changes <==>
                  exists p :: p in ps && p.name == name && Reported(p, oldValues, newValues, properties, ignoreNewNulls, ignoreEmptyCollections, ignore))
            && (name in changes ==> changes[name] == ValueIn(newValues, name))
    decreases |ps|
  {
    if |ps| > 0 {
      var init := ps[..|ps| - 1];
      DiffContents(init, oldValues, newValues, properties, ignoreNewNulls, ignoreEmptyCollections, ignore, name);
      assert forall p :: p in ps <==> p in init || p == ps[|ps| - 1];
    }
  }

  /** With nothing ignored and nothing skipped, the differences are the
      read/write properties whose values differ. */
  lemma AllDifferences(ps: seq<Property>, oldValues: map<string, BeanValue>, newValues: map<string, BeanValue>, name: string)
    ensures name in DiffFold(ps, oldValues, newValues, {}, false, false, true) <==>
              exists p :: p in ps && p.name == name && ReadWrite(p) && ValueIn(oldValues, name) != ValueIn(newValues, name)
  {
    DiffContents(ps, oldValues, newValues, {}, false, false, true, name);
  }

  /** Empty collections treated as null: a null against an empty collection,
      in either direction, is never a difference. */
  lemma EmptyCollectionIsNull(p: Property, oldValues: map<string, BeanValue>, newValues: map<string, BeanValue>,
                              properties: set<string>, ignoreNewNulls: bool, ignore: bool)
    requires || (ValueIn(oldValues, p.name) == Collection([]) && ValueIn(newValues, p.name) == Null)
             || (ValueIn(oldValues, p.name) == Null && ValueIn(newValues, p.name) == Collection([]))
    ensures !Reported(p, oldValues, newValues, properties, ignoreNewNulls, true, ignore)
    ensures Compared(p, properties, ignore) ==> Reported(p, oldValues, newValues, properties, false, false, ignore)
  {
  }

  // ---------------------------------------------------------------------------
  // patch
  // ---------------------------------------------------------------------------

  /** Whether `patch` considers a property: not ignored, with a getter and a
      setter, and with a non-null patch value. */
  predicate Patchable(p: Property, patches: map<string, BeanValue>, ignoreProperties: set<string>) {
    p.name !in ignoreProperties && ReadWrite(p) && ValueIn(patches, p.name) != Null
  }

  /** The bean's values after `patch` over a prefix of the descriptors. */
  function PatchFold(ps: seq<Property>, patches: map<string, BeanValue>, ignoreProperties: set<string>,
                     values: map<string, BeanValue>): (r: map<string, BeanValue>)
    decreases |ps|
  {
    if |ps| == 0 then values
    else
      var current := PatchFold(ps[..|ps| - 1], patches, ignoreProperties, values);
      var p := ps[|ps| - 1];
      if Patchable(p, patches, ignoreProperties) && ValueIn(current, p.name) != ValueIn(patches, p.name)
      then current[p.name := ValueIn(patches, p.name)]
      else current
  }

  /** `patch(bean, patches, ignoreProperties)`: the setter is called only for
      a value that differs from the bean's. The patches are read as they
      stood when the call began. */
  method Patch(bean: Bean, patches: Bean, ignoreProperties: set<string>)
    modifies bean
    ensures bean.values == PatchFold(bean.props, old(patches.values), ignoreProperties, old(bean.values))
  {
    var patchValues := patches.values;
    var ps := bean.props;
    var i := 0;
    while i < |ps|
      invariant 0 <= i <= |ps|
      invariant bean.values == PatchFold(ps[..i], patchValues, ignoreProperties, old(bean.values))
    {
      var p := ps[i];
      if p.name !in ignoreProperties && ReadWrite(p) {
        var oldValue := bean.Read(p.name);
        var newValue := ValueIn(patchValues, p.name);
        if newValue != Null && oldValue != newValue {
          bean.values := bean.values[p.name := newValue];
        }
      }
      assert ps[..i + 1][..i] == ps[..i];
      i := i + 1;
    }
    assert ps[..|ps|] == ps;
  }

  /** After `patch` a property holds the patch value when some descriptor of
      its name is patchable, and its old value otherwise. */
  lemma {:induction false} PatchValue(ps: seq<Property>, patches: map<string, BeanValue>, ignoreProperties: set<string>,
                                      values: map<string, BeanValue>, name: string)
    ensures ValueIn(PatchFold(ps, patches, ignoreProperties, values), name) ==
              if exists p :: p in ps && p.name == name && Patchable(p, patches, ignoreProperties)
              then ValueIn(patches, name) else ValueIn(values, name)
    decreases |ps|
  {
    if |ps| > 0 {
      var init := ps[..|ps| - 1];
      PatchValue(init, patches, ignoreProperties, values, name);
      assert forall p :: p in ps <==> p in init || p == ps[|ps| - 1];
    }
  }

  /** Ignored properties are never touched, whatever the patch holds. */
  lemma PatchKeepsIgnored(ps: seq<Property>, patches: map<string, BeanValue>, ignoreProperties: set<string>,
                          values: map<string, BeanValue>, name: string)
    requires name in ignoreProperties
    ensures ValueIn(PatchFold(ps, patches, ignoreProperties, values), name) == ValueIn(values, name)
  {
    PatchValue(ps, patches, ignoreProperties, values, name);
  }

  /** Patching again with the same patches changes nothing. */
  lemma PatchIdempotent(ps: seq<Property>, patches: map<string, BeanValue>, ignoreProperties: set<string>,
                        values: map<string, BeanValue>, name: string)
    ensures var once := PatchFold(ps, patches, ignoreProperties, values);
            ValueIn(PatchFold(ps, patches, ignoreProperties, once), name) == ValueIn(once, name)
  {
    var once := PatchFold(ps, patches, ignoreProperties, values);
    PatchValue(ps, patches, ignoreProperties, values, name);
    PatchValue(ps, patches, ignoreProperties, once, name);
  }

  // ---------------------------------------------------------------------------
  // getNonNullFields
  // ---------------------------------------------------------------------------

  /** The non-null fields found over a prefix of the descriptors. */
  function NonNullFold(ps: seq<Property>, values: map<string, BeanValue>, ignoreFields: set<string>): (r: set<string>)
    decreases |ps|
  {
    if |ps| == 0 then {}
    else
      var found := NonNullFold(ps[..|ps| - 1], values, ignoreFields);
      var p := ps[|ps| - 1];
      if p.name !in ignoreFields && p.readable && ValueIn(values, p.name) != Null then found + {p.name} else found
  }

  /** `getNonNullFields(bean, ignoreFields)`. */
  method GetNonNullFields(bean: Bean, ignoreFields: set<string>) returns (fields: set<string>)
    ensures fields == NonNullFold(bean.props, bean.values, ignoreFields)
  {
    var ps := bean.props;
    fields := {};
    var i := 0;
    while i < |ps|
      invariant 0 <= i <= |ps|
      invariant fields == NonNullFold(ps[..i], bean.values, ignoreFields)
    {
      var p := ps[i];
      if !(p.name in ignoreFields || !p.readable) {
        var value := bean.Read(p.name);
        if value != Null {
          fields := fields + {p.name};
        }
      }
      assert ps[..i + 1][..i] == ps[..i];
      i := i + 1;
    }
    assert ps[..|ps|] == ps;
  }

  /** The non-null fields are exactly the readable, non-ignored properties
      whose value is not null. */
  lemma {:induction false} NonNullFields(ps: seq<Property>, values: map<string, BeanValue>, ignoreFields: set<string>, name: string)
    ensures name in NonNullFold(ps, values, ignoreFields) <==>
              exists p :: p in ps && p.name == name && p.readable && name !in ignoreFields && ValueIn(values, name) != Null
    decreases |ps|
  {
    if |ps| > 0 {
      var init := ps[..|ps| - 1];
      NonNullFields(init, values, ignoreFields, name);
      assert forall p :: p in ps <==> p in init || p == ps[|ps| - 1];
    }
  }
}
