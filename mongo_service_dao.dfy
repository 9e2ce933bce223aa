/** MongoServiceDao: the older Morphia dao. Like MongoBaseServiceDao it
    validates a ServiceQuery and translates it, but into a Morphia query: the
    filters plus, for reads, the projection, offset, limit and order. A
    comparison key with one value is handed to the driver as written, excluded
    fields are projected out, groupBy needs no permission, and the dao adds
    `delete` and `patch`. Validation, index safety, the id filter, the
    sync-match partition, the page, the total and the grouping loop are the
    ones of BaseDao. */
module ServiceDao {
  import opened Errors
  import opened Lang
  import opened Multimaps
  import opened Values
  import opened QuerySpec
  import opened QueryUtil
  import opened Queries
  import opened IndexInfo
  import opened Results
  import opened BaseDao
  import TI = TypeInfo

  // ---------------------------------------------------------------------------
  // Projection
  // ---------------------------------------------------------------------------

  /** The `project(f, flag)` calls for the names `names`, in order. */
  function Projections(names: seq<string>, flag: bool): seq<(string, bool)>
  {
    seq(|names|, i requires 0 <= i < |names| => (names[i], flag))
  }

  /** The projection of `convertToMorphiaQuery`: a mix of included and
      excluded names is refused; without `*`, included names are projected in
      and, when there are none, excluded names are projected out; with `*`,
      included names are ignored and excluded names are projected out. */
  function LegacyProjection(s: FieldSelection): (r: Result<seq<(string, bool)>>)
    ensures r.Err? <==> s.included != [] && s.excluded != []
    ensures r.Err? ==> r.failure == RestDsl(QueryError)
  {
    if s.excluded != [] && s.included != [] then Raise(QueryError)
    else if !s.all then
      if s.included != [] then Ok(Projections(s.included, true)) else Ok(Projections(s.excluded, false))
    else if s.excluded != [] then Ok(Projections(s.excluded, false))
    else Ok([])
  }

  lemma ProjectionsMembers(names: seq<string>, flag: bool, f: string, b: bool)
    ensures (f, b) in Projections(names, flag) <==> b == flag && f in names
  {
    var p := Projections(names, flag);
    if (f, b) in p {
      var i :| 0 <= i < |p| && p[i] == (f, b);
      assert names[i] == f;
    }
    if b == flag && f in names {
      var i :| 0 <= i < |names| && names[i] == f;
      assert p[i] == (f, b);
    }
  }

  /** A name is projected in exactly when it was included without `*`, and
      projected out exactly when it was excluded. */
  lemma ProjectionMembers(s: FieldSelection, f: string)
    requires LegacyProjection(s).Ok?
    ensures (f, true) in LegacyProjection(s).value <==> !s.all && f in s.included
    ensures (f, false) in LegacyProjection(s).value <==> f in s.excluded
  {
    ProjectionsMembers(s.included, true, f, true);
    ProjectionsMembers(s.included, true, f, false);
    ProjectionsMembers(s.excluded, false, f, true);
    ProjectionsMembers(s.excluded, false, f, false);
  }

  /** In terms of the requested fields: `x` is projected in iff it was asked
      for and `*` was not, and projected out iff `-x` was asked for. */
  lemma FieldsProjection(fields: seq<string>, x: string)
    requires LegacyProjection(Selection(fields)).Ok?
    ensures (x, true) in LegacyProjection(Selection(fields)).value <==>
      "*" !in fields && x in fields && x != "*" && !StartsWith(x, "-")
    ensures (x, false) in LegacyProjection(Selection(fields)).value <==> "-" + x in fields
  {
    ProjectionMembers(Selection(fields), x);
    SelectionContents(fields, x);
  }

  /** Asking only for exclusions: the base dao passes the excluded names to
      `include`, this dao projects them out. */
  lemma ExclusionsContrast(fields: seq<string>)
    requires Selection(fields).included == [] && Selection(fields).excluded != []
    ensures Projection(Selection(fields)) == Ok(Some(Selection(fields).excluded))
    ensures LegacyProjection(Selection(fields)) == Ok(Projections(Selection(fields).excluded, false))
  {
    ExclusionsAreIncluded(fields);
  }

  // ---------------------------------------------------------------------------
  // Criteria to filters
  // ---------------------------------------------------------------------------

  /** `enrichQuery`: the filters a criteria key and its values add. One value
      under a key with `>` or `<` is handed to the driver as written, a
      reserved value goes through `adaptToReservedValue`, any other value is
      an equality; several values are a NOT-IN on the bare field for a `<>`
      key and an IN on the key as written otherwise. */
  function EnrichQuery(field: string, criteria: seq<Value>): (r: Result<seq<Filter>>)
    ensures r.Err? ==> r.failure == RestDsl(ParamsError)
    ensures |criteria| == 1 ==> r.Ok? && |r.value| <= 1
  {
    if |criteria| == 1 then
      var val := criteria[0];
      if HasComparison(field) then Ok([Condition(field, val)])
      else if val.VReserved? then Ok(ReservedFilter(field, val.r))
      else Ok([Eq(field, val)])
    else if ContainsPair(field, '<', '>') then
      var p :- ParseQueryField(field);
      Ok([Nin(p.fieldName, criteria)])
    else Ok([In(field, criteria)])
  }

  /** A key the two daos treat alike: several values, or no comparison. */
  predicate PlainKey(field: string, criteria: seq<Value>) {
    |criteria| != 1 || !HasComparison(field)
  }

  /** Outside single-valued comparison keys both daos add the same filters. */
  lemma EnrichAgrees(field: string, criteria: seq<Value>)
    requires PlainKey(field, criteria)
    ensures EnrichQuery(field, criteria) == PrepareFilters(field, criteria)
  {
  }

  /** A reserved value alone: `$exists` tests existence, `$null` equality with
      null and `$any` adds nothing, the same as in the base dao. */
  lemma ReservedValueFilters(field: string, r: ReservedValues.Reserved)
    requires !HasComparison(field)
    ensures EnrichQuery(field, [VReserved(r)]) == Ok(ReservedFilter(field, r)) == PrepareFilters(field, [VReserved(r)])
    ensures r == ReservedValues.Any ==> EnrichQuery(field, [VReserved(r)]) == Ok([])
  {
  }

  /** A normalised comparison key `x op` with one value: this dao passes the
      key through for the driver to parse, where the base dao builds the range
      filter itself; for `x <>` the base dao adds no filter while this one
      keeps the criterion. */
  lemma ComparisonContrast(x: string, op: string, val: Value)
    requires x != [] && ' ' !in x && !IsTrimmed(x[0])
    requires IsComparisonSymbol(op)
    ensures EnrichQuery(x + " " + op, [val]) == Ok([Condition(x + " " + op, val)])
    ensures PrepareFilters(x + " " + op, [val]) == Ok(RangeFilter(op, x, val))
    ensures op == "<>" ==> PrepareFilters(x + " " + op, [val]) == Ok([]) != EnrichQuery(x + " " + op, [val])
  {
    ComparisonFilter(x, op, val);
    ComparisonKeyCompares(x, op);
    EnrichComparison(x + " " + op, val);
  }

  lemma ComparisonKeyCompares(x: string, op: string)
    requires IsComparisonSymbol(op)
    ensures HasComparison(x + " " + op)
  {
    var key := x + " " + op;
    assert key[|x| + 1] == op[0];
  }

  /** One value under a key with `>` or `<` becomes a driver condition. */
  lemma EnrichComparison(field: string, val: Value)
    requires HasComparison(field)
    ensures EnrichQuery(field, [val]) == Ok([Condition(field, val)])
  {
  }

  /** A comparison key without a space is refused by the base dao and handed
      to the driver by this one. */
  lemma UnsplitComparisonContrast(field: string, val: Value)
    requires HasComparison(field) && ' ' !in Trim(field)
    ensures PrepareFilters(field, [val]) == Err(IllegalArgument)
    ensures EnrichQuery(field, [val]) == Ok([Condition(field, val)])
  {
    ComparisonWithoutSpace(field, val);
  }

  // ---------------------------------------------------------------------------
  // The loops of `convertToMorphiaQuery`
  // ---------------------------------------------------------------------------

  /** The key loop: the filters of the keys under no sync-match root, and the
      other keys grouped by root. */
  function CriteriaLoop(criteria: Entries<Value>, keys: seq<string>, syncMatch: seq<string>): (r: Result<(seq<Filter>, Entries<string>)>)
    ensures r.Err? ==> r.failure == RestDsl(ParamsError)
  {
    if |keys| == 0 then Ok(([], []))
    else
      var acc :- CriteriaLoop(criteria, keys[..|keys| - 1], syncMatch);
      var k := keys[|keys| - 1];
      var roots := RootsOf(k, syncMatch);
      if |roots| > 0 then Ok((acc.0, PutUnderRoots(acc.1, roots, k)))
      else
        var f :- EnrichQuery(k, Get(criteria, k));
        Ok((acc.0 + f, acc.1))
  }

  /** The filters inside one element match: each grouped key's filters, the
      root and its dot stripped from the key. */
  function SubCriteria(criteria: Entries<Value>, root: string, keys: seq<string>): (r: Result<seq<Filter>>)
  {
    if |keys| == 0 then Ok([])
    else
      var acc :- SubCriteria(criteria, root, keys[..|keys| - 1]);
      var ck := keys[|keys| - 1];
      var sub :- SubKey(ck, root);
      var f :- EnrichQuery(sub, Get(criteria, ck));
      Ok(acc + f)
  }

  /** The group loop: for each root, its element type is resolved first (a
      failure ends the translation), then one element match is added. */
  function ElemMatchLoop(schema: TI.Schema, entity: TI.Clazz, criteria: Entries<Value>, groups: Entries<string>): (r: Result<seq<Filter>>)
    ensures r.Ok? ==> |r.value| == |groups|
  {
    if |groups| == 0 then Ok([])
    else
      var acc :- ElemMatchLoop(schema, entity, criteria, groups[..|groups| - 1]);
      var g := groups[|groups| - 1];
      var clazz :- TI.FieldExpressionClazz(schema, entity, g.0);
      var sub :- SubCriteria(criteria, g.0, g.1);
      Ok(acc + [ElemMatch(g.0, sub)])
  }

  /** No key of the criteria has one value under a comparison. */
  predicate NoSingleComparison(criteria: Entries<Value>) {
    forall i :: 0 <= i < |criteria| ==> PlainKey(criteria[i].0, Get(criteria, criteria[i].0))
  }

  /** Every root of the groups resolves to an element type. */
  predicate RootsResolve(schema: TI.Schema, entity: TI.Clazz, groups: Entries<string>) {
    forall i :: 0 <= i < |groups| ==> TI.FieldExpressionClazz(schema, entity, groups[i].0).Ok?
  }

  lemma PlainEverywhere(criteria: Entries<Value>, k: string)
    requires NoSingleComparison(criteria)
    ensures PlainKey(k, Get(criteria, k))
  {
    if ContainsKey(criteria, k) {
      var ks := Keys(criteria);
      var i :| 0 <= i < |ks| && ks[i] == k;
      assert criteria[i].0 == k;
    }
  }

  lemma SuffixPlain(ck: string, j: nat, vs: seq<Value>)
    requires j <= |ck| && PlainKey(ck, vs)
    ensures PlainKey(ck[j..], vs)
  {
    var s := ck[j..];
    if '>' in s {
      var i :| 0 <= i < |s| && s[i] == '>';
      assert ck[j + i] == '>';
    }
    if '<' in s {
      var i :| 0 <= i < |s| && s[i] == '<';
      assert ck[j + i] == '<';
    }
  }

  /** Without single-valued comparison keys, the key loop is the base dao's. */
  lemma {:induction false} CriteriaLoopAgrees(criteria: Entries<Value>, keys: seq<string>, syncMatch: seq<string>)
    requires NoSingleComparison(criteria)
    ensures CriteriaLoop(criteria, keys, syncMatch) == KeyLoop(criteria, keys, syncMatch)
  {
    if |keys| > 0 {
      var k := keys[|keys| - 1];
      CriteriaLoopAgrees(criteria, keys[..|keys| - 1], syncMatch);
      PlainEverywhere(criteria, k);
      EnrichAgrees(k, Get(criteria, k));
    }
  }

  lemma {:induction false} SubCriteriaAgrees(criteria: Entries<Value>, root: string, keys: seq<string>)
    requires NoSingleComparison(criteria)
    ensures SubCriteria(criteria, root, keys) == SubFilters(criteria, root, keys)
  {
    if |keys| > 0 {
      var ck := keys[|keys| - 1];
      SubCriteriaAgrees(criteria, root, keys[..|keys| - 1]);
      PlainEverywhere(criteria, ck);
      if |root| + 1 <= |ck| {
        SuffixPlain(ck, |root| + 1, Get(criteria, ck));
        EnrichAgrees(ck[|root| + 1..], Get(criteria, ck));
      }
    }
  }

  /** Without single-valued comparison keys, and when every root resolves,
      the element matches are the base dao's. */
  lemma {:induction false} ElemMatchAgrees(schema: TI.Schema, entity: TI.Clazz, criteria: Entries<Value>, groups: Entries<string>)
    requires NoSingleComparison(criteria) && RootsResolve(schema, entity, groups)
    ensures ElemMatchLoop(schema, entity, criteria, groups) == GroupLoop(criteria, groups)
  {
    if |groups| > 0 {
      var init := groups[..|groups| - 1];
      var g := groups[|groups| - 1];
      assert RootsResolve(schema, entity, init) by {
        forall i | 0 <= i < |init|
          ensures TI.FieldExpressionClazz(schema, entity, init[i].0).Ok?
        {
          assert init[i] == groups[i];
        }
      }
      assert TI.FieldExpressionClazz(schema, entity, g.0).Ok?;
      ElemMatchAgrees(schema, entity, criteria, init);
      SubCriteriaAgrees(criteria, g.0, g.1);
    }
  }

  /** A successful group loop resolved the element type of every root. */
  lemma {:induction false} ElemMatchResolves(schema: TI.Schema, entity: TI.Clazz, criteria: Entries<Value>, groups: Entries<string>)
    requires ElemMatchLoop(schema, entity, criteria, groups).Ok?
    ensures RootsResolve(schema, entity, groups)
  {
    if |groups| > 0 {
      var init := groups[..|groups| - 1];
      assert ElemMatchLoop(schema, entity, criteria, init).Ok?;
      assert TI.FieldExpressionClazz(schema, entity, groups[|groups| - 1].0).Ok?;
      ElemMatchResolves(schema, entity, criteria, init);
      RootsResolveSnoc(schema, entity, groups);
    }
  }

  lemma RootsResolveSnoc(schema: TI.Schema, entity: TI.Clazz, groups: Entries<string>)
    requires |groups| > 0 && RootsResolve(schema, entity, groups[..|groups| - 1])
    requires TI.FieldExpressionClazz(schema, entity, groups[|groups| - 1].0).Ok?
    ensures RootsResolve(schema, entity, groups)
  {
    var init := groups[..|groups| - 1];
    forall i | 0 <= i < |groups|
      ensures TI.FieldExpressionClazz(schema, entity, groups[i].0).Ok?
    {
      if i < |init| {
        assert init[i] == groups[i];
      }
    }
  }

  /** A failure on a prefix of the keys is the failure of the whole loop. */
  lemma {:induction false} CriteriaLoopErr(criteria: Entries<Value>, keys: seq<string>, syncMatch: seq<string>, n: nat)
    requires n <= |keys| && CriteriaLoop(criteria, keys[..n], syncMatch).Err?
    ensures CriteriaLoop(criteria, keys, syncMatch) == CriteriaLoop(criteria, keys[..n], syncMatch)
    decreases |keys| - n
  {
    if n < |keys| {
      var init := keys[..|keys| - 1];
      assert init[..n] == keys[..n];
      CriteriaLoopErr(criteria, init, syncMatch, n);
    } else {
      assert keys[..n] == keys;
    }
  }

  lemma {:induction false} SubCriteriaErr(criteria: Entries<Value>, root: string, keys: seq<string>, n: nat)
    requires n <= |keys| && SubCriteria(criteria, root, keys[..n]).Err?
    ensures SubCriteria(criteria, root, keys) == SubCriteria(criteria, root, keys[..n])
    decreases |keys| - n
  {
    if n < |keys| {
      var init := keys[..|keys| - 1];
      assert init[..n] == keys[..n];
      SubCriteriaErr(criteria, root, init, n);
    } else {
      assert keys[..n] == keys;
    }
  }

  lemma {:induction false} ElemMatchLoopErr(schema: TI.Schema, entity: TI.Clazz, criteria: Entries<Value>, groups: Entries<string>, n: nat)
    requires n <= |groups| && ElemMatchLoop(schema, entity, criteria, groups[..n]).Err?
    ensures ElemMatchLoop(schema, entity, criteria, groups) == ElemMatchLoop(schema, entity, criteria, groups[..n])
    decreases |groups| - n
  {
    if n < |groups| {
      var init := groups[..|groups| - 1];
      assert init[..n] == groups[..n];
      ElemMatchLoopErr(schema, entity, criteria, init, n);
    } else {
      assert groups[..n] == groups;
    }
  }

  /** One more root of the group loop. */
  lemma ElemMatchSnoc(schema: TI.Schema, entity: TI.Clazz, criteria: Entries<Value>, groups: Entries<string>, i: nat, acc: seq<Filter>)
    requires i < |groups| && ElemMatchLoop(schema, entity, criteria, groups[..i]) == Ok(acc)
    ensures var c := TI.FieldExpressionClazz(schema, entity, groups[i].0);
      var sub := SubCriteria(criteria, groups[i].0, groups[i].1);
      ElemMatchLoop(schema, entity, criteria, groups[..i + 1]) ==
        if c.Err? then Err(c.failure) else if sub.Err? then Err(sub.failure) else Ok(acc + [ElemMatch(groups[i].0, sub.value)])
  {
    assert groups[..i + 1][..i] == groups[..i];
  }

  /** The key loop, key by key. */
  method EnrichCriteria(criteria: Entries<Value>, keys: seq<string>, syncMatch: seq<string>) returns (r: Result<(seq<Filter>, Entries<string>)>)
    ensures r == CriteriaLoop(criteria, keys, syncMatch)
  {
    var filters: seq<Filter> := [];
    var groups: Entries<string> := [];
    var i := 0;
    while i < |keys|
      invariant 0 <= i <= |keys|
      invariant CriteriaLoop(criteria, keys[..i], syncMatch) == Ok((filters, groups))
    {
      var k := keys[i];
      var forSyncMatch;
      groups, forSyncMatch := PutUnderRootsLoop(groups, k, syncMatch);
      assert keys[..i + 1][..i] == keys[..i];
      if !forSyncMatch {
        var f := EnrichQuery(k, Get(criteria, k));
        if f.Err? {
          CriteriaLoopErr(criteria, keys, syncMatch, i + 1);
          return Err(f.failure);
        }
        filters := filters + f.value;
      }
      i := i + 1;
    }
    assert keys[..|keys|] == keys;
    return Ok((filters, groups));
  }

  /** The filters inside one element match, key by key. */
  method SubCriteriaFilters(criteria: Entries<Value>, root: string, keys: seq<string>) returns (r: Result<seq<Filter>>)
    ensures r == SubCriteria(criteria, root, keys)
  {
    var subFilters: seq<Filter> := [];
    var i := 0;
    while i < |keys|
      invariant 0 <= i <= |keys|
      invariant SubCriteria(criteria, root, keys[..i]) == Ok(subFilters)
    {
      assert keys[..i + 1][..i] == keys[..i];
      var sub := SubKey(keys[i], root);
      if sub.Err? {
        SubCriteriaErr(criteria, root, keys, i + 1);
        return Err(sub.failure);
      }
      var f := EnrichQuery(sub.value, Get(criteria, keys[i]));
      if f.Err? {
        SubCriteriaErr(criteria, root, keys, i + 1);
        return Err(f.failure);
      }
      subFilters := subFilters + f.value;
      i := i + 1;
    }
    assert keys[..|keys|] == keys;
    return Ok(subFilters);
  }

  /** One element match per sync-match root that has keys. */
  method ElemMatches(schema: TI.Schema, entity: TI.Clazz, criteria: Entries<Value>, groups: Entries<string>) returns (r: Result<seq<Filter>>)
    ensures r == ElemMatchLoop(schema, entity, criteria, groups)
  {
    var filters: seq<Filter> := [];
    var i := 0;
    while i < |groups|
      invariant 0 <= i <= |groups|
      invariant ElemMatchLoop(schema, entity, criteria, groups[..i]) == Ok(filters)
    {
      ElemMatchSnoc(schema, entity, criteria, groups, i, filters);
      var clazz := TI.FieldExpressionClazz(schema, entity, groups[i].0);
      if clazz.Err? {
        ElemMatchLoopErr(schema, entity, criteria, groups, i + 1);
        return Err(clazz.failure);
      }
      var sub := SubCriteriaFilters(criteria, groups[i].0, groups[i].1);
      if sub.Err? {
        ElemMatchLoopErr(schema, entity, criteria, groups, i + 1);
        return Err(sub.failure);
      }
      filters := filters + [ElemMatch(groups[i].0, sub.value)];
      i := i + 1;
    }
    assert groups[..|groups|] == groups;
    return Ok(filters);
  }

  // ---------------------------------------------------------------------------
  // Translating a query
  // ---------------------------------------------------------------------------

  /** What a read query sets besides its filters. */
  datatype Paging = Paging(projection: seq<(string, bool)>, offset: Int32, limit: Int32, order: Option<string>)

  /** A Morphia query: its filters, and the read settings when it was built
      for a read (`getQuery`); without them it has Morphia's defaults, no
      offset and no limit. */
  datatype MorphiaQuery = MorphiaQuery(filters: seq<Filter>, paging: Option<Paging>)

  /** The read settings: none for a write, otherwise the projection, then the
      query's offset, limit and order. */
  function PagingFor(v: QueryView, getQuery: bool): (r: Result<Option<Paging>>)
    requires v.limit.Some?
    ensures !getQuery ==> r == Ok(None)
    ensures r.Err? <==> getQuery && v.fields.Some? && LegacyProjection(Selection(v.fields.value)).Err?
    ensures getQuery && r.Ok? ==>
      r.value.Some? && r.value.value.offset == v.offset && r.value.value.limit == v.limit.value && r.value.value.order == v.order
  {
    if !getQuery then Ok(None)
    else
      var projection :- if v.fields.Some? then LegacyProjection(Selection(v.fields.value)) else Ok([]);
      Ok(Some(Paging(projection, v.offset, v.limit.value, v.order)))
  }

  /** The criteria filters: the top-level filters, then the element matches. */
  function CriteriaFilters(v: QueryView, schema: TI.Schema, entity: TI.Clazz): (r: Result<seq<Filter>>)
  {
    if v.criteria.None? then Ok([])
    else
      var kl :- CriteriaLoop(v.criteria.value, Keys(v.criteria.value), SyncMatchOf(v));
      var em :- ElemMatchLoop(schema, entity, v.criteria.value, kl.1);
      Ok(kl.0 + em)
  }

  /** `convertToMorphiaQuery`: validation, the id filter, the read settings
      when `getQuery` holds, then the criteria filters. */
  function Convert(v: QueryView, prefixes: seq<string>, idField: string, schema: TI.Schema, entity: TI.Clazz, getQuery: bool): (r: Result<MorphiaQuery>)
    ensures Validate(v, prefixes).Fail? ==> r == Err(Validate(v, prefixes).failure)
    ensures r.Ok? ==> ShapeValid(v) && (r.value.paging.Some? <==> getQuery)
    ensures r.Ok? ==> var idf := IdFilters(idField, v.ids);
      |idf| <= |r.value.filters| && r.value.filters[..|idf|] == idf
  {
    var valid := Validate(v, prefixes);
    if valid.Fail? then Err(valid.failure)
    else
      var paging :- PagingFor(v, getQuery);
      var criteria :- CriteriaFilters(v, schema, entity);
      var idf := IdFilters(idField, v.ids);
      assert (idf + criteria)[..|idf|] == idf;
      Ok(MorphiaQuery(idf + criteria, paging))
  }

  /** A write query has the filters of the read query and no read settings. */
  lemma WriteTranslation(v: QueryView, prefixes: seq<string>, idField: string, schema: TI.Schema, entity: TI.Clazz)
    requires Convert(v, prefixes, idField, schema, entity, true).Ok?
    ensures Convert(v, prefixes, idField, schema, entity, false) == Ok(Convert(v, prefixes, idField, schema, entity, true).value.(paging := None))
  {
    assert Validate(v, prefixes).Pass?;
    assert PagingFor(v, true).Ok? && PagingFor(v, false) == Ok(None);
  }

  /** The translation of a write query does not depend on the fields,
      offset or order. */
  lemma WriteIgnoresReadSettings(v: QueryView, prefixes: seq<string>, idField: string, schema: TI.Schema, entity: TI.Clazz)
    ensures Convert(v, prefixes, idField, schema, entity, false) ==
      Convert(v.(fields := None, offset := 0, order := None), prefixes, idField, schema, entity, false)
  {
    var w := v.(fields := None, offset := 0, order := None);
    assert ShouldCheckForIndex(w) == ShouldCheckForIndex(v);
    assert SafeQuery(w, prefixes) == SafeQuery(v, prefixes);
    assert Validate(w, prefixes) == Validate(v, prefixes);
    assert SyncMatchOf(w) == SyncMatchOf(v);
    assert CriteriaFilters(w, schema, entity) == CriteriaFilters(v, schema, entity);
  }

  /** Both daos translate a query to the same filters, and fail alike, when
      it has no single-valued comparison key and every root that groups keys
      resolves to an element type. */
  lemma TranslationsAgree(v: QueryView, prefixes: seq<string>, idField: string, schema: TI.Schema, entity: TI.Clazz)
    requires v.criteria.Some? ==> NoSingleComparison(v.criteria.value)
    requires v.criteria.Some? ==> RootsResolve(schema, entity, KeyGroups(Keys(v.criteria.value), SyncMatchOf(v)))
    ensures var t := Translate(v, prefixes, idField);
      Convert(v, prefixes, idField, schema, entity, false) == if t.Ok? then Ok(MorphiaQuery(t.value, None)) else Err(t.failure)
  {
    if Validate(v, prefixes).Pass? {
      if v.criteria.None? {
        assert IdFilters(idField, v.ids) + [] == IdFilters(idField, v.ids);
      } else {
        CriteriaTranslationsAgree(v, prefixes, idField, schema, entity);
      }
    }
  }

  /** The case of `TranslationsAgree` where the query is valid and has criteria. */
  lemma CriteriaTranslationsAgree(v: QueryView, prefixes: seq<string>, idField: string, schema: TI.Schema, entity: TI.Clazz)
    requires Validate(v, prefixes).Pass? && v.criteria.Some?
    requires NoSingleComparison(v.criteria.value)
    requires RootsResolve(schema, entity, KeyGroups(Keys(v.criteria.value), SyncMatchOf(v)))
    ensures var t := Translate(v, prefixes, idField);
      Convert(v, prefixes, idField, schema, entity, false) == if t.Ok? then Ok(MorphiaQuery(t.value, None)) else Err(t.failure)
  {
    var idf := IdFilters(idField, v.ids);
    var c := v.criteria.value;
    ConvertWrite(v, prefixes, idField, schema, entity);
    TranslateCriteria(v, prefixes, idField);
    CriteriaFiltersAgree(v, schema, entity);
    var kl := KeyLoop(c, Keys(c), SyncMatchOf(v));
    var cv := Convert(v, prefixes, idField, schema, entity, false);
    var t := Translate(v, prefixes, idField);
    if kl.Err? {
      assert cv == Err(kl.failure) && t == Err(kl.failure);
    } else {
      var em := GroupLoop(c, kl.value.1);
      if em.Err? {
        assert cv == Err(em.failure) && t == Err(em.failure);
      } else {
        ConcatAssoc(idf, kl.value.0, em.value);
      }
    }
  }

  /** A valid write query translates to its id filter and criteria filters. */
  lemma ConvertWrite(v: QueryView, prefixes: seq<string>, idField: string, schema: TI.Schema, entity: TI.Clazz)
    requires Validate(v, prefixes).Pass?
    ensures var cf := CriteriaFilters(v, schema, entity);
      Convert(v, prefixes, idField, schema, entity, false) ==
        if cf.Err? then Err(cf.failure) else Ok(MorphiaQuery(IdFilters(idField, v.ids) + cf.value, None))
  {
  }

  /** The other dao's translation of a valid query with criteria. */
  lemma TranslateCriteria(v: QueryView, prefixes: seq<string>, idField: string)
    requires Validate(v, prefixes).Pass? && v.criteria.Some?
    ensures var c := v.criteria.value;
      var kl := KeyLoop(c, Keys(c), SyncMatchOf(v));
      Translate(v, prefixes, idField) ==
        if kl.Err? then Err(kl.failure)
        else
          var em := GroupLoop(c, kl.value.1);
          if em.Err? then Err(em.failure) else Ok(IdFilters(idField, v.ids) + kl.value.0 + em.value)
  {
  }

  /** The criteria filters of this dao are the top-level filters and the
      element matches of the other, with the same first failure. */
  lemma CriteriaFiltersAgree(v: QueryView, schema: TI.Schema, entity: TI.Clazz)
    requires v.criteria.Some? && NoSingleComparison(v.criteria.value)
    requires RootsResolve(schema, entity, KeyGroups(Keys(v.criteria.value), SyncMatchOf(v)))
    ensures var c := v.criteria.value;
      var kl := KeyLoop(c, Keys(c), SyncMatchOf(v));
      CriteriaFilters(v, schema, entity) ==
        if kl.Err? then Err(kl.failure)
        else
          var em := GroupLoop(c, kl.value.1);
          if em.Err? then Err(em.failure) else Ok(kl.value.0 + em.value)
  {
    var c := v.criteria.value;
    var keys := Keys(c);
    var sm := SyncMatchOf(v);
    CriteriaLoopAgrees(c, keys, sm);
    var kl := KeyLoop(c, keys, sm);
    if kl.Ok? {
      KeyLoopIsGroups(c, keys, sm);
      ElemMatchAgrees(schema, entity, c, kl.value.1);
    }
  }

  // ---------------------------------------------------------------------------
  // Executing a query
  // ---------------------------------------------------------------------------

  /** The offset and limit of a query: Morphia's defaults, 0 and no limit,
      when it has no read settings. */
  function OffsetOf(q: MorphiaQuery): Int32 { if q.paging.Some? then q.paging.value.offset else 0 }
  function LimitOf(q: MorphiaQuery): Int32 { if q.paging.Some? then q.paging.value.limit else 0 }

  /** The ungrouped branch of `get` and one pass of the grouping loop: no
      documents are fetched for a count-only query, otherwise the page of the
      query's offset and limit; the total comes from `getTotalItemsCnt`
      against the query's own limit and offset. */
  function ListOf(v: QueryView, q: MorphiaQuery, store: Storage): (r: Result<EntityList<Doc>>)
  {
    var results := if v.countOnly then [] else Page(store(q.filters), OffsetOf(q), LimitOf(q));
    var total :- TotalItemsCnt(v.countTotalItems, v.countOnly, LimitOf(q), OffsetOf(q), |results|, |store(q.filters)|);
    Ok(EntityList(results, total))
  }

  /** The sub-result of one grouping value: the query translated again, then
      fetched and counted. */
  function ServiceSubResult(v: QueryView, prefixes: seq<string>, idField: string, schema: TI.Schema, entity: TI.Clazz, store: Storage): (r: Result<EntityList<Doc>>)
  {
    var q :- Convert(v, prefixes, idField, schema, entity, true);
    ListOf(v, q, store)
  }

  function ServiceSubResults(v: QueryView, g: string, prefixes: seq<string>, idField: string, schema: TI.Schema, entity: TI.Clazz, store: Storage): Value -> Result<EntityList<Doc>>
    requires v.criteria.Some?
  {
    k => ServiceSubResult(GroupQuery(v, g, k), prefixes, idField, schema, entity, store)
  }

  lemma ServiceSubResultsApply(v: QueryView, g: string, prefixes: seq<string>, idField: string, schema: TI.Schema, entity: TI.Clazz, store: Storage, k: Value)
    requires v.criteria.Some?
    ensures ServiceSubResults(v, g, prefixes, idField, schema, entity, store)(k) == ServiceSubResult(GroupQuery(v, g, k), prefixes, idField, schema, entity, store)
  {
  }

  /** `get`: the result, and the query's criteria afterwards. Without groupBy
      one page and its total; with groupBy, always allowed here, one
      sub-result per value of the groupBy key, each fetched after rewriting
      the query's own criteria to that value alone, and the total of the
      original query. */
  function ServiceGetSpec(v: QueryView, prefixes: seq<string>, idField: string, schema: TI.Schema, entity: TI.Clazz, store: Storage): (r: (Result<Container<Value, Doc>>, Option<Entries<Value>>))
  {
    var q := Convert(v, prefixes, idField, schema, entity, true);
    if q.Err? then (Err(q.failure), v.criteria)
    else if v.groupBy.None? then
      var l := ListOf(v, q.value, store);
      (if l.Ok? then Ok(ListContainer(l.value)) else Err(l.failure), v.criteria)
    else
      var g := v.groupBy.value;
      var grouped := GroupedFor(Get(v.criteria.value, g), ServiceSubResults(v, g, prefixes, idField, schema, entity, store));
      var criteria := Some(CriteriaAfter(v.criteria.value, g, grouped.1));
      if grouped.0.Err? then (Err(grouped.0.failure), criteria)
      else
        var total := if v.countTotalItems then Some(|store(q.value.filters)|) else None;
        (Ok(MultimapContainer(EntityMultimap(grouped.0.value, total))), criteria)
  }

  /** Without groupBy, asking for the total yields the true number of
      matching documents, whether the shortcut or a count supplies it. */
  lemma ServiceUngroupedTotal(v: QueryView, prefixes: seq<string>, idField: string, schema: TI.Schema, entity: TI.Clazz, store: Storage)
    requires Convert(v, prefixes, idField, schema, entity, true).Ok? && v.groupBy.None?
    requires v.countTotalItems && 0 <= v.offset && v.limit.Some? && (v.countOnly || v.limit.value > 0)
    requires |store(Convert(v, prefixes, idField, schema, entity, true).value.filters)| <= IntMax
    ensures var r := ServiceGetSpec(v, prefixes, idField, schema, entity, store).0;
      r.Ok? && r.value.ListContainer? && r.value.list.totalItems == Some(|store(Convert(v, prefixes, idField, schema, entity, true).value.filters)|)
  {
    var q := Convert(v, prefixes, idField, schema, entity, true).value;
    assert Validate(v, prefixes).Pass?;
    assert OffsetOf(q) == v.offset && LimitOf(q) == v.limit.value;
    if !v.countOnly {
      CountingEquivalence(store(q.filters), v.offset, v.limit.value, false);
    }
  }

  /** A grouped query runs without any permission: when it translates and its
      grouping values are distinct, it succeeds exactly when every pass does,
      with one sub-result per value, in order, each the result of the query
      with the groupBy key bound to that value alone. */
  lemma GroupedWithoutGate(v: QueryView, prefixes: seq<string>, idField: string, schema: TI.Schema, entity: TI.Clazz, store: Storage)
    requires Convert(v, prefixes, idField, schema, entity, true).Ok? && v.groupBy.Some?
    requires v.criteria.Some? && Distinct(Get(v.criteria.value, v.groupBy.value))
    ensures var g := v.groupBy.value;
      var ks := Get(v.criteria.value, g);
      var r := ServiceGetSpec(v, prefixes, idField, schema, entity, store).0;
      && (r.Ok? <==> forall k :: k in ks ==> ServiceSubResult(GroupQuery(v, g, k), prefixes, idField, schema, entity, store).Ok?)
      && (r.Ok? ==> r.value.MultimapContainer? && |r.value.multimap.items| == |ks|)
      && (r.Ok? ==> forall i :: 0 <= i < |ks| ==>
            r.value.multimap.items[i].0 == ks[i] &&
            ServiceSubResult(GroupQuery(v, g, ks[i]), prefixes, idField, schema, entity, store) == Ok(r.value.multimap.items[i].1))
  {
    var g := v.groupBy.value;
    var ks := Get(v.criteria.value, g);
    var sub := ServiceSubResults(v, g, prefixes, idField, schema, entity, store);
    forall k | k in ks
      ensures sub(k) == ServiceSubResult(GroupQuery(v, g, k), prefixes, idField, schema, entity, store)
    {
      ServiceSubResultsApply(v, g, prefixes, idField, schema, entity, store, k);
    }
    GroupedForOk(ks, sub);
    if GroupedFor(ks, sub).0.Ok? {
      GroupedEntries(ks, sub);
    }
  }

  /** The grouping loop succeeds exactly when every pass does. */
  lemma {:induction false} GroupedForOk(ks: seq<Value>, sub: Value -> Result<EntityList<Doc>>)
    ensures GroupedFor(ks, sub).0.Ok? <==> forall k :: k in ks ==> sub(k).Ok?
  {
    if |ks| > 0 {
      var init := ks[..|ks| - 1];
      assert ks == init + [ks[|ks| - 1]];
      GroupedForOk(init, sub);
    }
  }

  /** A successful grouped `get` leaves the query's criteria holding only the
      last grouping value under the groupBy key. */
  lemma ServiceGroupedLeavesLast(v: QueryView, prefixes: seq<string>, idField: string, schema: TI.Schema, entity: TI.Clazz, store: Storage)
    requires v.groupBy.Some? && v.criteria.Some?
    requires ServiceGetSpec(v, prefixes, idField, schema, entity, store).0.Ok?
    requires |Get(v.criteria.value, v.groupBy.value)| > 0
    ensures var ks := Get(v.criteria.value, v.groupBy.value);
      var after := ServiceGetSpec(v, prefixes, idField, schema, entity, store).1;
      after.Some? && Get(after.value, v.groupBy.value) == [ks[|ks| - 1]]
  {
    var g := v.groupBy.value;
    var ks := Get(v.criteria.value, g);
    assert Convert(v, prefixes, idField, schema, entity, true).Ok?;
    var grouped := GroupedFor(ks, ServiceSubResults(v, g, prefixes, idField, schema, entity, store));
    assert grouped.0.Ok?;
    RegroupGet(v.criteria.value, g, ks[|ks| - 1], g);
  }

  // ---------------------------------------------------------------------------
  // Count, delete and patch
  // ---------------------------------------------------------------------------

  /** `count`: the number of documents the read query matches. */
  function CountSpec(v: QueryView, prefixes: seq<string>, idField: string, schema: TI.Schema, entity: TI.Clazz, store: Storage): (r: Result<nat>)
  {
    var q :- Convert(v, prefixes, idField, schema, entity, true);
    Ok(|store(q.filters)|)
  }

  /** Whether a query names neither criteria nor ids. */
  predicate Unrestricted(v: QueryView) {
    (v.criteria.None? || |v.criteria.value| == 0) && (v.ids.None? || |v.ids.value| == 0)
  }

  /** `delete`: a query without criteria and without ids is refused before
      anything else; otherwise the number of documents the write query
      matches, all of which are deleted. */
  function DeleteSpec(v: QueryView, prefixes: seq<string>, idField: string, schema: TI.Schema, entity: TI.Clazz, store: Storage): (r: Result<nat>)
    ensures Unrestricted(v) ==> r == Raise(QueryError)
    ensures !Unrestricted(v) && Convert(v, prefixes, idField, schema, entity, false).Err? ==>
      r == Err(Convert(v, prefixes, idField, schema, entity, false).failure)
  {
    if Unrestricted(v) then Raise(QueryError)
    else
      var q :- Convert(v, prefixes, idField, schema, entity, false);
      Ok(|store(q.filters)|)
  }

  /** A query with criteria or ids deletes exactly what `count` counts. */
  lemma DeleteMatchesCount(v: QueryView, prefixes: seq<string>, idField: string, schema: TI.Schema, entity: TI.Clazz, store: Storage)
    requires !Unrestricted(v) && CountSpec(v, prefixes, idField, schema, entity, store).Ok?
    ensures DeleteSpec(v, prefixes, idField, schema, entity, store) == CountSpec(v, prefixes, idField, schema, entity, store)
  {
    WriteTranslation(v, prefixes, idField, schema, entity);
  }

  /** The update operations of `patch`: the fields to set, with their values,
      and the fields to unset. */
  datatype UpdateOps = UpdateOps(sets: map<string, Value>, unsets: set<string>)

  /** The operations for the patched fields: a null value unsets its field,
      any other value sets it. */
  function OpsOf(patched: map<string, Value>): (ops: UpdateOps)
  {
    UpdateOps(map k | k in patched && patched[k] != VNull :: patched[k], set k | k in patched && patched[k] == VNull)
  }

  /** Every patched field is either set to its value or unset, never both. */
  lemma OpsPartition(patched: map<string, Value>)
    ensures OpsOf(patched).sets.Keys !! OpsOf(patched).unsets
    ensures OpsOf(patched).sets.Keys + OpsOf(patched).unsets == patched.Keys
    ensures forall k :: k in OpsOf(patched).sets ==> OpsOf(patched).sets[k] == patched[k] != VNull
    ensures forall k :: k in OpsOf(patched).unsets ==> patched[k] == VNull
  {
  }

  /** One more entry of the patched fields. */
  lemma OpsAdd(m: map<string, Value>, k: string, x: Value)
    requires k !in m
    ensures OpsOf(m[k := x]) ==
      if x != VNull then OpsOf(m).(sets := OpsOf(m).sets[k := x]) else OpsOf(m).(unsets := OpsOf(m).unsets + {k})
  {
    var a := OpsOf(m[k := x]);
    var b := if x != VNull then OpsOf(m).(sets := OpsOf(m).sets[k := x]) else OpsOf(m).(unsets := OpsOf(m).unsets + {k});
    assert a.sets.Keys == b.sets.Keys;
    assert a.unsets == b.unsets;
  }

  /** The loop of `patch` over the patched fields. */
  method CollectOps(patched: map<string, Value>) returns (ops: UpdateOps)
    ensures ops == OpsOf(patched)
  {
    ops := UpdateOps(map[], {});
    var remaining := patched.Keys;
    assert patched - remaining == map[];
    while remaining != {}
      invariant remaining <= patched.Keys
      invariant ops == OpsOf(patched - remaining)
      decreases remaining
    {
      var key :| key in remaining;
      var value := patched[key];
      OpsAdd(patched - remaining, key, value);
      assert patched - (remaining - {key}) == (patched - remaining)[key := value];
      if value != VNull {
        ops := ops.(sets := ops.sets[key := value]);
      } else {
        ops := ops.(unsets := ops.unsets + {key});
      }
      remaining := remaining - {key};
    }
    assert patched - remaining == patched;
  }

  /** A document after the update: the unset fields removed, the set fields
      written. */
  function Applied(ops: UpdateOps, doc: Doc): (r: Doc)
    ensures r.Keys == (doc.Keys - ops.unsets) + ops.sets.Keys
    ensures forall k :: k in ops.sets ==> r[k] == ops.sets[k]
    ensures forall k :: k in doc && k !in ops.unsets && k !in ops.sets ==> r[k] == doc[k]
  {
    (doc - ops.unsets) + ops.sets
  }

  /** `patch`: the write query's first matching document in storage order,
      updated and returned as it is afterwards; none when nothing matches,
      since missing documents are not created. */
  function PatchSpec(v: QueryView, patched: map<string, Value>, prefixes: seq<string>, idField: string, schema: TI.Schema, entity: TI.Clazz, store: Storage): (r: Result<Option<Doc>>)
    ensures Convert(v, prefixes, idField, schema, entity, false).Err? ==> r == Err(Convert(v, prefixes, idField, schema, entity, false).failure)
    ensures r.Ok? ==> (r.value.None? <==> store(Convert(v, prefixes, idField, schema, entity, false).value.filters) == [])
  {
    var q :- Convert(v, prefixes, idField, schema, entity, false);
    var matching := store(q.filters);
    Ok(if |matching| == 0 then None else Some(Applied(OpsOf(patched), matching[0])))
  }

  /** The returned document has the null-valued fields removed, every other
      patched field at its new value, and every unpatched field as before. */
  lemma PatchedDocument(v: QueryView, patched: map<string, Value>, prefixes: seq<string>, idField: string, schema: TI.Schema, entity: TI.Clazz, store: Storage, k: string)
    requires PatchSpec(v, patched, prefixes, idField, schema, entity, store).Ok?
    requires PatchSpec(v, patched, prefixes, idField, schema, entity, store).value.Some?
    ensures var d := PatchSpec(v, patched, prefixes, idField, schema, entity, store).value.value;
      var before := store(Convert(v, prefixes, idField, schema, entity, false).value.filters)[0];
      && (k in patched && patched[k] == VNull ==> k !in d)
      && (k in patched && patched[k] != VNull ==> k in d && d[k] == patched[k])
      && (k !in patched ==> (k in d <==> k in before) && (k in d ==> d[k] == before[k]))
  {
  }

  /** Applying the same update twice is applying it once. */
  lemma AppliedIdempotent(ops: UpdateOps, doc: Doc)
    requires ops.sets.Keys !! ops.unsets
    ensures Applied(ops, Applied(ops, doc)) == Applied(ops, doc)
  {
    var once := Applied(ops, doc);
    var twice := Applied(ops, once);
    assert twice.Keys == once.Keys;
    forall k | k in once.Keys
      ensures twice[k] == once[k]
    {
    }
  }

  // ---------------------------------------------------------------------------
  // The dao
  // ---------------------------------------------------------------------------

  /** A dao over one entity collection: the name of the entity's id field,
      its index information, the entity schema and the entity class. */
  class MongoServiceDao {
    const idFieldName: string
    const entityIndexInfo: EntityIndexInfo
    const schema: TI.Schema
    const entityClazz: TI.Clazz

    constructor (idFieldName: string, entityIndexInfo: EntityIndexInfo, schema: TI.Schema, entityClazz: TI.Clazz)
      ensures this.idFieldName == idFieldName && this.entityIndexInfo == entityIndexInfo
      ensures this.schema == schema && this.entityClazz == entityClazz
    {
      this.idFieldName := idFieldName;
      this.entityIndexInfo := entityIndexInfo;
      this.schema := schema;
      this.entityClazz := entityClazz;
    }

    /** `convertToMorphiaQuery`. */
    method ConvertToMorphiaQuery(sq: ServiceQuery, getQuery: bool) returns (r: Result<MorphiaQuery>)
      ensures r == Convert(sq.View(), entityIndexInfo.indexPrefixMap, idFieldName, schema, entityClazz, getQuery)
    {
      ghost var v := sq.View();
      var valid := ValidateQuery(sq, entityIndexInfo.indexPrefixMap);
      if valid.Fail? {
        return Err(valid.failure);
      }
      var filters := IdFilters(idFieldName, sq.ids);
      var paging: Option<Paging> := None;
      if getQuery {
        var projection: seq<(string, bool)> := [];
        if sq.fields.Some? {
          var selection := SelectFields(sq.fields.value);
          var p := LegacyProjection(selection);
          if p.Err? {
            return Err(p.failure);
          }
          projection := p.value;
        }
        paging := Some(Paging(projection, sq.offset, sq.limit.value, sq.order));
      }
      assert PagingFor(v, getQuery) == Ok(paging);
      if sq.criteria.None? {
        assert CriteriaFilters(v, schema, entityClazz) == Ok([]);
        assert filters + [] == filters;
      } else {
        var criteria := sq.criteria.value;
        var syncMatch := if sq.syncMatch.Some? then sq.syncMatch.value else [];
        var kl := EnrichCriteria(criteria, Keys(criteria), syncMatch);
        if kl.Err? {
          return Err(kl.failure);
        }
        var em := ElemMatches(schema, entityClazz, criteria, kl.value.1);
        if em.Err? {
          return Err(em.failure);
        }
        assert CriteriaFilters(v, schema, entityClazz) == Ok(kl.value.0 + em.value);
        filters := filters + (kl.value.0 + em.value);
      }
      return Ok(MorphiaQuery(filters, paging));
    }

    /** `count`. */
    method Count(sq: ServiceQuery, store: Storage) returns (r: Result<nat>)
      ensures r == CountSpec(sq.View(), entityIndexInfo.indexPrefixMap, idFieldName, schema, entityClazz, store)
    {
      var q := ConvertToMorphiaQuery(sq, true);
      if q.Err? {
        return Err(q.failure);
      }
      return Ok(|store(q.value.filters)|);
    }

    /** `getOne`: the first document after the query's offset, or none. */
    method GetOne(sq: ServiceQuery, store: Storage) returns (r: Result<Option<Doc>>)
      ensures var q := Convert(sq.View(), entityIndexInfo.indexPrefixMap, idFieldName, schema, entityClazz, true);
        && (q.Err? ==> r == Err(q.failure))
        && (q.Ok? ==> var page := Page(store(q.value.filters), OffsetOf(q.value), 1);
              r == Ok(if |page| == 0 then None else Some(page[0])))
    {
      var q := ConvertToMorphiaQuery(sq, true);
      if q.Err? {
        return Err(q.failure);
      }
      var page := Page(store(q.value.filters), OffsetOf(q.value), 1);
      return Ok(if |page| == 0 then None else Some(page[0]));
    }

    /** `delete`. */
    method Delete(sq: ServiceQuery, store: Storage) returns (r: Result<nat>)
      ensures r == DeleteSpec(sq.View(), entityIndexInfo.indexPrefixMap, idFieldName, schema, entityClazz, store)
    {
      if (sq.criteria.None? || |sq.criteria.value| == 0) && (sq.ids.None? || |sq.ids.value| == 0) {
        return Raise(QueryError);
      }
      var q := ConvertToMorphiaQuery(sq, false);
      if q.Err? {
        return Err(q.failure);
      }
      return Ok(|store(q.value.filters)|);
    }

    /** `patch`: the operations are collected, then the first matching
        document is updated. */
    method Patch(sq: ServiceQuery, patched: map<string, Value>, store: Storage) returns (r: Result<Option<Doc>>)
      ensures r == PatchSpec(sq.View(), patched, entityIndexInfo.indexPrefixMap, idFieldName, schema, entityClazz, store)
    {
      var ops := CollectOps(patched);
      var q := ConvertToMorphiaQuery(sq, false);
      if q.Err? {
        return Err(q.failure);
      }
      var matching := store(q.value.filters);
      return Ok(if |matching| == 0 then None else Some(Applied(ops, matching[0])));
    }

    /** One pass of the grouping loop: the query translated again, fetched
        and counted. */
    method SubQuery(sq: ServiceQuery, store: Storage) returns (l: Result<EntityList<Doc>>)
      ensures l == ServiceSubResult(sq.View(), entityIndexInfo.indexPrefixMap, idFieldName, schema, entityClazz, store)
    {
      var q := ConvertToMorphiaQuery(sq, true);
      if q.Err? {
        return Err(q.failure);
      }
      l := ListOf(sq.View(), q.value, store);
    }

    /** One pass of the grouping loop: the criteria rewritten to `k` alone,
        then the query run. */
    method GroupPass(sq: ServiceQuery, store: Storage, g: string, k: Value, ghost v: QueryView, ghost c0: Entries<Value>, ghost before: Option<Value>) returns (l: Result<EntityList<Doc>>)
      requires v.criteria == Some(c0) && sq.View() == v.(criteria := Some(CriteriaAfter(c0, g, before)))
      modifies sq
      ensures sq.View() == v.(criteria := Some(CriteriaAfter(c0, g, Some(k))))
      ensures l == ServiceSubResults(v, g, entityIndexInfo.indexPrefixMap, idFieldName, schema, entityClazz, store)(k)
    {
      RegroupCriteria(sq, g, k);
      if before.Some? {
        RegroupTwice(c0, g, before.value, k);
      }
      assert sq.View() == GroupQuery(v, g, k);
      l := SubQuery(sq, store);
      ServiceSubResultsApply(v, g, entityIndexInfo.indexPrefixMap, idFieldName, schema, entityClazz, store, k);
    }

    /** The grouping loop of `get` over a copy of the groupBy key's values.
        The last value written is returned as a ghost. */
    method GroupLoopRun(sq: ServiceQuery, store: Storage, g: string) returns (r: Result<seq<(Value, EntityList<Doc>)>>, ghost last: Option<Value>)
      requires sq.criteria.Some?
      modifies sq
      ensures var v := old(sq.View());
        (r, last) == GroupedFor(Multimaps.Get(v.criteria.value, g), ServiceSubResults(v, g, entityIndexInfo.indexPrefixMap, idFieldName, schema, entityClazz, store))
      ensures sq.View() == old(sq.View()).(criteria := Some(CriteriaAfter(old(sq.criteria.value), g, last)))
    {
      ghost var v := sq.View();
      ghost var c0 := sq.criteria.value;
      ghost var sub := ServiceSubResults(v, g, entityIndexInfo.indexPrefixMap, idFieldName, schema, entityClazz, store);
      var ks := Multimaps.Get(sq.criteria.value, g);
      var grouped: seq<(Value, EntityList<Doc>)> := [];
      last := None;
      var i := 0;
      while i < |ks|
        invariant 0 <= i <= |ks|
        invariant GroupedFor(ks[..i], sub) == (Ok(grouped), last)
        invariant sq.View() == v.(criteria := Some(CriteriaAfter(c0, g, last)))
      {
        var k := ks[i];
        var l := GroupPass(sq, store, g, k, v, c0, last);
        GroupedForStep(ks, sub, i, grouped, last, l);
        last := Some(k);
        if l.Err? {
          return Err(l.failure), last;
        }
        grouped := MapPut(grouped, k, l.value);
        i := i + 1;
      }
      assert ks[..|ks|] == ks;
      return Ok(grouped), last;
    }

    /** `get`. */
    method Get(sq: ServiceQuery, store: Storage) returns (r: Result<EntityResult<Value, Doc>>)
      modifies sq
      ensures var spec := ServiceGetSpec(old(sq.View()), entityIndexInfo.indexPrefixMap, idFieldName, schema, entityClazz, store);
        && (r.Ok? <==> spec.0.Ok?)
        && (r.Err? ==> r.failure == spec.0.failure)
        && (r.Ok? ==> fresh(r.value) && r.value.Valid() && r.value.current == Some(spec.0.value))
        && sq.View() == old(sq.View()).(criteria := spec.1)
    {
      var q := ConvertToMorphiaQuery(sq, true);
      if q.Err? {
        return Err(q.failure);
      }
      if sq.groupBy.None? {
        var l := ListOf(sq.View(), q.value, store);
        if l.Err? {
          return Err(l.failure);
        }
        var res := new EntityResult<Value, Doc>.OfList(l.value);
        return Ok(res);
      }
      var grouped: Result<seq<(Value, EntityList<Doc>)>>;
      ghost var last: Option<Value>;
      grouped, last := GroupLoopRun(sq, store, sq.groupBy.value);
      if grouped.Err? {
        return Err(grouped.failure);
      }
      var total := if sq.countTotalItems then Some(|store(q.value.filters)|) else None;
      var res := new EntityResult<Value, Doc>.OfMultimap(EntityMultimap(grouped.value, total));
      return Ok(res);
    }
  }
}
