/** RequestUtil: reading the query parameters of a request and parsing a path
    segment (ids and matrix criteria) into a built ServiceQuery. */
module Requests {
  import opened Errors
  import opened Lang
  import opened ReservedValues
  import opened Values
  import opened Multimaps
  import opened QueryParams
  import opened QuerySpec
  import opened Queries
  import opened QueryUtil
  import opened TypeInfo
  import opened PatchContexts

  /** The request's query parameters: every key with the values given for it. */
  type QueryParameters = map<string, seq<string>>

  /** A path segment: the path text and its matrix parameters, in key order. */
  datatype PathSegment = PathSegment(path: string, matrix: Entries<string>)

  /** What the parser needs to know about the entity: its schema, its class and
      the class of its id. */
  datatype EntityType = EntityType(schema: Schema, entityClazz: Clazz, idClazz: Clazz)

  // ---------------------------------------------------------------------------
  // Query parameters
  // ---------------------------------------------------------------------------

  /** `getFirst`: the first value given for a key, or null. */
  function GetFirst(m: QueryParameters, key: string): (r: Option<string>)
    ensures r.Some? <==> key in m && |m[key]| > 0
    ensures r.Some? ==> r.value == m[key][0]
  {
    if key in m && |m[key]| > 0 then Some(m[key][0]) else None
  }

  /** `getInt`: null for an absent key; text that is not a base-10 `int`
      (a missing value included) is a PARAMS_ERROR. */
  function GetInt(m: QueryParameters, key: string): (r: Result<Option<Int32>>)
    ensures key !in m <==> r == Ok(None)
    ensures r.Err? ==> r.failure == RestDsl(ParamsError)
    ensures key in m ==> (r.Ok? <==> GetFirst(m, key).Some? && ParseInt(GetFirst(m, key).value).Some?)
    ensures r.Ok? && r.value.Some? ==> ParseInt(GetFirst(m, key).value) == Some(r.value.value)
  {
    if key !in m then Ok(None)
    else
      var first := GetFirst(m, key);
      if first.None? then Raise(ParamsError)
      else
        var n := ParseInt(first.value);
        if n.Some? then Ok(Some(n.value)) else Raise(ParamsError)
  }

  /** A printed `int` reads back as itself. */
  lemma GetIntRoundTrip(m: QueryParameters, key: string, n: Int32, rest: seq<string>)
    ensures GetInt(m[key := [DecimalString(n)] + rest], key) == Ok(Some(n))
  {
    ParseIntRoundTrip(n);
  }

  /** `getBoolean`: null for an absent key, otherwise `Boolean.valueOf` of the
      first value, which is true only for `true` in any case. */
  function GetBoolean(m: QueryParameters, key: string): (r: Option<bool>)
    ensures r.None? <==> key !in m
    ensures r == Some(true) <==> GetFirst(m, key).Some? && EqualsIgnoreCase(GetFirst(m, key).value, "true")
  {
    if key !in m then None
    else
      var first := GetFirst(m, key);
      Some(first.Some? && EqualsIgnoreCase(first.value, "true"))
  }

  /** `getString`: null for an absent key, otherwise the first value. */
  function GetString(m: QueryParameters, key: string): (r: Option<string>)
    ensures r == GetFirst(m, key)
  {
    if key !in m then None else GetFirst(m, key)
  }

  /** `getToList`: null for an absent key, otherwise the first value split on
      `,` with empty pieces kept, so joining the pieces gives the text back. */
  function GetToList(m: QueryParameters, key: string): (r: Result<Option<seq<string>>>)
    ensures key !in m <==> r == Ok(None)
    ensures r.Err? <==> key in m && GetFirst(m, key).None?
    ensures r.Err? ==> r.failure == NullPointer
    ensures r.Ok? && r.value.Some? ==>
      |r.value.value| >= 1 && Join(r.value.value, ",") == GetFirst(m, key).value
  {
    if key !in m then Ok(None)
    else
      var first := GetFirst(m, key);
      if first.None? then Err(NullPointer)
      else
        JoinSplit(first.value, ',');
        Ok(Some(Split(first.value, ',')))
  }

  /** `getToSet`: the pieces of `getToList`, duplicates removed. */
  function GetToSet(m: QueryParameters, key: string): (r: Result<Option<set<string>>>)
    ensures r.Ok? <==> GetToList(m, key).Ok?
    ensures r.Ok? ==> (r.value.Some? <==> GetToList(m, key).value.Some?)
    ensures r.Ok? && r.value.Some? ==> r.value.value == Elems(GetToList(m, key).value.value)
  {
    if key !in m then Ok(None)
    else
      var first := GetFirst(m, key);
      if first.None? then Err(NullPointer)
      else Ok(Some(Elems(Split(first.value, ','))))
  }

  /** `getPatchContext`: the default context when `unsetFields` is absent,
      otherwise a context unsetting the listed fields. */
  method GetPatchContext(m: QueryParameters) returns (r: Result<PatchContext>)
    ensures r.Ok? <==> GetToSet(m, "unsetFields").Ok?
    ensures r.Ok? ==>
      r.value.unsetFields == if GetToSet(m, "unsetFields").value.Some? then GetToSet(m, "unsetFields").value.value else {}
  {
    var unset := GetToSet(m, "unsetFields");
    if unset.Err? {
      return Err(unset.failure);
    }
    if unset.value.None? {
      var c := new PatchContext();
      return Ok(c);
    }
    r := BuildContext(unset.value);
  }

  // ---------------------------------------------------------------------------
  // Matrix criteria and ids
  // ---------------------------------------------------------------------------

  /** The values of one matrix key, each split on `,` with empty pieces
      dropped, in order. */
  function SplitValues(values: seq<string>): (r: seq<string>)
  {
    if |values| == 0 then []
    else SplitValues(values[..|values| - 1]) + SplitOmitEmpty(values[|values| - 1], ',')
  }

  /** No piece of the split values is empty. */
  lemma {:induction false} SplitValuesNonEmpty(values: seq<string>)
    ensures forall i :: 0 <= i < |SplitValues(values)| ==> SplitValues(values)[i] != []
  {
    if |values| > 0 {
      SplitValuesNonEmpty(values[..|values| - 1]);
      var a := SplitValues(values[..|values| - 1]);
      var b := SplitOmitEmpty(values[|values| - 1], ',');
      NonEmptyPieces(Split(values[|values| - 1], ','));
      assert forall i :: 0 <= i < |b| ==> b[i] != [];
      assert SplitValues(values) == a + b;
    }
  }

  /** Eager coercion of every text to `clazz`; the first failure is thrown. */
  function CoerceAll(converters: Converters, xs: seq<string>, clazz: Clazz): (r: Result<seq<Value>>)
  {
    if |xs| == 0 then Ok([])
    else
      var head :- GetValue(converters, xs[0], clazz);
      var tail :- CoerceAll(converters, xs[1..], clazz);
      Ok([head] + tail)
  }

  /** Coercion succeeds exactly when every text coerces, and then gives one
      value per text, in order; otherwise it throws PARAMS_ERROR. */
  lemma {:induction false} CoerceAllSpec(converters: Converters, xs: seq<string>, clazz: Clazz)
    ensures var r := CoerceAll(converters, xs, clazz);
      && (r.Ok? <==> forall i :: 0 <= i < |xs| ==> GetValue(converters, xs[i], clazz).Ok?)
      && (r.Ok? ==> |r.value| == |xs| && forall i :: 0 <= i < |xs| ==> GetValue(converters, xs[i], clazz) == Ok(r.value[i]))
      && (r.Err? ==> r.failure == RestDsl(ParamsError))
    decreases |xs|
  {
    if |xs| > 0 {
      CoerceAllSpec(converters, xs[1..], clazz);
      var r := CoerceAll(converters, xs, clazz);
      if r.Ok? {
        forall i | 0 <= i < |xs|
          ensures GetValue(converters, xs[i], clazz) == Ok(r.value[i])
        {
          if i > 0 { assert xs[i] == xs[1..][i - 1]; }
        }
      } else if GetValue(converters, xs[0], clazz).Ok? {
        var k :| 0 <= k < |xs[1..]| && GetValue(converters, xs[1..][k], clazz).Err?;
        assert xs[k + 1] == xs[1..][k];
      }
    }
  }

  /** One matrix key turned into a criterion: the normalised key, and the
      values coerced to the type of the field the key names. */
  function MatrixValues(e: EntityType, converters: Converters, key: string, values: seq<string>)
    : (r: Result<(string, seq<Value>)>)
  {
    var split := SplitValues(values);
    var parsed :- ParseQueryField(key);
    var types :- FieldExpressionClazz(e.schema, e.entityClazz, parsed.fieldName);
    var coerced :- CoerceAll(converters, split, types.0);
    Ok((parsed.fullCriteria, coerced))
  }

  /** The criterion of every matrix key, in order. */
  function MatrixCriteria(e: EntityType, converters: Converters, matrix: Entries<string>)
    : (r: seq<Result<(string, seq<Value>)>>)
    ensures |r| == |matrix|
  {
    if |matrix| == 0 then []
    else [MatrixValues(e, converters, matrix[0].0, matrix[0].1)] + MatrixCriteria(e, converters, matrix[1..])
  }

  lemma {:induction false} MatrixCriteriaAt(e: EntityType, converters: Converters, matrix: Entries<string>, i: nat)
    requires i < |matrix|
    ensures MatrixCriteria(e, converters, matrix)[i] == MatrixValues(e, converters, matrix[i].0, matrix[i].1)
    decreases i
  {
    if i > 0 {
      MatrixCriteriaAt(e, converters, matrix[1..], i - 1);
      assert matrix[1..][i - 1] == matrix[i];
    }
  }

  /** The criteria added one by one with `withCriteria`; the first key whose
      criterion or whose `withCriteria` fails ends the loop with that error. */
  function AddCriteria(v: QueryView, cs: seq<Result<(string, seq<Value>)>>): (r: Result<QueryView>)
    decreases |cs|
  {
    if |cs| == 0 then Ok(v)
    else
      var c :- cs[0];
      var next :- QuerySpec.WithCriteria(v, c.0, Some(c.1));
      AddCriteria(next, cs[1..])
  }

  /** The loop over the matrix keys, each added with `withCriteria`. */
  function ApplyMatrix(v: QueryView, e: EntityType, converters: Converters, matrix: Entries<string>)
    : (r: Result<QueryView>)
  {
    AddCriteria(v, MatrixCriteria(e, converters, matrix))
  }

  /** One matrix key added with `withCriteria`. */
  function MatrixStep(v: QueryView, e: EntityType, converters: Converters, key: string, values: seq<string>)
    : (r: Result<QueryView>)
  {
    var c :- MatrixValues(e, converters, key, values);
    QuerySpec.WithCriteria(v, c.0, Some(c.1))
  }

  /** The criteria from position `i` on: the key at `i`, then the rest. */
  lemma AddCriteriaFrom(v: QueryView, e: EntityType, converters: Converters, matrix: Entries<string>,
                        cs: seq<Result<(string, seq<Value>)>>, i: nat)
    requires cs == MatrixCriteria(e, converters, matrix) && i < |matrix|
    ensures var next := MatrixStep(v, e, converters, matrix[i].0, matrix[i].1);
      AddCriteria(v, cs[i..]) ==
        if next.Err? then Err(next.failure) else AddCriteria(next.value, cs[i + 1..])
  {
    MatrixCriteriaAt(e, converters, matrix, i);
    assert cs[i..][1..] == cs[i + 1..];
  }

  /** The matrix keys change only the criteria. */
  lemma {:induction false} AddCriteriaIds(v: QueryView, cs: seq<Result<(string, seq<Value>)>>)
    requires AddCriteria(v, cs).Ok?
    ensures AddCriteria(v, cs).value.ids == v.ids
    decreases |cs|
  {
    if |cs| > 0 {
      var c := cs[0].value;
      WithCriteriaSpec(v, c.0, Some(c.1));
      AddCriteriaIds(QuerySpec.WithCriteria(v, c.0, Some(c.1)).value, cs[1..]);
    }
  }

  lemma ApplyMatrixIds(v: QueryView, e: EntityType, converters: Converters, matrix: Entries<string>)
    requires ApplyMatrix(v, e, converters, matrix).Ok?
    ensures ApplyMatrix(v, e, converters, matrix).value.ids == v.ids
  {
    AddCriteriaIds(v, MatrixCriteria(e, converters, matrix));
  }

  /** Ids are read from a path that is non-empty and does not start with `-`. */
  predicate HasIdPath(path: string) {
    path != [] && !StartsWith(path, "-")
  }

  /** The ids step: the comma-separated pieces of the path, each coerced to the
      id class, order and duplicates kept. */
  function ApplyIds(v: QueryView, e: EntityType, converters: Converters, path: string): (r: Result<QueryView>)
  {
    if HasIdPath(path) then
      var ids :- CoerceAll(converters, Split(path, ','), e.idClazz);
      Ok(v.(ids := Some(ids)))
    else Ok(v)
  }

  /** The builder steps `parseRequest` runs before the matrix keys. */
  function ApplyQueryParameters(m: QueryParameters): (r: Result<QueryView>)
    ensures r.Ok? ==> r.value.ids.None?
  {
    var offset :- GetInt(m, "offset");
    var v1 :- SetOffset(NewQuery, offset);
    var limit :- GetInt(m, "limit");
    var v2 :- SetLimit(v1, limit);
    var fields :- GetToList(m, "fields");
    var v3 := SetFields(v2, fields).(order := GetFirst(m, "order"));
    var validation := GetBoolean(m, "indexValidation");
    var v4 := v3.(indexValidation := if validation.Some? then validation.value else v3.indexValidation);
    var total := GetBoolean(m, "countTotalItems");
    var v5 := v4.(countTotalItems := if total.Some? then total.value else v4.countTotalItems);
    var v6 := v5.(groupBy := GetString(m, "groupBy"));
    var syncMatch :- GetToList(m, "syncMatch");
    Ok(SetSyncMatch(v6, syncMatch))
  }

  /** `parseRequest`: the query parameters, the matrix criteria and the ids,
      then `build` with the given parameters. */
  function ParseRequestSpec(e: EntityType, converters: Converters, segment: PathSegment,
                            m: QueryParameters, p: QueryParams): (r: Result<QueryView>)
  {
    var v1 :- ApplyQueryParameters(m);
    var v2 :- ApplyMatrix(v1, e, converters, segment.matrix);
    var v3 :- ApplyIds(v2, e, converters, segment.path);
    Ok(QuerySpec.Build(v3, p))
  }

  /** `parseRequest`, driving a ServiceQuery builder step by step. */
  method ParseRequest(e: EntityType, registry: ConverterRegistry, segment: PathSegment,
                      m: QueryParameters, params: ParamsImpl) returns (r: Result<ServiceQuery>)
    ensures r.Ok? <==> ParseRequestSpec(e, registry.converters, segment, m, params.View()).Ok?
    ensures r.Err? ==> r.failure == ParseRequestSpec(e, registry.converters, segment, m, params.View()).failure
    ensures r.Ok? ==> r.value.View() == ParseRequestSpec(e, registry.converters, segment, m, params.View()).value
  {
    var b := new ServiceQueryBuilder();
    var o := ReadQueryParameters(b, m);
    if o.Fail? {
      return Err(o.failure);
    }
    b.WithServiceQueryParams(params);
    o := AddMatrixCriteria(b, e, registry.converters, segment.matrix);
    if o.Fail? {
      return Err(o.failure);
    }
    if HasIdPath(segment.path) {
      var ids :- CoerceAll(registry.converters, Split(segment.path, ','), e.idClazz);
      o := b.Ids(Some(ids));
    }
    var q := b.Build();
    return Ok(q);
  }

  /** The query-parameter steps of `parseRequest` on a fresh builder. */
  method ReadQueryParameters(b: ServiceQueryBuilder, m: QueryParameters) returns (o: Outcome)
    requires b.query.View() == NewQuery
    modifies b.query
    ensures o.Pass? <==> ApplyQueryParameters(m).Ok?
    ensures o.Fail? ==> o.failure == ApplyQueryParameters(m).failure
    ensures o.Pass? ==> b.query.View() == ApplyQueryParameters(m).value
  {
    var offset := GetInt(m, "offset");
    if offset.Err? {
      return Fail(offset.failure);
    }
    o := b.Offset(offset.value);
    if o.Fail? {
      return;
    }
    var limit := GetInt(m, "limit");
    if limit.Err? {
      return Fail(limit.failure);
    }
    o := b.Limit(limit.value);
    if o.Fail? {
      return;
    }
    var fields := GetToList(m, "fields");
    if fields.Err? {
      return Fail(fields.failure);
    }
    b.Fields(fields.value);
    b.Order(GetFirst(m, "order"));
    b.IndexValidation(GetBoolean(m, "indexValidation"));
    b.CountTotalItems(GetBoolean(m, "countTotalItems"));
    b.GroupBy(GetString(m, "groupBy"));
    var syncMatch := GetToList(m, "syncMatch");
    if syncMatch.Err? {
      return Fail(syncMatch.failure);
    }
    b.SyncMatch(syncMatch.value);
  }

  /** The loop over the matrix keys: split the values, parse the key, type
      the field, coerce the values and add them with `withCriteria`. */
  method AddMatrixCriteria(b: ServiceQueryBuilder, e: EntityType, converters: Converters, matrix: Entries<string>)
    returns (o: Outcome)
    modifies b.query
    ensures o == StepOutcome(ApplyMatrix(old(b.query.View()), e, converters, matrix))
    ensures o.Pass? ==> b.query.View() == ApplyMatrix(old(b.query.View()), e, converters, matrix).value
  {
    ghost var cs := MatrixCriteria(e, converters, matrix);
    ghost var target := AddCriteria(b.query.View(), cs);
    var i := 0;
    while i < |matrix|
      invariant 0 <= i <= |matrix|
      invariant AddCriteria(b.query.View(), cs[i..]) == target
    {
      o := AddMatrixEntry(b, e, converters, matrix, i, cs, target);
      if o.Fail? {
        return;
      }
      i := i + 1;
    }
    assert cs[i..] == [];
    return Pass;
  }

  /** One pass of the matrix loop, stated against what the whole loop computes. */
  method AddMatrixEntry(b: ServiceQueryBuilder, e: EntityType, converters: Converters, matrix: Entries<string>, i: nat,
                        ghost cs: seq<Result<(string, seq<Value>)>>, ghost target: Result<QueryView>) returns (o: Outcome)
    requires cs == MatrixCriteria(e, converters, matrix)
    requires i < |matrix| && AddCriteria(b.query.View(), cs[i..]) == target
    modifies b.query
    ensures o.Fail? ==> o == StepOutcome(target)
    ensures o.Pass? ==> AddCriteria(b.query.View(), cs[i + 1..]) == target
  {
    AddCriteriaFrom(b.query.View(), e, converters, matrix, cs, i);
    o := AddMatrixKey(b, e, converters, matrix[i].0, matrix[i].1);
  }

  /** The body of the matrix loop for one key. */
  method AddMatrixKey(b: ServiceQueryBuilder, e: EntityType, converters: Converters, key: string, values: seq<string>)
    returns (o: Outcome)
    modifies b.query
    ensures o == StepOutcome(MatrixStep(old(b.query.View()), e, converters, key, values))
    ensures b.query.View() == After(old(b.query.View()), MatrixStep(old(b.query.View()), e, converters, key, values))
  {
    var split := SplitMatrixValues(values);
    var parsed := ParseQueryField(key);
    if parsed.Err? {
      return Fail(parsed.failure);
    }
    var types := FieldExpressionClazz(e.schema, e.entityClazz, parsed.value.fieldName);
    if types.Err? {
      return Fail(types.failure);
    }
    var criteria := CoerceAll(converters, split, types.value.0);
    if criteria.Err? {
      return Fail(criteria.failure);
    }
    o := b.WithCriteria(parsed.value.fullCriteria, Some(criteria.value));
  }

  /** The values of one matrix key, split one by one into a growing list. */
  method SplitMatrixValues(values: seq<string>) returns (split: seq<string>)
    ensures split == SplitValues(values)
  {
    split := [];
    var j := 0;
    while j < |values|
      invariant 0 <= j <= |values|
      invariant split == SplitValues(values[..j])
    {
      assert values[..j + 1][..j] == values[..j];
      split := split + SplitOmitEmpty(values[j], ',');
      j := j + 1;
    }
    assert values[..|values|] == values;
  }

  // ---------------------------------------------------------------------------
  // Properties
  // ---------------------------------------------------------------------------

  /** Path `-` with no parameters under the default parameters: no ids, limit
      100, fields `*`, offset 0. */
  lemma ParseBasic(e: EntityType, converters: Converters)
    ensures var r := ParseRequestSpec(e, converters, PathSegment("-", []), map[], DefaultQueryParams);
      r.Ok? && r.value.ids.None? && r.value.limit == Some(100) &&
      r.value.fields == Some(["*"]) && r.value.offset == 0
  {
    assert !HasIdPath("-") by { assert "-"[..1] == "-"; }
  }

  /** Ids are present exactly when the path names them, as one value per
      comma-separated piece, in order and with duplicates. */
  lemma IdsFromPath(e: EntityType, converters: Converters, segment: PathSegment, m: QueryParameters, p: QueryParams)
    requires ParseRequestSpec(e, converters, segment, m, p).Ok?
    ensures var v := ParseRequestSpec(e, converters, segment, m, p).value;
      (v.ids.Some? <==> HasIdPath(segment.path)) &&
      (v.ids.Some? ==>
        var pieces := Split(segment.path, ',');
        |v.ids.value| == |pieces| &&
        forall i :: 0 <= i < |pieces| ==> GetValue(converters, pieces[i], e.idClazz) == Ok(v.ids.value[i]))
  {
    var v1 := ApplyQueryParameters(m).value;
    ApplyMatrixIds(v1, e, converters, segment.matrix);
    var v2 := ApplyMatrix(v1, e, converters, segment.matrix).value;
    ApplyIdsPieces(v2, e, converters, segment.path);
    var v3 := ApplyIds(v2, e, converters, segment.path).value;
    assert QuerySpec.Build(v3, p).ids == v3.ids;
  }

  lemma ApplyIdsPieces(v: QueryView, e: EntityType, converters: Converters, path: string)
    requires v.ids.None? && ApplyIds(v, e, converters, path).Ok?
    ensures var ids := ApplyIds(v, e, converters, path).value.ids;
      (ids.Some? <==> HasIdPath(path)) &&
      (ids.Some? ==>
        var pieces := Split(path, ',');
        |ids.value| == |pieces| &&
        forall i :: 0 <= i < |pieces| ==> GetValue(converters, pieces[i], e.idClazz) == Ok(ids.value[i]))
  {
    CoerceAllSpec(converters, Split(path, ','), e.idClazz);
  }

  /** A piece of the id list that does not coerce (an empty piece for a
      numeric id, say) makes the whole request fail. */
  lemma BadIdFails(e: EntityType, converters: Converters, segment: PathSegment, m: QueryParameters, p: QueryParams, k: nat)
    requires HasIdPath(segment.path) && k < |Split(segment.path, ',')|
    requires GetValue(converters, Split(segment.path, ',')[k], e.idClazz).Err?
    ensures ParseRequestSpec(e, converters, segment, m, p).Err?
  {
    var v1 := ApplyQueryParameters(m);
    if v1.Ok? {
      var v2 := ApplyMatrix(v1.value, e, converters, segment.matrix);
      if v2.Ok? {
        CoerceAllSpec(converters, Split(segment.path, ','), e.idClazz);
        assert CoerceAll(converters, Split(segment.path, ','), e.idClazz).Err?;
        assert ApplyIds(v2.value, e, converters, segment.path).Err?;
      }
    }
  }

  /** For a `long` id with no converter, an empty piece is refused. */
  lemma EmptyLongIdFails(converters: Converters)
    requires LongClass !in converters
    ensures GetValue(converters, "", LongClass).Err?
  {
  }

  /** A matrix key whose field is unknown, whose operator is malformed, or
      whose values do not coerce makes the whole request fail. */
  lemma BadCriterionFails(v: QueryView, e: EntityType, converters: Converters, matrix: Entries<string>, k: nat)
    requires k < |matrix| && MatrixValues(e, converters, matrix[k].0, matrix[k].1).Err?
    ensures ApplyMatrix(v, e, converters, matrix).Err?
  {
    MatrixCriteriaAt(e, converters, matrix, k);
    BadCriterionStops(v, MatrixCriteria(e, converters, matrix), k);
  }

  lemma {:induction false} BadCriterionStops(v: QueryView, cs: seq<Result<(string, seq<Value>)>>, k: nat)
    requires k < |cs| && cs[k].Err?
    ensures AddCriteria(v, cs).Err?
    decreases k
  {
    if k > 0 && cs[0].Ok? {
      var next := QuerySpec.WithCriteria(v, cs[0].value.0, Some(cs[0].value.1));
      if next.Ok? {
        assert cs[1..][k - 1] == cs[k];
        BadCriterionStops(next.value, cs[1..], k - 1);
      }
    }
  }

  /** A matrix key adds, under its normalised key, the values coerced to the
      type of its bare field name, to those already there. */
  lemma MatrixCriterion(v: QueryView, e: EntityType, converters: Converters, key: string, values: seq<string>)
    requires MatrixValues(e, converters, key, values).Ok?
    ensures var parsed := ParseQueryField(key);
      var c := MatrixValues(e, converters, key, values).value;
      parsed.Ok? && c.0 == parsed.value.fullCriteria &&
      FieldExpressionClazz(e.schema, e.entityClazz, parsed.value.fieldName).Ok? &&
      c.1 == CoerceAll(converters, SplitValues(values),
                       FieldExpressionClazz(e.schema, e.entityClazz, parsed.value.fieldName).value.0).value
    ensures var c := MatrixValues(e, converters, key, values).value;
      var r := QuerySpec.WithCriteria(v, c.0, Some(c.1));
      |SplitValues(values)| > 0 ==>
        r.Ok? && Elems(Get(r.value.criteria.value, c.0)) == Elems(CriteriaOf(v, c.0)) + Elems(c.1)
  {
    var parsed := ParseQueryField(key);
    var types := FieldExpressionClazz(e.schema, e.entityClazz, parsed.value.fieldName);
    var coerced := CoerceAll(converters, SplitValues(values), types.value.0);
    assert MatrixValues(e, converters, key, values) == Ok((parsed.value.fullCriteria, coerced.value));
    CoerceAllSpec(converters, SplitValues(values), types.value.0);
    if |SplitValues(values)| > 0 {
      WithCriteriaSpec(v, parsed.value.fullCriteria, Some(coerced.value));
    }
  }

  /** Values given as repeated matrix keys and values given as one
      comma-separated list split into the same pieces. */
  lemma {:induction false} SplitValuesJoin(parts: seq<string>)
    requires |parts| >= 1
    requires forall i :: 0 <= i < |parts| ==> ',' !in parts[i]
    ensures SplitValues(parts) == SplitOmitEmpty(Join(parts, ","), ',')
  {
    SplitJoin(parts, ',');
    SplitValuesSingles(parts);
  }

  /** Splitting comma-free values one by one keeps the non-empty ones. */
  lemma {:induction false} SplitValuesSingles(parts: seq<string>)
    requires forall i :: 0 <= i < |parts| ==> ',' !in parts[i]
    ensures SplitValues(parts) == NonEmpty(parts)
  {
    if |parts| > 0 {
      var init := parts[..|parts| - 1];
      var last := parts[|parts| - 1];
      SplitValuesSingles(init);
      assert Split(last, ',') == [last];
      NonEmptyConcat(init, [last]);
      assert parts == init + [last];
    }
  }

  lemma {:induction false} NonEmptyConcat(a: seq<string>, b: seq<string>)
    ensures NonEmpty(a + b) == NonEmpty(a) + NonEmpty(b)
  {
    if |a| > 0 {
      assert (a + b)[1..] == a[1..] + b;
      NonEmptyConcat(a[1..], b);
    } else {
      assert a + b == b;
    }
  }
}
