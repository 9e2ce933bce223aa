/** MongoBaseServiceDao: validating a ServiceQuery against the entity's
    indexes, translating it to storage filters and find options, executing it
    against an abstract storage, and the grouped execution of `groupBy`.
    MongoServiceDao's `validateQuery` and `isSafeQuery` have the same bodies,
    and its `getTotalItemsCnt` takes the same steps on the Morphia query's
    limit and offset; they are defined here once, the limit and offset of
    `TotalItemsCnt` being arguments. */
module BaseDao {
  import opened Errors
  import opened Lang
  import opened Multimaps
  import opened ReservedValues
  import opened Values
  import opened QueryUtil
  import opened QuerySpec
  import opened Queries
  import opened IndexInfo
  import opened Results

  // ---------------------------------------------------------------------------
  // Filters, sort and find options
  // ---------------------------------------------------------------------------

  datatype RangeOp = Lt | Lte | Gte | Gt

  /** A storage filter. `Condition` is a key handed to the driver as written
      (`filter("rating >=", v)`), which the driver parses itself. */
  datatype Filter =
    | Eq(field: string, value: Value)
    | Range(op: RangeOp, field: string, value: Value)
    | In(field: string, values: seq<Value>)
    | Nin(field: string, values: seq<Value>)
    | Exists(field: string)
    | ElemMatch(field: string, filters: seq<Filter>)
    | Condition(condition: string, value: Value)

  datatype Sort = Ascending(field: string) | Descending(field: string)

  /** What `toFindOptions` sets: the projection's include list, if any, the
      skip, the limit and the sort. */
  datatype FindOptions = FindOptions(projection: Option<seq<string>>, skip: Int32, limit: Int32, sort: Option<Sort>)

  /** A stored entity, as a document of named values. */
  type Doc = map<string, Value>

  /** The storage: the documents a filter list matches, in storage order.
      `count()` is the size of that, and a find returns a page of it. */
  type Storage = seq<Filter> -> seq<Doc>

  /** The page a find with `skip` and `limit` returns; a limit of 0 is no
      limit. */
  function Page(all: seq<Doc>, skip: int, limit: int): (page: seq<Doc>)
    ensures |page| == (if limit <= 0 then Max(0, |all| - Max(0, skip)) else Min(limit, Max(0, |all| - Max(0, skip))))
  {
    var from := Min(Max(0, skip), |all|);
    var to := if limit <= 0 then |all| else Min(from + limit, |all|);
    all[from..to]
  }

  function Min(a: int, b: int): int { if a <= b then a else b }
  function Max(a: int, b: int): int { if a >= b then a else b }

  // ---------------------------------------------------------------------------
  // Requested fields
  // ---------------------------------------------------------------------------

  /** The fields parameter split by the loop of `toFindOptions`: whether `*`
      was given, the included names and the excluded names without their `-`,
      each set in insertion order. */
  datatype FieldSelection = FieldSelection(all: bool, included: seq<string>, excluded: seq<string>)

  /** What the loop has collected after `fields`. */
  function Selection(fields: seq<string>): (s: FieldSelection)
    ensures Distinct(s.included) && Distinct(s.excluded)
  {
    if |fields| == 0 then FieldSelection(false, [], [])
    else
      var s := Selection(fields[..|fields| - 1]);
      SelectField(s, fields[|fields| - 1])
  }

  /** One step of the loop. */
  function SelectField(s: FieldSelection, f: string): (r: FieldSelection)
    requires Distinct(s.included) && Distinct(s.excluded)
    ensures Distinct(r.included) && Distinct(r.excluded)
  {
    if f == "*" then s.(all := true)
    else if StartsWith(f, "-") then s.(excluded := AddAll(s.excluded, [f[1..]]))
    else s.(included := AddAll(s.included, [f]))
  }

  /** The loop over the requested fields. */
  method SelectFields(fields: seq<string>) returns (s: FieldSelection)
    ensures s == Selection(fields)
  {
    s := FieldSelection(false, [], []);
    var i := 0;
    while i < |fields|
      invariant 0 <= i <= |fields|
      invariant s == Selection(fields[..i])
    {
      assert fields[..i + 1][..i] == fields[..i];
      s := SelectField(s, fields[i]);
      i := i + 1;
    }
    assert fields[..|fields|] == fields;
  }

  /** `*` is remembered, a `-x` entry excludes `x`, and every other entry is
      included. */
  lemma SelectionContents(fields: seq<string>, x: string)
    ensures Selection(fields).all <==> "*" in fields
    ensures x in Selection(fields).included <==> x in fields && x != "*" && !StartsWith(x, "-")
    ensures x in Selection(fields).excluded <==> "-" + x in fields
  {
    SelectionAll(fields);
    SelectionIncluded(fields, x);
    SelectionExcluded(fields, x);
  }

  lemma {:induction false} SelectionAll(fields: seq<string>)
    ensures Selection(fields).all <==> "*" in fields
  {
    if |fields| > 0 {
      var init := fields[..|fields| - 1];
      SelectionAll(init);
      assert fields == init + [fields[|fields| - 1]];
    }
  }

  lemma {:induction false} SelectionIncluded(fields: seq<string>, x: string)
    ensures x in Selection(fields).included <==> x in fields && x != "*" && !StartsWith(x, "-")
  {
    if |fields| > 0 {
      var init := fields[..|fields| - 1];
      var f := fields[|fields| - 1];
      var s0 := Selection(init);
      SelectionIncluded(init, x);
      assert fields == init + [f];
      assert x in fields <==> x in init || x == f;
      if f != "*" && !StartsWith(f, "-") {
        assert Elems(AddAll(s0.included, [f])) == Elems(s0.included) + {f};
        assert x in AddAll(s0.included, [f]) <==> x in Elems(AddAll(s0.included, [f]));
      }
    }
  }

  lemma {:induction false} SelectionExcluded(fields: seq<string>, x: string)
    ensures x in Selection(fields).excluded <==> "-" + x in fields
  {
    if |fields| > 0 {
      var init := fields[..|fields| - 1];
      var f := fields[|fields| - 1];
      SelectionExcluded(init, x);
      assert fields == init + [f];
      SelectFieldExcluded(Selection(init), f, x);
    }
  }

  /** One step excludes `x` exactly when it was excluded or the field is `-x`. */
  lemma SelectFieldExcluded(s: FieldSelection, f: string, x: string)
    requires Distinct(s.included) && Distinct(s.excluded)
    ensures x in SelectField(s, f).excluded <==> x in s.excluded || "-" + x == f
  {
    var y := "-" + x;
    assert y[0] == '-';
    if f == "*" {
      assert f[0] == '*';
    } else if StartsWith(f, "-") {
      assert f == "-" + f[1..];
      assert y == f <==> x == f[1..];
      AddOneContains(s.excluded, f[1..], x);
    } else {
      assert y[..1] == "-";
    }
  }

  lemma AddOneContains(xs: seq<string>, v: string, x: string)
    ensures x in AddAll(xs, [v]) <==> x in xs || x == v
  {
    assert Elems(AddAll(xs, [v])) == Elems(xs) + {v};
    assert x in AddAll(xs, [v]) <==> x in Elems(AddAll(xs, [v]));
  }

  /** The projection `toFindOptions` asks for: a mix of included and excluded
      names is refused; otherwise the included names, or, when there are none,
      the excluded names, are passed to `include`, and with `*` only excluded
      names are passed, also to `include`. */
  function Projection(s: FieldSelection): (r: Result<Option<seq<string>>>)
    ensures r.Err? <==> s.included != [] && s.excluded != []
    ensures r.Err? ==> r.failure == RestDsl(QueryError)
  {
    if s.excluded != [] && s.included != [] then Raise(QueryError)
    else if !s.all then Ok(Some(if s.included != [] then s.included else s.excluded))
    else if s.excluded != [] then Ok(Some(s.excluded))
    else Ok(None)
  }

  /** Asking only for exclusions hands the excluded names to `include`, with
      or without `*`. */
  lemma ExclusionsAreIncluded(fields: seq<string>)
    requires Selection(fields).included == [] && Selection(fields).excluded != []
    ensures Projection(Selection(fields)) == Ok(Some(Selection(fields).excluded))
  {
  }

  /** `parseSortString`: a leading `-` sorts descending on the rest. */
  function ParseSortString(sortString: string): (r: Sort)
    ensures StartsWith(sortString, "-") <==> r.Descending?
  {
    if StartsWith(sortString, "-") then Descending(sortString[1..]) else Ascending(sortString)
  }

  /** The text of a sort on a field that does not itself start with `-`. */
  function SortText(s: Sort): string
  {
    match s
    case Ascending(f) => f
    case Descending(f) => "-" + f
  }

  /** Parsing the order text gives back the sort it spells. */
  lemma SortRoundTrip(s: Sort)
    requires !StartsWith(s.field, "-")
    ensures ParseSortString(SortText(s)) == s
  {
    if s.Descending? {
      assert ("-" + s.field)[1..] == s.field;
    }
  }

  /** `toFindOptions`: the projection, then skip and limit (a missing limit
      dereferences null), then the sort. */
  function FindOptionsOf(v: QueryView): (r: Result<FindOptions>)
    ensures r.Ok? ==> v.limit.Some? && r.value.skip == v.offset && r.value.limit == v.limit.value
    ensures r.Ok? ==> r.value.sort == (if v.order.Some? then Some(ParseSortString(v.order.value)) else None)
  {
    var projection :- if v.fields.Some? then Projection(Selection(v.fields.value)) else Ok(None);
    if v.limit.None? then Err(NullPointer)
    else Ok(FindOptions(projection, v.offset, v.limit.value, if v.order.Some? then Some(ParseSortString(v.order.value)) else None))
  }

  // ---------------------------------------------------------------------------
  // Counting
  // ---------------------------------------------------------------------------

  /** `getTotalItemsCnt`: the total or none, computed from the page where it
      can be and by counting otherwise. `count` is what a count of the query
      returns. A page larger than the limit is an implementation error; the
      sum of offset and page size is Java `int` arithmetic. */
  function TotalItemsCnt(countTotal: bool, countOnly: bool, limit: int, offset: int, size: nat, count: nat): (r: Result<Option<int>>)
    ensures !countTotal ==> r == Ok(None)
    ensures countTotal && size > limit ==> r == Raise(DefaultType)
    ensures countTotal && size <= limit && countOnly ==> r == Ok(Some(count))
  {
    if !countTotal then Ok(None)
    else if size > limit then Raise(DefaultType)
    else if countOnly then Ok(Some(count))
    else if size == 0 && offset == 0 && limit > 0 then Ok(Some(0))
    else if size != 0 && size < limit then Ok(Some(Wrap32(offset + size)))
    else Ok(Some(count))
  }

  /** The shortcut never changes the answer: whenever the page is what the
      storage returns for the offset and a positive limit, the reported total
      is the number of matching documents. */
  lemma CountingEquivalence(all: seq<Doc>, offset: Int32, limit: Int32, countOnly: bool)
    requires 0 <= offset && 0 < limit && |all| <= IntMax
    ensures TotalItemsCnt(true, countOnly, limit, offset, |Page(all, offset, limit)|, |all|) == Ok(Some(|all|))
  {
  }

  // ---------------------------------------------------------------------------
  // Index safety and validation
  // ---------------------------------------------------------------------------

  /** Whether `isSafeQuery` looks at the indexes at all: some criteria and no
      ids. */
  predicate ShouldCheckForIndex(v: QueryView) {
    v.criteria.Some? && |v.criteria.value| > 0 && (v.ids.None? || |v.ids.value| == 0)
  }

  /** The loop of `isSafeQuery` from key `keys[0]` on: true at the first key
      whose field is an index prefix; parsing a key can throw. */
  function SafeFrom(keys: seq<string>, prefixes: seq<string>): (r: Result<bool>)
    ensures r.Err? ==> r.failure == RestDsl(ParamsError)
  {
    if |keys| == 0 then Ok(false)
    else
      var p :- ParseQueryField(keys[0]);
      if p.fieldName in prefixes then Ok(true) else SafeFrom(keys[1..], prefixes)
  }

  /** `isSafeQuery`. */
  function SafeQuery(v: QueryView, prefixes: seq<string>): (r: Result<bool>)
    ensures !ShouldCheckForIndex(v) ==> r == Ok(true)
  {
    if ShouldCheckForIndex(v) then SafeFrom(Keys(v.criteria.value), prefixes) else Ok(true)
  }

  /** Each key parses. */
  predicate AllParse(keys: seq<string>) {
    forall i :: 0 <= i < |keys| ==> ParseQueryField(keys[i]).Ok?
  }

  /** When every key parses, the loop finds a safe key exactly when some key's
      field is an index prefix. */
  lemma {:induction false} SafeFromIff(keys: seq<string>, prefixes: seq<string>)
    requires AllParse(keys)
    ensures SafeFrom(keys, prefixes) == Ok(exists i :: 0 <= i < |keys| && ParseQueryField(keys[i]).value.fieldName in prefixes)
  {
    if |keys| > 0 {
      assert AllParse(keys[1..]) by {
        forall i | 0 <= i < |keys[1..]| ensures ParseQueryField(keys[1..][i]).Ok? {
          assert keys[1..][i] == keys[i + 1];
        }
      }
      SafeFromIff(keys[1..], prefixes);
      assert ParseQueryField(keys[0]).Ok?;
      if exists i :: 0 <= i < |keys| && ParseQueryField(keys[i]).value.fieldName in prefixes {
        var i :| 0 <= i < |keys| && ParseQueryField(keys[i]).value.fieldName in prefixes;
        if i > 0 {
          assert keys[1..][i - 1] == keys[i];
        }
      }
      if exists i :: 0 <= i < |keys[1..]| && ParseQueryField(keys[1..][i]).value.fieldName in prefixes {
        var i :| 0 <= i < |keys[1..]| && ParseQueryField(keys[1..][i]).value.fieldName in prefixes;
        assert keys[1..][i] == keys[i + 1];
      }
    }
  }

  /** A query with ids, or without criteria, is safe; otherwise, when its keys
      parse, it is safe exactly when some key's field is an index prefix. */
  lemma SafeQueryCases(v: QueryView, prefixes: seq<string>)
    ensures v.ids.Some? && |v.ids.value| > 0 ==> SafeQuery(v, prefixes) == Ok(true)
    ensures v.criteria.None? || v.criteria.value == [] ==> SafeQuery(v, prefixes) == Ok(true)
    ensures ShouldCheckForIndex(v) && AllParse(Keys(v.criteria.value)) ==>
      var keys := Keys(v.criteria.value);
      SafeQuery(v, prefixes) == Ok(exists i :: 0 <= i < |keys| && ParseQueryField(keys[i]).value.fieldName in prefixes)
  {
    if ShouldCheckForIndex(v) && AllParse(Keys(v.criteria.value)) {
      SafeFromIff(Keys(v.criteria.value), prefixes);
    }
  }

  /** `validateQuery`, in the order of its checks: index safety (only when
      index validation is on), a negative limit, a groupBy outside the
      criteria keys. */
  function Validate(v: QueryView, prefixes: seq<string>): (r: Outcome)
    ensures r.Fail? ==> r.failure in {RestDsl(QueryError), RestDsl(ParamsError), NullPointer}
  {
    var safe := if v.indexValidation then SafeQuery(v, prefixes) else Ok(true);
    if safe.Err? then Fail(safe.failure)
    else if !safe.value then Fail(RestDsl(QueryError))
    else if v.limit.None? then Fail(NullPointer)
    else if v.limit.value < 0 then Fail(RestDsl(QueryError))
    else if v.groupBy.Some? && (v.criteria.None? || !ContainsKey(v.criteria.value, v.groupBy.value)) then Fail(RestDsl(QueryError))
    else Pass
  }

  /** The checks that do not depend on the indexes. */
  predicate ShapeValid(v: QueryView) {
    && v.limit.Some? && v.limit.value >= 0
    && (v.groupBy.Some? ==> v.criteria.Some? && ContainsKey(v.criteria.value, v.groupBy.value))
  }

  /** Index validation guards exactly the safety check: without it a query
      passes iff its limit and groupBy are valid, and with it a query passes
      iff it is also safe. */
  lemma ValidateCases(v: QueryView, prefixes: seq<string>)
    ensures !v.indexValidation ==> (Validate(v, prefixes).Pass? <==> ShapeValid(v))
    ensures v.indexValidation ==> (Validate(v, prefixes).Pass? <==> SafeQuery(v, prefixes) == Ok(true) && ShapeValid(v))
    ensures v.indexValidation && SafeQuery(v, prefixes) == Ok(false) ==> Validate(v, prefixes) == Fail(RestDsl(QueryError))
  {
  }

  // ---------------------------------------------------------------------------
  // Criteria to filters
  // ---------------------------------------------------------------------------

  /** Whether a key carries a comparison, by the characters `>` or `<`. */
  predicate HasComparison(field: string) {
    '>' in field || '<' in field
  }

  /** The range filter of a comparison symbol, or nothing for `<>` and any
      other text. */
  function RangeFilter(op: string, name: string, val: Value): (r: seq<Filter>)
    ensures |r| <= 1
  {
    if op == "<" then [Range(Lt, name, val)]
    else if op == "<=" then [Range(Lte, name, val)]
    else if op == ">=" then [Range(Gte, name, val)]
    else if op == ">" then [Range(Gt, name, val)]
    else []
  }

  /** The filter of a single reserved value: `$exists` tests existence,
      `$null` equality with null, and `$any` constrains nothing. */
  function ReservedFilter(field: string, r: Reserved): (f: seq<Filter>)
  {
    match r
    case Exists => [Filter.Exists(field)]
    case Null => [Eq(field, VNull)]
    case Any => []
  }

  /** `prepareFilters`: the filters a criteria key and its values add. */
  function PrepareFilters(field: string, criteria: seq<Value>): (r: Result<seq<Filter>>)
    ensures r.Err? ==> r.failure in {IllegalArgument, RestDsl(ParamsError)}
    ensures r.Ok? ==> |r.value| <= 1
  {
    if |criteria| == 1 then
      var val := criteria[0];
      if HasComparison(field) then
        var parts := JavaSplitSpace(Trim(field));
        if |parts| < 2 then Err(IllegalArgument)
        else Ok(RangeFilter(parts[1], parts[0], val))
      else if val.VReserved? then Ok(ReservedFilter(field, val.r))
      else Ok([Eq(field, val)])
    else if ContainsPair(field, '<', '>') then
      var p :- ParseQueryField(field);
      Ok([Nin(p.fieldName, criteria)])
    else Ok([In(field, criteria)])
  }

  /** A comparison symbol: no spaces, not empty, starting with `<` or `>`. */
  predicate IsComparisonSymbol(op: string) {
    op in {"<", "<=", ">=", ">", "<>"}
  }

  /** `x op`, trimmed and split at spaces, is `[x, op]`. */
  lemma SplitComparisonKey(x: string, op: string)
    requires x != [] && ' ' !in x && !IsTrimmed(x[0])
    requires IsComparisonSymbol(op)
    ensures JavaSplitSpace(Trim(x + " " + op)) == [x, op]
  {
    ComparisonSymbolShape(op);
    var key := x + " " + op;
    assert key[|key| - 1] == op[|op| - 1];
    assert key[0] == x[0];
    assert Trim(key) == key;
    SplitTwo(x, ' ', op);
    SplitSpaceNoTrailing(key);
  }

  /** A comparison symbol is not empty and has no space or control character. */
  lemma ComparisonSymbolShape(op: string)
    requires IsComparisonSymbol(op)
    ensures op != [] && ' ' !in op && !IsTrimmed(op[|op| - 1])
  {
  }

  /** A normalised comparison key `x op` with one value gives the range filter
      on `x`; for `x <>` it gives no filter at all. */
  lemma ComparisonFilter(x: string, op: string, val: Value)
    requires x != [] && ' ' !in x && !IsTrimmed(x[0])
    requires IsComparisonSymbol(op)
    ensures PrepareFilters(x + " " + op, [val]) == Ok(RangeFilter(op, x, val))
    ensures op == "<>" ==> PrepareFilters(x + " " + op, [val]) == Ok([])
  {
    var key := x + " " + op;
    SplitComparisonKey(x, op);
    assert HasComparison(key) by {
      assert key[|x| + 1] == op[0];
    }
  }

  /** A comparison key with no space in it is refused. */
  lemma ComparisonWithoutSpace(field: string, val: Value)
    requires HasComparison(field) && ' ' !in Trim(field)
    ensures PrepareFilters(field, [val]) == Err(IllegalArgument)
  {
  }

  /** A single `$null` and a single Java null give the same filter. */
  lemma NullFiltersAgree(field: string)
    requires !HasComparison(field)
    ensures PrepareFilters(field, [VReserved(Null)]) == PrepareFilters(field, [VNull]) == Ok([Eq(field, VNull)])
  {
  }

  /** Several values: `<>` keys exclude them on the bare field, every other
      key, comparisons included, matches any of them on the key as written. */
  lemma MultiValueFilters(field: string, criteria: seq<Value>)
    requires |criteria| != 1
    ensures ContainsPair(field, '<', '>') && ParseQueryField(field).Ok? ==>
      PrepareFilters(field, criteria) == Ok([Nin(ParseQueryField(field).value.fieldName, criteria)])
    ensures !ContainsPair(field, '<', '>') ==> PrepareFilters(field, criteria) == Ok([In(field, criteria)])
  {
  }

  // ---------------------------------------------------------------------------
  // Translating a query
  // ---------------------------------------------------------------------------

  /** The id filter: equality for one id, membership for several. */
  function IdFilters(idField: string, ids: Option<seq<Value>>): (r: seq<Filter>)
    ensures ids.None? ==> r == []
    ensures ids.Some? && |ids.value| == 1 ==> r == [Eq(idField, ids.value[0])]
    ensures ids.Some? && |ids.value| != 1 ==> r == [In(idField, ids.value)]
  {
    if ids.None? then []
    else if |ids.value| == 1 then [Eq(idField, ids.value[0])]
    else [In(idField, ids.value)]
  }

  /** The sync-match roots a key lies under, in sync-match order. */
  function RootsOf(k: string, syncMatch: seq<string>): (roots: seq<string>)
  {
    if |syncMatch| == 0 then []
    else
      var sm := syncMatch[|syncMatch| - 1];
      RootsOf(k, syncMatch[..|syncMatch| - 1]) + (if StartsWith(k, sm + ".") then [sm] else [])
  }

  /** A root is among a key's roots iff it is a sync-match root the key
      starts with, followed by a dot. */
  lemma {:induction false} RootsOfMembers(k: string, syncMatch: seq<string>)
    ensures forall sm :: sm in RootsOf(k, syncMatch) <==> sm in syncMatch && StartsWith(k, sm + ".")
  {
    if |syncMatch| > 0 {
      var sm := syncMatch[|syncMatch| - 1];
      var init := syncMatch[..|syncMatch| - 1];
      assert syncMatch == init + [sm];
      RootsOfMembers(k, init);
    }
  }

  /** The inner loop of the key loop: the key recorded under each of its
      roots. */
  function PutUnderRoots(groups: Entries<string>, roots: seq<string>, k: string): (r: Entries<string>)
  {
    if |roots| == 0 then groups
    else PutAll(PutUnderRoots(groups, roots[..|roots| - 1], k), roots[|roots| - 1], [k])
  }

  /** The key loop of `convertToMorphiaQuery` over `keys`: the filters of the
      keys under no sync-match root, and the other keys grouped by root. */
  function KeyLoop(criteria: Entries<Value>, keys: seq<string>, syncMatch: seq<string>): (r: Result<(seq<Filter>, Entries<string>)>)
    ensures r.Err? ==> r.failure in {IllegalArgument, RestDsl(ParamsError)}
  {
    if |keys| == 0 then Ok(([], []))
    else
      var acc :- KeyLoop(criteria, keys[..|keys| - 1], syncMatch);
      var k := keys[|keys| - 1];
      var roots := RootsOf(k, syncMatch);
      if |roots| > 0 then Ok((acc.0, PutUnderRoots(acc.1, roots, k)))
      else
        var f :- PrepareFilters(k, Get(criteria, k));
        Ok((acc.0 + f, acc.1))
  }

  /** `criteriaKey.substring(root.length() + 1)`. */
  function SubKey(criteriaKey: string, root: string): (r: Result<string>)
    ensures StartsWith(criteriaKey, root + ".") ==> r == Ok(criteriaKey[|root| + 1..])
  {
    if |root| + 1 <= |criteriaKey| then Ok(criteriaKey[|root| + 1..]) else Err(IndexOutOfBounds)
  }

  /** The filters inside one element match: each grouped key's filters, the
      root and its dot stripped from the key. */
  function SubFilters(criteria: Entries<Value>, root: string, keys: seq<string>): (r: Result<seq<Filter>>)
  {
    if |keys| == 0 then Ok([])
    else
      var acc :- SubFilters(criteria, root, keys[..|keys| - 1]);
      var ck := keys[|keys| - 1];
      var sub :- SubKey(ck, root);
      var f :- PrepareFilters(sub, Get(criteria, ck));
      Ok(acc + f)
  }

  /** The group loop: one element match per root. */
  function GroupLoop(criteria: Entries<Value>, groups: Entries<string>): (r: Result<seq<Filter>>)
    ensures r.Ok? ==> |r.value| == |groups|
    ensures r.Ok? ==> forall i :: 0 <= i < |groups| ==> r.value[i].ElemMatch? && r.value[i].field == groups[i].0
  {
    if |groups| == 0 then Ok([])
    else
      var acc :- GroupLoop(criteria, groups[..|groups| - 1]);
      var g := groups[|groups| - 1];
      var sub :- SubFilters(criteria, g.0, g.1);
      Ok(acc + [ElemMatch(g.0, sub)])
  }

  /** The sync-match roots of a query; none when it has none. */
  function SyncMatchOf(v: QueryView): seq<string>
  {
    if v.syncMatch.Some? then v.syncMatch.value else []
  }

  /** `convertToMorphiaQuery`: validation, then the id filter, the top-level
      criteria filters and the element matches, in that order. */
  function Translate(v: QueryView, prefixes: seq<string>, idField: string): (r: Result<seq<Filter>>)
    ensures Validate(v, prefixes).Fail? ==> r == Err(Validate(v, prefixes).failure)
    ensures r.Ok? ==> |IdFilters(idField, v.ids)| <= |r.value| && r.value[..|IdFilters(idField, v.ids)|] == IdFilters(idField, v.ids)
  {
    var valid := Validate(v, prefixes);
    if valid.Fail? then Err(valid.failure)
    else
      var idf := IdFilters(idField, v.ids);
      if v.criteria.None? then Ok(idf)
      else
        var kl :- KeyLoop(v.criteria.value, Keys(v.criteria.value), SyncMatchOf(v));
        var em :- GroupLoop(v.criteria.value, kl.1);
        assert (idf + kl.0 + em)[..|idf|] == idf;
        Ok(idf + kl.0 + em)
  }

  /** The keys under no sync-match root, in order. */
  function TopKeys(keys: seq<string>, syncMatch: seq<string>): (r: seq<string>)
  {
    if |keys| == 0 then []
    else
      var k := keys[|keys| - 1];
      TopKeys(keys[..|keys| - 1], syncMatch) + (if RootsOf(k, syncMatch) == [] then [k] else [])
  }

  /** The top-level keys are exactly the keys under no root. */
  lemma {:induction false} TopKeysMembers(keys: seq<string>, syncMatch: seq<string>)
    ensures forall k :: k in TopKeys(keys, syncMatch) <==> k in keys && RootsOf(k, syncMatch) == []
  {
    if |keys| > 0 {
      var k := keys[|keys| - 1];
      assert keys == keys[..|keys| - 1] + [k];
      TopKeysMembers(keys[..|keys| - 1], syncMatch);
    }
  }

  /** The filters of keys taken one by one. */
  function AllFilters(criteria: Entries<Value>, keys: seq<string>): (r: Result<seq<Filter>>)
  {
    if |keys| == 0 then Ok([])
    else
      var acc :- AllFilters(criteria, keys[..|keys| - 1]);
      var f :- PrepareFilters(keys[|keys| - 1], Get(criteria, keys[|keys| - 1]));
      Ok(acc + f)
  }

  /** The key loop keeps at top level exactly the filters of the keys under no
      root. */
  lemma {:induction false} KeyLoopTop(criteria: Entries<Value>, keys: seq<string>, syncMatch: seq<string>)
    requires KeyLoop(criteria, keys, syncMatch).Ok?
    ensures AllFilters(criteria, TopKeys(keys, syncMatch)) == Ok(KeyLoop(criteria, keys, syncMatch).value.0)
  {
    if |keys| > 0 {
      var init := keys[..|keys| - 1];
      var k := keys[|keys| - 1];
      var topInit := TopKeys(init, syncMatch);
      var top := TopKeys(keys, syncMatch);
      var acc := KeyLoop(criteria, init, syncMatch);
      assert acc.Ok?;
      if RootsOf(k, syncMatch) == [] {
        assert top == topInit + [k];
        assert top[..|top| - 1] == topInit;
        assert top[|top| - 1] == k;
        KeyLoopTop(criteria, init, syncMatch);
        var f := PrepareFilters(k, Get(criteria, k));
        assert f.Ok?;
        assert KeyLoop(criteria, keys, syncMatch).value.0 == acc.value.0 + f.value;
        assert AllFilters(criteria, top) == Ok(AllFilters(criteria, topInit).value + f.value);
      } else {
        assert top == topInit;
        KeyLoopTop(criteria, init, syncMatch);
        assert KeyLoop(criteria, keys, syncMatch).value.0 == acc.value.0;
      }
    }
  }

  /** The groups the key loop forms: each key recorded under its roots. They
      do not depend on the criteria values. */
  function KeyGroups(keys: seq<string>, syncMatch: seq<string>): Entries<string>
  {
    if |keys| == 0 then []
    else
      var k := keys[|keys| - 1];
      var acc := KeyGroups(keys[..|keys| - 1], syncMatch);
      var roots := RootsOf(k, syncMatch);
      if |roots| > 0 then PutUnderRoots(acc, roots, k) else acc
  }

  /** A successful key loop forms exactly those groups. */
  lemma {:induction false} KeyLoopIsGroups(criteria: Entries<Value>, keys: seq<string>, syncMatch: seq<string>)
    requires KeyLoop(criteria, keys, syncMatch).Ok?
    ensures KeyLoop(criteria, keys, syncMatch).value.1 == KeyGroups(keys, syncMatch)
  {
    if |keys| > 0 {
      KeyLoopIsGroups(criteria, keys[..|keys| - 1], syncMatch);
    }
  }

  /** A key is grouped under a root exactly when it lies under that root. */
  lemma {:induction false} KeyGroupsMembers(keys: seq<string>, syncMatch: seq<string>, sm: string, ck: string)
    ensures ck in Get(KeyGroups(keys, syncMatch), sm) <==> ck in keys && sm in syncMatch && StartsWith(ck, sm + ".")
  {
    if |keys| > 0 {
      var init := keys[..|keys| - 1];
      var k := keys[|keys| - 1];
      KeyGroupsMembers(init, syncMatch, sm, ck);
      var roots := RootsOf(k, syncMatch);
      RootsOfMembers(k, syncMatch);
      assert ck in keys <==> ck in init || ck == k by {
        assert keys == init + [k];
      }
      if |roots| > 0 {
        PutUnderRootsGet(KeyGroups(init, syncMatch), roots, k, sm, ck);
      }
    }
  }

  /** The key loop groups a key under a root exactly when it lies under that
      root. */
  lemma KeyLoopGroups(criteria: Entries<Value>, keys: seq<string>, syncMatch: seq<string>, sm: string, ck: string)
    requires KeyLoop(criteria, keys, syncMatch).Ok?
    ensures ck in Get(KeyLoop(criteria, keys, syncMatch).value.1, sm) <==> ck in keys && sm in syncMatch && StartsWith(ck, sm + ".")
  {
    KeyLoopIsGroups(criteria, keys, syncMatch);
    KeyGroupsMembers(keys, syncMatch, sm, ck);
  }

  /** Recording one key under a root adds it to the keys of that root. */
  lemma PutAllOneIn(g: Entries<string>, sm: string, k: string, ck: string)
    ensures ck in Get(PutAll(g, sm, [k]), sm) <==> ck in Get(g, sm) || ck == k
  {
    var before := Get(g, sm);
    var after := Get(PutAll(g, sm, [k]), sm);
    PutAllGet(g, sm, [k], sm);
    assert Elems([k]) == {k};
    assert ck in after <==> ck in Elems(after);
    assert ck in before <==> ck in Elems(before);
  }

  /** Recording a key under its roots adds it to exactly those roots. */
  lemma {:induction false} PutUnderRootsGet(groups: Entries<string>, roots: seq<string>, k: string, sm: string, ck: string)
    ensures ck in Get(PutUnderRoots(groups, roots, k), sm) <==> ck in Get(groups, sm) || (ck == k && sm in roots)
  {
    if |roots| > 0 {
      var init := roots[..|roots| - 1];
      var last := roots[|roots| - 1];
      assert roots == init + [last];
      PutUnderRootsGet(groups, init, k, sm, ck);
      var g := PutUnderRoots(groups, init, k);
      var g2 := PutAll(g, last, [k]);
      assert PutUnderRoots(groups, roots, k) == g2;
      if sm == last {
        PutAllOneIn(g, sm, k, ck);
      } else {
        PutAllGet(g, last, [k], sm);
      }
    }
  }

  /** Without sync-match roots every key's filters are added at top level and
      there are no element matches. */
  lemma NoSyncMatch(v: QueryView, prefixes: seq<string>, idField: string)
    requires Validate(v, prefixes).Pass? && v.criteria.Some? && v.syncMatch.None?
    requires KeyLoop(v.criteria.value, Keys(v.criteria.value), []).Ok?
    ensures AllFilters(v.criteria.value, Keys(v.criteria.value)).Ok?
    ensures Translate(v, prefixes, idField) == Ok(IdFilters(idField, v.ids) + AllFilters(v.criteria.value, Keys(v.criteria.value)).value)
  {
    var criteria := v.criteria.value;
    var keys := Keys(criteria);
    assert SyncMatchOf(v) == [];
    var kl := KeyLoop(criteria, keys, []).value;
    KeyLoopTop(criteria, keys, []);
    TopKeysWithoutRoots(keys);
    assert AllFilters(criteria, keys) == Ok(kl.0);
    NoGroups(criteria, keys);
    assert GroupLoop(criteria, kl.1) == Ok([]);
    var idf := IdFilters(idField, v.ids);
    assert idf + kl.0 + [] == idf + kl.0;
    assert Translate(v, prefixes, idField) == Ok(idf + kl.0 + []);
  }

  /** Without roots the key loop forms no groups. */
  lemma NoGroups(criteria: Entries<Value>, keys: seq<string>)
    requires KeyLoop(criteria, keys, []).Ok?
    ensures KeyLoop(criteria, keys, []).value.1 == []
  {
    var groups := KeyLoop(criteria, keys, []).value.1;
    GroupsNonEmpty(criteria, keys, []);
    if groups != [] {
      var sm := groups[0].0;
      assert Get(groups, sm) == groups[0].1;
      var ck := groups[0].1[0];
      KeyLoopGroups(criteria, keys, [], sm, ck);
      assert false;
    }
  }

  /** With no roots every key is a top-level key. */
  lemma {:induction false} TopKeysWithoutRoots(keys: seq<string>)
    ensures TopKeys(keys, []) == keys
  {
    if |keys| > 0 {
      TopKeysWithoutRoots(keys[..|keys| - 1]);
      assert keys == keys[..|keys| - 1] + [keys[|keys| - 1]];
    }
  }

  /** The groups of the key loop are a set multimap: no root without keys. */
  lemma {:induction false} GroupsNonEmpty(criteria: Entries<Value>, keys: seq<string>, syncMatch: seq<string>)
    requires KeyLoop(criteria, keys, syncMatch).Ok?
    ensures SetValid(KeyLoop(criteria, keys, syncMatch).value.1)
  {
    if |keys| > 0 {
      var init := keys[..|keys| - 1];
      GroupsNonEmpty(criteria, init, syncMatch);
      var acc := KeyLoop(criteria, init, syncMatch).value;
      PutUnderRootsValid(acc.1, RootsOf(keys[|keys| - 1], syncMatch), keys[|keys| - 1]);
    }
  }

  lemma {:induction false} PutUnderRootsValid(groups: Entries<string>, roots: seq<string>, k: string)
    requires SetValid(groups)
    ensures SetValid(PutUnderRoots(groups, roots, k))
  {
    if |roots| > 0 {
      PutUnderRootsValid(groups, roots[..|roots| - 1], k);
      PutAllValid(PutUnderRoots(groups, roots[..|roots| - 1], k), roots[|roots| - 1], [k]);
    }
  }

  // ---------------------------------------------------------------------------
  // Executing a query
  // ---------------------------------------------------------------------------

  /** The ungrouped branch of `get`: no documents are fetched for a count-only
      query; otherwise the page the find options describe, with its total.
      `toFindOptions` copies the query's offset and limit into `fo`. */
  function ListFor(v: QueryView, q: seq<Filter>, fo: FindOptions, store: Storage): (r: Result<EntityList<Doc>>)
  {
    var results := if v.countOnly then [] else Page(store(q), fo.skip, fo.limit);
    var total :- TotalItemsCnt(v.countTotalItems, v.countOnly, fo.limit, fo.skip, |results|, |store(q)|);
    Ok(EntityList(results, total))
  }

  /** `removeAll(groupBy)` followed by `put(groupBy, k)`. */
  function Regroup(criteria: Entries<Value>, g: string, k: Value): Entries<Value>
  {
    PutAll(RemoveAll(criteria, g), g, [k])
  }

  /** The criteria after the grouping loop has written the value `last`, if
      any, into the original criteria. */
  function CriteriaAfter(criteria: Entries<Value>, g: string, last: Option<Value>): Entries<Value>
  {
    if last.Some? then Regroup(criteria, g, last.value) else criteria
  }

  /** The query the grouping loop runs for the value `k`. */
  function GroupQuery(v: QueryView, g: string, k: Value): QueryView
    requires v.criteria.Some?
  {
    v.(criteria := Some(Regroup(v.criteria.value, g, k)))
  }

  /** The sub-result of one grouping value: the query translated again, then
      fetched and counted. */
  function SubResult(v: QueryView, prefixes: seq<string>, idField: string, fo: FindOptions, store: Storage): (r: Result<EntityList<Doc>>)
  {
    var q :- Translate(v, prefixes, idField);
    ListFor(v, q, fo, store)
  }

  /** `HashMap.put`: replaces the entry of a present key, appends otherwise. */
  function MapPut<K(==), T>(items: seq<(K, T)>, k: K, e: T): (r: seq<(K, T)>)
    ensures k !in KeysOf(items) ==> r == items + [(k, e)]
  {
    if |items| == 0 then [(k, e)]
    else if items[0].0 == k then [(k, e)] + items[1..]
    else
      assert KeysOf(items[1..]) == KeysOf(items)[1..];
      assert items == [items[0]] + items[1..];
      [items[0]] + MapPut(items[1..], k, e)
  }

  /** The sub-result of each grouping value. */
  function SubResults(v: QueryView, g: string, prefixes: seq<string>, idField: string, fo: FindOptions, store: Storage): Value -> Result<EntityList<Doc>>
    requires v.criteria.Some?
  {
    k => SubResult(GroupQuery(v, g, k), prefixes, idField, fo, store)
  }

  lemma SubResultsApply(v: QueryView, g: string, prefixes: seq<string>, idField: string, fo: FindOptions, store: Storage, k: Value)
    requires v.criteria.Some?
    ensures SubResults(v, g, prefixes, idField, fo, store)(k) == SubResult(GroupQuery(v, g, k), prefixes, idField, fo, store)
  {
  }

  /** The grouping loop over the values `ks`: the sub-results so far, stopped
      by the first failure, and the last value written into the criteria. */
  function GroupedFor(ks: seq<Value>, sub: Value -> Result<EntityList<Doc>>): (r: (Result<seq<(Value, EntityList<Doc>)>>, Option<Value>))
    ensures |ks| > 0 ==> r.1 != None
    ensures r.0.Ok? && |ks| > 0 ==> r.1 == Some(ks[|ks| - 1])
  {
    if |ks| == 0 then (Ok([]), None)
    else
      var acc := GroupedFor(ks[..|ks| - 1], sub);
      if acc.0.Err? then acc
      else
        var k := ks[|ks| - 1];
        var l := sub(k);
        if l.Err? then (Err(l.failure), Some(k))
        else (Ok(MapPut(acc.0.value, k, l.value)), Some(k))
  }

  /** An `in` filter on `field` that holds the criteria's live view of a key
      reads `vals`, the values the key has when the query runs. */
  function LiveIn(f: Filter, field: string, vals: seq<Value>): Filter
  {
    if f.In? && f.field == field then In(field, vals) else f
  }

  /** One filter of a query translated before the grouping loop, as `count()`
      encodes it after the loop, when the groupBy key `g` holds `vals`.
      `prepareFilters` hands `in` the live view `getCriteria().get(k)`, at top
      level for `g` itself and inside the element match of each root `g` lies
      under, for the sub-key; `eq`, range and `exists` filters took their one
      value out when they were built, and `nin` copied its values. */
  function LiveFilter(f: Filter, g: string, vals: seq<Value>): Filter
  {
    match f
    case In(_, _) => LiveIn(f, g, vals)
    case ElemMatch(root, subs) =>
      if StartsWith(g, root + ".") then
        ElemMatch(root, seq(|subs|, i requires 0 <= i < |subs| => LiveIn(subs[i], g[|root| + 1..], vals)))
      else f
    case _ => f
  }

  /** The filters `q` of a query whose first `n` are the id filters, as
      `count()` encodes them once the groupBy key `g` holds `vals`: the id
      filters are not views of the criteria and stay as they are. */
  function EncodedAtCount(q: seq<Filter>, n: nat, g: string, vals: seq<Value>): (r: seq<Filter>)
    requires n <= |q|
  {
    q[..n] + seq(|q| - n, i requires 0 <= i < |q| - n => LiveFilter(q[n + i], g, vals))
  }

  /** `get`: the result, and the query's criteria afterwards (the grouping
      loop edits them in place). The grouped total counts the query
      translated before the loop, whose `in` filters on the groupBy key read
      the values the loop left there. */
  function GetSpec(v: QueryView, prefixes: seq<string>, idField: string, allowGroupBy: bool, store: Storage): (r: (Result<Container<Value, Doc>>, Option<Entries<Value>>))
  {
    var q := Translate(v, prefixes, idField);
    if q.Err? then (Err(q.failure), v.criteria)
    else
      var fo := FindOptionsOf(v);
      if fo.Err? then (Err(fo.failure), v.criteria)
      else if v.groupBy.None? then
        var l := ListFor(v, q.value, fo.value, store);
        (if l.Ok? then Ok(ListContainer(l.value)) else Err(l.failure), v.criteria)
      else if !allowGroupBy then (Raise(QueryError), v.criteria)
      else if v.criteria.None? then (Err(NullPointer), v.criteria)
      else
        var g := v.groupBy.value;
        var grouped := GroupedFor(Get(v.criteria.value, g), SubResults(v, g, prefixes, idField, fo.value, store));
        var criteria := Some(CriteriaAfter(v.criteria.value, g, grouped.1));
        if grouped.0.Err? then (Err(grouped.0.failure), criteria)
        else
          var counted := EncodedAtCount(q.value, |IdFilters(idField, v.ids)|, g, Get(criteria.value, g));
          var total := if v.countTotalItems then Some(|store(counted)|) else None;
          (Ok(MultimapContainer(EntityMultimap(grouped.0.value, total))), criteria)
  }

  /** After `put(g, k)` on criteria without `g`, the key `g` holds exactly
      `k`, at the end, and every other key is untouched. */
  lemma RegroupShape(criteria: Entries<Value>, g: string, k: Value)
    ensures Regroup(criteria, g, k) == RemoveAll(criteria, g) + [(g, [k])]
  {
    RemoveAllGet(criteria, g, g);
    PutAllAbsent(RemoveAll(criteria, g), g, [k]);
    assert AddAll([], [k]) == AddAll([k], []);
  }

  /** Grouping writes exactly one value under the groupBy key and keeps the
      values of every other key. */
  lemma RegroupGet(criteria: Entries<Value>, g: string, k: Value, j: string)
    ensures Get(Regroup(criteria, g, k), g) == [k]
    ensures j != g ==> Get(Regroup(criteria, g, k), j) == Get(criteria, j)
  {
    RegroupShape(criteria, g, k);
    RemoveAllGet(criteria, g, j);
    GetAppend(RemoveAll(criteria, g), g, [k], g);
    GetAppend(RemoveAll(criteria, g), g, [k], j);
  }

  /** Regrouping overrides an earlier regrouping on the same key, so every
      pass of the loop acts as if on the original criteria. */
  lemma RegroupTwice(criteria: Entries<Value>, g: string, k1: Value, k2: Value)
    ensures Regroup(Regroup(criteria, g, k1), g, k2) == Regroup(criteria, g, k2)
  {
    RegroupShape(criteria, g, k1);
    RemoveAllAppend(RemoveAll(criteria, g), g, [k1]);
    RemoveAllGet(criteria, g, g);
    RemoveAllAbsent(RemoveAll(criteria, g), g);
  }

  /** Without groupBy, asking for the total always yields the true number of
      matching documents, whether the shortcut or a count supplies it. */
  lemma UngroupedTotal(v: QueryView, prefixes: seq<string>, idField: string, allowGroupBy: bool, store: Storage)
    requires Translate(v, prefixes, idField).Ok? && FindOptionsOf(v).Ok? && v.groupBy.None?
    requires v.countTotalItems && 0 <= v.offset && v.limit.Some? && (v.countOnly || v.limit.value > 0)
    requires |store(Translate(v, prefixes, idField).value)| <= IntMax
    ensures var r := GetSpec(v, prefixes, idField, allowGroupBy, store).0;
      r.Ok? && r.value.ListContainer? && r.value.list.totalItems == Some(|store(Translate(v, prefixes, idField).value)|)
  {
    var q := Translate(v, prefixes, idField).value;
    var fo := FindOptionsOf(v).value;
    assert Validate(v, prefixes).Pass?;
    if !v.countOnly {
      CountingEquivalence(store(q), v.offset, v.limit.value, false);
    }
  }

  /** A dao that does not allow groupBy rejects every grouped query that
      translates, and leaves its criteria alone. */
  lemma GroupByRejected(v: QueryView, prefixes: seq<string>, idField: string, store: Storage)
    requires Translate(v, prefixes, idField).Ok? && FindOptionsOf(v).Ok? && v.groupBy.Some?
    ensures GetSpec(v, prefixes, idField, false, store) == (Raise(QueryError), v.criteria)
  {
  }

  /** A failing translation fails `get` with the same error before anything is
      fetched or edited. */
  lemma TranslationFailsGet(v: QueryView, prefixes: seq<string>, idField: string, allowGroupBy: bool, store: Storage)
    requires Translate(v, prefixes, idField).Err?
    ensures GetSpec(v, prefixes, idField, allowGroupBy, store) == (Err(Translate(v, prefixes, idField).failure), v.criteria)
  {
  }

  /** With distinct grouping values, a successful loop yields one sub-result
      per value, in order, each computed with the groupBy key bound to that
      value alone. */
  lemma {:induction false} GroupedEntries(ks: seq<Value>, sub: Value -> Result<EntityList<Doc>>)
    requires Distinct(ks)
    requires GroupedFor(ks, sub).0.Ok?
    ensures var r := GroupedFor(ks, sub).0.value;
      |r| == |ks| && forall i :: 0 <= i < |ks| ==> r[i].0 == ks[i] && sub(ks[i]) == Ok(r[i].1)
  {
    if |ks| > 0 {
      var init := ks[..|ks| - 1];
      var k := ks[|ks| - 1];
      DistinctSnoc(ks);
      GroupedStepOk(ks, sub);
      GroupedEntries(init, sub);
      var acc := GroupedFor(init, sub).0.value;
      EntriesKeyAbsent(acc, init, k);
      GroupedStep(ks, sub);
      EntriesSnoc(acc, ks, sub);
    }
  }

  /** The prefix of a sequence without duplicates has none, and lacks the
      last element. */
  lemma DistinctSnoc<T>(s: seq<T>)
    requires Distinct(s) && |s| > 0
    ensures Distinct(s[..|s| - 1]) && s[|s| - 1] !in s[..|s| - 1]
  {
  }

  /** Entries keyed by the elements of `ks` do not have a key `ks` lacks. */
  lemma EntriesKeyAbsent<K, T>(acc: seq<(K, T)>, ks: seq<K>, k: K)
    requires |acc| == |ks| && forall i :: 0 <= i < |ks| ==> acc[i].0 == ks[i]
    requires k !in ks
    ensures k !in KeysOf(acc)
  {
    var keys := KeysOf(acc);
    forall i | 0 <= i < |keys|
      ensures keys[i] != k
    {
      assert keys[i] == ks[i];
    }
  }

  /** Appending the entry of the last value extends one entry per value. */
  lemma EntriesSnoc<T>(acc: seq<(Value, T)>, ks: seq<Value>, sub: Value -> Result<T>)
    requires |ks| > 0 && |acc| == |ks| - 1
    requires forall i :: 0 <= i < |ks| - 1 ==> acc[i].0 == ks[i] && sub(ks[i]) == Ok(acc[i].1)
    requires sub(ks[|ks| - 1]).Ok?
    ensures var r := acc + [(ks[|ks| - 1], sub(ks[|ks| - 1]).value)];
      |r| == |ks| && forall i :: 0 <= i < |ks| ==> r[i].0 == ks[i] && sub(ks[i]) == Ok(r[i].1)
  {
  }

  /** A successful loop succeeded on all values but the last. */
  lemma GroupedStepOk(ks: seq<Value>, sub: Value -> Result<EntityList<Doc>>)
    requires |ks| > 0
    requires GroupedFor(ks, sub).0.Ok?
    ensures GroupedFor(ks[..|ks| - 1], sub).0.Ok?
    ensures sub(ks[|ks| - 1]).Ok?
  {
  }

  /** A successful pass for a new value appends its sub-result. */
  lemma GroupedStep(ks: seq<Value>, sub: Value -> Result<EntityList<Doc>>)
    requires |ks| > 0
    requires GroupedFor(ks, sub).0.Ok?
    requires ks[|ks| - 1] !in KeysOf(GroupedFor(ks[..|ks| - 1], sub).0.value)
    ensures GroupedFor(ks, sub).0.value ==
      GroupedFor(ks[..|ks| - 1], sub).0.value + [(ks[|ks| - 1], sub(ks[|ks| - 1]).value)]
  {
  }

  /** Each grouped query binds the groupBy key to its value alone and keeps
      every other criterion. */
  lemma GroupQueryCriteria(v: QueryView, g: string, k: Value, j: string)
    requires v.criteria.Some?
    ensures Get(GroupQuery(v, g, k).criteria.value, g) == [k]
    ensures j != g ==> Get(GroupQuery(v, g, k).criteria.value, j) == Get(v.criteria.value, j)
  {
    RegroupGet(v.criteria.value, g, k, j);
  }

  /** A successful grouped `get` leaves the query's criteria holding only the
      last grouping value under the groupBy key. */
  lemma GroupedLeavesLast(v: QueryView, prefixes: seq<string>, idField: string, store: Storage)
    requires v.groupBy.Some? && v.criteria.Some?
    requires GetSpec(v, prefixes, idField, true, store).0.Ok?
    requires |Get(v.criteria.value, v.groupBy.value)| > 0
    ensures var ks := Get(v.criteria.value, v.groupBy.value);
      var after := GetSpec(v, prefixes, idField, true, store).1;
      after.Some? && Get(after.value, v.groupBy.value) == [ks[|ks| - 1]]
  {
    var g := v.groupBy.value;
    var ks := Get(v.criteria.value, g);
    var fo := FindOptionsOf(v);
    assert Translate(v, prefixes, idField).Ok? && fo.Ok?;
    var grouped := GroupedFor(ks, SubResults(v, g, prefixes, idField, fo.value, store));
    assert grouped.0.Ok?;
    assert GetSpec(v, prefixes, idField, true, store).1 == Some(CriteriaAfter(v.criteria.value, g, grouped.1));
    RegroupGet(v.criteria.value, g, ks[|ks| - 1], g);
  }

  /** The filters as `count()` encodes them: the id filters as translated,
      every `in` filter on `g` holding `vals`, and every filter that is
      neither `in` nor an element match as translated. */
  lemma EncodedAtCountShape(q: seq<Filter>, n: nat, g: string, vals: seq<Value>)
    requires n <= |q|
    ensures var counted := EncodedAtCount(q, n, g, vals);
      && |counted| == |q| && counted[..n] == q[..n]
      && (forall i :: n <= i < |q| && q[i].In? && q[i].field == g ==> counted[i] == In(g, vals))
      && (forall i :: n <= i < |q| && !q[i].In? && !q[i].ElemMatch? ==> counted[i] == q[i])
  {
    var counted := EncodedAtCount(q, n, g, vals);
    forall i | n <= i < |q|
      ensures counted[i] == LiveFilter(q[i], g, vals)
    {
      assert counted[i] == counted[n..][i - n];
    }
  }

  /** The total of a successful grouped `get` over at least one value counts
      the query translated before the loop, as it is encoded once the groupBy
      key holds the last value alone. */
  lemma GroupedTotal(v: QueryView, prefixes: seq<string>, idField: string, store: Storage)
    requires v.groupBy.Some? && v.criteria.Some? && v.countTotalItems
    requires Translate(v, prefixes, idField).Ok?
    requires GetSpec(v, prefixes, idField, true, store).0.Ok?
    requires |Get(v.criteria.value, v.groupBy.value)| > 0
    ensures var g := v.groupBy.value;
      var ks := Get(v.criteria.value, g);
      var q := Translate(v, prefixes, idField).value;
      var r := GetSpec(v, prefixes, idField, true, store).0.value;
      && r.MultimapContainer?
      && r.multimap.totalItems == Some(|store(EncodedAtCount(q, |IdFilters(idField, v.ids)|, g, [ks[|ks| - 1]]))|)
  {
    var g := v.groupBy.value;
    var ks := Get(v.criteria.value, g);
    var fo := FindOptionsOf(v);
    assert fo.Ok?;
    var grouped := GroupedFor(ks, SubResults(v, g, prefixes, idField, fo.value, store));
    assert grouped.0.Ok?;
    assert grouped.1 == Some(ks[|ks| - 1]);
    RegroupGet(v.criteria.value, g, ks[|ks| - 1], g);
  }

  /** The filters of the keys `keys` hold the filters of each of them. */
  lemma {:induction false} AllFiltersHave(criteria: Entries<Value>, keys: seq<string>, k: string)
    requires AllFilters(criteria, keys).Ok? && k in keys
    ensures PrepareFilters(k, Get(criteria, k)).Ok?
    ensures forall f :: f in PrepareFilters(k, Get(criteria, k)).value ==> f in AllFilters(criteria, keys).value
  {
    var init := keys[..|keys| - 1];
    assert keys == init + [keys[|keys| - 1]];
    if k in init {
      AllFiltersHave(criteria, init, k);
    }
  }

  /** Without sync-match roots, a groupBy key with several values that is no
      `<>` key is translated to `in` over all of them, which `count()`
      encodes after the grouping loop holding the last value alone: with
      groupBy `g` and criteria `g` in {a, b}, `GroupedTotal` counts `g` = b. */
  lemma GroupedTotalCountsLast(v: QueryView, prefixes: seq<string>, idField: string)
    requires v.groupBy.Some? && v.criteria.Some? && v.syncMatch.None?
    requires Translate(v, prefixes, idField).Ok?
    requires |Get(v.criteria.value, v.groupBy.value)| >= 2 && !ContainsPair(v.groupBy.value, '<', '>')
    ensures var g := v.groupBy.value;
      var ks := Get(v.criteria.value, g);
      var q := Translate(v, prefixes, idField).value;
      var n := |IdFilters(idField, v.ids)|;
      var counted := EncodedAtCount(q, n, g, [ks[|ks| - 1]]);
      exists i :: n <= i < |q| && q[i] == In(g, ks) && counted[i] == In(g, [ks[|ks| - 1]]) && counted[i] != q[i]
  {
    var g := v.groupBy.value;
    var criteria := v.criteria.value;
    var ks := Get(criteria, g);
    var keys := Keys(criteria);
    var q := Translate(v, prefixes, idField).value;
    var idf := IdFilters(idField, v.ids);
    TranslateWithoutRoots(v, prefixes, idField);
    var all := AllFilters(criteria, keys).value;
    assert g in keys;
    MultiValueFilters(g, ks);
    AllFiltersHave(criteria, keys, g);
    assert In(g, ks) in all;
    var j :| 0 <= j < |all| && all[j] == In(g, ks);
    var i := |idf| + j;
    assert q[i] == In(g, ks);
    EncodedAtCountShape(q, |idf|, g, [ks[|ks| - 1]]);
    assert [ks[|ks| - 1]] != ks;
  }

  /** A query without sync-match roots that translates is translated to its
      id filters followed by every key's filters. */
  lemma TranslateWithoutRoots(v: QueryView, prefixes: seq<string>, idField: string)
    requires v.criteria.Some? && v.syncMatch.None?
    requires Translate(v, prefixes, idField).Ok?
    ensures AllFilters(v.criteria.value, Keys(v.criteria.value)).Ok?
    ensures Translate(v, prefixes, idField).value == IdFilters(idField, v.ids) + AllFilters(v.criteria.value, Keys(v.criteria.value)).value
  {
    assert SyncMatchOf(v) == [];
    assert Validate(v, prefixes).Pass?;
    assert KeyLoop(v.criteria.value, Keys(v.criteria.value), []).Ok?;
    NoSyncMatch(v, prefixes, idField);
  }

  /** A failure for a prefix of the grouping values ends the loop there. */
  lemma {:induction false} GroupedForErr(ks: seq<Value>, sub: Value -> Result<EntityList<Doc>>, n: nat)
    requires n <= |ks| && GroupedFor(ks[..n], sub).0.Err?
    ensures GroupedFor(ks, sub) == GroupedFor(ks[..n], sub)
    decreases |ks| - n
  {
    if n < |ks| {
      var init := ks[..|ks| - 1];
      assert init[..n] == ks[..n];
      GroupedForErr(init, sub, n);
    } else {
      assert ks[..n] == ks;
    }
  }

  /** One more pass of the grouping loop. */
  lemma GroupedForSnoc(ks: seq<Value>, sub: Value -> Result<EntityList<Doc>>, i: nat)
    requires i < |ks| && GroupedFor(ks[..i], sub).0.Ok?
    ensures var l := sub(ks[i]);
      var acc := GroupedFor(ks[..i], sub).0.value;
      GroupedFor(ks[..i + 1], sub) ==
        if l.Err? then (Err(l.failure), Some(ks[i])) else (Ok(MapPut(acc, ks[i], l.value)), Some(ks[i]))
  {
    assert ks[..i + 1][..i] == ks[..i];
  }

  /** One pass of the grouping loop: a failing sub-result ends the whole
      grouping with that failure, a successful one extends the prefix. */
  lemma GroupedForStep(ks: seq<Value>, sub: Value -> Result<EntityList<Doc>>, i: nat,
                       grouped: seq<(Value, EntityList<Doc>)>, last: Option<Value>, l: Result<EntityList<Doc>>)
    requires i < |ks| && GroupedFor(ks[..i], sub) == (Ok(grouped), last) && l == sub(ks[i])
    ensures l.Err? ==> GroupedFor(ks, sub) == (Err(l.failure), Some(ks[i]))
    ensures l.Ok? ==> GroupedFor(ks[..i + 1], sub) == (Ok(MapPut(grouped, ks[i], l.value)), Some(ks[i]))
  {
    GroupedForSnoc(ks, sub, i);
    if l.Err? {
      GroupedForErr(ks, sub, i + 1);
    }
  }

  // ---------------------------------------------------------------------------
  // The loops of `convertToMorphiaQuery`
  // ---------------------------------------------------------------------------

  lemma RootsOfSnoc(k: string, syncMatch: seq<string>, j: nat)
    requires j < |syncMatch|
    ensures RootsOf(k, syncMatch[..j + 1]) == RootsOf(k, syncMatch[..j]) + (if StartsWith(k, syncMatch[j] + ".") then [syncMatch[j]] else [])
  {
    assert syncMatch[..j + 1][..j] == syncMatch[..j];
  }

  /** One pass of the inner loop of the key loop. */
  lemma RootsStep(groups0: Entries<string>, k: string, syncMatch: seq<string>, j: nat)
    requires j < |syncMatch|
    ensures var roots := RootsOf(k, syncMatch[..j]);
      var sm := syncMatch[j];
      && PutUnderRoots(groups0, RootsOf(k, syncMatch[..j + 1]), k)
         == (if StartsWith(k, sm + ".") then PutAll(PutUnderRoots(groups0, roots, k), sm, [k]) else PutUnderRoots(groups0, roots, k))
      && (|RootsOf(k, syncMatch[..j + 1])| > 0 <==> |roots| > 0 || StartsWith(k, sm + "."))
  {
    var roots := RootsOf(k, syncMatch[..j]);
    var sm := syncMatch[j];
    RootsOfSnoc(k, syncMatch, j);
    if StartsWith(k, sm + ".") {
      PutUnderRootsSnoc(groups0, roots, sm, k);
    } else {
      assert roots + [] == roots;
    }
  }

  lemma PutUnderRootsSnoc(groups: Entries<string>, roots: seq<string>, sm: string, k: string)
    ensures PutUnderRoots(groups, roots + [sm], k) == PutAll(PutUnderRoots(groups, roots, k), sm, [k])
  {
    assert (roots + [sm])[..|roots|] == roots;
  }

  /** A failure on a prefix of the keys is the failure of the whole loop. */
  lemma {:induction false} KeyLoopErr(criteria: Entries<Value>, keys: seq<string>, syncMatch: seq<string>, n: nat)
    requires n <= |keys| && KeyLoop(criteria, keys[..n], syncMatch).Err?
    ensures KeyLoop(criteria, keys, syncMatch) == KeyLoop(criteria, keys[..n], syncMatch)
    decreases |keys| - n
  {
    if n < |keys| {
      var init := keys[..|keys| - 1];
      assert init[..n] == keys[..n];
      KeyLoopErr(criteria, init, syncMatch, n);
    } else {
      assert keys[..n] == keys;
    }
  }

  lemma {:induction false} SubFiltersErr(criteria: Entries<Value>, root: string, keys: seq<string>, n: nat)
    requires n <= |keys| && SubFilters(criteria, root, keys[..n]).Err?
    ensures SubFilters(criteria, root, keys) == SubFilters(criteria, root, keys[..n])
    decreases |keys| - n
  {
    if n < |keys| {
      var init := keys[..|keys| - 1];
      assert init[..n] == keys[..n];
      SubFiltersErr(criteria, root, init, n);
    } else {
      assert keys[..n] == keys;
    }
  }

  lemma {:induction false} GroupLoopErr(criteria: Entries<Value>, groups: Entries<string>, n: nat)
    requires n <= |groups| && GroupLoop(criteria, groups[..n]).Err?
    ensures GroupLoop(criteria, groups) == GroupLoop(criteria, groups[..n])
    decreases |groups| - n
  {
    if n < |groups| {
      var init := groups[..|groups| - 1];
      assert init[..n] == groups[..n];
      GroupLoopErr(criteria, init, n);
    } else {
      assert groups[..n] == groups;
    }
  }

  /** The inner loop of the key loop: the key is recorded under every
      sync-match root it starts with, followed by a dot. */
  method PutUnderRootsLoop(groups0: Entries<string>, k: string, syncMatch: seq<string>) returns (groups: Entries<string>, forSyncMatch: bool)
    ensures groups == PutUnderRoots(groups0, RootsOf(k, syncMatch), k)
    ensures forSyncMatch <==> |RootsOf(k, syncMatch)| > 0
  {
    groups := groups0;
    forSyncMatch := false;
    var j := 0;
    while j < |syncMatch|
      invariant 0 <= j <= |syncMatch|
      invariant groups == PutUnderRoots(groups0, RootsOf(k, syncMatch[..j]), k)
      invariant forSyncMatch <==> |RootsOf(k, syncMatch[..j])| > 0
    {
      var sm := syncMatch[j];
      RootsStep(groups0, k, syncMatch, j);
      if StartsWith(k, sm + ".") {
        groups := PutAll(groups, sm, [k]);
        forSyncMatch := true;
      }
      j := j + 1;
    }
    assert syncMatch[..j] == syncMatch;
  }

  /** The key loop: each key is recorded under every sync-match root it lies
      under, and a key under no root has its filters added at top level. */
  method PartitionKeys(criteria: Entries<Value>, keys: seq<string>, syncMatch: seq<string>) returns (r: Result<(seq<Filter>, Entries<string>)>)
    ensures r == KeyLoop(criteria, keys, syncMatch)
  {
    var filters: seq<Filter> := [];
    var groups: Entries<string> := [];
    var i := 0;
    while i < |keys|
      invariant 0 <= i <= |keys|
      invariant KeyLoop(criteria, keys[..i], syncMatch) == Ok((filters, groups))
    {
      var k := keys[i];
      var forSyncMatch;
      groups, forSyncMatch := PutUnderRootsLoop(groups, k, syncMatch);
      assert keys[..i + 1][..i] == keys[..i];
      if !forSyncMatch {
        var f := PrepareFilters(k, Get(criteria, k));
        if f.Err? {
          KeyLoopErr(criteria, keys, syncMatch, i + 1);
          return Err(f.failure);
        }
        filters := filters + f.value;
      }
      i := i + 1;
    }
    assert keys[..|keys|] == keys;
    return Ok((filters, groups));
  }

  /** The filters inside one element match, key by key. */
  method SubKeyFilters(criteria: Entries<Value>, root: string, keys: seq<string>) returns (r: Result<seq<Filter>>)
    ensures r == SubFilters(criteria, root, keys)
  {
    var elemMatchFilters: seq<Filter> := [];
    var i := 0;
    while i < |keys|
      invariant 0 <= i <= |keys|
      invariant SubFilters(criteria, root, keys[..i]) == Ok(elemMatchFilters)
    {
      assert keys[..i + 1][..i] == keys[..i];
      var sub := SubKey(keys[i], root);
      if sub.Err? {
        SubFiltersErr(criteria, root, keys, i + 1);
        return Err(sub.failure);
      }
      var f := PrepareFilters(sub.value, Get(criteria, keys[i]));
      if f.Err? {
        SubFiltersErr(criteria, root, keys, i + 1);
        return Err(f.failure);
      }
      elemMatchFilters := elemMatchFilters + f.value;
      i := i + 1;
    }
    assert keys[..|keys|] == keys;
    return Ok(elemMatchFilters);
  }

  /** One element match per sync-match root that has keys. */
  method ElemMatchFilters(criteria: Entries<Value>, groups: Entries<string>) returns (r: Result<seq<Filter>>)
    ensures r == GroupLoop(criteria, groups)
  {
    var filters: seq<Filter> := [];
    var i := 0;
    while i < |groups|
      invariant 0 <= i <= |groups|
      invariant GroupLoop(criteria, groups[..i]) == Ok(filters)
    {
      assert groups[..i + 1][..i] == groups[..i];
      var sub := SubKeyFilters(criteria, groups[i].0, groups[i].1);
      if sub.Err? {
        GroupLoopErr(criteria, groups, i + 1);
        return Err(sub.failure);
      }
      filters := filters + [ElemMatch(groups[i].0, sub.value)];
      i := i + 1;
    }
    assert groups[..|groups|] == groups;
    return Ok(filters);
  }

  /** The loop of `isSafeQuery`: stops at the first key whose field is an
      index prefix. */
  method FindSafeKey(keys: seq<string>, prefixes: seq<string>) returns (r: Result<bool>)
    ensures r == SafeFrom(keys, prefixes)
  {
    var queryIsSafe := false;
    var i := 0;
    while i < |keys|
      invariant 0 <= i <= |keys|
      invariant SafeFrom(keys, prefixes) == SafeFrom(keys[i..], prefixes)
    {
      var p := ParseQueryField(keys[i]);
      if p.Err? {
        return Err(p.failure);
      }
      if p.value.fieldName in prefixes {
        queryIsSafe := true;
        break;
      }
      assert keys[i..][1..] == keys[i + 1..];
      i := i + 1;
    }
    return Ok(queryIsSafe);
  }

  /** `isSafeQuery` of either dao, against the index prefixes. */
  method IsSafeQuery(sq: ServiceQuery, prefixes: seq<string>) returns (r: Result<bool>)
    ensures r == SafeQuery(sq.View(), prefixes)
  {
    var v := sq.View();
    if ShouldCheckForIndex(v) {
      r := FindSafeKey(Keys(sq.criteria.value), prefixes);
    } else {
      r := Ok(true);
    }
  }

  /** `validateQuery` of either dao, against the index prefixes. */
  method ValidateQuery(sq: ServiceQuery, prefixes: seq<string>) returns (o: Outcome)
    ensures o == Validate(sq.View(), prefixes)
  {
    if sq.indexValidation {
      var safe := IsSafeQuery(sq, prefixes);
      if safe.Err? {
        return Fail(safe.failure);
      }
      if !safe.value {
        return Fail(RestDsl(QueryError));
      }
    }
    if sq.limit.None? {
      return Fail(NullPointer);
    }
    if sq.limit.value < 0 {
      return Fail(RestDsl(QueryError));
    }
    if sq.groupBy.Some? && (sq.criteria.None? || !ContainsKey(sq.criteria.value, sq.groupBy.value)) {
      return Fail(RestDsl(QueryError));
    }
    return Pass;
  }

  /** `removeAll(groupBy)` and `put(groupBy, k)` on the query's own
      criteria, as the grouping loop of either dao does. */
  method RegroupCriteria(sq: ServiceQuery, g: string, k: Value)
    requires sq.criteria.Some?
    modifies sq
    ensures sq.View() == old(sq.View()).(criteria := Some(Regroup(old(sq.criteria.value), g, k)))
  {
    sq.criteria := Some(RemoveAll(sq.criteria.value, g));
    sq.criteria := Some(PutAll(sq.criteria.value, g, [k]));
  }

  // ---------------------------------------------------------------------------
  // The dao
  // ---------------------------------------------------------------------------

  /** A dao over one entity collection: the name of the entity's id field,
      its index information, and whether grouped queries are allowed. */
  class MongoBaseServiceDao {
    const idFieldName: string
    const entityIndexInfo: EntityIndexInfo
    var allowGroupBy: bool

    /** Grouped queries are off until the service enables them. */
    constructor (idFieldName: string, entityIndexInfo: EntityIndexInfo)
      ensures this.idFieldName == idFieldName && this.entityIndexInfo == entityIndexInfo
      ensures !allowGroupBy
    {
      this.idFieldName := idFieldName;
      this.entityIndexInfo := entityIndexInfo;
      allowGroupBy := false;
    }

    /** `setAllowGroupBy`. */
    method SetAllowGroupBy()
      modifies this
      ensures allowGroupBy
    {
      allowGroupBy := true;
    }

    /** `toFindOptions`. */
    method ToFindOptions(sq: ServiceQuery) returns (r: Result<FindOptions>)
      ensures r == FindOptionsOf(sq.View())
    {
      var projection: Option<seq<string>> := None;
      if sq.fields.Some? {
        var selection := SelectFields(sq.fields.value);
        var p := Projection(selection);
        if p.Err? {
          return Err(p.failure);
        }
        projection := p.value;
      }
      if sq.limit.None? {
        return Err(NullPointer);
      }
      var sort := if sq.order.Some? then Some(ParseSortString(sq.order.value)) else None;
      return Ok(FindOptions(projection, sq.offset, sq.limit.value, sort));
    }

    /** `convertToMorphiaQuery`. */
    method ConvertToMorphiaQuery(sq: ServiceQuery) returns (r: Result<seq<Filter>>)
      ensures r == Translate(sq.View(), entityIndexInfo.indexPrefixMap, idFieldName)
    {
      var valid := ValidateQuery(sq, entityIndexInfo.indexPrefixMap);
      if valid.Fail? {
        return Err(valid.failure);
      }
      var filters := IdFilters(idFieldName, sq.ids);
      if sq.criteria.Some? {
        var criteria := sq.criteria.value;
        var syncMatch := if sq.syncMatch.Some? then sq.syncMatch.value else [];
        var kl := PartitionKeys(criteria, Keys(criteria), syncMatch);
        if kl.Err? {
          return Err(kl.failure);
        }
        var em := ElemMatchFilters(criteria, kl.value.1);
        if em.Err? {
          return Err(em.failure);
        }
        filters := filters + kl.value.0 + em.value;
      }
      return Ok(filters);
    }

    /** `count`: the number of documents the translated query matches. */
    method Count(sq: ServiceQuery, store: Storage) returns (r: Result<nat>)
      ensures var q := Translate(sq.View(), entityIndexInfo.indexPrefixMap, idFieldName);
        r == if q.Ok? then Ok(|store(q.value)|) else Err(q.failure)
    {
      var q := ConvertToMorphiaQuery(sq);
      if q.Err? {
        return Err(q.failure);
      }
      return Ok(|store(q.value)|);
    }

    /** `getOne`: the first document of the page, or none. */
    method GetOne(sq: ServiceQuery, store: Storage) returns (r: Result<Option<Doc>>)
      ensures var q := Translate(sq.View(), entityIndexInfo.indexPrefixMap, idFieldName);
        var fo := FindOptionsOf(sq.View());
        && (r.Ok? <==> q.Ok? && fo.Ok?)
        && (q.Err? ==> r == Err(q.failure))
        && (q.Ok? && fo.Err? ==> r == Err(fo.failure))
        && (r.Ok? ==> var page := Page(store(q.value), fo.value.skip, fo.value.limit);
              r.value == if |page| == 0 then None else Some(page[0]))
    {
      var q := ConvertToMorphiaQuery(sq);
      if q.Err? {
        return Err(q.failure);
      }
      var fo := ToFindOptions(sq);
      if fo.Err? {
        return Err(fo.failure);
      }
      var page := Page(store(q.value), fo.value.skip, fo.value.limit);
      return Ok(if |page| == 0 then None else Some(page[0]));
    }

    /** One pass of the grouping loop: the query translated again, fetched
        and counted. */
    method SubQuery(sq: ServiceQuery, store: Storage, fo: FindOptions) returns (l: Result<EntityList<Doc>>)
      ensures l == SubResult(sq.View(), entityIndexInfo.indexPrefixMap, idFieldName, fo, store)
    {
      var q := ConvertToMorphiaQuery(sq);
      if q.Err? {
        return Err(q.failure);
      }
      l := ListFor(sq.View(), q.value, fo, store);
    }

    /** One pass of the grouping loop: the criteria rewritten to `k` alone,
        then the query run. Earlier passes do not matter, since each rewrite
        replaces the previous one. */
    method GroupPass(sq: ServiceQuery, store: Storage, g: string, fo: FindOptions, k: Value, ghost v: QueryView, ghost c0: Entries<Value>, ghost before: Option<Value>) returns (l: Result<EntityList<Doc>>)
      requires v.criteria == Some(c0) && sq.View() == v.(criteria := Some(CriteriaAfter(c0, g, before)))
      modifies sq
      ensures sq.View() == v.(criteria := Some(CriteriaAfter(c0, g, Some(k))))
      ensures l == SubResults(v, g, entityIndexInfo.indexPrefixMap, idFieldName, fo, store)(k)
    {
      RegroupCriteria(sq, g, k);
      if before.Some? {
        RegroupTwice(c0, g, before.value, k);
      }
      assert sq.View() == GroupQuery(v, g, k);
      l := SubQuery(sq, store, fo);
      SubResultsApply(v, g, entityIndexInfo.indexPrefixMap, idFieldName, fo, store, k);
    }

    /** The grouping loop of `get`: for each value the query gives the
        groupBy key, the criteria are rewritten to that value alone and the
        query runs again. The last value written is returned as a ghost. */
    method GroupLoopRun(sq: ServiceQuery, store: Storage, g: string, fo: FindOptions) returns (r: Result<seq<(Value, EntityList<Doc>)>>, ghost last: Option<Value>)
      requires sq.criteria.Some?
      modifies sq
      ensures var v := old(sq.View());
        (r, last) == GroupedFor(Multimaps.Get(v.criteria.value, g), SubResults(v, g, entityIndexInfo.indexPrefixMap, idFieldName, fo, store))
      ensures sq.View() == old(sq.View()).(criteria := Some(CriteriaAfter(old(sq.criteria.value), g, last)))
    {
      ghost var v := sq.View();
      ghost var prefixes := entityIndexInfo.indexPrefixMap;
      ghost var c0 := sq.criteria.value;
      ghost var sub := SubResults(v, g, prefixes, idFieldName, fo, store);
      var ks := Multimaps.Get(sq.criteria.value, g);
      var grouped: seq<(Value, EntityList<Doc>)> := [];
      last := None;
      var i := 0;
      while i < |ks|
        invariant 0 <= i <= |ks|
        invariant prefixes == entityIndexInfo.indexPrefixMap
        invariant GroupedFor(ks[..i], sub) == (Ok(grouped), last)
        invariant sq.View() == v.(criteria := Some(CriteriaAfter(c0, g, last)))
      {
        var k := ks[i];
        var l := GroupPass(sq, store, g, fo, k, v, c0, last);
        GroupedForStep(ks, sub, i, grouped, last, l);
        last := Some(k);
        if l.Err? {
          return Err(l.failure), last;
        }
        grouped := MapPut(grouped, k, l.value);
        i := i + 1;
      }
      assert ks[..|ks|] == ks;
      return Ok(grouped), last;
    }

    /** `get`: without groupBy, one page and its total; with groupBy (only
        when allowed), one sub-result per value the query gives the groupBy
        key, each fetched after rewriting the query's own criteria to that
        value alone. */
    method Get(sq: ServiceQuery, store: Storage) returns (r: Result<EntityResult<Value, Doc>>)
      modifies sq
      ensures var spec := GetSpec(old(sq.View()), entityIndexInfo.indexPrefixMap, idFieldName, allowGroupBy, store);
        && (r.Ok? <==> spec.0.Ok?)
        && (r.Err? ==> r.failure == spec.0.failure)
        && (r.Ok? ==> fresh(r.value) && r.value.Valid() && r.value.current == Some(spec.0.value))
        && sq.View() == old(sq.View()).(criteria := spec.1)
    {
      var q := ConvertToMorphiaQuery(sq);
      if q.Err? {
        return Err(q.failure);
      }
      var fo := ToFindOptions(sq);
      if fo.Err? {
        return Err(fo.failure);
      }
      if sq.groupBy.None? {
        var l := ListFor(sq.View(), q.value, fo.value, store);
        if l.Err? {
          return Err(l.failure);
        }
        var res := new EntityResult<Value, Doc>.OfList(l.value);
        return Ok(res);
      }
      r := GetGrouped(sq, store, q.value, fo.value);
    }

    /** The groupBy path of `get`, once the query has translated. */
    method GetGrouped(sq: ServiceQuery, store: Storage, q: seq<Filter>, fo: FindOptions) returns (r: Result<EntityResult<Value, Doc>>)
      requires sq.groupBy.Some?
      requires Translate(sq.View(), entityIndexInfo.indexPrefixMap, idFieldName) == Ok(q)
      requires FindOptionsOf(sq.View()) == Ok(fo)
      modifies sq
      ensures var spec := GetSpec(old(sq.View()), entityIndexInfo.indexPrefixMap, idFieldName, allowGroupBy, store);
        && (r.Ok? <==> spec.0.Ok?)
        && (r.Err? ==> r.failure == spec.0.failure)
        && (r.Ok? ==> fresh(r.value) && r.value.Valid() && r.value.current == Some(spec.0.value))
        && sq.View() == old(sq.View()).(criteria := spec.1)
    {
      var g := sq.groupBy.value;
      if !allowGroupBy {
        return Raise(QueryError);
      }
      if sq.criteria.None? {
        return Err(NullPointer);
      }
      var n := |IdFilters(idFieldName, sq.ids)|;
      var grouped: Result<seq<(Value, EntityList<Doc>)>>;
      ghost var last: Option<Value>;
      grouped, last := GroupLoopRun(sq, store, g, fo);
      if grouped.Err? {
        return Err(grouped.failure);
      }
      // `morphiaQuery` was built before the loop; its `in` filters on the
      // groupBy key read the criteria as the loop left them.
      var counted := EncodedAtCount(q, n, g, Multimaps.Get(sq.criteria.value, g));
      var total := if sq.countTotalItems then Some(|store(counted)|) else None;
      var res := new EntityResult<Value, Doc>.OfMultimap(EntityMultimap(grouped.value, total));
      return Ok(res);
    }
  }
}
