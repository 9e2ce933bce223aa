/** The query value of the DSL and what each builder step, `build`, the query
    shape and the canonical text do to it (ServiceQuery), stated over an
    immutable view of the query's fields. */
module QuerySpec {
  import opened Errors
  import opened Lang
  import opened ReservedValues
  import opened Values
  import opened Multimaps
  import opened QueryParams

  /** The largest limit a built query carries. */
  const MaxLimit: int := 10000

  /** The fields of a ServiceQuery. Sets (fields, syncMatch) are sequences
      without duplicates and criteria a set multimap, both in iteration order;
      None is Java null. */
  datatype QueryView = QueryView(
    limit: Option<Int32>,
    originalLimit: Option<Int32>,
    offset: Int32,
    countTotalItems: bool,
    order: Option<string>,
    fields: Option<seq<string>>,
    ids: Option<seq<Value>>,
    criteria: Option<Entries<Value>>,
    indexValidation: bool,
    groupBy: Option<string>,
    countOnly: bool,
    syncMatch: Option<seq<string>>,
    queryShape: Option<string>)

  /** A query as `new ServiceQuery()` leaves it. */
  const NewQuery: QueryView :=
    QueryView(None, None, 0, true, None, None, None, None, true, None, false, None, None)

  /** What every builder step keeps true of the query it accumulates: the
      offset and an explicit limit are not negative, `originalLimit` follows
      `limit`, the criteria are a well-formed set multimap, the sets hold no
      duplicates, and nothing computed by `build` is set yet. */
  predicate Accumulating(v: QueryView) {
    && v.offset >= 0
    && (v.limit.Some? ==> v.limit.value >= 0)
    && v.originalLimit == v.limit
    && (v.criteria.Some? ==> SetValid(v.criteria.value))
    && (v.fields.Some? ==> Distinct(v.fields.value))
    && (v.syncMatch.Some? ==> Distinct(v.syncMatch.value))
    && !v.countOnly
    && v.queryShape.None?
  }

  lemma NewQueryAccumulating()
    ensures Accumulating(NewQuery)
  {
  }

  // ---------------------------------------------------------------------------
  // Builder steps
  // ---------------------------------------------------------------------------

  /** `offset`: null leaves the query alone; a negative offset throws the
      default (GENERAL_ERROR) type. */
  function SetOffset(v: QueryView, offset: Option<Int32>): (r: Result<QueryView>)
    ensures r.Err? <==> offset.Some? && offset.value < 0
    ensures r.Err? ==> r.failure == RestDsl(DefaultType)
    ensures r.Ok? ==> r.value.offset == (if offset.Some? then offset.value else v.offset)
    ensures r.Ok? ==> r.value == v.(offset := r.value.offset)
    ensures Accumulating(v) && r.Ok? ==> Accumulating(r.value)
  {
    if offset.None? then Ok(v)
    else if offset.value < 0 then Raise(DefaultType)
    else Ok(v.(offset := offset.value))
  }

  /** `limit`: a negative limit throws QUERY_ERROR; otherwise a given limit is
      stored, and `originalLimit` takes the current limit even when none is
      given. */
  function SetLimit(v: QueryView, limit: Option<Int32>): (r: Result<QueryView>)
    ensures r.Err? <==> limit.Some? && limit.value < 0
    ensures r.Err? ==> r.failure == RestDsl(QueryError)
    ensures r.Ok? ==> r.value.limit == (if limit.Some? then limit else v.limit)
    ensures r.Ok? ==> r.value.originalLimit == r.value.limit
    ensures r.Ok? ==> r.value == v.(limit := r.value.limit, originalLimit := r.value.limit)
    ensures Accumulating(v) && r.Ok? ==> Accumulating(r.value)
  {
    if limit.Some? && limit.value < 0 then Raise(QueryError)
    else
      var l := if limit.Some? then limit else v.limit;
      Ok(v.(limit := l, originalLimit := l))
  }

  /** `fields`: a given collection is stored as a set. */
  function SetFields(v: QueryView, fields: Option<seq<string>>): (r: QueryView)
    ensures fields.Some? ==> r.fields.Some? && Elems(r.fields.value) == Elems(fields.value)
    ensures fields.None? ==> r == v
    ensures r == v.(fields := r.fields)
    ensures Accumulating(v) ==> Accumulating(r)
  {
    if fields.Some? then v.(fields := Some(Dedup(fields.value))) else v
  }

  /** `syncMatch`: a given collection is stored as a set. */
  function SetSyncMatch(v: QueryView, syncMatch: Option<seq<string>>): (r: QueryView)
    ensures syncMatch.Some? ==> r.syncMatch.Some? && Elems(r.syncMatch.value) == Elems(syncMatch.value)
    ensures syncMatch.None? ==> r == v
    ensures r == v.(syncMatch := r.syncMatch)
    ensures Accumulating(v) ==> Accumulating(r)
  {
    if syncMatch.Some? then v.(syncMatch := Some(Dedup(syncMatch.value))) else v
  }

  /** `withCriteria`: a null or empty collection throws QUERY_ERROR; otherwise
      the values join those already under the key, as a set. */
  function WithCriteria(v: QueryView, key: string, values: Option<seq<Value>>): (r: Result<QueryView>)
    ensures r.Err? <==> values.None? || values.value == []
    ensures r.Err? ==> r.failure == RestDsl(QueryError)
  {
    if values.None? || values.value == [] then Raise(QueryError)
    else
      var m := if v.criteria.Some? then v.criteria.value else [];
      Ok(v.(criteria := Some(PutAll(m, key, values.value))))
  }

  /** The values join those already under the key, as a set; the other keys
      and every other setting are kept, and so is `Accumulating`. */
  lemma WithCriteriaSpec(v: QueryView, key: string, values: Option<seq<Value>>)
    requires values.Some? && values.value != []
    ensures var r := WithCriteria(v, key, values);
      && r.Ok? && r.value.criteria.Some?
      && Elems(Get(r.value.criteria.value, key)) == Elems(CriteriaOf(v, key)) + Elems(values.value)
      && (forall j :: j != key ==> Get(r.value.criteria.value, j) == CriteriaOf(v, j))
      && r.value == v.(criteria := r.value.criteria)
      && (Accumulating(v) ==> Accumulating(r.value))
  {
    var m := if v.criteria.Some? then v.criteria.value else [];
    if Accumulating(v) {
      PutAllValid(m, key, values.value);
    }
    PutAllGet(m, key, values.value, key);
    forall j | j != key
      ensures Get(PutAll(m, key, values.value), j) == Get(m, j)
    {
      PutAllGet(m, key, values.value, j);
    }
  }

  /** The values under a key, none when there are no criteria. */
  function CriteriaOf(v: QueryView, key: string): seq<Value>
  {
    if v.criteria.Some? then Get(v.criteria.value, key) else []
  }

  // ---------------------------------------------------------------------------
  // build: default criteria, fields and the limit
  // ---------------------------------------------------------------------------

  /** One default entry joins the criteria unless its key is already there. */
  function MergeStep(c: Entries<Value>, e: (string, seq<Value>)): Entries<Value>
  {
    if ContainsKey(c, e.0) then c else PutAll(c, e.0, e.1)
  }

  /** The criteria after the default entries have been merged in, in order. */
  function MergeDefaults(c: Entries<Value>, d: Entries<Value>): (r: Entries<Value>)
    decreases |d|
  {
    if |d| == 0 then c else MergeDefaults(MergeStep(c, d[0]), d[1..])
  }

  /** Merging keeps the explicit keys first, in their order. */
  lemma {:induction false} MergeDefaultsKeepsOrder(c: Entries<Value>, d: Entries<Value>)
    ensures |Keys(c)| <= |Keys(MergeDefaults(c, d))|
    ensures Keys(MergeDefaults(c, d))[..|Keys(c)|] == Keys(c)
    decreases |d|
  {
    if |d| > 0 {
      var c' := MergeStep(c, d[0]);
      MergeDefaultsKeepsOrder(c', d[1..]);
      var k0 := Keys(MergeDefaults(c, d));
      assert |Keys(c)| <= |Keys(c')| && Keys(c')[..|Keys(c)|] == Keys(c);
      assert k0[..|Keys(c)|] == k0[..|Keys(c')|][..|Keys(c)|];
    }
  }

  /** An entry bound to `$any` alone, which `build` removes. */
  predicate AnyOnly(e: (string, seq<Value>)) {
    e.1 == [VReserved(Any)]
  }

  /** The criteria without the entries bound to `$any` alone. */
  function DropAnyOnly(m: Entries<Value>): (r: Entries<Value>)
    ensures |r| <= |m|
  {
    if |m| == 0 then []
    else if AnyOnly(m[0]) then DropAnyOnly(m[1..])
    else [m[0]] + DropAnyOnly(m[1..])
  }

  /** The removal over a suffix is the removal of its first entry, then of the
      rest. */
  lemma DropAnyOnlyFrom(m: Entries<Value>, j: nat)
    requires j < |m|
    ensures DropAnyOnly(m[j..]) == (if AnyOnly(m[j]) then [] else [m[j]]) + DropAnyOnly(m[j + 1..])
  {
    assert m[j..][1..] == m[j + 1..];
  }

  /** No entry bound to `$any` alone survives the removal. */
  lemma {:induction false} DropAnyOnlyNone(m: Entries<Value>)
    ensures forall i :: 0 <= i < |DropAnyOnly(m)| ==> !AnyOnly(DropAnyOnly(m)[i])
  {
    if |m| > 0 {
      DropAnyOnlyNone(m[1..]);
    }
  }

  /** Dropping keeps a set multimap well formed and adds no key. */
  lemma {:induction false} DropAnyOnlyValid(m: Entries<Value>)
    requires SetValid(m)
    ensures SetValid(DropAnyOnly(m))
    ensures forall k :: k in Keys(DropAnyOnly(m)) ==> k in Keys(m)
  {
    if |m| > 0 {
      var rest := DropAnyOnly(m[1..]);
      assert Keys(m[1..]) == Keys(m)[1..];
      DropAnyOnlyValid(m[1..]);
      if !AnyOnly(m[0]) {
        var r := [m[0]] + rest;
        assert Keys(r) == [m[0].0] + Keys(rest);
        DistinctHead(Keys(m));
        DistinctCons(m[0].0, Keys(rest));
        assert r[1..] == rest;
      }
    }
  }

  /** Dropping removes exactly the keys bound to `$any` alone and keeps the
      values of the rest. */
  lemma {:induction false} DropAnyOnlyGet(m: Entries<Value>, k: string)
    requires Distinct(Keys(m))
    ensures Get(DropAnyOnly(m), k) == if Get(m, k) == [VReserved(Any)] then [] else Get(m, k)
  {
    if |m| > 0 {
      assert Keys(m[1..]) == Keys(m)[1..];
      DropAnyOnlyGet(m[1..], k);
      if m[0].0 == k {
        DistinctHead(Keys(m));
        assert !ContainsKey(m[1..], k);
      }
    }
  }

  /** Whether the parameters carry default criteria to merge. */
  predicate HasDefaultCriteria(p: QueryParams) {
    p.defaultCriteria.Some? && |p.defaultCriteria.value| > 0
  }

  /** The limit `build` settles on: the explicit one, else the default, with
      anything above 10000 or below 0 replaced by 10000. */
  function EffectiveLimit(v: QueryView, p: QueryParams): (l: Int32)
    ensures 0 <= l <= MaxLimit
    ensures var cur := if v.limit.Some? then v.limit.value else p.defaultLimit;
            l == (if 0 <= cur <= MaxLimit then cur else MaxLimit)
  {
    var cur := if v.limit.Some? then v.limit.value else p.defaultLimit;
    if cur > MaxLimit || cur < 0 then MaxLimit else cur
  }

  /** `applyServiceQueryParams`. */
  function ApplyParams(v: QueryView, p: QueryParams): (r: QueryView)
    ensures r.limit == Some(EffectiveLimit(v, p))
    ensures r.countOnly <==> v.countOnly || v.limit == Some(0)
    ensures r.fields == (if v.fields.Some? then v.fields else p.defaultFields)
    ensures !HasDefaultCriteria(p) ==> r.criteria == v.criteria
    ensures r == v.(criteria := r.criteria, fields := r.fields, countOnly := r.countOnly, limit := r.limit)
  {
    var criteria :=
      if HasDefaultCriteria(p) then
        Some(DropAnyOnly(MergeDefaults(if v.criteria.Some? then v.criteria.value else [], p.defaultCriteria.value)))
      else v.criteria;
    var fields := if v.fields.None? then p.defaultFields else v.fields;
    var countOnly := if v.limit.Some? && v.limit.value == 0 then true else v.countOnly;
    v.(criteria := criteria, fields := fields, countOnly := countOnly, limit := Some(EffectiveLimit(v, p)))
  }

  /** `build`: the parameters applied, then the shape computed. */
  function Build(v: QueryView, p: QueryParams): (r: QueryView)
    ensures r == ApplyParams(v, p).(queryShape := Some(Shape(ApplyParams(v, p))))
  {
    var a := ApplyParams(v, p);
    a.(queryShape := Some(Shape(a)))
  }

  /** Built from an accumulating query, `countOnly` holds exactly when an
      explicit limit of 0 was given, and the limit is within [0, 10000]. */
  lemma BuildLimit(v: QueryView, p: QueryParams)
    requires Accumulating(v)
    ensures Build(v, p).countOnly <==> v.limit == Some(0)
    ensures Build(v, p).limit.Some? && 0 <= Build(v, p).limit.value <= MaxLimit
    ensures v.limit.Some? && v.limit.value <= MaxLimit ==> Build(v, p).limit == v.limit
    ensures v.limit.None? && 0 <= p.defaultLimit <= MaxLimit ==> Build(v, p).limit == Some(p.defaultLimit)
  {
  }

  /** Merging keeps every explicit key with its values and adds each default
      key that is absent, with its default values as a set. */
  lemma {:induction false} MergeDefaultsGet(c: Entries<Value>, d: Entries<Value>, k: string)
    requires SetValid(c) && ListValid(d)
    ensures SetValid(MergeDefaults(c, d))
    ensures ContainsKey(MergeDefaults(c, d), k) <==> ContainsKey(c, k) || ContainsKey(d, k)
    ensures ContainsKey(c, k) ==> Get(MergeDefaults(c, d), k) == Get(c, k)
    ensures !ContainsKey(c, k) ==> Elems(Get(MergeDefaults(c, d), k)) == Elems(Get(d, k))
    decreases |d|
  {
    if |d| > 0 {
      var e := d[0];
      var c' := MergeStep(c, e);
      assert Keys(d[1..]) == Keys(d)[1..];
      assert ListValid(d[1..]);
      if !ContainsKey(c, e.0) {
        PutAllValid(c, e.0, e.1);
        PutAllGet(c, e.0, e.1, k);
      }
      assert ContainsKey(c, k) ==> ContainsKey(c', k);
      assert ContainsKey(d, k) <==> e.0 == k || ContainsKey(d[1..], k);
      MergeDefaultsGet(c', d[1..], k);
      if e.0 == k && !ContainsKey(c, k) {
        assert Keys(d)[0] == k;
        assert Get(d, k) == e.1;
      }
    }
  }

  /** After `build`, with default criteria present, a key is in the criteria iff
      it was given or defaulted and is not bound to `$any` alone; given keys keep
      their values, defaulted keys take their default values. */
  lemma BuildCriteria(v: QueryView, p: QueryParams, k: string)
    requires Accumulating(v) && HasDefaultCriteria(p) && ListValid(p.defaultCriteria.value)
    ensures var c := if v.criteria.Some? then v.criteria.value else [];
            var merged := MergeDefaults(c, p.defaultCriteria.value);
            var built := Build(v, p).criteria;
            && built.Some? && SetValid(built.value)
            && (ContainsKey(built.value, k) <==>
                 (ContainsKey(c, k) || ContainsKey(p.defaultCriteria.value, k)) && Get(merged, k) != [VReserved(Any)])
            && (ContainsKey(built.value, k) && ContainsKey(c, k) ==> Get(built.value, k) == Get(c, k))
            && (ContainsKey(built.value, k) && !ContainsKey(c, k) ==>
                 Elems(Get(built.value, k)) == Elems(Get(p.defaultCriteria.value, k)))
  {
    var c := if v.criteria.Some? then v.criteria.value else [];
    var merged := MergeDefaults(c, p.defaultCriteria.value);
    MergeDefaultsGet(c, p.defaultCriteria.value, k);
    DropAnyOnlyValid(merged);
    DropAnyOnlyGet(merged, k);
    ContainsKeyGet(merged, k);
    ContainsKeyGet(DropAnyOnly(merged), k);
  }

  // ---------------------------------------------------------------------------
  // The query shape
  // ---------------------------------------------------------------------------

  /** `AbstractCollection.toString` of a set of names. */
  function SetText(xs: seq<string>): string
  {
    "[" + Join(xs, ", ") + "]"
  }

  /** Whether the query names ids (`CollectionUtils.isEmpty` negated). */
  predicate HasIds(v: QueryView) {
    v.ids.Some? && |v.ids.value| > 0
  }

  /** `calculateQueryShape`: built from key names and flags only. */
  function Shape(v: QueryView): string
  {
    (if HasIds(v) then "IDS-" else "-")
    + (if v.criteria.Some? then "CRITERIA-" + Join(Keys(v.criteria.value), "_") else "")
    + (if v.order.Some? then "-ORDER-" + v.order.value else "")
    + (if v.groupBy.Some? then "-GROUPBY-" + v.groupBy.value else "")
    + (if v.syncMatch.Some? then "-SYNCMATCH-" + SetText(v.syncMatch.value) else "")
    + (if v.originalLimit.Some? then "-LIMIT" else "")
  }

  /** What the shape is a function of: whether ids are present, the criteria
      keys in iteration order, order, groupBy, syncMatch, and whether a limit
      was set. */
  predicate SameShapeInputs(v: QueryView, w: QueryView) {
    && HasIds(v) == HasIds(w)
    && v.criteria.Some? == w.criteria.Some?
    && (v.criteria.Some? ==> Keys(v.criteria.value) == Keys(w.criteria.value))
    && v.order == w.order
    && v.groupBy == w.groupBy
    && v.syncMatch == w.syncMatch
    && v.originalLimit.Some? == w.originalLimit.Some?
  }

  /** Queries that differ only in values, offset, fields, the limit's value,
      validation or counting flags share a shape. */
  lemma ShapeInputs(v: QueryView, w: QueryView)
    requires SameShapeInputs(v, w)
    ensures Shape(v) == Shape(w)
  {
  }

  /** The shape records whether ids and a limit were given. */
  lemma ShapeMarks(v: QueryView)
    ensures StartsWith(Shape(v), "IDS-") <==> HasIds(v)
    ensures v.originalLimit.Some? ==> EndsWith(Shape(v), "-LIMIT")
  {
    var s := Shape(v);
    if !HasIds(v) {
      assert s[0] == '-';
    }
  }

  // ---------------------------------------------------------------------------
  // The canonical text
  // ---------------------------------------------------------------------------

  /** `key=v1,v2;` for one criterion. */
  function CriterionText(e: (string, seq<Value>), fmt: DateFormats): string
  {
    e.0 + "=" + Join(seq(|e.1|, i requires 0 <= i < |e.1| => CriteriaValToStr(e.1[i], fmt)), ",") + ";"
  }

  /** The criteria part of the text, entry by entry in iteration order. */
  function CriteriaText(m: Entries<Value>, fmt: DateFormats): string
  {
    if |m| == 0 then "" else CriteriaText(m[..|m| - 1], fmt) + CriterionText(m[|m| - 1], fmt)
  }

  /** The ids joined by `,` or `-;` when there are none; a null id makes the
      joiner throw. */
  function IdsText(v: QueryView, fmt: DateFormats): (r: Result<string>)
    ensures !HasIds(v) ==> r == Ok("-;")
  {
    if HasIds(v) then JoinValues(v.ids.value, ",", fmt) else Ok("-;")
  }

  /** One `name=value` parameter of the text. */
  datatype Param = Param(name: string, value: string)

  function Opt(present: bool, name: string, value: string): (r: seq<Param>)
    ensures Names(r) == if present then [name] else []
    ensures Readable(Param(name, value)) ==> AllReadable(r)
  {
    if present then [Param(name, value)] else []
  }

  /** The parameters that follow `?`, in order. */
  function UrlParams(v: QueryView, limit: int): seq<Param>
  {
    Opt(true, "limit", DecimalString(limit))
    + (Opt(v.offset != 0, "offset", DecimalString(v.offset))
    + (Opt(v.fields.Some?, "fields", if v.fields.Some? then Join(v.fields.value, ",") else "")
    + (Opt(v.syncMatch.Some?, "syncMatch", if v.syncMatch.Some? then Join(v.syncMatch.value, ",") else "")
    + (Opt(!v.indexValidation, "indexValidation", "false")
    + Opt(v.order.Some?, "order", if v.order.Some? then v.order.value else "")))))
  }

  /** Each parameter as `name=value&`. */
  function ParamsText(ps: seq<Param>): string
  {
    if |ps| == 0 then "" else ps[0].name + "=" + ps[0].value + "&" + ParamsText(ps[1..])
  }

  /** `toUrlPart`: ids, criteria, then `?` and the parameters. The limit is
      unboxed, so an unset limit throws. */
  function UrlPart(v: QueryView, fmt: DateFormats): (r: Result<string>)
    ensures r.Ok? ==> v.limit.Some? && (HasIds(v) ==> VNull !in v.ids.value)
  {
    var head :- IdsText(v, fmt);
    var limit :- if v.limit.Some? then Ok(v.limit.value) else Err(NullPointer);
    Ok(head + (if v.criteria.Some? then CriteriaText(v.criteria.value, fmt) else "")
       + "?" + ParamsText(UrlParams(v, limit)))
  }

  /** With no ids the text starts with `-;`, directly followed by the first
      criterion. */
  lemma UrlPartWithoutIds(v: QueryView, fmt: DateFormats)
    requires !HasIds(v) && v.limit.Some?
    ensures UrlPart(v, fmt).Ok?
    ensures StartsWith(UrlPart(v, fmt).value, "-;")
    ensures v.criteria.Some? && |v.criteria.value| > 0 ==>
              StartsWith(UrlPart(v, fmt).value, "-;" + CriterionText(v.criteria.value[0], fmt))
  {
    var ps := ParamsText(UrlParams(v, v.limit.value));
    var c := if v.criteria.Some? then CriteriaText(v.criteria.value, fmt) else "";
    assert UrlPart(v, fmt) == Ok("-;" + c + "?" + ps);
    PrefixExtend("-;", "-;", c);
    PrefixExtend("-;", "-;" + c, "?");
    PrefixExtend("-;", "-;" + c + "?", ps);
    if v.criteria.Some? && |v.criteria.value| > 0 {
      var t := CriterionText(v.criteria.value[0], fmt);
      CriteriaTextFirst(v.criteria.value, fmt);
      PrefixPrepend("-;", t, c);
      PrefixExtend("-;" + t, "-;" + c, "?");
      PrefixExtend("-;" + t, "-;" + c + "?", ps);
    }
  }

  lemma PrefixExtend(p: string, s: string, tail: string)
    requires StartsWith(s, p)
    ensures StartsWith(s + tail, p)
  {
    assert (s + tail)[..|p|] == s[..|p|];
  }

  lemma PrefixPrepend(h: string, p: string, s: string)
    requires StartsWith(s, p)
    ensures StartsWith(h + s, h + p) && StartsWith(h + s, h)
  {
    assert (h + s)[..|h + p|] == h + s[..|p|];
    assert (h + s)[..|h|] == h;
  }

  lemma {:induction false} CriteriaTextFirst(m: Entries<Value>, fmt: DateFormats)
    requires |m| > 0
    ensures StartsWith(CriteriaText(m, fmt), CriterionText(m[0], fmt))
    decreases |m|
  {
    if |m| > 1 {
      var init := m[..|m| - 1];
      assert init[0] == m[0];
      assert init[..|init| - 1] == m[..|m| - 2];
      CriteriaTextFirst(init, fmt);
    }
  }

  /** The key of a `key=value` segment. */
  function SegmentKey(seg: string): string
  {
    Split(seg, '=')[0]
  }

  /** The keys of all segments but the last. */
  function SegmentKeys(segs: seq<string>): seq<string>
  {
    if |segs| <= 1 then [] else [SegmentKey(segs[0])] + SegmentKeys(segs[1..])
  }

  /** Reading the parameter keys back from the text after `?`: the segments
      between `&`s, the empty piece after the last `&` excluded. */
  function ParamKeys(query: string): seq<string>
  {
    SegmentKeys(Split(query, '&'))
  }

  function Names(ps: seq<Param>): seq<string>
  {
    if |ps| == 0 then [] else [ps[0].name] + Names(ps[1..])
  }

  lemma {:induction false} NamesConcat(a: seq<Param>, b: seq<Param>)
    ensures Names(a + b) == Names(a) + Names(b)
  {
    if |a| == 0 {
      assert a + b == b;
    } else {
      assert (a + b)[0] == a[0];
      assert (a + b)[1..] == a[1..] + b;
      NamesConcat(a[1..], b);
    }
  }

  /** A parameter the text can carry unambiguously. */
  predicate Readable(p: Param) {
    '=' !in p.name && '&' !in p.name && '&' !in p.value
  }

  predicate AllReadable(ps: seq<Param>) {
    |ps| == 0 || (Readable(ps[0]) && AllReadable(ps[1..]))
  }

  lemma {:induction false} AllReadableConcat(a: seq<Param>, b: seq<Param>)
    requires AllReadable(a) && AllReadable(b)
    ensures AllReadable(a + b)
  {
    if |a| == 0 {
      assert a + b == b;
    } else {
      assert (a + b)[0] == a[0];
      assert (a + b)[1..] == a[1..] + b;
      AllReadableConcat(a[1..], b);
    }
  }

  lemma KeyOfSegment(key: string, value: string)
    requires '=' !in key
    ensures SegmentKey(key + "=" + value) == key
  {
    Lang.SplitCons(key, '=', value);
    assert key + "=" + value == key + ['='] + value;
  }

  /** The keys read back are the names written. */
  lemma {:induction false} DecodeNames(ps: seq<Param>)
    requires AllReadable(ps)
    ensures ParamKeys(ParamsText(ps)) == Names(ps)
  {
    if |ps| > 0 {
      var p := ps[0];
      var seg := p.name + "=" + p.value;
      var rest := ParamsText(ps[1..]);
      DecodeNames(ps[1..]);
      assert '&' !in seg;
      assert ParamsText(ps) == seg + ['&'] + rest;
      Lang.SplitCons(seg, '&', rest);
      KeyOfSegment(p.name, p.value);
    }
  }

  lemma DecimalAvoids(n: int, c: char)
    requires !IsDigit(c) && c != '-'
    ensures c !in DecimalString(n)
  {
    if n < 0 {
      assert DecimalString(n) == "-" + NatDigits(-n);
    }
  }

  lemma {:induction false} JoinAvoids(parts: seq<string>, sep: string, c: char)
    requires c !in sep && forall i :: 0 <= i < |parts| ==> c !in parts[i]
    ensures c !in Join(parts, sep)
  {
    if |parts| > 1 {
      JoinAvoids(parts[1..], sep, c);
    }
  }

  /** Whether the values the query writes verbatim avoid `&`. */
  predicate AmpersandFree(v: QueryView) {
    && (v.fields.Some? ==> forall i :: 0 <= i < |v.fields.value| ==> '&' !in v.fields.value[i])
    && (v.syncMatch.Some? ==> forall i :: 0 <= i < |v.syncMatch.value| ==> '&' !in v.syncMatch.value[i])
    && (v.order.Some? ==> '&' !in v.order.value)
  }

  /** The parameter names avoid both separators. */
  lemma NamesAvoidSeparators()
    ensures '=' !in "limit" && '&' !in "limit"
    ensures '=' !in "offset" && '&' !in "offset"
    ensures '=' !in "fields" && '&' !in "fields"
    ensures '=' !in "syncMatch" && '&' !in "syncMatch"
    ensures '=' !in "indexValidation" && '&' !in "indexValidation"
    ensures '=' !in "order" && '&' !in "order"
    ensures '&' !in "false"
  {
  }

  lemma OptReadable(present: bool, name: string, value: string)
    requires '=' !in name && '&' !in name && '&' !in value
    ensures AllReadable(Opt(present, name, value))
  {
  }

  lemma UrlParamsReadable(v: QueryView, limit: int)
    requires AmpersandFree(v)
    ensures AllReadable(UrlParams(v, limit))
  {
    var fs := if v.fields.Some? then Join(v.fields.value, ",") else "";
    var ss := if v.syncMatch.Some? then Join(v.syncMatch.value, ",") else "";
    var os := if v.order.Some? then v.order.value else "";
    NamesAvoidSeparators();
    DecimalAvoids(limit, '&');
    DecimalAvoids(v.offset, '&');
    if v.fields.Some? { JoinAvoids(v.fields.value, ",", '&'); }
    if v.syncMatch.Some? { JoinAvoids(v.syncMatch.value, ",", '&'); }
    OptReadable(true, "limit", DecimalString(limit));
    OptReadable(v.offset != 0, "offset", DecimalString(v.offset));
    OptReadable(v.fields.Some?, "fields", fs);
    OptReadable(v.syncMatch.Some?, "syncMatch", ss);
    OptReadable(!v.indexValidation, "indexValidation", "false");
    OptReadable(v.order.Some?, "order", os);
    SixReadable(Opt(true, "limit", DecimalString(limit)),
      Opt(v.offset != 0, "offset", DecimalString(v.offset)),
      Opt(v.fields.Some?, "fields", fs),
      Opt(v.syncMatch.Some?, "syncMatch", ss),
      Opt(!v.indexValidation, "indexValidation", "false"),
      Opt(v.order.Some?, "order", os));
  }

  lemma SixReadable(a: seq<Param>, b: seq<Param>, c: seq<Param>, d: seq<Param>, e: seq<Param>, f: seq<Param>)
    requires AllReadable(a) && AllReadable(b) && AllReadable(c)
    requires AllReadable(d) && AllReadable(e) && AllReadable(f)
    ensures AllReadable(a + (b + (c + (d + (e + f)))))
  {
    AllReadableConcat(e, f);
    AllReadableConcat(d, e + f);
    AllReadableConcat(c, d + (e + f));
    AllReadableConcat(b, c + (d + (e + f)));
    AllReadableConcat(a, b + (c + (d + (e + f))));
  }

  /** Reading back the parameters: the limit always comes first, the offset
      appears exactly when it is non-zero, `indexValidation` exactly when
      validation is off, fields, syncMatch and order exactly when set, and
      neither groupBy nor countTotalItems ever appears (so the text does not
      determine the query). */
  lemma ParamKeysOfUrl(v: QueryView, limit: int)
    requires AmpersandFree(v)
    ensures var keys := ParamKeys(ParamsText(UrlParams(v, limit)));
            && |keys| > 0 && keys[0] == "limit"
            && ("offset" in keys <==> v.offset != 0)
            && ("fields" in keys <==> v.fields.Some?)
            && ("syncMatch" in keys <==> v.syncMatch.Some?)
            && ("indexValidation" in keys <==> !v.indexValidation)
            && ("order" in keys <==> v.order.Some?)
            && "groupBy" !in keys && "countTotalItems" !in keys
  {
    UrlParamsReadable(v, limit);
    DecodeNames(UrlParams(v, limit));
    UrlParamNames(v, limit);
    ParamNamesMembers(v);
  }

  lemma ParamNamesMembers(v: QueryView)
    ensures var keys := ParamNames(v);
            && |keys| > 0 && keys[0] == "limit"
            && ("offset" in keys <==> v.offset != 0)
            && ("fields" in keys <==> v.fields.Some?)
            && ("syncMatch" in keys <==> v.syncMatch.Some?)
            && ("indexValidation" in keys <==> !v.indexValidation)
            && ("order" in keys <==> v.order.Some?)
            && "groupBy" !in keys && "countTotalItems" !in keys
  {
    NameLiteralsDistinct();
    InOpts("offset", v);
    InOpts("fields", v);
    InOpts("syncMatch", v);
    InOpts("indexValidation", v);
    InOpts("order", v);
    InOpts("groupBy", v);
    InOpts("countTotalItems", v);
  }

  /** A name is written iff it is `limit` or the name of a parameter present. */
  lemma InOpts(x: string, v: QueryView)
    ensures x in ParamNames(v) <==>
      || x == "limit"
      || (v.offset != 0 && x == "offset")
      || (v.fields.Some? && x == "fields")
      || (v.syncMatch.Some? && x == "syncMatch")
      || (!v.indexValidation && x == "indexValidation")
      || (v.order.Some? && x == "order")
  {
  }

  /** The parameter names, and those never written, are pairwise different. */
  lemma NameLiteralsDistinct()
    ensures "limit" != "order" && "offset" != "fields" && "indexValidation" != "countTotalItems"
    ensures |"limit"| == 5 && |"order"| == 5 && |"offset"| == 6 && |"fields"| == 6
    ensures |"syncMatch"| == 9 && |"groupBy"| == 7 && |"indexValidation"| == 15 && |"countTotalItems"| == 15
  {
  }

  /** The names the parameters are written under, in order. */
  function ParamNames(v: QueryView): seq<string>
  {
    ["limit"]
    + ((if v.offset != 0 then ["offset"] else [])
    + ((if v.fields.Some? then ["fields"] else [])
    + ((if v.syncMatch.Some? then ["syncMatch"] else [])
    + ((if !v.indexValidation then ["indexValidation"] else [])
    + (if v.order.Some? then ["order"] else [])))))
  }

  lemma UrlParamNames(v: QueryView, limit: int)
    ensures Names(UrlParams(v, limit)) == ParamNames(v)
  {
    var fs := if v.fields.Some? then Join(v.fields.value, ",") else "";
    var ss := if v.syncMatch.Some? then Join(v.syncMatch.value, ",") else "";
    var os := if v.order.Some? then v.order.value else "";
    SixNames(Opt(true, "limit", DecimalString(limit)),
      Opt(v.offset != 0, "offset", DecimalString(v.offset)),
      Opt(v.fields.Some?, "fields", fs),
      Opt(v.syncMatch.Some?, "syncMatch", ss),
      Opt(!v.indexValidation, "indexValidation", "false"),
      Opt(v.order.Some?, "order", os));
  }

  lemma SixNames(a: seq<Param>, b: seq<Param>, c: seq<Param>, d: seq<Param>, e: seq<Param>, f: seq<Param>)
    ensures Names(a + (b + (c + (d + (e + f))))) == Names(a) + (Names(b) + (Names(c) + (Names(d) + (Names(e) + Names(f)))))
  {
    NamesConcat(e, f);
    NamesConcat(d, e + f);
    NamesConcat(c, d + (e + f));
    NamesConcat(b, c + (d + (e + f)));
    NamesConcat(a, b + (c + (d + (e + f))));
  }

  // ---------------------------------------------------------------------------
  // Equality and hashing
  // ---------------------------------------------------------------------------

  /** `equals`: two queries are equal iff their canonical texts are. */
  function Equals(a: QueryView, b: QueryView, fmt: DateFormats): (r: Result<bool>)
    ensures r.Ok? <==> UrlPart(a, fmt).Ok? && UrlPart(b, fmt).Ok?
    ensures r.Ok? ==> (r.value <==> UrlPart(a, fmt).value == UrlPart(b, fmt).value)
  {
    var ta :- UrlPart(a, fmt);
    var tb :- UrlPart(b, fmt);
    Ok(ta == tb)
  }

  /** `hashCode`: the string hash of the canonical text. */
  function HashCode(v: QueryView, fmt: DateFormats): (r: Result<Int32>)
    ensures r.Ok? <==> UrlPart(v, fmt).Ok?
  {
    var t :- UrlPart(v, fmt);
    Ok(StringHash(t))
  }

  /** Equal queries hash alike. */
  lemma EqualsHashCode(a: QueryView, b: QueryView, fmt: DateFormats)
    requires Equals(a, b, fmt) == Ok(true)
    ensures HashCode(a, fmt) == HashCode(b, fmt)
  {
  }

  /** The text leaves out groupBy, countTotalItems, countOnly and the shape, so
      queries that differ only there are equal. */
  lemma EqualsIgnoresGrouping(v: QueryView, groupBy: Option<string>, countTotal: bool, fmt: DateFormats)
    requires UrlPart(v, fmt).Ok?
    ensures Equals(v, v.(groupBy := groupBy, countTotalItems := countTotal), fmt) == Ok(true)
  {
    var w := v.(groupBy := groupBy, countTotalItems := countTotal);
    assert UrlParams(v, v.limit.value) == UrlParams(w, w.limit.value);
  }
}
