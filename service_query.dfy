/** The ServiceQuery object and its builder: the builder updates one query in
    place, and `build` applies the default parameters and computes the shape.
    Each method is specified by the corresponding function of QuerySpec. */
module Queries {
  import opened Errors
  import opened Lang
  import opened Values
  import opened Multimaps
  import opened QueryParams
  import opened QuerySpec

  /** The outcome of a builder step that may throw. */
  function StepOutcome(r: Result<QueryView>): (o: Outcome)
    ensures o.Pass? <==> r.Ok?
    ensures r.Err? ==> o.failure == r.failure
  {
    if r.Ok? then Pass else Fail(r.failure)
  }

  /** The query after a builder step: unchanged when the step threw. */
  function After(v: QueryView, r: Result<QueryView>): QueryView
  {
    if r.Ok? then r.value else v
  }

  class ServiceQuery {
    var limit: Option<Int32>
    var originalLimit: Option<Int32>
    var offset: Int32
    var countTotalItems: bool
    var order: Option<string>
    var fields: Option<seq<string>>
    var ids: Option<seq<Value>>
    var criteria: Option<Entries<Value>>
    var indexValidation: bool
    var groupBy: Option<string>
    var countOnly: bool
    var syncMatch: Option<seq<string>>
    var queryShape: Option<string>

    function View(): QueryView
      reads this
    {
      QueryView(limit, originalLimit, offset, countTotalItems, order, fields, ids,
        criteria, indexValidation, groupBy, countOnly, syncMatch, queryShape)
    }

    constructor ()
      ensures View() == NewQuery
    {
      limit := None;
      originalLimit := None;
      offset := 0;
      countTotalItems := true;
      order := None;
      fields := None;
      ids := None;
      criteria := None;
      indexValidation := true;
      groupBy := None;
      countOnly := false;
      syncMatch := None;
      queryShape := None;
    }

    /** `toUrlPart` (and `toString`). */
    method ToUrlPart(fmt: DateFormats) returns (r: Result<string>)
      ensures r == UrlPart(View(), fmt)
    {
      var v := View();
      var sb: string;
      if ids.Some? && |ids.value| > 0 {
        var joined := JoinValues(ids.value, ",", fmt);
        if joined.Err? {
          return Err(joined.failure);
        }
        sb := joined.value;
      } else {
        sb := "-;";
      }
      if criteria.Some? {
        sb := AppendCriteria(sb, criteria.value, fmt);
      } else {
        assert sb == sb + "";
      }
      sb := sb + "?";
      if limit.None? {
        return Err(NullPointer);
      }
      sb := AppendParams(sb);
      r := Ok(sb);
    }

    /** The criteria loop of `toUrlPart`: `key=v1,v2;` per entry, in order. */
    static method AppendCriteria(sb0: string, m: Entries<Value>, fmt: DateFormats) returns (sb: string)
      ensures sb == sb0 + CriteriaText(m, fmt)
    {
      sb := sb0;
      var i := 0;
      while i < |m|
        invariant 0 <= i <= |m|
        invariant sb == sb0 + CriteriaText(m[..i], fmt)
      {
        assert m[..i + 1][..i] == m[..i];
        sb := sb + CriterionText(m[i], fmt);
        i := i + 1;
      }
      assert m[..|m|] == m;
    }

    /** The `name=value&` parameters appended in order, each when present. */
    method AppendParams(sb0: string) returns (sb: string)
      requires limit.Some?
      ensures sb == sb0 + ParamsText(UrlParams(View(), limit.value))
    {
      var v := View();
      var fs := if fields.Some? then Join(fields.value, ",") else "";
      var ss := if syncMatch.Some? then Join(syncMatch.value, ",") else "";
      var os := if order.Some? then order.value else "";
      KeyLiterals();
      sb := sb0 + "limit=" + DecimalString(limit.value) + "&";
      OptText(sb0, true, "limit=", "limit", DecimalString(limit.value));
      ghost var p1 := sb;
      if offset != 0 {
        sb := sb + "offset=" + DecimalString(offset) + "&";
      }
      OptText(p1, offset != 0, "offset=", "offset", DecimalString(offset));
      ghost var p2 := sb;
      if fields.Some? {
        sb := sb + "fields=" + Join(fields.value, ",") + "&";
      }
      OptText(p2, fields.Some?, "fields=", "fields", fs);
      ghost var p3 := sb;
      if syncMatch.Some? {
        sb := sb + "syncMatch=" + Join(syncMatch.value, ",") + "&";
      }
      OptText(p3, syncMatch.Some?, "syncMatch=", "syncMatch", ss);
      ghost var p4 := sb;
      if !indexValidation {
        sb := sb + "indexValidation=false&";
      }
      IndexValidationText(p4);
      OptText(p4, !indexValidation, "indexValidation=", "indexValidation", "false");
      ghost var p5 := sb;
      if order.Some? {
        sb := sb + "order=" + order.value + "&";
      }
      OptText(p5, order.Some?, "order=", "order", os);
      UrlParamsText(v, limit.value, sb0, sb);
    }

    /** `calculateQueryShape`. */
    method CalculateQueryShape()
      modifies this
      ensures View() == old(View()).(queryShape := Some(Shape(old(View()))))
    {
      queryShape := Some(Shape(View()));
    }

    /** `equals`: the canonical texts compared. */
    method Equals(other: ServiceQuery, fmt: DateFormats) returns (r: Result<bool>)
      ensures r == QuerySpec.Equals(View(), other.View(), fmt)
    {
      var mine := ToUrlPart(fmt);
      if mine.Err? {
        return Err(mine.failure);
      }
      var theirs := other.ToUrlPart(fmt);
      if theirs.Err? {
        return Err(theirs.failure);
      }
      r := Ok(mine.value == theirs.value);
    }

    /** `hashCode`: the string hash of the canonical text. */
    method HashCode(fmt: DateFormats) returns (r: Result<Int32>)
      ensures r == QuerySpec.HashCode(View(), fmt)
    {
      var text := ToUrlPart(fmt);
      if text.Err? {
        return Err(text.failure);
      }
      r := Ok(StringHash(text.value));
    }
  }

  /** The text of a parameter when present. */
  function Segment(present: bool, name: string, value: string): string
  {
    if present then name + "=" + value + "&" else ""
  }

  lemma OptText(sb: string, present: bool, key: string, name: string, value: string)
    requires key == name + "="
    ensures (if present then sb + key + value + "&" else sb) == sb + Segment(present, name, value)
  {
  }

  lemma SegmentText(present: bool, name: string, value: string)
    ensures ParamsText(Opt(present, name, value)) == Segment(present, name, value)
  {
    if present {
      assert Opt(present, name, value)[1..] == [];
    }
  }

  lemma KeyLiterals()
    ensures "limit=" == "limit" + "=" && "offset=" == "offset" + "=" && "fields=" == "fields" + "="
    ensures "syncMatch=" == "syncMatch" + "=" && "indexValidation=" == "indexValidation" + "="
    ensures "order=" == "order" + "="
  {
  }

  lemma IndexValidationText(sb: string)
    ensures sb + "indexValidation=false&" == sb + "indexValidation=" + "false" + "&"
  {
  }

  lemma {:induction false} ParamsTextConcat(a: seq<Param>, b: seq<Param>)
    ensures ParamsText(a + b) == ParamsText(a) + ParamsText(b)
  {
    if |a| == 0 {
      assert a + b == b;
    } else {
      assert (a + b)[0] == a[0];
      assert (a + b)[1..] == a[1..] + b;
      ParamsTextConcat(a[1..], b);
    }
  }

  /** The text of the parameters is that of each present one, in order. */
  lemma UrlParamsText(v: QueryView, limit: int, sb0: string, sb: string)
    requires sb == sb0
      + Segment(true, "limit", DecimalString(limit))
      + Segment(v.offset != 0, "offset", DecimalString(v.offset))
      + Segment(v.fields.Some?, "fields", if v.fields.Some? then Join(v.fields.value, ",") else "")
      + Segment(v.syncMatch.Some?, "syncMatch", if v.syncMatch.Some? then Join(v.syncMatch.value, ",") else "")
      + Segment(!v.indexValidation, "indexValidation", "false")
      + Segment(v.order.Some?, "order", if v.order.Some? then v.order.value else "")
    ensures sb == sb0 + ParamsText(UrlParams(v, limit))
  {
    var a := Opt(true, "limit", DecimalString(limit));
    var b := Opt(v.offset != 0, "offset", DecimalString(v.offset));
    var c := Opt(v.fields.Some?, "fields", if v.fields.Some? then Join(v.fields.value, ",") else "");
    var d := Opt(v.syncMatch.Some?, "syncMatch", if v.syncMatch.Some? then Join(v.syncMatch.value, ",") else "");
    var e := Opt(!v.indexValidation, "indexValidation", "false");
    var f := Opt(v.order.Some?, "order", if v.order.Some? then v.order.value else "");
    SegmentText(true, "limit", DecimalString(limit));
    SegmentText(v.offset != 0, "offset", DecimalString(v.offset));
    SegmentText(v.fields.Some?, "fields", if v.fields.Some? then Join(v.fields.value, ",") else "");
    SegmentText(v.syncMatch.Some?, "syncMatch", if v.syncMatch.Some? then Join(v.syncMatch.value, ",") else "");
    SegmentText(!v.indexValidation, "indexValidation", "false");
    SegmentText(v.order.Some?, "order", if v.order.Some? then v.order.value else "");
    SixText(a, b, c, d, e, f);
    Assoc7(sb0, ParamsText(a), ParamsText(b), ParamsText(c), ParamsText(d), ParamsText(e), ParamsText(f));
  }

  lemma SixText(a: seq<Param>, b: seq<Param>, c: seq<Param>, d: seq<Param>, e: seq<Param>, f: seq<Param>)
    ensures ParamsText(a + (b + (c + (d + (e + f))))) ==
      ParamsText(a) + (ParamsText(b) + (ParamsText(c) + (ParamsText(d) + (ParamsText(e) + ParamsText(f)))))
  {
    ParamsTextConcat(e, f);
    ParamsTextConcat(d, e + f);
    ParamsTextConcat(c, d + (e + f));
    ParamsTextConcat(b, c + (d + (e + f)));
    ParamsTextConcat(a, b + (c + (d + (e + f))));
  }

  lemma Assoc7(s: string, a: string, b: string, c: string, d: string, e: string, f: string)
    ensures s + a + b + c + d + e + f == s + (a + (b + (c + (d + (e + f)))))
  {
  }

  class ServiceQueryBuilder {
    const query: ServiceQuery
    var serviceQueryParams: QueryParams

    /** A builder over a fresh query, with all-query parameters. */
    constructor ()
      ensures fresh(query)
      ensures query.View() == NewQuery
      ensures serviceQueryParams == AllQueryParams
    {
      query := new ServiceQuery();
      serviceQueryParams := AllQueryParams;
    }

    method Offset(offset: Option<Int32>) returns (o: Outcome)
      modifies query
      ensures o == StepOutcome(SetOffset(old(query.View()), offset))
      ensures query.View() == After(old(query.View()), SetOffset(old(query.View()), offset))
    {
      if offset.Some? {
        if offset.value < 0 {
          return Fail(RestDsl(DefaultType));
        }
        query.offset := offset.value;
      }
      return Pass;
    }

    method Limit(limit: Option<Int32>) returns (o: Outcome)
      modifies query
      ensures o == StepOutcome(SetLimit(old(query.View()), limit))
      ensures query.View() == After(old(query.View()), SetLimit(old(query.View()), limit))
    {
      if limit.Some? {
        if limit.value < 0 {
          return Fail(RestDsl(QueryError));
        }
        query.limit := limit;
      }
      query.originalLimit := query.limit;
      return Pass;
    }

    method Fields(fields: Option<seq<string>>)
      modifies query
      ensures query.View() == SetFields(old(query.View()), fields)
    {
      if fields.Some? {
        query.fields := Some(Dedup(fields.value));
      }
    }

    method SyncMatch(syncMatch: Option<seq<string>>)
      modifies query
      ensures query.View() == SetSyncMatch(old(query.View()), syncMatch)
    {
      if syncMatch.Some? {
        query.syncMatch := Some(Dedup(syncMatch.value));
      }
    }

    method IndexValidation(indexValidation: Option<bool>)
      modifies query
      ensures query.View() ==
        old(query.View()).(indexValidation := if indexValidation.Some? then indexValidation.value else old(query.indexValidation))
    {
      if indexValidation.Some? {
        query.indexValidation := indexValidation.value;
      }
    }

    method Order(order: Option<string>)
      modifies query
      ensures query.View() == old(query.View()).(order := order)
    {
      query.order := order;
    }

    method GroupBy(groupBy: Option<string>)
      modifies query
      ensures query.View() == old(query.View()).(groupBy := groupBy)
    {
      query.groupBy := groupBy;
    }

    /** `id`: a single id, possibly null. */
    method Id(id: Value)
      modifies query
      ensures query.View() == old(query.View()).(ids := Some([id]))
    {
      query.ids := Some([id]);
    }

    /** `ids`: copying a null iterable throws. */
    method Ids(ids: Option<seq<Value>>) returns (o: Outcome)
      modifies query
      ensures o == (if ids.None? then Fail(NullPointer) else Pass)
      ensures query.View() == if ids.None? then old(query.View()) else old(query.View()).(ids := ids)
    {
      if ids.None? {
        return Fail(NullPointer);
      }
      query.ids := ids;
      return Pass;
    }

    method CountTotalItems(countTotalItems: Option<bool>)
      modifies query
      ensures query.View() ==
        old(query.View()).(countTotalItems := if countTotalItems.Some? then countTotalItems.value else old(query.countTotalItems))
    {
      if countTotalItems.Some? {
        query.countTotalItems := countTotalItems.value;
      }
    }

    method WithCriteria(key: string, values: Option<seq<Value>>) returns (o: Outcome)
      modifies query
      ensures o == StepOutcome(QuerySpec.WithCriteria(old(query.View()), key, values))
      ensures query.View() == After(old(query.View()), QuerySpec.WithCriteria(old(query.View()), key, values))
    {
      if values.None? || values.value == [] {
        return Fail(RestDsl(QueryError));
      }
      if query.criteria.None? {
        query.criteria := Some([]);
      }
      query.criteria := Some(PutAll(query.criteria.value, key, values.value));
      return Pass;
    }

    /** `withCriterion`: one value. */
    method WithCriterion(key: string, value: Value) returns (o: Outcome)
      modifies query
      ensures o == Pass
      ensures query.View() == QuerySpec.WithCriteria(old(query.View()), key, Some([value])).value
    {
      o := WithCriteria(key, Some([value]));
    }

    method WithServiceQueryParams(params: ParamsImpl)
      modifies this
      ensures serviceQueryParams == params.View()
    {
      serviceQueryParams := params.View();
    }

    /** `build`: applies the parameters, computes the shape and hands out the
        query itself. */
    method Build() returns (q: ServiceQuery)
      modifies query
      ensures q == query
      ensures query.View() == QuerySpec.Build(old(query.View()), serviceQueryParams)
    {
      ApplyServiceQueryParams();
      query.CalculateQueryShape();
      q := query;
    }

    /** The merge loop: each default key absent from the criteria is put
        with its default values. */
    static method MergeDefaultsLoop(c: Entries<Value>, d: Entries<Value>) returns (combined: Entries<Value>)
      ensures combined == MergeDefaults(c, d)
    {
      combined := c;
      var i := 0;
      while i < |d|
        invariant 0 <= i <= |d|
        invariant MergeDefaults(combined, d[i..]) == MergeDefaults(c, d)
      {
        assert d[i..][1..] == d[i + 1..];
        if !ContainsKey(combined, d[i].0) {
          combined := PutAll(combined, d[i].0, d[i].1);
        }
        i := i + 1;
      }
      assert d[|d|..] == [];
    }

    /** The `$any` removal loop: entries bound to `$any` alone are dropped. */
    static method DropAnyOnlyLoop(combined: Entries<Value>) returns (kept: Entries<Value>)
      ensures kept == DropAnyOnly(combined)
    {
      kept := [];
      var j := 0;
      while j < |combined|
        invariant 0 <= j <= |combined|
        invariant kept + DropAnyOnly(combined[j..]) == DropAnyOnly(combined)
      {
        DropAnyOnlyFrom(combined, j);
        if !AnyOnly(combined[j]) {
          kept := kept + [combined[j]];
        }
        j := j + 1;
      }
      assert kept + [] == kept;
    }

    /** The new values `applyServiceQueryParams` computes: the merge and the
        `$any` removal run as loops over the entries. */
    static method ApplyParamsTo(v: QueryView, p: QueryParams) returns (nv: QueryView)
      ensures nv == ApplyParams(v, p)
    {
      var crit := v.criteria;
      if HasDefaultCriteria(p) {
        var combined := MergeDefaultsLoop(if v.criteria.Some? then v.criteria.value else [], p.defaultCriteria.value);
        var kept := DropAnyOnlyLoop(combined);
        crit := Some(kept);
      }
      var flds := if v.fields.None? then p.defaultFields else v.fields;
      var cnt := if v.limit.Some? && v.limit.value == 0 then true else v.countOnly;
      var curLimit := if v.limit.None? then p.defaultLimit else v.limit.value;
      var lim := Some(if curLimit > MaxLimit || curLimit < 0 then MaxLimit else curLimit);
      nv := v.(criteria := crit, fields := flds, countOnly := cnt, limit := lim);
    }

    /** `applyServiceQueryParams`: the criteria, fields, count-only flag and
        limit of the query are replaced with the computed ones. */
    method ApplyServiceQueryParams()
      modifies query
      ensures query.View() == ApplyParams(old(query.View()), serviceQueryParams)
    {
      var q := query;
      var nv := ApplyParamsTo(q.View(), serviceQueryParams);
      q.criteria, q.fields, q.countOnly, q.limit := nv.criteria, nv.fields, nv.countOnly, nv.limit;
    }
  }

  /** `ServiceQuery.all()`. */
  method All() returns (q: ServiceQuery)
    ensures fresh(q)
    ensures q.View() == QuerySpec.Build(NewQuery, AllQueryParams)
  {
    var b := new ServiceQueryBuilder();
    q := b.Build();
  }

  /** `ServiceQuery.byId(id)`. */
  method ById(id: Value) returns (q: ServiceQuery)
    ensures fresh(q)
    ensures q.View() == QuerySpec.Build(NewQuery.(ids := Some([id])), AllQueryParams)
  {
    var b := new ServiceQueryBuilder();
    var _ := b.Ids(Some([id]));
    q := b.Build();
  }

  /** `ServiceQuery.byIds(ids)`. */
  method ByIds(ids: Option<seq<Value>>) returns (r: Result<ServiceQuery>)
    ensures ids.None? <==> r.Err?
    ensures r.Err? ==> r.failure == NullPointer
    ensures r.Ok? ==> fresh(r.value) && r.value.View() == QuerySpec.Build(NewQuery.(ids := ids), AllQueryParams)
  {
    var b := new ServiceQueryBuilder();
    var o := b.Ids(ids);
    if o.Fail? {
      return Err(o.failure);
    }
    var q := b.Build();
    r := Ok(q);
  }

  /** `ServiceQuery.byCriteria(key, value)`. */
  method ByCriteria(key: string, value: Value) returns (q: ServiceQuery)
    ensures fresh(q)
    ensures q.View() == QuerySpec.Build(NewQuery.(criteria := Some([(key, [value])])), AllQueryParams)
  {
    var b := new ServiceQueryBuilder();
    var _ := b.WithCriteria(key, Some([value]));
    assert PutAll([], key, [value]) == [(key, [value])] by {
      assert AddAll([], [value]) == AddAll([value], []);
    }
    q := b.Build();
  }

  /** The built all-query: limit 10000, every field, no criteria, shape `-`. */
  lemma AllQuery()
    ensures var q := QuerySpec.Build(NewQuery, AllQueryParams);
            && q.limit == Some(MaxLimit) && q.fields == Some(["*"]) && q.criteria.None?
            && !q.countOnly && q.queryShape == Some("-")
  {
    var a := ApplyParams(NewQuery, AllQueryParams);
    assert !HasIds(a) && a.criteria.None? && a.order.None? && a.groupBy.None?;
    assert a.syncMatch.None? && a.originalLimit.None?;
    assert Shape(a) == "-" + "" + "" + "" + "" + "";
    assert "-" + "" + "" + "" + "" + "" == "-";
    assert a.limit == Some(MaxLimit);
  }
}
