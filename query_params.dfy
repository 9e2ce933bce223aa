/** Default parameters a query is built with (ServiceQueryParams and
    ServiceQueryParamsImpl). */
module QueryParams {
  import opened Errors
  import opened Lang
  import opened Values
  import opened Multimaps

  /** The defaults a query builder applies: a limit, a field set and criteria
      (a list multimap, so duplicates are kept). */
  datatype QueryParams = QueryParams(
    defaultLimit: Int32,
    defaultFields: Option<seq<string>>,
    defaultCriteria: Option<Entries<Value>>)

  /** A freshly created ServiceQueryParamsImpl. */
  const InitialParams: QueryParams := QueryParams(10000, None, None)

  /** `ALL_QUERY_PARAMS`: no effective limit, every field. */
  const AllQueryParams: QueryParams := QueryParams(IntMax, Some(["*"]), None)

  /** `DEFAULT_QUERY_PARAMS`: 100 items, every field. */
  const DefaultQueryParams: QueryParams := QueryParams(100, Some(["*"]), None)

  /** ServiceQueryParamsImpl: the mutable parameter object a builder fills. */
  class ParamsImpl {
    var defaultLimit: Int32
    var defaultFields: Option<seq<string>>
    var defaultCriteria: Option<Entries<Value>>

    function View(): QueryParams
      reads this
    {
      QueryParams(defaultLimit, defaultFields, defaultCriteria)
    }

    constructor ()
      ensures View() == InitialParams
    {
      defaultLimit := 10000;
      defaultFields := None;
      defaultCriteria := None;
    }
  }

  /** ServiceQueryParamsImpl.Builder: every setter writes one field of the held
      parameter object. */
  class ParamsBuilder {
    const params: ParamsImpl

    constructor ()
      ensures fresh(params) && params.View() == InitialParams
    {
      params := new ParamsImpl();
    }

    method DefaultLimit(limit: Int32)
      modifies params
      ensures params.View() == old(params.View()).(defaultLimit := limit)
    {
      params.defaultLimit := limit;
    }

    /** The given set, held unmodifiable; wrapping a null set throws a
        NullPointerException and leaves the parameters as they were. */
    method DefaultFields(fields: Option<seq<string>>) returns (o: Outcome)
      requires fields.Some? ==> Distinct(fields.value)
      modifies params
      ensures o.Fail? <==> fields.None?
      ensures o.Fail? ==> o.failure == NullPointer
      ensures params.View() == if fields.Some? then old(params.View()).(defaultFields := fields) else old(params.View())
    {
      if fields.None? {
        return Fail(NullPointer);
      }
      params.defaultFields := fields;
      o := Pass;
    }

    method DefaultCriteria(criteria: Option<Entries<Value>>)
      modifies params
      ensures params.View() == old(params.View()).(defaultCriteria := criteria)
    {
      params.defaultCriteria := criteria;
    }

    /** The first call creates the criteria; every call appends the values under
      the key, keeping duplicates. */
    method AddDefaultCriteriaItem(key: string, values: seq<Value>)
      modifies params
      ensures params.View() == old(params.View()).(defaultCriteria :=
        Some(ListPutAll(if old(params.defaultCriteria).Some? then old(params.defaultCriteria).value else [], key, values)))
    {
      if params.defaultCriteria.None? {
        params.defaultCriteria := Some([]);
      }
      params.defaultCriteria := Some(ListPutAll(params.defaultCriteria.value, key, values));
    }

    /** The accumulated parameter object itself, not a copy. */
    method Build() returns (p: ParamsImpl)
      ensures p == params
    {
      p := params;
    }
  }

  /** How the two presets are made: a new builder, a limit and the field set
      `{"*"}`. */
  method MakePreset(limit: Int32) returns (p: ParamsImpl)
    ensures fresh(p)
    ensures p.View() == QueryParams(limit, Some(["*"]), None)
  {
    var b := new ParamsBuilder();
    b.DefaultLimit(limit);
    var _ := b.DefaultFields(Some(["*"]));
    p := b.Build();
  }

  /** A list multimap grown only by `addDefaultCriteriaItem` keeps every value
      given for a key, in call order, duplicates included. */
  lemma {:induction false} AddedItemsKept(m: Entries<Value>, key: string, a: seq<Value>, b: seq<Value>)
    ensures Get(ListPutAll(ListPutAll(m, key, a), key, b), key) == Get(m, key) + a + b
  {
    ListPutAllGet(m, key, a, key);
    ListPutAllGet(ListPutAll(m, key, a), key, b, key);
  }
}
