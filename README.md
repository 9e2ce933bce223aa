# A verified model of restler's query DSL

restler turns REST requests into queries against a MongoDB store. A client
writes a `ServiceQuery` with a builder, or has one parsed from a request path
such as `/accounts/1;name=x;year__gt=2000?limit=5&fields=name,-email`. The
query holds ids, criteria, fields, order, offset, limit, `groupBy` and
`syncMatch`. A DAO validates the query against the entity's indexes,
translates it into storage filters and find options, and runs it. Results come
back as a page, a keyed map or grouped pages inside an `EntityResult`. PATCH
requests diff the submitted entity against the stored one and write back only
the changes.

This project models that core in Dafny and proves what each part promises.

- **ServiceQuery and its builder** (`QuerySpec`, `Queries`). Each builder step
  is a method on a mutable query. Its contract is a function on an immutable
  view of the query. `build` merges the default parameters, removes `$any`-only
  criteria and computes the query shape. The canonical text (`toUrlPart`) writes
  the ids and criteria into its path part, then `limit` and each present
  `offset`, `indexValidation`, `fields`, `syncMatch` and `order` parameter
  under its own name, in a form whose names can be read back; `groupBy` and
  `countTotalItems` are not written. `equals`/`hashCode` are defined by that
  text.
- **Default parameters** (`QueryParams`), **reserved tokens** `$null`, `$any`
  and `$exists` (`ReservedValues`), and **criteria keys** `name__op`, with
  their bare field names (`QueryUtil`).
- **Request parsing** (`Requests`). Query parameters, an id list and matrix
  criteria are read from a path segment and coerced to the types of an entity
  schema (`TypeInfo`). Coercion consults a custom-converter registry. Dotted
  field expressions are walked through the schema.
- **Index information** (`IndexInfo`). The entity's indexes are translated to
  Java field names, together with the set of their leading prefixes that decide
  whether a query is index-safe.
- **The two Mongo DAOs** (`BaseDao`, `ServiceDao`). Each DAO does the
  following:
  - validates the query: it must be index-safe and the limit must be within
    its bound;
  - translates criteria into range, comparison, null, multi-value, id and
    `$elemMatch` filters;
  - translates field selections into projections and the sort string into an
    order;
  - runs `get`, `getOne`, `count` and the grouped execution of `groupBy`.

  Only `MongoBaseServiceDao.get` refuses `groupBy` unless grouping was
  enabled (`allowGroupBy`); `MongoServiceDao.get` has no such gate.
  `MongoServiceDao` adds `delete` and `patch`. Its `validateQuery` and
  `isSafeQuery` have the same bodies as those of `MongoBaseServiceDao`, and its
  `getTotalItemsCnt` takes the same steps on the limit and offset of the
  Morphia query instead of those of the ServiceQuery. The three are modelled
  once, in `BaseDao`; `TotalItemsCnt` takes the limit and offset as arguments,
  and each DAO passes the ones it reads. Storage is
  abstract: a function from a filter list to the matching documents, in
  storage order.
- **Result containers** (`Results`). `EntityResult`'s lazily chosen container
  is a field that is assigned once.
- **The PATCH pipeline**:
  - `BeanUtils` (`Beans`): accessor names, `merge`, `shallowDifferences`,
    `patch` and `getNonNullFields`, as loops over property descriptors;
  - `PatchContext` (`PatchContexts`);
  - `RestlerPreconditions` (`Preconditions`);
  - `ServiceModel.patch` (`Models`).
- **Service helpers**:
  - the exception mapper's status, name and cause-chain descriptions
    (`ExceptionMapper`);
  - the log-safe `stripPassword` of the Mongo client builder (`MongoClient`);
  - the time-offset rewrite of the RFC 3339 date deserializer (`Rfc3339`), with
    the offset form of section 5.6 of RFC 3339.

Java `null` is `Option.None`, or the `VNull` value inside criteria. A thrown
exception is the `Err` branch of a `Result`. Java `int` and `long` bounds are
explicit where the source depends on them. Hash-ordered sets and maps that the
source iterates are sequences without duplicates, in iteration order.

## Model

| member | source | states |
|---|---|---|
| Preconditions.EnsureNotNull | restler-core/src/main/java/net/researchgate/restdsl/validation/RestlerPreconditions.java:11-15 | fails with an ENTITY_ERROR exactly when the value is null |
| Preconditions.EnsureNotSet | restler-core/src/main/java/net/researchgate/restdsl/validation/RestlerPreconditions.java:17-21 | fails with an ENTITY_ERROR exactly when the value is present |
| Preconditions.EnsureNotModified | restler-core/src/main/java/net/researchgate/restdsl/validation/RestlerPreconditions.java:23-34 | fails with an ENTITY_ERROR exactly when the patch sets the property to something other than the base's value |
| Preconditions.CheckNotNull | restler-core/src/main/java/net/researchgate/restdsl/validation/RestlerPreconditions.java:36-40 | fails with a PARAMS_ERROR exactly when the value is null |
| Preconditions.NullChecksComplementary | restler-core/src/main/java/net/researchgate/restdsl/validation/RestlerPreconditions.java:11-21 | on any value exactly one of the not-null and not-set checks passes |
| Preconditions.ModifiedCases | restler-core/src/main/java/net/researchgate/restdsl/validation/RestlerPreconditions.java:31-34 | an unset patch value or one equal to the base is no modification; any other set value is |
| ReservedValues.FromString | restler-core/src/main/java/net/researchgate/restdsl/queries/ServiceQueryReservedValue.java:11-25 | a token names a reserved value exactly when it is `$null`, `$any` or `$exists`, and then that value's token is the text |
| ReservedValues.FromStringStrVal | restler-core/src/main/java/net/researchgate/restdsl/queries/ServiceQueryReservedValue.java:16-25 | looking up a reserved value's token gives that value back |
| ReservedValues.StrValInjective | restler-core/src/main/java/net/researchgate/restdsl/queries/ServiceQueryReservedValue.java:11-13 | distinct reserved values have distinct tokens |
| PatchContexts.PatchContextBuilder.UnsetFields | restler-core/src/main/java/net/researchgate/restdsl/queries/PatchContext.java:30-34 | a null set is refused with a PARAMS_ERROR and leaves the context as it was; otherwise the context holds exactly the given set |
| PatchContexts.BuildContext | restler-core/src/main/java/net/researchgate/restdsl/queries/PatchContext.java:20-38 | a context built from a set reports exactly that set; a null set fails with a PARAMS_ERROR |
| PatchContexts.PatchContext.constructor | restler-core/src/main/java/net/researchgate/restdsl/queries/PatchContext.java:13-18 | a new context, `DEFAULT_CONTEXT` among them, has nothing to unset |
| PatchContexts.PatchContextBuilder.constructor | restler-core/src/main/java/net/researchgate/restdsl/queries/PatchContext.java:24-28 | a builder holds a fresh context with nothing to unset |
| PatchContexts.PatchContextBuilder.Build | restler-core/src/main/java/net/researchgate/restdsl/queries/PatchContext.java:36-38 | build hands out the held context itself |
| QueryParams.ParamsImpl.constructor | restler-core/src/main/java/net/researchgate/restdsl/queries/ServiceQueryParamsImpl.java:13-15 | new parameters have the default limit 10000 and neither default fields nor default criteria |
| QueryParams.ParamsBuilder.constructor | restler-core/src/main/java/net/researchgate/restdsl/queries/ServiceQueryParamsImpl.java:35-39 | a builder holds fresh parameters in their initial state |
| QueryParams.ParamsBuilder.DefaultLimit | restler-core/src/main/java/net/researchgate/restdsl/queries/ServiceQueryParamsImpl.java:41-44 | the held parameter object gets the given default limit and nothing else changes |
| QueryParams.ParamsBuilder.DefaultFields | restler-core/src/main/java/net/researchgate/restdsl/queries/ServiceQueryParamsImpl.java:45-48 | a null set throws a NullPointerException and leaves the parameters as they were; any other set becomes the default fields and nothing else changes |
| QueryParams.ParamsBuilder.DefaultCriteria | restler-core/src/main/java/net/researchgate/restdsl/queries/ServiceQueryParamsImpl.java:51-54 | the held parameter object gets the given criteria, possibly null, and nothing else changes |
| QueryParams.ParamsBuilder.AddDefaultCriteriaItem | restler-core/src/main/java/net/researchgate/restdsl/queries/ServiceQueryParamsImpl.java:56-62 | the first call creates the criteria; each call appends the values under the key of the list multimap, duplicates kept |
| QueryParams.ParamsBuilder.Build | restler-core/src/main/java/net/researchgate/restdsl/queries/ServiceQueryParamsImpl.java:64-66 | hands out the held parameter object itself |
| QueryParams.MakePreset | restler-core/src/main/java/net/researchgate/restdsl/queries/ServiceQueryParams.java:13-17 | the two presets are fresh objects with the given limit, the field set `{"*"}` and no criteria |
| QueryParams.AddedItemsKept | restler-core/src/main/java/net/researchgate/restdsl/queries/ServiceQueryParamsImpl.java:56-62 | two additions under one key keep every value given, in call order, duplicates included |
| QuerySpec.NewQueryAccumulating | restler-core/src/main/java/net/researchgate/restdsl/queries/ServiceQuery.java:28-45 | a new query (limit unset, offset 0, counting on, validation on) meets the builder invariant |
| QuerySpec.SetOffset | restler-core/src/main/java/net/researchgate/restdsl/queries/ServiceQuery.java:145-153 | a negative offset throws the default exception type; a null offset changes nothing; otherwise only the offset changes; the builder invariant is kept |
| QuerySpec.SetLimit | restler-core/src/main/java/net/researchgate/restdsl/queries/ServiceQuery.java:155-164 | a negative limit throws QUERY_ERROR; otherwise a given limit is stored, `originalLimit` always follows the limit, nothing else changes and the invariant is kept |
| QuerySpec.SetFields | restler-core/src/main/java/net/researchgate/restdsl/queries/ServiceQuery.java:166-171 | a given collection is stored as a set with the same elements; null changes nothing |
| QuerySpec.SetSyncMatch | restler-core/src/main/java/net/researchgate/restdsl/queries/ServiceQuery.java:173-178 | a given collection is stored as a set with the same elements; null changes nothing |
| QuerySpec.WithCriteria | restler-core/src/main/java/net/researchgate/restdsl/queries/ServiceQuery.java:223-234 | a null or empty collection throws QUERY_ERROR, and only then |
| QuerySpec.WithCriteriaSpec | restler-core/src/main/java/net/researchgate/restdsl/queries/ServiceQuery.java:223-234 | the values join those already under the key, as a set; the other keys and every other setting are unchanged; the builder invariant is kept |
| QuerySpec.MergeDefaultsKeepsOrder | restler-core/src/main/java/net/researchgate/restdsl/queries/ServiceQuery.java:256-262 | merging the defaults keeps the explicit keys first, in their order |
| QuerySpec.MergeDefaultsGet | restler-core/src/main/java/net/researchgate/restdsl/queries/ServiceQuery.java:254-262 | a key is in the merged criteria iff it was given or defaulted; given keys keep their values, missing keys take the default values as a set |
| QuerySpec.DropAnyOnly | restler-core/src/main/java/net/researchgate/restdsl/queries/ServiceQuery.java:263-267 | removing the `$any`-only keys never adds entries |
| QuerySpec.DropAnyOnlyFrom | restler-core/src/main/java/net/researchgate/restdsl/queries/ServiceQuery.java:264-267 | the removal over a suffix is the decision on its first entry followed by the removal over the rest |
| QuerySpec.DropAnyOnlyNone | restler-core/src/main/java/net/researchgate/restdsl/queries/ServiceQuery.java:264-267 | no entry bound only to `$any` survives |
| QuerySpec.DropAnyOnlyValid | restler-core/src/main/java/net/researchgate/restdsl/queries/ServiceQuery.java:264-267 | the removal keeps the criteria a well-formed set multimap and adds no key |
| QuerySpec.DropAnyOnlyGet | restler-core/src/main/java/net/researchgate/restdsl/queries/ServiceQuery.java:264-267 | a key bound to `$any` alone loses its values; every other key keeps them |
| QuerySpec.EffectiveLimit | restler-core/src/main/java/net/researchgate/restdsl/queries/ServiceQuery.java:280-281 | the limit is the explicit one, else the default, and anything above 10000 or below 0 becomes 10000 |
| QuerySpec.ApplyParams | restler-core/src/main/java/net/researchgate/restdsl/queries/ServiceQuery.java:252-283 | the limit is the effective one; `countOnly` is set by an explicit limit of 0; unset fields take the default fields; without default criteria the criteria are untouched; nothing else changes |
| QuerySpec.Build | restler-core/src/main/java/net/researchgate/restdsl/queries/ServiceQuery.java:246-250 | build is the parameters applied, then the shape of the result computed |
| QuerySpec.BuildLimit | restler-core/src/main/java/net/researchgate/restdsl/queries/ServiceQuery.java:276-281 | from an accumulating query, `countOnly` holds iff an explicit 0 limit was given; the limit lies in [0, 10000]; an explicit limit up to 10000 is kept; with none, a default within range is used |
| QuerySpec.BuildCriteria | restler-core/src/main/java/net/researchgate/restdsl/queries/ServiceQuery.java:252-269 | with default criteria, a key is in the built criteria iff it was given or defaulted and is not bound to `$any` alone; given keys keep their values, defaulted keys take the defaults; the result is a set multimap |
| QuerySpec.ShapeInputs | restler-core/src/main/java/net/researchgate/restdsl/queries/ServiceQuery.java:343-372 | queries that agree on the presence of ids, the criteria keys in order, order, groupBy, syncMatch and whether a limit was set get the same shape, whatever their values |
| QuerySpec.ShapeMarks | restler-core/src/main/java/net/researchgate/restdsl/queries/ServiceQuery.java:343-372 | the shape starts with `IDS-` iff the query has ids, and ends with `-LIMIT` when a limit was set |
| QuerySpec.IdsText | restler-core/src/main/java/net/researchgate/restdsl/queries/ServiceQuery.java:289-293 | without ids the ids part is `-;` |
| QuerySpec.Opt | restler-core/src/main/java/net/researchgate/restdsl/queries/ServiceQuery.java:303-321 | an optional parameter names itself exactly when present |
| QuerySpec.UrlPart | restler-core/src/main/java/net/researchgate/restdsl/queries/ServiceQuery.java:287-324 | the text exists only for a query with a limit and without null ids |
| QuerySpec.UrlPartWithoutIds | restler-core/src/main/java/net/researchgate/restdsl/queries/ServiceQuery.java:287-301 | with no ids the text starts with `-;`, directly followed by the first criterion's `key=values;` |
| QuerySpec.CriteriaTextFirst | restler-core/src/main/java/net/researchgate/restdsl/queries/ServiceQuery.java:294-300 | the criteria part starts with the first entry's text |
| QuerySpec.DecodeNames | restler-core/src/main/java/net/researchgate/restdsl/queries/ServiceQuery.java:302-323 | reading the `&`-separated parameter text back gives the parameter names in order, when names avoid `=` and `&` and values avoid `&` |
| QuerySpec.UrlParamsReadable | restler-core/src/main/java/net/researchgate/restdsl/queries/ServiceQuery.java:302-323 | every parameter of a query whose written values avoid `&` can be read back |
| QuerySpec.ParamKeysOfUrl | restler-core/src/main/java/net/researchgate/restdsl/queries/ServiceQuery.java:302-323 | read back, the limit comes first, offset appears iff non-zero, indexValidation iff validation is off, fields, syncMatch and order iff set, and groupBy and countTotalItems never do |
| QuerySpec.ParamNamesMembers | restler-core/src/main/java/net/researchgate/restdsl/queries/ServiceQuery.java:302-323 | the list of written names holds exactly the names of the parameters present, limit first |
| QuerySpec.InOpts | restler-core/src/main/java/net/researchgate/restdsl/queries/ServiceQuery.java:302-323 | a name is written iff it is `limit` or the name of a parameter that is present |
| QuerySpec.UrlParamNames | restler-core/src/main/java/net/researchgate/restdsl/queries/ServiceQuery.java:302-323 | the parameters are written under their names in text order |
| QuerySpec.Equals | restler-core/src/main/java/net/researchgate/restdsl/queries/ServiceQuery.java:116-119 | two queries compare iff both texts exist, and are equal iff their texts are equal |
| QuerySpec.HashCode | restler-core/src/main/java/net/researchgate/restdsl/queries/ServiceQuery.java:121-124 | the hash exists iff the canonical text does, and is then `String.hashCode` of that text over its UTF-16 code units |
| QuerySpec.EqualsHashCode | restler-core/src/main/java/net/researchgate/restdsl/queries/ServiceQuery.java:116-124 | equal queries hash alike |
| QuerySpec.EqualsIgnoresGrouping | restler-core/src/main/java/net/researchgate/restdsl/queries/ServiceQuery.java:287-324 | queries that differ only in groupBy or countTotalItems are equal |
| Queries.ServiceQuery.constructor | restler-core/src/main/java/net/researchgate/restdsl/queries/ServiceQuery.java:26-45 | a new query has no limit, offset 0, totals counted, index validation on, and no order, fields, ids, criteria, groupBy or syncMatch |
| Queries.ServiceQueryBuilder.constructor | restler-core/src/main/java/net/researchgate/restdsl/queries/ServiceQuery.java:136-143 | a builder holds a fresh query in its initial state and the all-query parameters |
| Queries.StepOutcome | restler-core/src/main/java/net/researchgate/restdsl/queries/ServiceQuery.java:145-234 | a builder step passes iff its result exists, and otherwise fails with its error |
| Queries.ServiceQuery.ToUrlPart | restler-core/src/main/java/net/researchgate/restdsl/queries/ServiceQuery.java:287-324 | the text built by appending is the canonical text of the query's current state |
| Queries.ServiceQuery.AppendCriteria | restler-core/src/main/java/net/researchgate/restdsl/queries/ServiceQuery.java:294-301 | the loop appends `key=v1,v2;` for every entry, in order |
| Queries.ServiceQuery.AppendParams | restler-core/src/main/java/net/researchgate/restdsl/queries/ServiceQuery.java:302-323 | the appended parameters are the text of the parameter list |
| Queries.ServiceQuery.CalculateQueryShape | restler-core/src/main/java/net/researchgate/restdsl/queries/ServiceQuery.java:343-372 | only the shape changes, to the shape of the current state |
| Queries.ServiceQuery.Equals | restler-core/src/main/java/net/researchgate/restdsl/queries/ServiceQuery.java:116-119 | the comparison of the two current texts |
| Queries.ServiceQuery.HashCode | restler-core/src/main/java/net/researchgate/restdsl/queries/ServiceQuery.java:121-124 | computes the specification: `String.hashCode` over the UTF-16 code units of the current text |
| Queries.ServiceQueryBuilder.Offset | restler-core/src/main/java/net/researchgate/restdsl/queries/ServiceQuery.java:145-153 | the query changes as `SetOffset` says, and not at all when it throws |
| Queries.ServiceQueryBuilder.Limit | restler-core/src/main/java/net/researchgate/restdsl/queries/ServiceQuery.java:155-164 | the query changes as `SetLimit` says, and not at all when it throws |
| Queries.ServiceQueryBuilder.Fields | restler-core/src/main/java/net/researchgate/restdsl/queries/ServiceQuery.java:166-171 | the query changes as `SetFields` says |
| Queries.ServiceQueryBuilder.SyncMatch | restler-core/src/main/java/net/researchgate/restdsl/queries/ServiceQuery.java:173-178 | the query changes as `SetSyncMatch` says |
| Queries.ServiceQueryBuilder.IndexValidation | restler-core/src/main/java/net/researchgate/restdsl/queries/ServiceQuery.java:180-185 | a given flag is stored; null keeps the old one; nothing else changes |
| Queries.ServiceQueryBuilder.Order | restler-core/src/main/java/net/researchgate/restdsl/queries/ServiceQuery.java:188-191 | the order is replaced, null included; nothing else changes |
| Queries.ServiceQueryBuilder.GroupBy | restler-core/src/main/java/net/researchgate/restdsl/queries/ServiceQuery.java:193-196 | groupBy is replaced, null included; nothing else changes |
| Queries.ServiceQueryBuilder.Id | restler-core/src/main/java/net/researchgate/restdsl/queries/ServiceQuery.java:198-201 | the ids become the single given id |
| Queries.ServiceQueryBuilder.Ids | restler-core/src/main/java/net/researchgate/restdsl/queries/ServiceQuery.java:203-210 | a null iterable throws a NullPointerException and changes nothing; otherwise the ids are replaced |
| Queries.ServiceQueryBuilder.CountTotalItems | restler-core/src/main/java/net/researchgate/restdsl/queries/ServiceQuery.java:212-217 | a given flag is stored; null keeps the old one; nothing else changes |
| Queries.ServiceQueryBuilder.WithCriteria | restler-core/src/main/java/net/researchgate/restdsl/queries/ServiceQuery.java:223-234 | the query changes as `WithCriteria` says, and not at all when it throws |
| Queries.ServiceQueryBuilder.WithCriterion | restler-core/src/main/java/net/researchgate/restdsl/queries/ServiceQuery.java:219-221 | one value never throws and joins the key's values |
| Queries.ServiceQueryBuilder.WithServiceQueryParams | restler-core/src/main/java/net/researchgate/restdsl/queries/ServiceQuery.java:241-244 | the builder takes the given parameters |
| Queries.ServiceQueryBuilder.Build | restler-core/src/main/java/net/researchgate/restdsl/queries/ServiceQuery.java:246-250 | the query itself is handed out, in the state `Build` computes |
| Queries.ServiceQueryBuilder.MergeDefaultsLoop | restler-core/src/main/java/net/researchgate/restdsl/queries/ServiceQuery.java:256-262 | the loop computes the merge of the defaults into the criteria |
| Queries.ServiceQueryBuilder.DropAnyOnlyLoop | restler-core/src/main/java/net/researchgate/restdsl/queries/ServiceQuery.java:264-267 | the loop keeps exactly the entries that are not bound to `$any` alone, in order |
| Queries.ServiceQueryBuilder.ApplyParamsTo | restler-core/src/main/java/net/researchgate/restdsl/queries/ServiceQuery.java:252-283 | the new criteria, fields, count-only flag and limit are those `ApplyParams` defines |
| Queries.ServiceQueryBuilder.ApplyServiceQueryParams | restler-core/src/main/java/net/researchgate/restdsl/queries/ServiceQuery.java:252-283 | the query changes as `ApplyParams` says |
| Queries.All | restler-core/src/main/java/net/researchgate/restdsl/queries/ServiceQuery.java:91-93 | a fresh query built from the all-query parameters |
| Queries.ById | restler-core/src/main/java/net/researchgate/restdsl/queries/ServiceQuery.java:95-97 | a fresh query with the single id, built |
| Queries.ByIds | restler-core/src/main/java/net/researchgate/restdsl/queries/ServiceQuery.java:99-101 | a null iterable throws a NullPointerException; otherwise a fresh query with those ids, built |
| Queries.ByCriteria | restler-core/src/main/java/net/researchgate/restdsl/queries/ServiceQuery.java:104-107 | a fresh query with the one criterion, built |
| Queries.AllQuery | restler-core/src/main/java/net/researchgate/restdsl/queries/ServiceQuery.java:91-93 | the all-query has limit 10000, every field, no criteria, no count-only flag and the shape `-` |
| BaseDao.Page | restler-core/src/main/java/net/researchgate/restdsl/dao/MongoBaseServiceDao.java:150-151 | the page of a find holds min(limit, stored minus skipped) documents, and all remaining ones when the limit is 0 |
| BaseDao.SelectFields | restler-core/src/main/java/net/researchgate/restdsl/dao/MongoBaseServiceDao.java:115-129 | the field loop computes the selection of the requested fields |
| BaseDao.Selection | restler-core/src/main/java/net/researchgate/restdsl/dao/MongoBaseServiceDao.java:115-129 | the included and the excluded field names collected by the loop hold no duplicates, as the sets they model |
| BaseDao.SelectionContents | restler-core/src/main/java/net/researchgate/restdsl/dao/MongoBaseServiceDao.java:115-129 | the selection remembers `*` exactly when it was asked for, includes exactly the plain names other than `*` and excludes `x` exactly when `-x` was asked for |
| BaseDao.SelectionAll | restler-core/src/main/java/net/researchgate/restdsl/dao/MongoBaseServiceDao.java:119-121 | `*` is remembered exactly when it occurs among the fields |
| BaseDao.SelectionIncluded | restler-core/src/main/java/net/researchgate/restdsl/dao/MongoBaseServiceDao.java:125-127 | a name is included exactly when it is requested, is not `*` and does not start with `-` |
| BaseDao.SelectionExcluded | restler-core/src/main/java/net/researchgate/restdsl/dao/MongoBaseServiceDao.java:123-124 | a name is excluded exactly when its `-` form is requested |
| BaseDao.Projection | restler-core/src/main/java/net/researchgate/restdsl/dao/MongoBaseServiceDao.java:131-147 | a mix of included and excluded fields fails with QUERY_ERROR and nothing else fails |
| BaseDao.ExclusionsAreIncluded | restler-core/src/main/java/net/researchgate/restdsl/dao/MongoBaseServiceDao.java:138-141 | asking only for exclusions hands the excluded names to `include` |
| BaseDao.ParseSortString | restler-core/src/main/java/net/researchgate/restdsl/dao/MongoBaseServiceDao.java:159-165 | the sort is descending exactly when the text starts with `-` |
| BaseDao.SortRoundTrip | restler-core/src/main/java/net/researchgate/restdsl/dao/MongoBaseServiceDao.java:159-165 | parsing the text of a sort gives back that sort |
| BaseDao.FindOptionsOf | restler-core/src/main/java/net/researchgate/restdsl/dao/MongoBaseServiceDao.java:111-157 | successful options carry the query's offset and limit and the parsed order |
| BaseDao.TotalItemsCnt | restler-core/src/main/java/net/researchgate/restdsl/dao/MongoBaseServiceDao.java:319-344 | no total unless asked for, an error when the page exceeds the limit, the true count for count-only queries |
| BaseDao.CountingEquivalence | restler-core/src/main/java/net/researchgate/restdsl/dao/MongoBaseServiceDao.java:319-344 | for every stored count, offset and positive limit, the total computed from the page equals the stored count |
| BaseDao.SafeFrom | restler-core/src/main/java/net/researchgate/restdsl/dao/MongoBaseServiceDao.java:383-388 | the key loop of the safety check fails only with PARAMS_ERROR |
| BaseDao.SafeQuery | restler-core/src/main/java/net/researchgate/restdsl/dao/MongoBaseServiceDao.java:375-391 | a query that needs no index check is safe |
| BaseDao.SafeFromIff | restler-core/src/main/java/net/researchgate/restdsl/dao/MongoBaseServiceDao.java:383-388 | when every key parses, the loop reports safe exactly when some key's field name is an index prefix |
| BaseDao.SafeQueryCases | restler-core/src/main/java/net/researchgate/restdsl/dao/MongoBaseServiceDao.java:375-391 | a query with ids or without criteria is safe; otherwise it is safe exactly when some key's field name is an index prefix |
| BaseDao.Validate | restler-core/src/main/java/net/researchgate/restdsl/dao/MongoBaseServiceDao.java:346-369 | validation fails only with QUERY_ERROR, PARAMS_ERROR or a NullPointerException |
| BaseDao.ValidateCases | restler-core/src/main/java/net/researchgate/restdsl/dao/MongoBaseServiceDao.java:346-369 | the safety check is the only one the index-validation flag switches off, and an unsafe validated query fails with QUERY_ERROR |
| BaseDao.RangeFilter | restler-core/src/main/java/net/researchgate/restdsl/dao/MongoBaseServiceDao.java:284-293 | an operator gives at most one range filter |
| BaseDao.PrepareFilters | restler-core/src/main/java/net/researchgate/restdsl/dao/MongoBaseServiceDao.java:273-316 | the filters of a key fail only with IllegalArgument or PARAMS_ERROR, and number at most one |
| BaseDao.SplitComparisonKey | restler-core/src/main/java/net/researchgate/restdsl/dao/MongoBaseServiceDao.java:280 | a normalised comparison key, trimmed and split at spaces, is its field and its operator |
| BaseDao.ComparisonSymbolShape | restler-core/src/main/java/net/researchgate/restdsl/dao/MongoBaseServiceDao.java:280 | an operator symbol is not empty and has no space |
| BaseDao.ComparisonFilter | restler-core/src/main/java/net/researchgate/restdsl/dao/MongoBaseServiceDao.java:279-293 | a single value under `x op` gives the range filter of `op` on `x`, and `<>` gives none |
| BaseDao.ComparisonWithoutSpace | restler-core/src/main/java/net/researchgate/restdsl/dao/MongoBaseServiceDao.java:279-283 | a comparison key without a space fails with IllegalArgument |
| BaseDao.NullFiltersAgree | restler-core/src/main/java/net/researchgate/restdsl/dao/MongoBaseServiceDao.java:294-305 | a single `$null` and a single null value both give the null-equality filter |
| BaseDao.MultiValueFilters | restler-core/src/main/java/net/researchgate/restdsl/dao/MongoBaseServiceDao.java:307-314 | several values give NOT-IN on the bare name for a `<>` key and IN on the key as written otherwise |
| BaseDao.IdFilters | restler-core/src/main/java/net/researchgate/restdsl/dao/MongoBaseServiceDao.java:226-234 | no ids give no filter, one id an equality on the id field, several a membership filter |
| BaseDao.RootsOfMembers | restler-core/src/main/java/net/researchgate/restdsl/dao/MongoBaseServiceDao.java:242-247 | a key lies under exactly the sync-match roots it starts with followed by a dot |
| BaseDao.KeyLoop | restler-core/src/main/java/net/researchgate/restdsl/dao/MongoBaseServiceDao.java:240-255 | the key loop fails only with IllegalArgument or PARAMS_ERROR |
| BaseDao.SubKey | restler-core/src/main/java/net/researchgate/restdsl/dao/MongoBaseServiceDao.java:262 | the sub-key is the key with its root and the dot removed |
| BaseDao.GroupLoop | restler-core/src/main/java/net/researchgate/restdsl/dao/MongoBaseServiceDao.java:257-267 | one element-match filter per root that has keys, on that root, in order |
| BaseDao.Translate | restler-core/src/main/java/net/researchgate/restdsl/dao/MongoBaseServiceDao.java:221-271 | a failing validation fails the translation with its error, and a successful one starts with the id filter |
| BaseDao.TopKeysMembers | restler-core/src/main/java/net/researchgate/restdsl/dao/MongoBaseServiceDao.java:249-251 | the top-level keys are exactly the keys under no root |
| BaseDao.KeyLoopTop | restler-core/src/main/java/net/researchgate/restdsl/dao/MongoBaseServiceDao.java:240-255 | the top-level filters are exactly the filters of the keys under no root, in key order |
| BaseDao.KeyLoopIsGroups | restler-core/src/main/java/net/researchgate/restdsl/dao/MongoBaseServiceDao.java:240-247 | the groups the key loop forms record each key under all its roots |
| BaseDao.KeyGroupsMembers | restler-core/src/main/java/net/researchgate/restdsl/dao/MongoBaseServiceDao.java:242-247 | a key is grouped under a root exactly when it is a criteria key lying under that sync-match root |
| BaseDao.KeyLoopGroups | restler-core/src/main/java/net/researchgate/restdsl/dao/MongoBaseServiceDao.java:240-247 | a successful key loop groups a key under a root exactly when the key lies under it |
| BaseDao.PutUnderRootsGet | restler-core/src/main/java/net/researchgate/restdsl/dao/MongoBaseServiceDao.java:242-247 | recording a key under its roots adds it to exactly those roots |
| BaseDao.NoSyncMatch | restler-core/src/main/java/net/researchgate/restdsl/dao/MongoBaseServiceDao.java:236-255 | without sync-match roots the translation is the id filter followed by every key's filters |
| BaseDao.NoGroups | restler-core/src/main/java/net/researchgate/restdsl/dao/MongoBaseServiceDao.java:257 | without roots the key loop forms no group, so no element match is added |
| BaseDao.TopKeysWithoutRoots | restler-core/src/main/java/net/researchgate/restdsl/dao/MongoBaseServiceDao.java:238-251 | with no roots every key stays at top level |
| BaseDao.GroupsNonEmpty | restler-core/src/main/java/net/researchgate/restdsl/dao/MongoBaseServiceDao.java:237-247 | every group the key loop forms holds at least one key and no duplicates |
| BaseDao.PutUnderRootsValid | restler-core/src/main/java/net/researchgate/restdsl/dao/MongoBaseServiceDao.java:242-247 | recording a key keeps the groups a set multimap |
| BaseDao.MapPut | restler-core/src/main/java/net/researchgate/restdsl/dao/MongoBaseServiceDao.java:199 | putting a new grouping value appends its entry |
| BaseDao.GroupedFor | restler-core/src/main/java/net/researchgate/restdsl/dao/MongoBaseServiceDao.java:188-200 | after a non-empty loop the last value written is the last grouping value whenever the loop succeeded |
| BaseDao.RegroupShape | restler-core/src/main/java/net/researchgate/restdsl/dao/MongoBaseServiceDao.java:189-190 | rewriting the groupBy key leaves every other entry and puts the key with the single value at the end |
| BaseDao.RegroupGet | restler-core/src/main/java/net/researchgate/restdsl/dao/MongoBaseServiceDao.java:189-190 | after the rewrite the groupBy key holds exactly the new value and every other key keeps its values |
| BaseDao.RegroupTwice | restler-core/src/main/java/net/researchgate/restdsl/dao/MongoBaseServiceDao.java:189-190 | a rewrite replaces the previous one, so only the last value matters |
| BaseDao.UngroupedTotal | restler-core/src/main/java/net/researchgate/restdsl/dao/MongoBaseServiceDao.java:172-179 | an ungrouped query that asks for totals always reports the true number of matching documents |
| BaseDao.GroupByRejected | restler-core/src/main/java/net/researchgate/restdsl/dao/MongoBaseServiceDao.java:181-183 | a dao without groupBy rejects every grouped query with QUERY_ERROR and leaves its criteria alone |
| BaseDao.TranslationFailsGet | restler-core/src/main/java/net/researchgate/restdsl/dao/MongoBaseServiceDao.java:167-168 | a failing translation fails `get` with that error before anything is fetched or edited |
| BaseDao.GroupedEntries | restler-core/src/main/java/net/researchgate/restdsl/dao/MongoBaseServiceDao.java:185-200 | with distinct grouping values a successful loop yields one sub-result per value, in order, each the result of that value |
| BaseDao.GroupQueryCriteria | restler-core/src/main/java/net/researchgate/restdsl/dao/MongoBaseServiceDao.java:189-191 | each grouped query binds the groupBy key to its value alone and keeps every other key |
| BaseDao.GroupedLeavesLast | restler-core/src/main/java/net/researchgate/restdsl/dao/MongoBaseServiceDao.java:185-200 | a successful grouped `get` leaves the query's criteria holding only the last grouping value |
| BaseDao.GroupedForErr | restler-core/src/main/java/net/researchgate/restdsl/dao/MongoBaseServiceDao.java:188-200 | a failure for a prefix of the grouping values ends the loop there |
| BaseDao.GroupedForStep | restler-core/src/main/java/net/researchgate/restdsl/dao/MongoBaseServiceDao.java:188-200 | a failing pass ends the loop with its error, a successful one puts its sub-result under its value |
| BaseDao.KeyLoopErr | restler-core/src/main/java/net/researchgate/restdsl/dao/MongoBaseServiceDao.java:240-255 | a failure on a prefix of the keys is the failure of the whole key loop |
| BaseDao.SubFiltersErr | restler-core/src/main/java/net/researchgate/restdsl/dao/MongoBaseServiceDao.java:261-263 | a failure on a prefix of a root's keys is the failure of its element match |
| BaseDao.GroupLoopErr | restler-core/src/main/java/net/researchgate/restdsl/dao/MongoBaseServiceDao.java:258-266 | a failure on a prefix of the roots is the failure of the group loop |
| BaseDao.PutUnderRootsLoop | restler-core/src/main/java/net/researchgate/restdsl/dao/MongoBaseServiceDao.java:241-247 | the inner loop records the key under exactly its roots, and reports whether it has any |
| BaseDao.PartitionKeys | restler-core/src/main/java/net/researchgate/restdsl/dao/MongoBaseServiceDao.java:240-255 | the key loop computes the top-level filters and the groups of the specification |
| BaseDao.SubKeyFilters | restler-core/src/main/java/net/researchgate/restdsl/dao/MongoBaseServiceDao.java:261-263 | the loop over one root's keys computes that root's element-match filters |
| BaseDao.ElemMatchFilters | restler-core/src/main/java/net/researchgate/restdsl/dao/MongoBaseServiceDao.java:257-267 | the loop over the roots computes one element match per root |
| BaseDao.FindSafeKey | restler-core/src/main/java/net/researchgate/restdsl/dao/MongoBaseServiceDao.java:381-389 | the loop stops at the first key whose field name is an index prefix, as the specification says |
| BaseDao.IsSafeQuery | restler-core/src/main/java/net/researchgate/restdsl/dao/MongoBaseServiceDao.java:375-391 | computes the safety of the query's current state |
| BaseDao.ValidateQuery | restler-core/src/main/java/net/researchgate/restdsl/dao/MongoBaseServiceDao.java:346-369 | computes the validation outcome of the query's current state |
| BaseDao.RegroupCriteria | restler-core/src/main/java/net/researchgate/restdsl/dao/MongoBaseServiceDao.java:189-190 | the query's criteria become the rewritten criteria and nothing else of it changes |
| BaseDao.MongoBaseServiceDao.constructor | restler-core/src/main/java/net/researchgate/restdsl/dao/MongoBaseServiceDao.java:76 | a new dao does not allow groupBy |
| BaseDao.MongoBaseServiceDao.SetAllowGroupBy | restler-core/src/main/java/net/researchgate/restdsl/dao/MongoBaseServiceDao.java:107-109 | afterwards the dao allows groupBy |
| BaseDao.MongoBaseServiceDao.ToFindOptions | restler-core/src/main/java/net/researchgate/restdsl/dao/MongoBaseServiceDao.java:111-157 | computes the find options of the query |
| BaseDao.MongoBaseServiceDao.ConvertToMorphiaQuery | restler-core/src/main/java/net/researchgate/restdsl/dao/MongoBaseServiceDao.java:221-271 | computes the translation of the query against the dao's index prefixes and id field |
| BaseDao.MongoBaseServiceDao.Count | restler-core/src/main/java/net/researchgate/restdsl/dao/MongoBaseServiceDao.java:210-212 | the number of stored documents matching the translated query, or the translation's error |
| BaseDao.MongoBaseServiceDao.GetOne | restler-core/src/main/java/net/researchgate/restdsl/dao/MongoBaseServiceDao.java:206-208 | the first document of the page, none on an empty page, or the error of the translation or of the options |
| BaseDao.MongoBaseServiceDao.SubQuery | restler-core/src/main/java/net/researchgate/restdsl/dao/MongoBaseServiceDao.java:191-198 | one pass translates the query again and fetches and counts its page |
| BaseDao.MongoBaseServiceDao.GroupPass | restler-core/src/main/java/net/researchgate/restdsl/dao/MongoBaseServiceDao.java:189-199 | one pass leaves the criteria holding the value alone and computes that value's sub-result |
| BaseDao.MongoBaseServiceDao.GroupLoopRun | restler-core/src/main/java/net/researchgate/restdsl/dao/MongoBaseServiceDao.java:185-200 | the grouping loop yields the sub-results of the specification, and leaves the criteria rewritten to the last value |
| BaseDao.ShouldCheckForIndex | restler-core/src/main/java/net/researchgate/restdsl/dao/MongoBaseServiceDao.java:377-379 | some criteria and no ids; `BaseDao.IsSafeQuery` is proved to use it |
| BaseDao.ListFor | restler-core/src/main/java/net/researchgate/restdsl/dao/MongoBaseServiceDao.java:172-179 | the ungrouped page and its total; the lemmas on `TotalItemsCnt` state that total |
| BaseDao.GetSpec | restler-core/src/main/java/net/researchgate/restdsl/dao/MongoBaseServiceDao.java:167-204 | `get` as a function, whose grouped total counts the query built before the loop as it reads the criteria the loop left; `TranslationFailsGet`, `GroupedTotal`, the other grouping lemmas and `BaseDao.MongoBaseServiceDao.Get` state and compute it |
| BaseDao.MongoBaseServiceDao.Get | restler-core/src/main/java/net/researchgate/restdsl/dao/MongoBaseServiceDao.java:167-204 | the result and the final criteria are those of the specification of `get`, the grouped total included |
| BaseDao.MongoBaseServiceDao.GetGrouped | restler-core/src/main/java/net/researchgate/restdsl/dao/MongoBaseServiceDao.java:180-202 | the grouped branch yields the specification's result and final criteria; its total counts the pre-loop query with its `in` filters reading the criteria after the loop |
| BaseDao.EncodedAtCountShape | restler-core/src/main/java/net/researchgate/restdsl/dao/MongoBaseServiceDao.java:253-313 | as `count()` encodes the pre-loop query, every `in` filter on the groupBy key holds the key's current values; the id filters and every `eq`, range, `exists` and `nin` filter stay as built |
| BaseDao.GroupedTotal | restler-core/src/main/java/net/researchgate/restdsl/dao/MongoBaseServiceDao.java:168-201 | the total of a successful grouped `get` over some values counts the pre-loop query with the groupBy key holding the last value alone |
| BaseDao.GroupedTotalCountsLast | restler-core/src/main/java/net/researchgate/restdsl/dao/MongoBaseServiceDao.java:253-312 | without sync-match roots, a non-`<>` groupBy key with several values is translated to `in` over all of them, which the total counts holding only the last value |
| ServiceDao.LegacyProjection | restler-core/src/main/java/net/researchgate/restdsl/dao/MongoServiceDao.java:232-248 | a mix of included and excluded fields fails with QUERY_ERROR and nothing else fails |
| ServiceDao.ProjectionsMembers | restler-core/src/main/java/net/researchgate/restdsl/dao/MongoServiceDao.java:238-246 | the projection calls name exactly the given fields, each with the given flag |
| ServiceDao.ProjectionMembers | restler-core/src/main/java/net/researchgate/restdsl/dao/MongoServiceDao.java:236-248 | a field is projected in exactly when it was included without `*`, and projected out exactly when it was excluded |
| ServiceDao.FieldsProjection | restler-core/src/main/java/net/researchgate/restdsl/dao/MongoServiceDao.java:216-249 | in terms of the requested fields: `x` is projected in iff it was asked for plainly and `*` was not, and out iff `-x` was asked for |
| ServiceDao.ExclusionsContrast | restler-core/src/main/java/net/researchgate/restdsl/dao/MongoServiceDao.java:240-241 | with exclusions only, this dao projects the excluded names out while the other dao includes them |
| ServiceDao.EnrichQuery | restler-core/src/main/java/net/researchgate/restdsl/dao/MongoServiceDao.java:299-319 | the filters of a key fail only with PARAMS_ERROR, and a single value gives at most one filter |
| ServiceDao.EnrichAgrees | restler-core/src/main/java/net/researchgate/restdsl/dao/MongoServiceDao.java:299-319 | for several values, or a key without a comparison, both daos give the same filters |
| ServiceDao.ReservedValueFilters | restler-core/src/main/java/net/researchgate/restdsl/dao/MongoServiceDao.java:306-307 | a reserved value alone gives the filter of `adaptToReservedValue`, the same as the other dao's, and `$any` gives none |
| ServiceDao.ComparisonContrast | restler-core/src/main/java/net/researchgate/restdsl/dao/MongoServiceDao.java:304-305 | a single value under `x op` is handed to the driver as written, whereas the other dao builds a range filter, and none for `<>` |
| ServiceDao.ComparisonKeyCompares | restler-core/src/main/java/net/researchgate/restdsl/dao/MongoServiceDao.java:304 | a normalised comparison key contains `<` or `>` |
| ServiceDao.EnrichComparison | restler-core/src/main/java/net/researchgate/restdsl/dao/MongoServiceDao.java:304-305 | one value under a key containing `>` or `<` becomes a driver condition on the key as written |
| ServiceDao.UnsplitComparisonContrast | restler-core/src/main/java/net/researchgate/restdsl/dao/MongoServiceDao.java:304-305 | a comparison key without a space is handed to the driver here and refused by the other dao |
| ServiceDao.CriteriaLoop | restler-core/src/main/java/net/researchgate/restdsl/dao/MongoServiceDao.java:264-279 | the key loop fails only with PARAMS_ERROR |
| ServiceDao.ElemMatchLoop | restler-core/src/main/java/net/researchgate/restdsl/dao/MongoServiceDao.java:281-293 | one element match per root that has keys |
| ServiceDao.PlainEverywhere | restler-core/src/main/java/net/researchgate/restdsl/dao/MongoServiceDao.java:300-305 | a criteria map without single-valued comparison keys has only plain keys |
| ServiceDao.SuffixPlain | restler-core/src/main/java/net/researchgate/restdsl/dao/MongoServiceDao.java:288 | a sub-key of a plain key is plain |
| ServiceDao.CriteriaLoopAgrees | restler-core/src/main/java/net/researchgate/restdsl/dao/MongoServiceDao.java:264-279 | without single-valued comparison keys the key loop is the other dao's |
| ServiceDao.SubCriteriaAgrees | restler-core/src/main/java/net/researchgate/restdsl/dao/MongoServiceDao.java:287-289 | without single-valued comparison keys a root's element-match filters are the other dao's |
| ServiceDao.ElemMatchAgrees | restler-core/src/main/java/net/researchgate/restdsl/dao/MongoServiceDao.java:281-293 | without single-valued comparison keys and when every root resolves, the element matches are the other dao's |
| ServiceDao.ElemMatchResolves | restler-core/src/main/java/net/researchgate/restdsl/dao/MongoServiceDao.java:285 | a successful group loop resolved the type of every root |
| ServiceDao.RootsResolveSnoc | restler-core/src/main/java/net/researchgate/restdsl/dao/MongoServiceDao.java:285 | resolving one more root extends the resolved roots |
| ServiceDao.CriteriaLoopErr | restler-core/src/main/java/net/researchgate/restdsl/dao/MongoServiceDao.java:264-279 | a failure on a prefix of the keys is the failure of the whole key loop |
| ServiceDao.SubCriteriaErr | restler-core/src/main/java/net/researchgate/restdsl/dao/MongoServiceDao.java:287-289 | a failure on a prefix of a root's keys is the failure of its element match |
| ServiceDao.ElemMatchLoopErr | restler-core/src/main/java/net/researchgate/restdsl/dao/MongoServiceDao.java:282-292 | a failure on a prefix of the roots is the failure of the group loop |
| ServiceDao.ElemMatchSnoc | restler-core/src/main/java/net/researchgate/restdsl/dao/MongoServiceDao.java:282-292 | one more root: its type is resolved first, then its filters are built |
| ServiceDao.EnrichCriteria | restler-core/src/main/java/net/researchgate/restdsl/dao/MongoServiceDao.java:264-279 | the key loop computes the filters and groups of the specification |
| ServiceDao.SubCriteriaFilters | restler-core/src/main/java/net/researchgate/restdsl/dao/MongoServiceDao.java:287-289 | the loop over one root's keys computes that root's filters |
| ServiceDao.ElemMatches | restler-core/src/main/java/net/researchgate/restdsl/dao/MongoServiceDao.java:281-293 | the loop over the roots computes the element matches of the specification |
| ServiceDao.PagingFor | restler-core/src/main/java/net/researchgate/restdsl/dao/MongoServiceDao.java:215-257 | a write query has no read settings; a read query fails exactly on a mix of included and excluded fields, and otherwise carries the query's offset, limit and order |
| ServiceDao.Convert | restler-core/src/main/java/net/researchgate/restdsl/dao/MongoServiceDao.java:201-297 | a failing validation fails the translation with its error; a successful one holds read settings exactly for a read query and starts with the id filter |
| ServiceDao.WriteTranslation | restler-core/src/main/java/net/researchgate/restdsl/dao/MongoServiceDao.java:215-257 | a write query has the filters of the read query and no read settings |
| ServiceDao.WriteIgnoresReadSettings | restler-core/src/main/java/net/researchgate/restdsl/dao/MongoServiceDao.java:215-257 | the translation of a write query does not depend on the fields, the offset or the order |
| ServiceDao.TranslationsAgree | restler-core/src/main/java/net/researchgate/restdsl/dao/MongoServiceDao.java:201-297 | without single-valued comparison keys and when every root resolves, the write translation has exactly the other dao's filters, and the two fail alike |
| ServiceDao.CriteriaTranslationsAgree | restler-core/src/main/java/net/researchgate/restdsl/dao/MongoServiceDao.java:260-294 | the same agreement for a valid query with criteria |
| ServiceDao.ConvertWrite | restler-core/src/main/java/net/researchgate/restdsl/dao/MongoServiceDao.java:201-213 | a valid write query translates to its id filter followed by its criteria filters |
| ServiceDao.TranslateCriteria | restler-core/src/main/java/net/researchgate/restdsl/dao/MongoServiceDao.java:201-213 | the other dao's translation of a valid query with criteria is its id filter, top-level filters and element matches |
| ServiceDao.CriteriaFiltersAgree | restler-core/src/main/java/net/researchgate/restdsl/dao/MongoServiceDao.java:260-294 | the criteria filters of this dao are the top-level filters and the element matches of the other dao |
| ServiceDao.ListOf | restler-core/src/main/java/net/researchgate/restdsl/dao/MongoServiceDao.java:82-87 | the ungrouped page with the total against the Morphia query's limit and offset; `ServiceUngroupedTotal` states that total |
| ServiceDao.ServiceGetSpec | restler-core/src/main/java/net/researchgate/restdsl/dao/MongoServiceDao.java:74-108 | `get` as a function; `GroupedWithoutGate`, `ServiceGroupedLeavesLast` and `ServiceDao.MongoServiceDao.Get` state and compute it |
| ServiceDao.CountSpec | restler-core/src/main/java/net/researchgate/restdsl/dao/MongoServiceDao.java:119-122 | `count`; `DeleteMatchesCount` relates it to `delete` |
| ServiceDao.ServiceSubResultsApply | restler-core/src/main/java/net/researchgate/restdsl/dao/MongoServiceDao.java:94-103 | the sub-result of a value is the result of the query with the groupBy key bound to that value |
| ServiceDao.ServiceUngroupedTotal | restler-core/src/main/java/net/researchgate/restdsl/dao/MongoServiceDao.java:82-87 | an ungrouped query that asks for totals always reports the true number of matching documents |
| ServiceDao.GroupedWithoutGate | restler-core/src/main/java/net/researchgate/restdsl/dao/MongoServiceDao.java:88-105 | a grouped query runs with no permission check; it succeeds exactly when every value's sub-query does, with one sub-result per value in order |
| ServiceDao.GroupedForOk | restler-core/src/main/java/net/researchgate/restdsl/dao/MongoServiceDao.java:93-104 | the grouping loop succeeds exactly when every pass does |
| ServiceDao.ServiceGroupedLeavesLast | restler-core/src/main/java/net/researchgate/restdsl/dao/MongoServiceDao.java:93-95 | a successful grouped `get` leaves the query's criteria holding only the last grouping value |
| ServiceDao.DeleteSpec | restler-core/src/main/java/net/researchgate/restdsl/dao/MongoServiceDao.java:125-131 | a query without criteria and without ids fails with QUERY_ERROR before any translation, and a failing write translation fails `delete` with its error |
| ServiceDao.DeleteMatchesCount | restler-core/src/main/java/net/researchgate/restdsl/dao/MongoServiceDao.java:125-131 | a restricted query deletes exactly as many documents as `count` counts |
| ServiceDao.OpsOf | restler-core/src/main/java/net/researchgate/restdsl/dao/MongoServiceDao.java:148-156 | the update of the patched fields; `OpsPartition` states that it splits them into sets and unsets |
| ServiceDao.OpsPartition | restler-core/src/main/java/net/researchgate/restdsl/dao/MongoServiceDao.java:148-156 | every patched field is either set to its non-null value or unset, never both, and no other field is touched |
| ServiceDao.OpsAdd | restler-core/src/main/java/net/researchgate/restdsl/dao/MongoServiceDao.java:148-156 | one more patched entry adds one set or one unset |
| ServiceDao.Applied | restler-core/src/main/java/net/researchgate/restdsl/dao/MongoServiceDao.java:146-158 | the updated document holds the unset fields no more, every set field with its value, and each other field as it was |
| ServiceDao.CollectOps | restler-core/src/main/java/net/researchgate/restdsl/dao/MongoServiceDao.java:147-156 | the loop over the patched fields collects the operations of the specification |
| ServiceDao.PatchSpec | restler-core/src/main/java/net/researchgate/restdsl/dao/MongoServiceDao.java:145-195 | a failing write translation fails `patch` with its error; otherwise nothing is returned exactly when no document matches |
| ServiceDao.PatchedDocument | restler-core/src/main/java/net/researchgate/restdsl/dao/MongoServiceDao.java:146-158 | the returned document has its null-valued fields removed, the other patched fields set and every other field as before |
| ServiceDao.AppliedIdempotent | restler-core/src/main/java/net/researchgate/restdsl/dao/MongoServiceDao.java:146-158 | applying the same update twice is applying it once |
| ServiceDao.MongoServiceDao.constructor | restler-core/src/main/java/net/researchgate/restdsl/dao/MongoServiceDao.java:65-72 | the dao keeps its id field, index information, schema and entity class |
| ServiceDao.MongoServiceDao.ConvertToMorphiaQuery | restler-core/src/main/java/net/researchgate/restdsl/dao/MongoServiceDao.java:197-297 | computes the translation of the query, for reading or for writing |
| ServiceDao.MongoServiceDao.Count | restler-core/src/main/java/net/researchgate/restdsl/dao/MongoServiceDao.java:119-122 | the number of documents the read query matches, or its translation's error |
| ServiceDao.MongoServiceDao.GetOne | restler-core/src/main/java/net/researchgate/restdsl/dao/MongoServiceDao.java:111-117 | the first document after the query's offset, none when there is none, or the translation's error |
| ServiceDao.MongoServiceDao.Delete | restler-core/src/main/java/net/researchgate/restdsl/dao/MongoServiceDao.java:124-132 | computes the specification of `delete` |
| ServiceDao.MongoServiceDao.Patch | restler-core/src/main/java/net/researchgate/restdsl/dao/MongoServiceDao.java:145-159 | computes the specification of `patch` |
| ServiceDao.MongoServiceDao.SubQuery | restler-core/src/main/java/net/researchgate/restdsl/dao/MongoServiceDao.java:96-102 | one pass translates the query again and fetches and counts it |
| ServiceDao.MongoServiceDao.GroupPass | restler-core/src/main/java/net/researchgate/restdsl/dao/MongoServiceDao.java:94-103 | one pass leaves the criteria holding the value alone and computes that value's sub-result |
| ServiceDao.MongoServiceDao.GroupLoopRun | restler-core/src/main/java/net/researchgate/restdsl/dao/MongoServiceDao.java:89-104 | the grouping loop yields the sub-results of the specification and leaves the criteria rewritten to the last value |
| ServiceDao.MongoServiceDao.Get | restler-core/src/main/java/net/researchgate/restdsl/dao/MongoServiceDao.java:74-108 | the result and the final criteria are those of the specification of `get` |
| Lang.Wrap32 | restler-core/src/main/java/net/researchgate/restdsl/queries/ServiceQuery.java:122-124 | `int` arithmetic agrees with exact arithmetic inside the `int` range and differs from it by a multiple of 2^32 |
| Lang.Utf16 | restler-core/src/main/java/net/researchgate/restdsl/queries/ServiceQuery.java:121-124 | a character is one UTF-16 unit inside the Basic Multilingual Plane and two outside it, each a 16-bit value |
| Lang.Utf16Decodes | restler-core/src/main/java/net/researchgate/restdsl/queries/ServiceQuery.java:121-124 | the units decode back to the character: a single unit is the character and no surrogate, a pair is a high then a low surrogate encoding it |
| Lang.Utf16Units | restler-core/src/main/java/net/researchgate/restdsl/queries/ServiceQuery.java:121-124 | a string has at least as many UTF-16 units as characters |
| Lang.Utf16UnitsBmp | restler-core/src/main/java/net/researchgate/restdsl/queries/ServiceQuery.java:121-124 | text inside the Basic Multilingual Plane has exactly one unit per character, the character itself |
| Lang.HashUnits | restler-core/src/main/java/net/researchgate/restdsl/queries/ServiceQuery.java:121-124 | the `hashCode` loop over code units: each unit multiplies the hash by 31 and adds itself, with `int` wrap-around |
| Lang.StringHash | restler-core/src/main/java/net/researchgate/restdsl/queries/ServiceQuery.java:121-124 | `String.hashCode`, character by character over each character's UTF-16 units; `StringHashUnits` ties it to the whole unit sequence |
| Lang.HashUnitsAppend | restler-core/src/main/java/net/researchgate/restdsl/queries/ServiceQuery.java:121-124 | hashing two runs of units is hashing the first and continuing with the second |
| Lang.StringHashUnits | restler-core/src/main/java/net/researchgate/restdsl/queries/ServiceQuery.java:121-124 | the hash of a string is the `hashCode` loop over all its UTF-16 code units, in order |
| Lang.HashUnitsOne | restler-core/src/main/java/net/researchgate/restdsl/queries/ServiceQuery.java:121-124 | one unit multiplies the hash by 31 and adds the unit |
| Lang.HashUnitsTwo | restler-core/src/main/java/net/researchgate/restdsl/queries/ServiceQuery.java:121-124 | two units make two such steps, in order |
| Lang.StringHashStep | restler-core/src/main/java/net/researchgate/restdsl/queries/ServiceQuery.java:121-124 | the hash of one more character continues the loop from the hash before it over that character's units |
| Lang.HashUnitsOfChar | restler-core/src/main/java/net/researchgate/restdsl/queries/ServiceQuery.java:121-124 | a character advances the hash once inside the Basic Multilingual Plane and twice, high then low surrogate, outside it |
| Lang.HashExampleBmp | restler-core/src/main/java/net/researchgate/restdsl/queries/ServiceQuery.java:121-124 | `"ab"` hashes to 3105 |
| Lang.HashExampleSupplementary | restler-core/src/main/java/net/researchgate/restdsl/queries/ServiceQuery.java:121-124 | U+1F600 hashes as its surrogates 0xD83D 0xDE00, to 1772899 |
| Lang.IndexOf | restler-service/src/main/java/net/researchgate/restler/service/mongo/MongoClientBuilder.java:150-152 | the position of the first occurrence of the character, or -1 exactly when it does not occur |
| Lang.LastIndexOf | restler-service/src/main/java/net/researchgate/restler/serde/Rfc3339DateDeserializer.java:66-67 | the position of the last occurrence of the character, or -1 exactly when it does not occur |
| Lang.IndexOfPair | restler-core/src/main/java/net/researchgate/restdsl/util/ServiceQueryUtil.java:34-36 | a non-negative result is an occurrence of the two-character separator at or after the start |
| Lang.IndexOfPairSpec | restler-core/src/main/java/net/researchgate/restdsl/util/ServiceQueryUtil.java:34-36 | the search fails exactly when the separator does not occur, and otherwise finds the first occurrence |
| Lang.FirstPair | restler-core/src/main/java/net/researchgate/restdsl/util/ServiceQueryUtil.java:36 | in `x__y`, where `x` holds no separator and does not end in `_`, the first separator is right after `x` |
| Lang.IndexOfPairFirst | restler-core/src/main/java/net/researchgate/restdsl/util/ServiceQueryUtil.java:36 | an occurrence with none before it is the one found |
| Lang.RemoveChar | restler-core/src/main/java/net/researchgate/restdsl/domain/EntityIndexInfo.java:98 | removing a character leaves every other character and none of that one |
| Lang.Split | restler-core/src/main/java/net/researchgate/restdsl/util/RequestUtil.java:63 | splitting gives at least one piece, and the whole text when the separator does not occur |
| Lang.SplitPieces | restler-core/src/main/java/net/researchgate/restdsl/util/RequestUtil.java:63 | no piece holds the separator |
| Lang.JoinSplit | restler-core/src/main/java/net/researchgate/restdsl/domain/EntityIndexInfo.java:74-92 | joining the pieces with the separator gives back the text |
| Lang.SplitJoin | restler-core/src/main/java/net/researchgate/restdsl/domain/EntityIndexInfo.java:74-92 | splitting pieces joined by the separator gives back the pieces, when none holds it |
| Lang.SplitCons | restler-core/src/main/java/net/researchgate/restdsl/util/RequestUtil.java:63 | a first piece without the separator is split off whole |
| Lang.SplitTwo | restler-core/src/main/java/net/researchgate/restdsl/util/RequestUtil.java:63 | two pieces joined by the separator split back into the two |
| Lang.NonEmptyPieces | restler-core/src/main/java/net/researchgate/restdsl/util/RequestUtil.java:101 | the pieces kept when empty ones are omitted are all non-empty |
| Lang.SplitOnPair | restler-core/src/main/java/net/researchgate/restdsl/util/ServiceQueryUtil.java:36 | splitting at `__` gives the whole key when it has no separator and at least two pieces when it has one |
| Lang.DropTrailingEmpty | restler-core/src/main/java/net/researchgate/restdsl/dao/MongoBaseServiceDao.java:280 | `String.split` drops exactly the trailing empty pieces |
| Lang.Trim | restler-core/src/main/java/net/researchgate/restdsl/dao/MongoBaseServiceDao.java:280 | the trimmed text neither starts nor ends with a space or control character, and text without such ends is unchanged |
| Lang.TrimStart | restler-core/src/main/java/net/researchgate/restdsl/dao/MongoBaseServiceDao.java:280 | only leading spaces and control characters are removed |
| Lang.TrimEnd | restler-core/src/main/java/net/researchgate/restdsl/dao/MongoBaseServiceDao.java:280 | only trailing spaces and control characters are removed |
| Lang.SplitSpaceNoTrailing | restler-core/src/main/java/net/researchgate/restdsl/dao/MongoBaseServiceDao.java:280 | text that does not end in a space splits at spaces into all its pieces |
| Lang.ParseInt | restler-core/src/main/java/net/researchgate/restdsl/util/RequestUtil.java:35 | a parsed `int` lies in the `int` range |
| Lang.ParseLong | restler-core/src/main/java/net/researchgate/restdsl/types/TypeInfoUtil.java:61 | a parsed `long` lies in the `long` range |
| Lang.ParseDecimal | restler-core/src/main/java/net/researchgate/restdsl/types/TypeInfoUtil.java:61-63 | the base-10 reading of an optional sign and at least one digit; `ParseDecimalString` and `ParseDecimalAccepts` state what it accepts |
| Lang.ParseDecimalString | restler-core/src/main/java/net/researchgate/restdsl/types/TypeInfoUtil.java:61-63 | parsing the decimal text of a number gives back the number |
| Lang.ParseIntRoundTrip | restler-core/src/main/java/net/researchgate/restdsl/types/TypeInfoUtil.java:63 | parsing inverts printing on the whole `int` range |
| Lang.ParseDecimalAccepts | restler-core/src/main/java/net/researchgate/restdsl/types/TypeInfoUtil.java:61-63 | a text parses iff it is an optional sign followed by at least one digit; the empty text, a lone sign and a non-digit anywhere past the sign are refused |
| Multimaps.Keys | restler-core/src/main/java/net/researchgate/restdsl/queries/ServiceQuery.java:295 | one key per entry, in entry order |
| Multimaps.Get | restler-core/src/main/java/net/researchgate/restdsl/dao/MongoBaseServiceDao.java:253 | an absent key has no values |
| Multimaps.GetEntry | restler-core/src/main/java/net/researchgate/restdsl/dao/MongoBaseServiceDao.java:253 | with distinct keys, `get` of an entry's key is that entry's values |
| Multimaps.ContainsKeyGet | restler-core/src/main/java/net/researchgate/restdsl/dao/MongoBaseServiceDao.java:364 | in a well-formed multimap a key is present exactly when it has values |
| Multimaps.AddAll | restler-core/src/main/java/net/researchgate/restdsl/queries/ServiceQuery.java:232 | adding values to a set keeps its elements first, adds exactly the new ones and keeps it free of duplicates |
| Multimaps.Dedup | restler-core/src/main/java/net/researchgate/restdsl/queries/ServiceQuery.java:168 | building a set keeps exactly the elements, each once |
| Multimaps.PutAll | restler-core/src/main/java/net/researchgate/restdsl/queries/ServiceQuery.java:232 | `putAll` adds the key at the end exactly when it was absent and values are given |
| Multimaps.PutAllGet | restler-core/src/main/java/net/researchgate/restdsl/queries/ServiceQuery.java:232 | `putAll` adds the values under the key and leaves every other key alone |
| Multimaps.PutAllValid | restler-core/src/main/java/net/researchgate/restdsl/queries/ServiceQuery.java:232 | `putAll` keeps a set multimap well formed |
| Multimaps.ListPutAll | restler-core/src/main/java/net/researchgate/restdsl/queries/ServiceQueryParamsImpl.java:60 | a list multimap's `putAll` adds the key at the end exactly when it was absent and values are given |
| Multimaps.ListPutAllGet | restler-core/src/main/java/net/researchgate/restdsl/queries/ServiceQueryParamsImpl.java:60 | a list multimap's `putAll` appends the values, duplicates included, and leaves every other key alone |
| Multimaps.RemoveAll | restler-core/src/main/java/net/researchgate/restdsl/queries/ServiceQuery.java:264-267 | `removeAll` keeps only entries of other keys |
| Multimaps.RemoveAllGet | restler-core/src/main/java/net/researchgate/restdsl/queries/ServiceQuery.java:264-267 | `removeAll` drops exactly the given key |
| Multimaps.RemoveAllAbsent | restler-core/src/main/java/net/researchgate/restdsl/queries/ServiceQuery.java:264-267 | removing an absent key changes nothing |
| Multimaps.RemoveAllAppend | restler-core/src/main/java/net/researchgate/restdsl/dao/MongoBaseServiceDao.java:189-190 | removing a key ignores an entry for it appended at the end |
| Multimaps.PutAllAbsent | restler-core/src/main/java/net/researchgate/restdsl/dao/MongoBaseServiceDao.java:190 | `putAll` of a new key appends its entry |
| Multimaps.GetAppend | restler-core/src/main/java/net/researchgate/restdsl/dao/MongoBaseServiceDao.java:190 | the values of an appended new key are what `get` returns for it |
| QueryUtil.ParseCriteriaOperationSpec | restler-core/src/main/java/net/researchgate/restdsl/util/ServiceQueryUtil.java:47-62 | exactly the five operator names are accepted, each giving its comparison symbol; anything else fails with PARAMS_ERROR |
| QueryUtil.PlainFieldName | restler-core/src/main/java/net/researchgate/restdsl/util/ServiceQueryUtil.java:64-66 | the field name is the text before the first space, and the whole key when it has none |
| QueryUtil.ParseQueryField | restler-core/src/main/java/net/researchgate/restdsl/util/ServiceQueryUtil.java:32-45 | parsing fails only with PARAMS_ERROR |
| QueryUtil.SplitAtSeparator | restler-core/src/main/java/net/researchgate/restdsl/util/ServiceQueryUtil.java:36 | `x__y`, for a name `x` without separator, splits into `x` and the pieces of `y` |
| QueryUtil.ParseOperatorSuffix | restler-core/src/main/java/net/researchgate/restdsl/util/ServiceQueryUtil.java:34-41 | `x__gt`, `x__gte`, `x__lt`, `x__lte` and `x__ne` normalise to `x` followed by the symbol, with field name `x` |
| QueryUtil.ParseTwoSeparators | restler-core/src/main/java/net/researchgate/restdsl/util/ServiceQueryUtil.java:36-39 | a key with more than one separator fails with PARAMS_ERROR |
| QueryUtil.ParseUnknownSuffix | restler-core/src/main/java/net/researchgate/restdsl/util/ServiceQueryUtil.java:40-60 | any other suffix, the empty one included, fails with PARAMS_ERROR |
| QueryUtil.ParseVerbatim | restler-core/src/main/java/net/researchgate/restdsl/util/ServiceQueryUtil.java:42-43 | a key without separator is kept as written, with the text before the first space as its field |
| QueryUtil.NoSeparatorAfterSpace | restler-core/src/main/java/net/researchgate/restdsl/util/ServiceQueryUtil.java:41 | a normalised key holds no separator |
| QueryUtil.BothSpellingsAgree | restler-core/src/main/java/net/researchgate/restdsl/util/ServiceQueryUtil.java:32-45 | `x__op` and `x sym` parse to the same criterion and field |
| QueryUtil.ParseIdempotent | restler-core/src/main/java/net/researchgate/restdsl/util/ServiceQueryUtil.java:32-45 | parsing a normalised key again gives the same criterion and field |
| Values.CriteriaValToStr | restler-core/src/main/java/net/researchgate/restdsl/queries/ServiceQuery.java:326-337 | null renders as `$null`, a reserved value as its token, a string as itself |
| Values.ToText | restler-core/src/main/java/net/researchgate/restdsl/queries/ServiceQuery.java:336 | `toString` of a non-null value; `TypeInfo.CoerceToText` proves that coercion reads it back |
| Values.JoinValues | restler-core/src/main/java/net/researchgate/restdsl/queries/ServiceQuery.java:290 | joining values fails with a NullPointerException exactly when one of them is null |
| TypeInfo.ConverterRegistry.constructor | restler-core/src/main/java/net/researchgate/restdsl/types/TypeInfoUtil.java:31 | the converter table starts empty |
| TypeInfo.ConverterRegistry.AddConverter | restler-core/src/main/java/net/researchgate/restdsl/types/TypeInfoUtil.java:34-39 | the new converter replaces any earlier one for its exact class and every other entry is kept, a primitive and its box being different classes |
| TypeInfo.LowerAscii | restler-core/src/main/java/net/researchgate/restdsl/types/TypeInfoUtil.java:64-65 | the lower-cased ObjectId text keeps its length and validity, holds no upper-case letter, keeps every other character and equals the text ignoring case |
| TypeInfo.BuiltIn | restler-core/src/main/java/net/researchgate/restdsl/types/TypeInfoUtil.java:58-78 | the class tests fail only with PARAMS_ERROR and produce a value of the target class, a primitive being read like its box; a string is kept as is and any text is a boolean |
| TypeInfo.GetValue | restler-core/src/main/java/net/researchgate/restdsl/types/TypeInfoUtil.java:45-79 | coercion fails only with PARAMS_ERROR; the converter is looked up by the exact class, and `ReservedFirst`, `ConverterPrecedence`, `PrimitiveApartFromBox` and `CoerceToText` state the order of the steps |
| TypeInfo.ReservedFirst | restler-core/src/main/java/net/researchgate/restdsl/types/TypeInfoUtil.java:47-53 | a reserved token coerces the same way whatever the class and the converters: `$null` to null, the others to their constant |
| TypeInfo.ConverterPrecedence | restler-core/src/main/java/net/researchgate/restdsl/types/TypeInfoUtil.java:54-56 | a registered converter decides the coercion of non-reserved text for its class, and registering it leaves other classes alone, the primitive of a box included |
| TypeInfo.PrimitiveApartFromBox | restler-core/src/main/java/net/researchgate/restdsl/types/TypeInfoUtil.java:54-67 | the class tests read `long`, `int` and `boolean` like their boxes, but a converter for `Long.class` is not consulted for a `long` field, whose text `Long.valueOf` reads |
| TypeInfo.UnsupportedClass | restler-core/src/main/java/net/researchgate/restdsl/types/TypeInfoUtil.java:78 | a class outside the supported ones fails with PARAMS_ERROR |
| TypeInfo.CoerceToText | restler-core/src/main/java/net/researchgate/restdsl/types/TypeInfoUtil.java:58-71 | coercing a value's text back to its class gives the value |
| TypeInfo.DecimalNotReserved | restler-core/src/main/java/net/researchgate/restdsl/types/TypeInfoUtil.java:47 | a decimal number is never a reserved token |
| TypeInfo.CoerceDate | restler-core/src/main/java/net/researchgate/restdsl/types/TypeInfoUtil.java:72-73 | dates are read as epoch milliseconds in base 10 |
| TypeInfo.LongExamples | restler-core/src/test/java/net/researchgate/restdsl/util/TypeInfoUtilTest.java:16-27 | `123` coerces to the long 123 and `123X` fails with PARAMS_ERROR |
| TypeInfo.Step | restler-core/src/main/java/net/researchgate/restdsl/types/TypeInfoUtil.java:95-102 | a field of a List type continues with its element type, any other field with its own type, and an unknown field fails |
| TypeInfo.FieldWalk | restler-core/src/main/java/net/researchgate/restdsl/types/TypeInfoUtil.java:87-103 | a walk past the last segment returns the class reached and its parent; a non-empty successful walk has a parent |
| TypeInfo.FieldExpressionClazz | restler-core/src/main/java/net/researchgate/restdsl/types/TypeInfoUtil.java:83-85 | a successful walk over a dotted expression always has a parent class |
| TypeInfo.FieldWalkSnoc | restler-core/src/main/java/net/researchgate/restdsl/types/TypeInfoUtil.java:87-103 | the walk over one more segment is the walk so far followed by one step, whose parent is the class walked so far |
| TypeInfo.SingleSegment | restler-core/src/main/java/net/researchgate/restdsl/types/TypeInfoUtil.java:83-103 | a single segment gives the field's type and the entity class as parent |
| Requests.GetFirst | restler-core/src/main/java/net/researchgate/restdsl/util/RequestUtil.java:35 | the first value of a key, present exactly when the key has a value |
| Requests.GetInt | restler-core/src/main/java/net/researchgate/restdsl/util/RequestUtil.java:29-39 | an absent key gives nothing, text that is not a base-10 `int` fails with PARAMS_ERROR, otherwise the parsed number |
| Requests.GetIntRoundTrip | restler-core/src/main/java/net/researchgate/restdsl/util/RequestUtil.java:29-39 | a printed `int` reads back as itself |
| Requests.GetBoolean | restler-core/src/main/java/net/researchgate/restdsl/util/RequestUtil.java:41-47 | an absent key gives nothing, otherwise true exactly when the first value is `true` in any case |
| Requests.GetString | restler-core/src/main/java/net/researchgate/restdsl/util/RequestUtil.java:49-55 | an absent key gives nothing, otherwise the first value |
| Requests.GetToList | restler-core/src/main/java/net/researchgate/restdsl/util/RequestUtil.java:58-64 | an absent key gives nothing, a key without a value fails with a NullPointerException, otherwise the first value split on commas with empty pieces kept |
| Requests.GetToSet | restler-core/src/main/java/net/researchgate/restdsl/util/RequestUtil.java:66-72 | the pieces of `getToList` with duplicates removed |
| Requests.GetPatchContext | restler-core/src/main/java/net/researchgate/restdsl/util/RequestUtil.java:74-78 | the default context without `unsetFields`, otherwise a context unsetting exactly the listed fields |
| Requests.SplitValuesNonEmpty | restler-core/src/main/java/net/researchgate/restdsl/util/RequestUtil.java:99-102 | no split matrix value is empty |
| Requests.CoerceAll | restler-core/src/main/java/net/researchgate/restdsl/util/RequestUtil.java:111-112 | eager coercion of every text; `CoerceAllSpec` states when it succeeds and what it gives |
| Requests.CoerceAllSpec | restler-core/src/main/java/net/researchgate/restdsl/util/RequestUtil.java:111-112 | coercion of a list succeeds exactly when every text coerces, and then gives one value per text in order |
| Requests.MatrixCriteria | restler-core/src/main/java/net/researchgate/restdsl/util/RequestUtil.java:94-116 | one criterion per matrix key |
| Requests.MatrixCriteriaAt | restler-core/src/main/java/net/researchgate/restdsl/util/RequestUtil.java:94-116 | the criterion at each position is the one of that matrix key |
| Requests.AddCriteriaFrom | restler-core/src/main/java/net/researchgate/restdsl/util/RequestUtil.java:94-116 | the criteria from a position on are that key's step followed by the rest |
| Requests.AddCriteriaIds | restler-core/src/main/java/net/researchgate/restdsl/util/RequestUtil.java:114 | adding criteria leaves the ids alone |
| Requests.ApplyMatrixIds | restler-core/src/main/java/net/researchgate/restdsl/util/RequestUtil.java:94-116 | the matrix keys change only the criteria |
| Requests.ApplyQueryParameters | restler-core/src/main/java/net/researchgate/restdsl/util/RequestUtil.java:83-92 | the query parameters never set ids |
| Requests.ParseRequestSpec | restler-core/src/main/java/net/researchgate/restdsl/util/RequestUtil.java:80-123 | `parseRequest` as a function; `Requests.ParseRequest` is proved to compute it |
| Requests.ParseRequest | restler-core/src/main/java/net/researchgate/restdsl/util/RequestUtil.java:80-123 | computes the specification of `parseRequest`: its error, or the query it builds |
| Requests.ReadQueryParameters | restler-core/src/main/java/net/researchgate/restdsl/util/RequestUtil.java:83-92 | the parameter steps on a fresh builder succeed exactly when the specification does, with its error or its query |
| Requests.AddMatrixCriteria | restler-core/src/main/java/net/researchgate/restdsl/util/RequestUtil.java:94-116 | the matrix loop succeeds or fails as the specification does, and leaves the query it computes |
| Requests.AddMatrixEntry | restler-core/src/main/java/net/researchgate/restdsl/util/RequestUtil.java:95-115 | one pass keeps the query on the way to what the loop computes, or stops with its error |
| Requests.AddMatrixKey | restler-core/src/main/java/net/researchgate/restdsl/util/RequestUtil.java:95-115 | one matrix key is added with `withCriteria` as the specification's step |
| Requests.SplitMatrixValues | restler-core/src/main/java/net/researchgate/restdsl/util/RequestUtil.java:99-102 | the values are split as the specification says |
| Requests.ParseBasic | restler-core/src/test/java/net/researchgate/restdsl/util/RequestUtilTest.java:21-30 | path `-` under the default parameters gives no ids, the default limit and fields, and offset 0 |
| Requests.IdsFromPath | restler-core/src/main/java/net/researchgate/restdsl/util/RequestUtil.java:117-120 | ids are present exactly when the path names them, one value per comma-separated piece, in order and with duplicates |
| Requests.ApplyIdsPieces | restler-core/src/main/java/net/researchgate/restdsl/util/RequestUtil.java:117-120 | the ids are the pieces of the path, each coerced to the id class |
| Requests.BadIdFails | restler-core/src/main/java/net/researchgate/restdsl/util/RequestUtil.java:117-120 | a piece of the id list that does not coerce fails the request |
| Requests.EmptyLongIdFails | restler-core/src/test/java/net/researchgate/restdsl/util/RequestUtilTest.java:39-44 | an empty piece does not coerce to a long id |
| Requests.BadCriterionFails | restler-core/src/main/java/net/researchgate/restdsl/util/RequestUtil.java:103-114 | a matrix key with an unknown field, a bad operator or a value of the wrong type fails the request |
| Requests.BadCriterionStops | restler-core/src/main/java/net/researchgate/restdsl/util/RequestUtil.java:94-116 | a failing criterion fails the whole loop |
| Requests.MatrixCriterion | restler-core/src/main/java/net/researchgate/restdsl/util/RequestUtil.java:103-114 | a matrix key adds its values, coerced to the type of its bare field, under its normalised key |
| Requests.SplitValuesJoin | restler-core/src/test/java/net/researchgate/restdsl/util/RequestUtilTest.java:46-56 | values given as repeated keys and values given comma-joined split to the same list |
| Requests.SplitValuesSingles | restler-core/src/main/java/net/researchgate/restdsl/util/RequestUtil.java:99-102 | splitting comma-free values keeps exactly the non-empty ones |
| Requests.NonEmptyConcat | restler-core/src/main/java/net/researchgate/restdsl/util/RequestUtil.java:101 | omitting empty pieces distributes over concatenation |
| IndexInfo.JavaNames | restler-core/src/main/java/net/researchgate/restdsl/domain/EntityIndexInfo.java:73-93 | one Java name per storage component when all are mapped |
| IndexInfo.JavaFieldName | restler-core/src/main/java/net/researchgate/restdsl/domain/EntityIndexInfo.java:73-93 | the dotted Java name, or none; `IndexInfo.GetJavaFieldNames` is proved to compute it |
| IndexInfo.PrependStep | restler-core/src/main/java/net/researchgate/restdsl/domain/EntityIndexInfo.java:77-90 | a mapped component moves its Java name to the front and continues with the next class |
| IndexInfo.GetJavaFieldNames | restler-core/src/main/java/net/researchgate/restdsl/domain/EntityIndexInfo.java:73-93 | the loop computes the dotted Java name, or none at the first unmapped component |
| IndexInfo.Component | restler-core/src/main/java/net/researchgate/restdsl/domain/EntityIndexInfo.java:35-62 | one key's component: `-name`, `name` or nothing; `Components` and `ComponentsSnoc` collect them |
| IndexInfo.Components | restler-core/src/main/java/net/researchgate/restdsl/domain/EntityIndexInfo.java:34-64 | an index has at most one component per key |
| IndexInfo.IndexStrings | restler-core/src/main/java/net/researchgate/restdsl/domain/EntityIndexInfo.java:30-69 | one index string per index, each the comma-joined components |
| IndexInfo.ComponentCases | restler-core/src/main/java/net/researchgate/restdsl/domain/EntityIndexInfo.java:37-63 | an unmapped key is skipped; -1 gives `-name`; 1 and `hashed` give `name`; other values are skipped |
| IndexInfo.SanitizedParts | restler-core/src/main/java/net/researchgate/restdsl/domain/EntityIndexInfo.java:98-100 | an index string has at least one part |
| IndexInfo.Prefixes | restler-core/src/main/java/net/researchgate/restdsl/domain/EntityIndexInfo.java:101-107 | one prefix per part |
| IndexInfo.PrefixSet | restler-core/src/main/java/net/researchgate/restdsl/domain/EntityIndexInfo.java:95-109 | the prefix set holds no duplicates |
| IndexInfo.EntityIndexInfo.constructor | restler-core/src/main/java/net/researchgate/restdsl/domain/EntityIndexInfo.java:28-71 | the index set holds every index string once and the prefix set every leading run |
| IndexInfo.EntityIndexInfo.ComputeMaps | restler-core/src/main/java/net/researchgate/restdsl/domain/EntityIndexInfo.java:95-109 | the outer loop builds the index set and the prefix set of the specification |
| IndexInfo.EntityIndexInfo.AddPrefixes | restler-core/src/main/java/net/researchgate/restdsl/domain/EntityIndexInfo.java:101-107 | the inner loop adds the leading runs of one index and leaves the index set alone |
| IndexInfo.IndexStringsSnoc | restler-core/src/main/java/net/researchgate/restdsl/domain/EntityIndexInfo.java:30-69 | one more index appends its string |
| IndexInfo.MapsStep | restler-core/src/main/java/net/researchgate/restdsl/domain/EntityIndexInfo.java:96-107 | one pass of the outer loop adds one index string and its prefixes |
| IndexInfo.PrefixSetSnoc | restler-core/src/main/java/net/researchgate/restdsl/domain/EntityIndexInfo.java:96-107 | the prefix set of one more index adds its prefixes |
| IndexInfo.PrefixStep | restler-core/src/main/java/net/researchgate/restdsl/domain/EntityIndexInfo.java:104-106 | one pass of the inner loop extends the running prefix by one part |
| IndexInfo.ComponentsSnoc | restler-core/src/main/java/net/researchgate/restdsl/domain/EntityIndexInfo.java:34-64 | one more key adds its component, if any |
| IndexInfo.TranslateIndexes | restler-core/src/main/java/net/researchgate/restdsl/domain/EntityIndexInfo.java:30-69 | the loop over the indexes computes their index strings |
| IndexInfo.TranslateKeys | restler-core/src/main/java/net/researchgate/restdsl/domain/EntityIndexInfo.java:34-64 | the loop over the keys of one index computes its components |
| IndexInfo.JoinSnoc | restler-core/src/main/java/net/researchgate/restdsl/domain/EntityIndexInfo.java:65 | the joiner puts the separator before each later part |
| IndexInfo.PrefixesSnoc | restler-core/src/main/java/net/researchgate/restdsl/domain/EntityIndexInfo.java:104-106 | the prefixes of one more part add the longer run |
| IndexInfo.AddAllConcat | restler-core/src/main/java/net/researchgate/restdsl/domain/EntityIndexInfo.java:97-106 | adding two lists is adding the first, then the second |
| IndexInfo.IndexSetContents | restler-core/src/main/java/net/researchgate/restdsl/domain/EntityIndexInfo.java:96-97 | the index set holds every index string once |
| IndexInfo.PrefixSetMembers | restler-core/src/main/java/net/researchgate/restdsl/domain/EntityIndexInfo.java:98-107 | the prefix set holds exactly the leading runs of the indexes |
| IndexInfo.FirstComponentIsPrefix | restler-core/src/main/java/net/researchgate/restdsl/domain/EntityIndexInfo.java:101-103 | the first component of every index is in the prefix set |
| IndexInfo.LongerPrefixHasComma | restler-core/src/main/java/net/researchgate/restdsl/domain/EntityIndexInfo.java:104-106 | every prefix after the first holds a comma |
| IndexInfo.FirstPrefix | restler-core/src/main/java/net/researchgate/restdsl/domain/EntityIndexInfo.java:101-103 | the first prefix is the first part |
| IndexInfo.BareNameIsFirstComponent | restler-core/src/main/java/net/researchgate/restdsl/domain/EntityIndexInfo.java:100-103 | a bare field name in the prefix set is the first component of some index |
| Results.NewEntityList | restler-core/src/main/java/net/researchgate/restdsl/results/EntityList.java:25-29 | a null item list is refused with a NullPointer; otherwise the page keeps exactly the items and total it was given |
| Results.NewEntityMap | restler-core/src/main/java/net/researchgate/restdsl/results/EntityMap.java:28-32 | a null map is refused with a NullPointer; otherwise the map keeps exactly the entries and total it was given |
| Results.KeysOf | restler-core/src/main/java/net/researchgate/restdsl/results/EntityMap.java:36 | one key per entry, entry i's key at position i |
| Results.ValuesOf | restler-core/src/main/java/net/researchgate/restdsl/results/EntityMap.java:40-43 | what the map's iterator yields: one value per entry, entry i's value at position i |
| Results.CollectByKey | restler-core/src/main/java/net/researchgate/restdsl/results/EntityMap.java:36 | on success each item is paired with its selected key, in order, under distinct keys; a repeated key is an IllegalState failure |
| Results.NewKeyedEntityMap | restler-core/src/main/java/net/researchgate/restdsl/results/EntityMap.java:34-38 | a null collection is refused with a NullPointer; a built map keeps the total it was given |
| Results.SelectedKeys | restler-core/src/main/java/net/researchgate/restdsl/results/EntityMap.java:36 | the key selector applied to each item, in order |
| Results.KeyedMapContents | restler-core/src/main/java/net/researchgate/restdsl/results/EntityMap.java:34-43 | the key-selector map is built exactly when the selected keys are distinct, and then iterates the items in their original order |
| Results.NewEntityMultimap | restler-core/src/main/java/net/researchgate/restdsl/results/EntityMultimap.java:28-32 | a null map is refused with a NullPointer; otherwise the multimap keeps exactly the groups and total it was given |
| Results.ConcatSize | restler-core/src/main/java/net/researchgate/restdsl/results/EntityMultimap.java:34-38 | the multimap's iterator yields as many items as its groups hold together, and every item of every group |
| Results.MultimapTotalIndependent | restler-core/src/main/java/net/researchgate/restdsl/results/EntityMultimap.java:44-47 | the multimap's total is the one supplied, over any groups, and not computed from them |
| Results.Select | restler-core/src/main/java/net/researchgate/restdsl/results/EntityResult.java:116-131 | the lazy choice prefers the list, then the map, then the multimap, and finds nothing only when all three are absent |
| Results.EntityResult.OfList | restler-core/src/main/java/net/researchgate/restdsl/results/EntityResult.java:42-43 | only the list is set and it is the current container |
| Results.EntityResult.OfMap | restler-core/src/main/java/net/researchgate/restdsl/results/EntityResult.java:48-49 | only the map is set and it is the current container |
| Results.EntityResult.OfMultimap | restler-core/src/main/java/net/researchgate/restdsl/results/EntityResult.java:54-55 | only the multimap is set and it is the current container |
| Results.EntityResult.Deserialized | restler-core/src/main/java/net/researchgate/restdsl/results/EntityResult.java:35-38 | a deserialised result holds the fields that were present and no current container yet |
| Results.EntityResult.CurrentContainer | restler-core/src/main/java/net/researchgate/restdsl/results/EntityResult.java:116-131 | a container once chosen never changes; an unset one becomes the list, else the map, else the multimap; the three fields stay as they were |
| Results.EntityResult.Iterate | restler-core/src/main/java/net/researchgate/restdsl/results/EntityResult.java:58-61 | the current container's items, or a NullPointer when there is no container |
| Results.EntityResult.TotalItems | restler-core/src/main/java/net/researchgate/restdsl/results/EntityResult.java:63-67 | the total of the current container, or a NullPointer when there is none |
| Results.EntityResult.IsEmpty | restler-core/src/main/java/net/researchgate/restdsl/results/EntityResult.java:80-83 | true exactly when the current container yields no item |
| Results.EntityResult.GetOne | restler-core/src/main/java/net/researchgate/restdsl/results/EntityResult.java:91-98 | null on an empty result, otherwise the first item iterated |
| Results.EntityResult.AsList | restler-core/src/main/java/net/researchgate/restdsl/results/EntityResult.java:72-78 | the list's own items when the list is set, otherwise everything the current container yields |
| Results.NewEntityResult | restler-core/src/main/java/net/researchgate/restdsl/results/EntityResult.java:31-33 | a null item list is refused with a NullPointer; otherwise a fresh result holding just that page |
| Results.NewListResult | restler-core/src/main/java/net/researchgate/restdsl/results/EntityResult.java:40-44 | a null list is refused with a NullPointerException; otherwise a fresh result whose only field and current container is that list |
| Results.NewMapResult | restler-core/src/main/java/net/researchgate/restdsl/results/EntityResult.java:46-50 | a null map is refused with a NullPointerException; otherwise a fresh result whose only field and current container is that map |
| Results.NewMultimapResult | restler-core/src/main/java/net/researchgate/restdsl/results/EntityResult.java:52-56 | a null multimap is refused with a NullPointerException; otherwise a fresh result whose only field and current container is that multimap |
| Models.ByIdQueryShape | restler-core/src/main/java/net/researchgate/restdsl/model/ServiceModel.java:33-39 | the single-id query carries exactly that id, no criteria, offset 0, the maximal limit and no count-only flag |
| Models.WithUnsetFields | restler-core/src/main/java/net/researchgate/restdsl/model/ServiceModel.java:62-67 | the unset loop as a function; `WithUnsetFieldsContents` states its failure and contents |
| Models.WithUnsetFieldsContents | restler-core/src/main/java/net/researchgate/restdsl/model/ServiceModel.java:62-67 | an unset field that is also changed is a PARAMS_ERROR; otherwise the changes keep their values and each unset field is added as null |
| Models.AddUnsetFields | restler-core/src/main/java/net/researchgate/restdsl/model/ServiceModel.java:62-67 | the unset loop, whatever order the set yields, gives exactly the unset-fields result |
| Models.ServiceModel.constructor | restler-core/src/main/java/net/researchgate/restdsl/model/ServiceModel.java:24-26 | the model keeps its DAO and the entity's property descriptors |
| Models.ServiceModel.Get | restler-core/src/main/java/net/researchgate/restdsl/model/ServiceModel.java:33-35 | get(id) is the DAO's get of the single-id query |
| Models.ServiceModel.GetOne | restler-core/src/main/java/net/researchgate/restdsl/model/ServiceModel.java:37-39 | getOne(id) is the DAO's getOne of the single-id query |
| Models.ServiceModel.Patch | restler-core/src/main/java/net/researchgate/restdsl/model/ServiceModel.java:54-78 | patch looks up the stored entity, diffs it, adds the unset fields and hands the changes to the DAO, with every failure inside the try reported as ENTITY_ERROR |
| Models.ChangesAreNonNullDifferences | restler-core/src/main/java/net/researchgate/restdsl/model/ServiceModel.java:60-61 | a property is changed exactly when it is read/write and its submitted value is non-null and differs from the stored one, and it maps to the submitted value |
| Models.PatchOutcome | restler-core/src/main/java/net/researchgate/restdsl/model/ServiceModel.java:54-78 | `patch` as a function of the DAO; `PatchCases`, `NoChangesNoDaoPatch` and `PatchHandsChanges` state its outcomes |
| Models.PatchCases | restler-core/src/main/java/net/researchgate/restdsl/model/ServiceModel.java:58-77 | a failed lookup passes its failure through; a missing entity, a patched-and-unset field and every other failure inside the try are ENTITY_ERROR; no changes return the stored entity |
| Models.NoChangesNoDaoPatch | restler-core/src/main/java/net/researchgate/restdsl/model/ServiceModel.java:69-71 | with nothing to change the stored entity is returned and the DAO's patch is never consulted |
| Models.PatchHandsChanges | restler-core/src/main/java/net/researchgate/restdsl/model/ServiceModel.java:60-73 | the DAO patch receives the single-id query and the non-null differences plus each unset field as null |
| Beans.Bean.constructor | restler-core/src/main/java/net/researchgate/restdsl/util/BeanUtils.java:618-624 | a bean holds its class's descriptors and its property values |
| Beans.LastNameFresh | restler-core/src/main/java/net/researchgate/restdsl/util/BeanUtils.java:63 | within one class's descriptors no earlier descriptor shares the last one's name |
| Beans.Capitalized | restler-core/src/main/java/net/researchgate/restdsl/util/BeanUtils.java:435-444 | the capitalisation fails with IndexOutOfBounds exactly on an empty property name |
| Beans.SetterName | restler-core/src/main/java/net/researchgate/restdsl/util/BeanUtils.java:435-445 | an empty name fails; otherwise `set` followed by the name, of which only the first character may change |
| Beans.GetterName | restler-core/src/main/java/net/researchgate/restdsl/util/BeanUtils.java:447-462 | an empty name fails; otherwise `is` for a boolean and `get` for any other property, followed by the name, of which only the first character may change |
| Beans.Decapitalize | restler-core/src/main/java/net/researchgate/restdsl/util/BeanUtils.java:58 | the JDK's `Introspector.decapitalize`, applied by the `Introspector.getBeanInfo` call here and at line 621, not code of the repository; the accessor names invert it: only the first character may change, and it is not upper-case unless the second is |
| Beans.CapitalizedShape | restler-core/src/main/java/net/researchgate/restdsl/util/BeanUtils.java:438-443 | only the first character may change, and it is upper-cased exactly when it is lower-case and the name has one character or a second that is not upper-case |
| Beans.CapitalizedIdempotent | restler-core/src/main/java/net/researchgate/restdsl/util/BeanUtils.java:438-443 | capitalising twice is capitalising once |
| Beans.AccessorNamesAgree | restler-core/src/main/java/net/researchgate/restdsl/util/BeanUtils.java:435-462 | the setter, the getter and the boolean getter are `set`, `get` and `is` followed by the same capitalised name |
| Beans.AccessorRoundTrip | restler-core/src/main/java/net/researchgate/restdsl/util/BeanUtils.java:435-462 | a lower-case name whose second letter is not upper-case comes back from both accessor names by JavaBeans decapitalisation |
| Beans.SecondUpperKept | restler-core/src/main/java/net/researchgate/restdsl/util/BeanUtils.java:450-451 | a name whose second letter is upper-case keeps its first letter in the getter name |
| Beans.AccessorExample | restler-core/src/main/java/net/researchgate/restdsl/util/BeanUtils.java:435-462 | an example only, of the all-inputs `Beans.AccessorRoundTrip` and `Beans.CapitalizedShape`: `name` gives `setName`, `getName` and `isName` |
| Beans.CopyPredicateCases | restler-core/src/main/java/net/researchgate/restdsl/util/BeanUtils.java:139-154 | the configured predicate wins; with none, nested keys choose "new not null" and everything else "new not null, old null" |
| Beans.Merge | restler-core/src/main/java/net/researchgate/restdsl/util/BeanUtils.java:56-88 | the target's new values and the updated flag are the merge fold over its descriptors; the source is unchanged |
| Beans.MergeDefault | restler-core/src/main/java/net/researchgate/restdsl/util/BeanUtils.java:41-43 | the three-argument merge is the merge under "new not null, old null" |
| Beans.MergeUntouched | restler-core/src/main/java/net/researchgate/restdsl/util/BeanUtils.java:65-76 | a property outside a non-null merge set or lacking a getter or setter keeps its value |
| Beans.MergeValue | restler-core/src/main/java/net/researchgate/restdsl/util/BeanUtils.java:63-87 | a selected property takes the source's value exactly when the copy predicate accepts the change, and keeps its own otherwise |
| Beans.MergeUpdated | restler-core/src/main/java/net/researchgate/restdsl/util/BeanUtils.java:83-88 | merge reports an update exactly when the predicate accepts some selected property's change |
| Beans.DefaultMerge | restler-core/src/main/java/net/researchgate/restdsl/util/BeanUtils.java:157-165 | the default merge fills exactly the selected null properties for which the source has a value |
| Beans.ShallowDifferences | restler-core/src/main/java/net/researchgate/restdsl/util/BeanUtils.java:550-602 | the differences are the diff fold over the old bean's descriptors |
| Beans.ShallowDifferencesIgnoring | restler-core/src/main/java/net/researchgate/restdsl/util/BeanUtils.java:531-533 | the five-argument form treats its set as properties to ignore |
| Beans.ShallowDifferencesAll | restler-core/src/main/java/net/researchgate/restdsl/util/BeanUtils.java:525-528 | the two-argument form ignores nothing and skips neither nulls nor empty collections |
| Beans.DiffContents | restler-core/src/main/java/net/researchgate/restdsl/util/BeanUtils.java:557-599 | a property is in the differences exactly when a compared read/write descriptor reports it, and it maps to the new value |
| Beans.AllDifferences | restler-core/src/main/java/net/researchgate/restdsl/util/BeanUtils.java:557-599 | with nothing ignored or skipped the differences are exactly the read/write properties whose values differ |
| Beans.EmptyCollectionIsNull | restler-core/src/main/java/net/researchgate/restdsl/util/BeanUtils.java:578-595 | with empty collections treated as null, null against an empty collection is never a difference, though it is one without that flag |
| Beans.Patch | restler-core/src/main/java/net/researchgate/restdsl/util/BeanUtils.java:618-652 | the bean's new values are the patch fold over its descriptors; the patches are unchanged |
| Beans.PatchValue | restler-core/src/main/java/net/researchgate/restdsl/util/BeanUtils.java:624-651 | after patch a property holds the patch value when it is not ignored, read/write and patched with non-null, and its old value otherwise |
| Beans.PatchKeepsIgnored | restler-core/src/main/java/net/researchgate/restdsl/util/BeanUtils.java:626-628 | ignored properties are never touched |
| Beans.PatchIdempotent | restler-core/src/main/java/net/researchgate/restdsl/util/BeanUtils.java:618-652 | patching again with the same patches changes nothing |
| Beans.GetNonNullFields | restler-core/src/main/java/net/researchgate/restdsl/util/BeanUtils.java:507-523 | the fields found are the non-null fold over the bean's descriptors |
| Beans.NonNullFields | restler-core/src/main/java/net/researchgate/restdsl/util/BeanUtils.java:507-523 | a name is found exactly when it is readable, not ignored and its value is non-null |
| MongoClient.StripPassword | restler-service/src/main/java/net/researchgate/restler/service/mongo/MongoClientBuilder.java:148-158 | the log-safe URI; `NoAtUnchanged`, `NoColonUnchanged` and `Rewritten` state its three cases |
| MongoClient.NoAtUnchanged | restler-service/src/main/java/net/researchgate/restler/service/mongo/MongoClientBuilder.java:150-151 | without an `@` past the first character the URI is unchanged |
| MongoClient.NoColonUnchanged | restler-service/src/main/java/net/researchgate/restler/service/mongo/MongoClientBuilder.java:152-153 | with an `@` but no `:` past the first character the URI is unchanged |
| MongoClient.Rewritten | restler-service/src/main/java/net/researchgate/restler/service/mongo/MongoClientBuilder.java:154 | otherwise the result is the text before the first `:`, the placeholder, then the text from the first `@` |
| MongoClient.ChangedOnlyWithBoth | restler-service/src/main/java/net/researchgate/restler/service/mongo/MongoClientBuilder.java:148-158 | a changed URI has both an `@` and a `:` past the first character |
| MongoClient.CredentialsReplaced | restler-service/src/main/java/net/researchgate/restler/service/mongo/MongoClientBuilder.java:148-158 | `user:secret@host` loses its secret and keeps the user and the host |
| MongoClient.Idempotent | restler-service/src/main/java/net/researchgate/restler/service/mongo/MongoClientBuilder.java:148-158 | when nothing after the `@` holds a `:`, the result holds no `:` and stripping again changes nothing |
| MongoClient.PortAfterAt | restler-service/src/main/java/net/researchgate/restler/service/mongo/MongoClientBuilder.java:148-158 | when the first `:` is a port after the `@`, the host is repeated around the placeholder |
| MongoClient.SchemeExample | restler-service/src/main/java/net/researchgate/restler/service/mongo/MongoClientBuilder.java:148-158 | `mongodb://u:p@h` becomes `mongodbpassword@h`, because the first `:` is the scheme's |
| Rfc3339.TryPatterns | restler-service/src/main/java/net/researchgate/restler/serde/Rfc3339DateDeserializer.java:54-61 | a pattern's result, else the fractional pattern's, else a parse failure |
| Rfc3339.RemoveOffsetColon | restler-service/src/main/java/net/researchgate/restler/serde/Rfc3339DateDeserializer.java:65-73 | the rewrite fails with IndexOutOfBounds exactly when the text holds no `+` |
| Rfc3339.ParseRfc3339Date | restler-service/src/main/java/net/researchgate/restler/serde/Rfc3339DateDeserializer.java:49-84 | `parseRFC3339Date`; `ZuluPath` and `OffsetPath` state which patterns read which text |
| Rfc3339.Deserialize | restler-service/src/main/java/net/researchgate/restler/serde/Rfc3339DateDeserializer.java:26-47 | `deserialize`; `DeserializeFailures` and `DeserializeOk` state when it fails and what it returns |
| Rfc3339.DropColonAt | restler-service/src/main/java/net/researchgate/restler/serde/Rfc3339DateDeserializer.java:70-71 | the colon-free text before the first `:` and the text after it are kept, the `:` dropped |
| Rfc3339.DropOneColon | restler-service/src/main/java/net/researchgate/restler/serde/Rfc3339DateDeserializer.java:70-73 | an offset without `:` is kept; otherwise exactly its first `:` goes |
| Rfc3339.NoColonKept | restler-service/src/main/java/net/researchgate/restler/serde/Rfc3339DateDeserializer.java:70 | an offset without `:` is kept as it is |
| Rfc3339.OffsetColonRemoved | restler-service/src/main/java/net/researchgate/restler/serde/Rfc3339DateDeserializer.java:65-73 | `+hh:mm` after the last `+` becomes `+hhmm` and the date-time before it is kept |
| Rfc3339.LastBeforeFree | restler-service/src/main/java/net/researchgate/restler/serde/Rfc3339DateDeserializer.java:66-67 | the last `+` is the one that starts a `+`-free tail |
| Rfc3339.OffsetWithoutColonUnchanged | restler-service/src/main/java/net/researchgate/restler/serde/Rfc3339DateDeserializer.java:70-73 | an offset without `:` such as `+0100` is left as it is |
| Rfc3339.OffsetRewritten | restler-service/src/main/java/net/researchgate/restler/serde/Rfc3339DateDeserializer.java:65-73 | the text before the last `+` is kept and only the offset after it loses its first `:` |
| Rfc3339.ZuluPath | restler-service/src/main/java/net/researchgate/restler/serde/Rfc3339DateDeserializer.java:53-63 | a text ending in `Z` is not rewritten: the zulu pattern, then the fractional one, decide the result |
| Rfc3339.OffsetPath | restler-service/src/main/java/net/researchgate/restler/serde/Rfc3339DateDeserializer.java:65-82 | any other text with a `+` is parsed by the offset patterns after the colon rewrite |
| Rfc3339.DeserializeFailures | restler-service/src/main/java/net/researchgate/restler/serde/Rfc3339DateDeserializer.java:26-49 | a non-string token, a null text or a refused text is a mapping exception; IndexOutOfBounds escapes exactly for a non-`Z` text without `+` |
| Rfc3339.DeserializeOk | restler-service/src/main/java/net/researchgate/restler/serde/Rfc3339DateDeserializer.java:26-47 | deserialisation succeeds exactly for a string token whose text parses, and yields the parsed value |
| Rfc3339.NegativeOffsetExample | restler-service/src/main/java/net/researchgate/restler/serde/Rfc3339DateDeserializer.java:66 | a `-05:00` offset, which section 5.6 of RFC 3339 allows, ends in IndexOutOfBounds |
| Rfc3339.PositiveOffsetExample | restler-service/src/main/java/net/researchgate/restler/serde/Rfc3339DateDeserializer.java:65-73 | `+01:00` becomes `+0100` |
| ExceptionMapper.RestDslStatus | restler-service/src/main/java/net/researchgate/restler/service/exceptions/ServiceExceptionMapper.java:91-105 | every RestDsl error type, and none, maps to 400, 409 or 500; `RestDslStatusCases` gives each direction |
| ExceptionMapper.StatusOf | restler-service/src/main/java/net/researchgate/restler/service/exceptions/ServiceExceptionMapper.java:81-89 | `getStatus`; `StatusCases` states which throwable gets which status |
| ExceptionMapper.ExceptionName | restler-service/src/main/java/net/researchgate/restler/service/exceptions/ServiceExceptionMapper.java:107-113 | `getExceptionName`; `NameCases` states its two cases |
| ExceptionMapper.Describe | restler-service/src/main/java/net/researchgate/restler/service/exceptions/ServiceExceptionMapper.java:54-58 | one description; `DescribeShape` states its form |
| ExceptionMapper.ChainDescriptions | restler-service/src/main/java/net/researchgate/restler/service/exceptions/ServiceExceptionMapper.java:51-65 | at most `n` descriptions; `ChainDescriptionsLength` and `ChainDescriptionsAt` give their number and each entry |
| ExceptionMapper.ResponseOf | restler-service/src/main/java/net/researchgate/restler/service/exceptions/ServiceExceptionMapper.java:39-79 | `toResponse`; `NotModifiedOnly` and `ResponseDescriptions` state its status, URI and descriptions |
| ExceptionMapper.Descriptions | restler-service/src/main/java/net/researchgate/restler/service/exceptions/ServiceExceptionMapper.java:51-65 | the loop yields the descriptions of the first five exceptions of the cause chain |
| ExceptionMapper.ToResponse | restler-service/src/main/java/net/researchgate/restler/service/exceptions/ServiceExceptionMapper.java:39-79 | the response is the empty 304 or the error document with status, name, descriptions and request URI |
| ExceptionMapper.RestDslStatusCases | restler-service/src/main/java/net/researchgate/restler/service/exceptions/ServiceExceptionMapper.java:91-105 | PARAMS_ERROR, ENTITY_ERROR and QUERY_ERROR are 400, DUPLICATE_KEY is 409, GENERAL_ERROR and no type are 500, each in both directions |
| ExceptionMapper.StatusCases | restler-service/src/main/java/net/researchgate/restler/service/exceptions/ServiceExceptionMapper.java:81-89 | a ServiceException's own status wins, a RestDslException maps by type, any other throwable is 500 |
| ExceptionMapper.NotModifiedOnly | restler-service/src/main/java/net/researchgate/restler/service/exceptions/ServiceExceptionMapper.java:40-45 | the empty 304 comes exactly from a NOT_MODIFIED ServiceException; every other response carries getStatus and the request URI |
| ExceptionMapper.NameCases | restler-service/src/main/java/net/researchgate/restler/service/exceptions/ServiceExceptionMapper.java:107-113 | the canonical class name, except that a bare RuntimeException with a cause reports the cause's |
| ExceptionMapper.DescribeShape | restler-service/src/main/java/net/researchgate/restler/service/exceptions/ServiceExceptionMapper.java:54-58 | a description is the class name, followed by `:` and the message exactly when there is a message |
| ExceptionMapper.ChainDescriptionsLength | restler-service/src/main/java/net/researchgate/restler/service/exceptions/ServiceExceptionMapper.java:51-65 | as many descriptions as exceptions in the chain, but at most the bound |
| ExceptionMapper.ChainDescriptionsAt | restler-service/src/main/java/net/researchgate/restler/service/exceptions/ServiceExceptionMapper.java:53-60 | entry i describes the exception i steps down the cause chain |
| ExceptionMapper.ResponseDescriptions | restler-service/src/main/java/net/researchgate/restler/service/exceptions/ServiceExceptionMapper.java:49-65 | between one and five descriptions, the first for the thrown exception, and a chain of five or fewer in full |

## Left out

- Morphia and the Mongo driver are not modelled: finding, counting, deleting, `findAndModify`, `save`, `update` options, index listing and the `DuplicateKeyException` mapping. Storage is an abstract function from filters to documents instead.
- Morphia 2 is taken to encode a filter's values when the query runs, not when the filter is built, so `in` filters over the criteria's live view read the values the grouping loop left (`BaseDao.EncodedAtCount`). If Morphia 2 encoded eagerly, the grouped total of `MongoBaseServiceDao.get` would count all the supplied values, as the total of `MongoServiceDao.get` does.
- The storage function returns documents in storage order. It does not apply the sort order and projection the DAOs hand the driver. Those are modelled as the translated find options only.
- `MongoServiceDao.delete` and `patch` return what the store would report: the count of matching documents, or the first match as it would be after the update. The store itself is not mutated.
- Hash iteration order of `HashMultimap`, `HashSet` and `HashMap` is modelled as insertion order. This affects the order of the canonical query text, the filters and the grouped pages.
- `RequestUtil` calls `slaveOk` on the query builder (RequestUtil.java:92), but `ServiceQuery` defines no such method. The parameter is not modelled.
- `TypeInfoUtil.getValue` takes a value and a class, while `RequestUtil` calls it with four arguments. The model uses the two-argument form. The field name and parent class only feed reflection that is not modelled.
- `RequestUtil` coerces ids through a lazy `Lists.transform` view. The model coerces them eagerly. The same PARAMS_ERROR is reported, but at `build` time rather than on first iteration.
- `ServiceQueryBuilder.withServiceQueryParams` keeps a reference to the parameter object. The model takes a snapshot of its value, so later changes to those parameters are not seen. In the same way `PatchContext.Builder.unsetFields` and `ServiceQueryParamsImpl.Builder.defaultFields` wrap the caller's set in a live unmodifiable view (PatchContext.java:32, ServiceQueryParamsImpl.java:47). `PatchContexts.PatchContextBuilder.UnsetFields` and `QueryParams.ParamsBuilder.DefaultFields` store the set's value, so later changes the caller makes to that set are not seen.
- Date formatting and the four RFC 3339 date patterns are parameters of the model. They are library behaviour. The formatter's `setLenient` side effect is not modelled.
- `MongoBaseServiceDao`'s `delete(id)`, `save` and `getServiceQueryInfo` are not modelled. Neither are `ServiceModel`'s pass-through `get(query)`, `delete(query)`, `save` and `getServiceQueryInfo`, nor `ServiceQueryInfo`. Each only forwards to the driver or wraps `toUrlPart`.
- `validateMorphiaAnnotations` and the reflective parts of `BeanUtils` are not modelled: dotted-path access, `deepMerge`, `deepCopy`, `getAnnotationParameter` and `getPropertyValue`. Property descriptors are given as data.
- `EntityInfo` and the entity field mappers are reflection caches. They become an abstract schema: field types, an id field name and an entity class.
- `ServiceModel.patch` reads the entity's id through `EntityInfo`. The model takes the id as a parameter.
- The stats and timing wrappers, logging, and the JSON body built by the exception mapper are not modelled. Only the status, name, descriptions and request URI it is built from are.
- Concurrency is not modelled: the `synchronized` lazy container of `EntityResult` and the process-wide caches.

- Lang.ParseInt: reads ASCII digits only. `Integer.valueOf` also accepts every other Unicode decimal digit, such as `'٥'` (U+0665), which the model refuses. Java's Unicode digit tables are library data.
- Lang.ParseLong: ASCII digits only, as for `Lang.ParseInt`.
- Lang.ParseDecimal: ASCII digits only, as for `Lang.ParseInt`.
- Lang.ParseDecimalAccepts: "digit" means a character in `0`-`9`. Java would accept other Unicode decimal digits there.
- TypeInfo.BuiltIn: integer and long text is read by `Lang.ParseDecimal`, so only ASCII digits are accepted.
- TypeInfo.GetValue: ASCII digits only, through `TypeInfo.BuiltIn`.
- Requests.GetInt: ASCII digits only, through `Lang.ParseInt`.
- Beans.Capitalized: ASCII case only. `Character.isLowerCase`, `isUpperCase` and `toUpperCase` cover every Unicode letter, so Java capitalises `ñame` to `Ñame`, and the second letter of `aÑ` blocks it. The model keeps such names unchanged.
- Beans.CapitalizedShape: ASCII case only, as for `Beans.Capitalized`.
- Beans.CapitalizedIdempotent: ASCII case only, as for `Beans.Capitalized`.
- Beans.SetterName: ASCII case only, as for `Beans.Capitalized` (Java gives `setÑame` for `ñame`).
- Beans.GetterName: ASCII case only, as for `Beans.Capitalized`.
- Beans.AccessorNamesAgree: ASCII case only, as for `Beans.Capitalized`.
- Beans.AccessorRoundTrip: ASCII case only, as for `Beans.Capitalized`; `Beans.Decapitalize` uses ASCII case too.
- Beans.SecondUpperKept: "upper-case" means `A`-`Z`, as for `Beans.Capitalized`.
- Beans.Decapitalize: ASCII case only, as for `Beans.Capitalized`.
- `BeanValue.Collection` holds a collection's elements as a sequence, so two collections are equal only with the same elements in the same order. Java's `Set.equals` ignores order, so `shallowDifferences` may report a set whose elements were only reordered as changed in the model.
