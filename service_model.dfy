/** The generic entity model over a persistent DAO: lookups by id and the
    PATCH pipeline that diffs the submitted entity against the stored one,
    adds the fields to unset, and hands the changes to the DAO. */
module Models {
  import opened Errors
  import opened Beans
  import V = Values
  import QP = QueryParams
  import QS = QuerySpec
  import Q = Queries
  import PC = PatchContexts

  /** An entity as its getters see it. */
  type Entity = map<string, BeanValue>

  /** The DAO operations the model delegates to, over the query they are
      given: `get` and `getOne` (which may find nothing), and `patch` with a
      change map, which yields the patched entity. */
  datatype PersistentDao<R> = PersistentDao(
    get: QS.QueryView -> Result<R>,
    getOne: QS.QueryView -> Result<Option<Entity>>,
    patch: (QS.QueryView, map<string, BeanValue>) -> Result<Option<Entity>>)

  /** `ServiceQuery.byId(id)` once built. */
  function ByIdQuery(id: V.Value): (q: QS.QueryView)
  {
    QS.Build(QS.NewQuery.(ids := Some([id])), QP.AllQueryParams)
  }

  /** The single-id query carries exactly that id, no criteria and the
      capped limit. */
  lemma ByIdQueryShape(id: V.Value)
    ensures ByIdQuery(id).ids == Some([id])
    ensures ByIdQuery(id).criteria.None?
    ensures ByIdQuery(id).limit == Some(QS.MaxLimit)
    ensures ByIdQuery(id).offset == 0 && !ByIdQuery(id).countOnly
  {
  }

  /** The unset loop of `patch` as a function: a field both changed and to
      be unset is refused with a PARAMS_ERROR, otherwise each unset field is
      added with a null value. */
  function WithUnsetFields(changes: map<string, BeanValue>, unset: set<string>): (r: Result<map<string, BeanValue>>)
  {
    if exists f :: f in unset && f in changes then Raise(ParamsError)
    else Ok(changes + map f | f in unset :: Null)
  }

  /** The added fields read back as null, the changes keep their values,
      and nothing else appears. */
  lemma WithUnsetFieldsContents(changes: map<string, BeanValue>, unset: set<string>)
    ensures WithUnsetFields(changes, unset).Err? <==> unset * changes.Keys != {}
    ensures WithUnsetFields(changes, unset).Err? ==> WithUnsetFields(changes, unset).failure == RestDsl(ParamsError)
    ensures WithUnsetFields(changes, unset).Ok? ==>
              var all := WithUnsetFields(changes, unset).value;
              && all.Keys == changes.Keys + unset
              && (forall f :: f in unset ==> all[f] == Null)
              && (forall k :: k in changes ==> all[k] == changes[k])
  {
    if unset * changes.Keys != {} {
      var f :| f in unset * changes.Keys;
      assert f in unset && f in changes;
    } else {
      assert forall f :: f in unset && f in changes ==> f in unset * changes.Keys;
    }
  }

  /** The loop over the unset fields, in whatever order the set yields them:
      any order gives the same outcome. */
  method AddUnsetFields(changes: map<string, BeanValue>, unset: set<string>) returns (r: Result<map<string, BeanValue>>)
    ensures r == WithUnsetFields(changes, unset)
  {
    var acc := changes;
    var remaining := unset;
    while remaining != {}
      invariant remaining <= unset
      invariant acc == changes + map f | f in unset - remaining :: Null
      invariant forall f :: f in unset - remaining ==> f !in changes
      decreases remaining
    {
      var f :| f in remaining;
      if f in acc {
        assert f in unset && f in changes;
        return Raise(ParamsError);
      }
      acc := acc[f := Null];
      remaining := remaining - {f};
    }
    assert unset - remaining == unset;
    return Ok(acc);
  }

  /** `patch(entity, patchContext)` as a function of the stored entity the
      DAO finds, the submitted values and the fields to unset. The lookup
      happens outside the `try`, so its failure reaches the caller as it
      is; everything inside (a missing entity, a conflicting unset field, a
      failing DAO patch) becomes an ENTITY_ERROR. */
  function PatchOutcome<R>(dao: PersistentDao<R>, props: seq<Property>, id: V.Value,
                           submitted: Entity, unset: set<string>): (r: Result<Option<Entity>>)
  {
    var found :- dao.getOne(ByIdQuery(id));
    if found.None? then Raise(EntityError)
    else
      var changes := DiffFold(props, found.value, submitted, {}, true, false, true);
      match WithUnsetFields(changes, unset)
      case Err(_) => Raise(EntityError)
      case Ok(all) =>
        if all == map[] then Ok(found)
        else
          match dao.patch(ByIdQuery(id), all)
          case Err(_) => Raise(EntityError)
          case Ok(patched) => Ok(patched)
  }

  /** `ServiceModel`: the DAO and the property descriptors of the entity
      class. */
  class ServiceModel<R> {
    const dao: PersistentDao<R>
    const props: seq<Property>

    constructor (dao: PersistentDao<R>, props: seq<Property>)
      ensures this.dao == dao && this.props == props
    {
      this.dao := dao;
      this.props := props;
    }

    /** `get(id)`: the DAO's `get` with the single-id query. */
    method Get(id: V.Value) returns (r: Result<R>)
      ensures r == dao.get(ByIdQuery(id))
    {
      var q := Q.ById(id);
      r := dao.get(q.View());
    }

    /** `getOne(id)`: the DAO's `getOne` with the single-id query. */
    method GetOne(id: V.Value) returns (r: Result<Option<Entity>>)
      ensures r == dao.getOne(ByIdQuery(id))
    {
      var q := Q.ById(id);
      r := dao.getOne(q.View());
    }

    /** `patch(entity, patchContext)`; `id` is the entity's id field value. */
    method Patch(entity: Bean, id: V.Value, context: PC.PatchContext) returns (r: Result<Option<Entity>>)
      ensures r == PatchOutcome(dao, props, id, entity.values, context.unsetFields)
    {
      var q := Q.ById(id);
      var stored := GetOne(id);
      if stored.Err? {
        return Err(stored.failure);
      }
      if stored.value.None? {
        return Raise(EntityError);
      }
      var oldBean := new Bean(props, stored.value.value);
      var changes := ShallowDifferencesIgnoring(oldBean, entity, {}, true, false);
      var all := AddUnsetFields(changes, context.unsetFields);
      if all.Err? {
        return Raise(EntityError);
      }
      if all.value == map[] {
        return Ok(stored.value);
      }
      var patched := dao.patch(q.View(), all.value);
      if patched.Err? {
        return Raise(EntityError);
      }
      r := Ok(patched.value);
    }
  }

  // ---------------------------------------------------------------------------
  // Properties of the PATCH pipeline
  // ---------------------------------------------------------------------------

  /** The changes diffed against the stored entity are exactly the
      read/write properties whose submitted value is non-null and differs
      from the stored one, each with its submitted value. */
  lemma ChangesAreNonNullDifferences(props: seq<Property>, stored: Entity, submitted: Entity, name: string)
    ensures var changes := DiffFold(props, stored, submitted, {}, true, false, true);
            && (name in changes <==>
                  exists p :: p in props && p.name == name && ReadWrite(p) &&
                    ValueIn(submitted, name) != Null && ValueIn(submitted, name) != ValueIn(stored, name))
            && (name in changes ==> changes[name] == ValueIn(submitted, name))
  {
    DiffContents(props, stored, submitted, {}, true, false, true, name);
  }

  /** The outcomes of `patch`: the lookup's own failure, an ENTITY_ERROR for
      anything inside the `try`, the stored entity when nothing changes, and
      otherwise what the DAO's patch returns. */
  lemma PatchCases<R>(dao: PersistentDao<R>, props: seq<Property>, id: V.Value, submitted: Entity, unset: set<string>)
    ensures var r := PatchOutcome(dao, props, id, submitted, unset);
            var found := dao.getOne(ByIdQuery(id));
            && (found.Err? ==> r == Err(found.failure))
            && (found == Ok(None) ==> r == Raise(EntityError))
            && (r.Err? && found.Ok? ==> r.failure == RestDsl(EntityError))
            && (found.Ok? && found.value.Some? ==>
                  var changes := DiffFold(props, found.value.value, submitted, {}, true, false, true);
                  && (unset * changes.Keys != {} ==> r == Raise(EntityError))
                  && (changes == map[] && unset == {} ==> r == Ok(found.value)))
  {
    var found := dao.getOne(ByIdQuery(id));
    if found.Ok? && found.value.Some? {
      var changes := DiffFold(props, found.value.value, submitted, {}, true, false, true);
      WithUnsetFieldsContents(changes, unset);
    }
  }

  /** With nothing to change the DAO's patch is never consulted: two DAOs
      that differ only in `patch` give the same outcome. */
  lemma NoChangesNoDaoPatch<R>(dao: PersistentDao<R>, otherPatch: (QS.QueryView, map<string, BeanValue>) -> Result<Option<Entity>>,
                               props: seq<Property>, id: V.Value, submitted: Entity, found: Entity)
    requires dao.getOne(ByIdQuery(id)) == Ok(Some(found))
    requires DiffFold(props, found, submitted, {}, true, false, true) == map[]
    ensures PatchOutcome(dao, props, id, submitted, {}) == Ok(Some(found))
    ensures PatchOutcome(dao.(patch := otherPatch), props, id, submitted, {}) == Ok(Some(found))
  {
    WithUnsetFieldsContents(map[], {});
  }

  /** When the DAO patches, it is handed the non-null differences plus each
      unset field mapped to null, under the single-id query. */
  lemma PatchHandsChanges<R>(dao: PersistentDao<R>, props: seq<Property>, id: V.Value, submitted: Entity,
                             unset: set<string>, found: Entity)
    requires dao.getOne(ByIdQuery(id)) == Ok(Some(found))
    ensures var changes := DiffFold(props, found, submitted, {}, true, false, true);
            unset * changes.Keys == {} && changes.Keys + unset != {} ==>
              var all := changes + map f | f in unset :: Null;
              PatchOutcome(dao, props, id, submitted, unset) ==
                (if dao.patch(ByIdQuery(id), all).Ok? then dao.patch(ByIdQuery(id), all) else Raise(EntityError))
  {
    var changes := DiffFold(props, found, submitted, {}, true, false, true);
    WithUnsetFieldsContents(changes, unset);
    if unset * changes.Keys == {} && changes.Keys + unset != {} {
      var all := WithUnsetFields(changes, unset).value;
      assert all.Keys != {};
      assert all != map[];
    }
  }
}
