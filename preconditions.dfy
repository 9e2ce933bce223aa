/** RestlerPreconditions: null and modification checks that throw. A Java
    reference that may be null is an `Option`. */
module Preconditions {
  import opened Errors

  /** `ensureNotNull`: an ENTITY_ERROR exactly when the value is null. */
  function EnsureNotNull<T>(value: Option<T>): (o: Outcome)
    ensures o.Fail? <==> value.None?
    ensures o.Fail? ==> o.failure == RestDsl(EntityError)
  {
    if value.None? then Fail(RestDsl(EntityError)) else Pass
  }

  /** `ensureNotSet`: an ENTITY_ERROR exactly when the value is present. */
  function EnsureNotSet<T>(value: Option<T>): (o: Outcome)
    ensures o.Fail? <==> value.Some?
    ensures o.Fail? ==> o.failure == RestDsl(EntityError)
  {
    if value.Some? then Fail(RestDsl(EntityError)) else Pass
  }

  /** `isModified`: the patch supplies a value for the property and it is not
      equal to the base's (a null base value is never equal). */
  predicate IsModified<V, U(==)>(getter: V -> Option<U>, base: V, patch: V) {
    getter(patch).Some? && (getter(base).None? || getter(patch).value != getter(base).value)
  }

  /** `ensureNotModified`: an ENTITY_ERROR exactly when `isModified`. */
  function EnsureNotModified<V, U(==)>(getter: V -> Option<U>, base: V, patch: V): (o: Outcome)
    ensures o.Fail? <==> IsModified(getter, base, patch)
    ensures o.Fail? ==> o.failure == RestDsl(EntityError)
  {
    if IsModified(getter, base, patch) then Fail(RestDsl(EntityError)) else Pass
  }

  /** `checkNotNull`: a PARAMS_ERROR exactly when the value is null. */
  function CheckNotNull<T>(value: Option<T>): (o: Outcome)
    ensures o.Fail? <==> value.None?
    ensures o.Fail? ==> o.failure == RestDsl(ParamsError)
  {
    if value.None? then Fail(RestDsl(ParamsError)) else Pass
  }

  /** Exactly one of `ensureNotNull` and `ensureNotSet` passes on any value. */
  lemma NullChecksComplementary<T>(value: Option<T>)
    ensures EnsureNotNull(value).Pass? != EnsureNotSet(value).Pass?
  {
  }

  /** A patch that leaves the property unset, or sets it to the base's value,
      is not a modification; any other value set on the patch is. */
  lemma ModifiedCases<V, U>(getter: V -> Option<U>, base: V, patch: V)
    ensures getter(patch).None? ==> !IsModified(getter, base, patch)
    ensures getter(patch) == getter(base) ==> !IsModified(getter, base, patch)
    ensures getter(patch).Some? && getter(patch) != getter(base) ==> IsModified(getter, base, patch)
  {
  }
}
