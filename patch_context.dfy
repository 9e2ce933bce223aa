/** PatchContext: the set of fields a PATCH request asks to unset. */
module PatchContexts {
  import opened Errors
  import opened Preconditions

  class PatchContext {
    var unsetFields: set<string>

    /** A context with nothing to unset; `DEFAULT_CONTEXT` is one of these. */
    constructor ()
      ensures unsetFields == {}
    {
      unsetFields := {};
    }
  }

  /** PatchContext.Builder: `unsetFields` writes the field of the held context. */
  class PatchContextBuilder {
    const context: PatchContext

    constructor ()
      ensures fresh(context) && context.unsetFields == {}
    {
      context := new PatchContext();
    }

    /** A null set is refused with a PARAMS_ERROR and changes nothing. */
    method UnsetFields(fields: Option<set<string>>) returns (o: Outcome)
      modifies context
      ensures o == CheckNotNull(fields)
      ensures context.unsetFields == if fields.Some? then fields.value else old(context.unsetFields)
    {
      o := CheckNotNull(fields);
      if o.Fail? {
        return;
      }
      context.unsetFields := fields.value;
    }

    method Build() returns (c: PatchContext)
      ensures c == context
    {
      c := context;
    }
  }

  /** A context built with `unsetFields(s)` reports exactly `s`; a builder that
      never sets it reports the empty set. */
  method BuildContext(fields: Option<set<string>>) returns (r: Result<PatchContext>)
    ensures fields.None? <==> r.Err?
    ensures r.Err? ==> r.failure == RestDsl(ParamsError)
    ensures r.Ok? ==> fresh(r.value) && r.value.unsetFields == fields.value
  {
    var b := new PatchContextBuilder();
    var o := b.UnsetFields(fields);
    if o.Fail? {
      return Err(o.failure);
    }
    var c := b.Build();
    return Ok(c);
  }
}
