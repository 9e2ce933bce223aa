/** The JAX-RS exception mapper of the service: which HTTP status a thrown
    exception becomes, the name it is reported under, and the descriptions
    taken from its cause chain. */
module ExceptionMapper {
  import opened Errors

  // Status codes (section 6 of RFC 7231; 304 from section 4.1 of RFC 7232).
  const NotModified: int := 304
  const BadRequest: int := 400
  const Conflict: int := 409
  const InternalServerError: int := 500

  /** The two exception classes the mapper looks into, and the rest. A
      ServiceException carries a status (possibly null); a RestDslException
      a type (possibly null). */
  datatype Kind =
    | ServiceEx(status: Option<int>)
    | RestDslEx(errorType: Option<ErrorType>)
    | BareRuntimeEx     // exactly `java.lang.RuntimeException`
    | OtherEx

  /** A throwable: its class's binary and canonical names, its message, its
      kind and its cause. */
  datatype Throwable = Throwable(
    className: string,
    canonicalName: string,
    message: Option<string>,
    kind: Kind,
    cause: Option<Throwable>)

  /** What `toResponse` builds: an empty 304, or a JSON error document with
      the type, the descriptions, the code and the request URI. */
  datatype Response =
    | NotModifiedResponse
    | ErrorResponse(status: int, exceptionType: string, descriptions: seq<string>, requestUri: string)

  const MaxDescriptions: nat := 5

  /** `restDslTypeToResponseCode`. */
  function RestDslStatus(t: Option<ErrorType>): (code: int)
    ensures code in {BadRequest, Conflict, InternalServerError}
  {
    match t
    case Some(GeneralError) => InternalServerError
    case Some(ParamsError) => BadRequest
    case Some(EntityError) => BadRequest
    case Some(DuplicateKey) => Conflict
    case Some(QueryError) => BadRequest
    case None => InternalServerError
  }

  /** `getStatus`: a ServiceException's own status when it has one, a
      RestDslException's mapped type, and 500 for anything else. */
  function StatusOf(e: Throwable): (code: int)
  {
    match e.kind
    case ServiceEx(Some(s)) => s
    case RestDslEx(t) => RestDslStatus(t)
    case _ => InternalServerError
  }

  /** `getExceptionName`: the canonical class name, except that a bare
      RuntimeException wrapping a cause is reported under the cause's. */
  function ExceptionName(e: Throwable): (name: string)
  {
    if e.kind == BareRuntimeEx && e.cause.Some? then e.cause.value.canonicalName
    else e.canonicalName
  }

  /** One description: the class name, then `:` and the message when there
      is one. */
  function Describe(e: Throwable): (d: string)
  {
    match e.message
    case Some(m) => e.className + ":" + m
    case None => e.className
  }

  /** The descriptions of the first `n` exceptions of a cause chain. */
  function ChainDescriptions(e: Option<Throwable>, n: nat): (ds: seq<string>)
    ensures |ds| <= n
    decreases e
  {
    if e.None? || n == 0 then []
    else [Describe(e.value)] + ChainDescriptions(e.value.cause, n - 1)
  }

  /** The exception `i` steps down the cause chain, if the chain is that
      long. */
  function NthCause(e: Throwable, i: nat): (c: Option<Throwable>)
    decreases i
  {
    if i == 0 then Some(e)
    else if e.cause.None? then None
    else NthCause(e.cause.value, i - 1)
  }

  /** The number of exceptions in a cause chain. */
  function ChainLength(e: Option<Throwable>): (n: nat)
    decreases e
  {
    if e.None? then 0 else 1 + ChainLength(e.value.cause)
  }

  /** The description loop of `toResponse`: walks the cause chain from the
      outermost exception and stops after five entries. */
  method Descriptions(e: Throwable) returns (ds: seq<string>)
    ensures ds == ChainDescriptions(Some(e), MaxDescriptions)
  {
    ds := [];
    var current := Some(e);
    var iterations := 0;
    while current.Some?
      invariant 0 <= iterations < MaxDescriptions
      invariant ds + ChainDescriptions(current, MaxDescriptions - iterations) == ChainDescriptions(Some(e), MaxDescriptions)
      decreases MaxDescriptions - iterations
    {
      var c := current.value;
      ds := ds + [Describe(c)];
      current := c.cause;
      iterations := iterations + 1;
      if iterations > 4 {
        return;
      }
    }
  }

  /** `toResponse` as a function of the throwable and the request URI. */
  function ResponseOf(e: Throwable, requestUri: string): (r: Response)
  {
    if e.kind == ServiceEx(Some(NotModified)) then NotModifiedResponse
    else ErrorResponse(StatusOf(e), ExceptionName(e), ChainDescriptions(Some(e), MaxDescriptions), requestUri)
  }

  /** `toResponse`. */
  method ToResponse(e: Throwable, requestUri: string) returns (r: Response)
    ensures r == ResponseOf(e, requestUri)
  {
    if e.kind == ServiceEx(Some(NotModified)) {
      return NotModifiedResponse;
    }
    var status := StatusOf(e);
    var name := ExceptionName(e);
    var descriptions := Descriptions(e);
    r := ErrorResponse(status, name, descriptions, requestUri);
  }

  // ---------------------------------------------------------------------------
  // Properties
  // ---------------------------------------------------------------------------

  /** The RestDsl error types: the client's fault is a 400, a duplicate key a
      409, and a general (or missing) type a 500. */
  lemma RestDslStatusCases(t: Option<ErrorType>)
    ensures RestDslStatus(t) == BadRequest <==> t in {Some(ParamsError), Some(EntityError), Some(QueryError)}
    ensures RestDslStatus(t) == Conflict <==> t == Some(DuplicateKey)
    ensures RestDslStatus(t) == InternalServerError <==> t == Some(GeneralError) || t.None?
  {
  }

  /** Only a ServiceException can produce a status outside 400, 409 and 500;
      a RestDslException and any other throwable never do. */
  lemma StatusCases(e: Throwable)
    ensures e.kind.ServiceEx? && e.kind.status.Some? ==> StatusOf(e) == e.kind.status.value
    ensures e.kind.RestDslEx? ==> StatusOf(e) == RestDslStatus(e.kind.errorType)
    ensures !(e.kind.ServiceEx? && e.kind.status.Some?) ==> StatusOf(e) in {BadRequest, Conflict, InternalServerError}
    ensures !e.kind.ServiceEx? && !e.kind.RestDslEx? ==> StatusOf(e) == InternalServerError
  {
  }

  /** A 304 has no body exactly when the ServiceException says NOT_MODIFIED;
      every other response carries the status `getStatus` gives. */
  lemma NotModifiedOnly(e: Throwable, requestUri: string)
    ensures ResponseOf(e, requestUri).NotModifiedResponse? <==> e.kind == ServiceEx(Some(NotModified))
    ensures ResponseOf(e, requestUri).ErrorResponse? ==>
              ResponseOf(e, requestUri).status == StatusOf(e) && ResponseOf(e, requestUri).requestUri == requestUri
  {
  }

  /** The reported name is the exception's own unless it is a bare
      RuntimeException with a cause. */
  lemma NameCases(e: Throwable)
    ensures e.kind != BareRuntimeEx || e.cause.None? ==> ExceptionName(e) == e.canonicalName
    ensures e.kind == BareRuntimeEx && e.cause.Some? ==> ExceptionName(e) == e.cause.value.canonicalName
  {
  }

  /** A description starts with the class name and is only that when there
      is no message. */
  lemma DescribeShape(e: Throwable)
    ensures |Describe(e)| >= |e.className| && Describe(e)[..|e.className|] == e.className
    ensures e.message.None? <==> Describe(e) == e.className
    ensures e.message.Some? ==> Describe(e)[|e.className|..] == ":" + e.message.value
  {
  }

  /** There are as many descriptions as exceptions in the chain, but at most
      `n`. */
  lemma {:induction false} ChainDescriptionsLength(e: Option<Throwable>, n: nat)
    ensures |ChainDescriptions(e, n)| == if ChainLength(e) < n then ChainLength(e) else n
    decreases e
  {
    if e.Some? && n > 0 {
      ChainDescriptionsLength(e.value.cause, n - 1);
    }
  }

  /** Entry `i` describes the exception `i` steps down the chain, the first
      one the thrown exception itself. */
  lemma {:induction false} ChainDescriptionsAt(e: Throwable, n: nat, i: nat)
    requires i < |ChainDescriptions(Some(e), n)|
    ensures NthCause(e, i).Some?
    ensures ChainDescriptions(Some(e), n)[i] == Describe(NthCause(e, i).value)
    decreases i
  {
    if i > 0 {
      assert ChainDescriptions(Some(e), n) == [Describe(e)] + ChainDescriptions(e.cause, n - 1);
      var c := e.cause.value;
      ChainDescriptionsAt(c, n - 1, i - 1);
    }
  }

  /** The response: at most five descriptions, the first describing the
      thrown exception; a chain of five or fewer is reported in full. */
  lemma ResponseDescriptions(e: Throwable, requestUri: string)
    requires e.kind != ServiceEx(Some(NotModified))
    ensures var ds := ResponseOf(e, requestUri).descriptions;
            && 1 <= |ds| <= MaxDescriptions
            && ds[0] == Describe(e)
            && (ChainLength(Some(e)) <= MaxDescriptions ==> |ds| == ChainLength(Some(e)))
  {
    ChainDescriptionsLength(Some(e), MaxDescriptions);
    ChainDescriptionsAt(e, MaxDescriptions, 0);
  }
}
