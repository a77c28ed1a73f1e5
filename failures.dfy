/** Option, used by the lookups and parsers of this model. */
module Wrappers {
  datatype Option<+T> = None | Some(value: T)
}

/**
  The failures a command handler of the messaging service can end with,
  the wire codes the commands declare for them, and the error callback
  that every command's deferred result passes through.
 */
module Failures {
  import opened Wrappers

  /** The exception class a failure carries. */
  datatype ErrorKind =
    | Forbidden                    // HydrusExceptions.ForbiddenException
    | NetworkVersion               // HydrusExceptions.NetworkVersionException
    | NotFound                     // HydrusExceptions.NotFoundException
    | Permission                   // HydrusExceptions.PermissionException
    | Session                      // HydrusExceptions.SessionException
    | PlainException               // Python's built-in Exception itself
    | OtherError(typeName: string) // any other exception class

  /** A raised exception: its class and the text it was raised with. */
  datatype Failure = Failure(kind: ErrorKind, message: string)

  /** The response boxes the commands answer with. */
  datatype Response =
    | Empty                              // {}
    | SessionKeyIssued(sessionKey: string) // { 'session_key' : ... }
    | PublicKeyIs(publicKey: string)       // { 'public_key' : ... }

  /** What a deferred computation ends with: a value, or a failure. */
  datatype Result<+T> = Ok(value: T) | Err(failure: Failure)

  /** What a step that only checks something ends with. */
  datatype Outcome = Pass | Fail(failure: Failure)

  /** The outcome of a command, as its deferred result fires. */
  type Reply = Result<Response>

  /** The five classes the error callback passes through unchanged. */
  predicate IsNormalError(k: ErrorKind)
  {
    k.Forbidden? || k.NetworkVersion? || k.NotFound? || k.Permission? || k.Session?
  }

  /**
    The `errors` table every command declares: the wire code a failure of
    class `k` is sent as. Every exception class derives from Exception, so
    the classes outside the five named ones are sent as EXCEPTION.
   */
  function WireCode(k: ErrorKind): (code: string)
    ensures code == "EXCEPTION" <==> !IsNormalError(k)
    ensures |code| > 0
  {
    match k
    case Forbidden => "FORBIDDEN"
    case NetworkVersion => "NETWORK_VERSION"
    case NotFound => "NOT_FOUND"
    case Permission => "PERMISSION"
    case Session => "SESSION"
    case PlainException => "EXCEPTION"
    case OtherError(_) => "EXCEPTION"
  }

  /**
    The table read the other way round, as the peer that receives a wire
    code does: the class a code stands for, or None for a code the table
    does not hold.
   */
  function KindOfWireCode(code: string): (r: Option<ErrorKind>)
    ensures r.Some? ==> WireCode(r.value) == code
    ensures r.Some? ==> IsNormalError(r.value) || r.value == PlainException
  {
    if code == "FORBIDDEN" then Some(Forbidden)
    else if code == "NETWORK_VERSION" then Some(NetworkVersion)
    else if code == "NOT_FOUND" then Some(NotFound)
    else if code == "PERMISSION" then Some(Permission)
    else if code == "SESSION" then Some(Session)
    else if code == "EXCEPTION" then Some(PlainException)
    else None
  }

  /** Decoding a sent code gives back the class, or Exception for the classes the table does not name. */
  lemma WireCodeRoundTrip(k: ErrorKind)
    ensures KindOfWireCode(WireCode(k)) == Some(if IsNormalError(k) then k else PlainException)
  {
  }

  /** The five recognised classes are sent as five different codes. */
  lemma WireCodeSeparatesNormalErrors(a: ErrorKind, b: ErrorKind)
    requires IsNormalError(a) && IsNormalError(b)
    requires WireCode(a) == WireCode(b)
    ensures a == b
  {
  }

  /**
    `HydrusAMP._errbackHandleError`: a failure of one of the five recognised
    classes is raised again as it is; any other becomes a plain Exception
    whose text is the failure's traceback (`traceback` is the text
    `failure.getTraceback()` gives). The wire code is never changed.
   */
  function HandleError(f: Failure, traceback: string): (r: Failure)
    ensures IsNormalError(f.kind) ==> r == f
    ensures !IsNormalError(f.kind) ==> r.kind == PlainException && r.message == traceback
    ensures WireCode(r.kind) == WireCode(f.kind)
  {
    if IsNormalError(f.kind) then f else Failure(PlainException, traceback)
  }

  /**
    The error callback attached to every command's deferred: a success goes
    through untouched, a failure through HandleError.
   */
  function Errback<T>(o: Result<T>, traceback: string): (r: Result<T>)
    ensures r.Ok? <==> o.Ok?
    ensures o.Ok? ==> r == o
    ensures o.Err? ==> WireCode(r.failure.kind) == WireCode(o.failure.kind)
    ensures o.Err? ==> IsNormalError(r.failure.kind) || r.failure.kind == PlainException
  {
    match o
    case Ok(_) => o
    case Err(f) => Err(HandleError(f, traceback))
  }
}
