/**
 * pkg/errors/kind.go: the kinds of error the errors library knows, and the
 * HTTP status each one answers with. A kind is a string; one the switch
 * does not know is handed to the replaceable hook, which answers 500
 * unless the program installed another.
 */
module ErrorKinds {
  /** `errors.Kind`: any string, of which the constants below are the known ones. */
  type Kind = string

  const Canceled: Kind := "canceled"
  const Unknown: Kind := "unknown"
  const InvalidArgument: Kind := "invalid_argument"
  const DeadlineExceeded: Kind := "deadline_exceeded"
  const NotFound: Kind := "not_found"
  const AlreadyExists: Kind := "already_exists"
  const PermissionDenied: Kind := "permission_denied"
  const Unauthenticated: Kind := "unauthenticated"
  const ResourceExhausted: Kind := "resource_exhausted"
  const FailedPrecondition: Kind := "failed_precondition"
  const Aborted: Kind := "aborted"
  const OutOfRange: Kind := "out_of_range"
  const Unimplemented: Kind := "unimplemented"
  const Internal: Kind := "internal"
  const Unavailable: Kind := "unavailable"
  const DataLoss: Kind := "data_loss"
  const NoKind: Kind := ""

  /** The `net/http` status codes the switch answers with. */
  const StatusBadRequest := 400
  const StatusUnauthorized := 401
  const StatusForbidden := 403
  const StatusNotFound := 404
  const StatusRequestTimeout := 408
  const StatusConflict := 409
  const StatusPreconditionFailed := 412
  const StatusInternalServerError := 500
  const StatusNotImplemented := 501
  const StatusServiceUnavailable := 503

  /** The documented kind-to-status table, one entry per known kind. */
  const StatusTable: map<Kind, int> := map[
    Canceled := StatusRequestTimeout,
    DeadlineExceeded := StatusRequestTimeout,
    Unknown := StatusInternalServerError,
    InvalidArgument := StatusBadRequest,
    NotFound := StatusNotFound,
    AlreadyExists := StatusConflict,
    Aborted := StatusConflict,
    PermissionDenied := StatusForbidden,
    Unauthenticated := StatusUnauthorized,
    ResourceExhausted := StatusForbidden,
    FailedPrecondition := StatusPreconditionFailed,
    OutOfRange := StatusBadRequest,
    Unimplemented := StatusNotImplemented,
    Internal := StatusInternalServerError,
    DataLoss := StatusInternalServerError,
    NoKind := StatusInternalServerError,
    Unavailable := StatusServiceUnavailable]

  /** The hook's initial value, `KindToStatusCodeHook`. */
  function DefaultHook(k: Kind): int
  {
    StatusInternalServerError
  }

  /** `Kind.ToStatusCode`, with the hook as it stands when it is called. */
  function ToStatusCode(k: Kind, hook: Kind -> int): (code: int)
    ensures k in StatusTable ==> code == StatusTable[k]
    ensures k !in StatusTable ==> code == hook(k)
  {
    if k == Canceled || k == DeadlineExceeded then StatusRequestTimeout
    else if k == Unknown then StatusInternalServerError
    else if k == InvalidArgument then StatusBadRequest
    else if k == NotFound then StatusNotFound
    else if k == AlreadyExists || k == Aborted then StatusConflict
    else if k == PermissionDenied then StatusForbidden
    else if k == Unauthenticated then StatusUnauthorized
    else if k == ResourceExhausted then StatusForbidden
    else if k == FailedPrecondition then StatusPreconditionFailed
    else if k == OutOfRange then StatusBadRequest
    else if k == Unimplemented then StatusNotImplemented
    else if k == Internal || k == DataLoss || k == NoKind then StatusInternalServerError
    else if k == Unavailable then StatusServiceUnavailable
    else hook(k)
  }

  /** The hook is consulted for exactly the kinds the switch does not name. */
  lemma HookOnlyForUnknownKinds(k: Kind, h1: Kind -> int, h2: Kind -> int)
    ensures ToStatusCode(k, h1) != ToStatusCode(k, h2) ==> k !in StatusTable && h1(k) != h2(k)
    ensures k in StatusTable ==> ToStatusCode(k, h1) == ToStatusCode(k, h2)
  {
  }

  /** With the hook left as it is, every kind answers with one of the ten statuses, and an unknown one with 500. */
  lemma DefaultStatuses(k: Kind)
    ensures ToStatusCode(k, DefaultHook) in {400, 401, 403, 404, 408, 409, 412, 500, 501, 503}
    ensures k !in StatusTable ==> ToStatusCode(k, DefaultHook) == 500
  {
  }

  /** A known kind answers with a client error (4xx) or a server error (5xx), whatever the hook. */
  lemma KnownKindsAreErrors(k: Kind, hook: Kind -> int)
    requires k in StatusTable
    ensures 400 <= ToStatusCode(k, hook) < 600
    ensures ToStatusCode(k, hook) >= 500 <==> k in {Unknown, Unimplemented, Internal, DataLoss, NoKind, Unavailable}
  {
  }
}
