/**
 The exception taxonomy the adapter produces and consumes, as one record that
 every kind shares (code, message, the diagnostic quintet) plus a payload per
 kind, and the outcome of a Java call that either returns or throws.
 */
module BrokerExceptions {
  import opened Wrappers
  import opened BrokerRecords

  // Error codes compared against the record's code. The OAuth 2.0 codes are
  // those of section 5.2 of RFC 6749 and section 3.1.2.6 of OpenID Connect Core 1.0.
  const INTERACTION_REQUIRED := "interaction_required"
  const INVALID_GRANT := "invalid_grant"
  const UNAUTHORIZED_CLIENT := "unauthorized_client"
  const PROTECTION_POLICY_REQUIRED := "protection_policy_required"
  const USER_CANCELLED := "user_cancelled"
  const ILLEGAL_ARGUMENT_ERROR_CODE := "illegal_argument_exception"
  const UNKNOWN_ERROR := "unknown_error"
  const NO_ACCOUNT_FOUND := "no_account_found"

  /** The operation name an ArgumentException from the broker is tagged with. */
  const ACQUIRE_TOKEN_OPERATION_NAME := "acquireToken"

  /** The message UserCancelException's no-argument constructor sets. */
  const USER_CANCELLED_MESSAGE := "User cancelled the flow."

  /** The five fields copied onto every exception whatever its kind. */
  datatype Diagnostics = Diagnostics(
    cliTelemErrorCode: Option<string>,
    cliTelemSubErrorCode: Option<string>,
    correlationId: Option<string>,
    speRing: Option<string>,
    refreshTokenAge: Option<string>)

  const NoDiagnostics := Diagnostics(None, None, None, None, None)

  /** The state a ServiceException adds; `httpStatusCode` is None when left at the constructor's default. */
  datatype HttpContext = HttpContext(
    oauthSubErrorCode: Option<string>,
    httpStatusCode: Option<int>,
    headers: Option<HttpHeaders>,
    body: Option<HttpBody>)

  const NoHttpContext := HttpContext(None, None, None, None)

  /** The identity IntuneAppProtectionPolicyRequiredException adds. */
  datatype PolicyIdentity = PolicyIdentity(
    tenantId: Option<string>,
    authorityUrl: Option<string>,
    accountUserId: Option<string>,
    accountUpn: Option<string>)

  /**
   The concrete exception class. BaseException, ClientException,
   UiRequiredException, UserCancelException and ArgumentException add nothing
   but a marker (and an operation name); ServiceException adds an HTTP
   context, and IntuneAppProtectionPolicyRequiredException, a ServiceException,
   adds an identity as well.
   */
  datatype ExceptionKind =
    | Base
    | Client
    | UiRequired
    | UserCancel
    | Argument(operationName: string)
    | Service(http: HttpContext)
    | IntunePolicyRequired(http: HttpContext, identity: PolicyIdentity)

  datatype BrokerException = BrokerException(
    kind: ExceptionKind,
    errorCode: Option<string>,
    message: Option<string>,
    diagnostics: Diagnostics)

  /** `instanceof ServiceException`. */
  predicate IsServiceException(e: BrokerException) {
    e.kind.Service? || e.kind.IntunePolicyRequired?
  }

  /** `new ClientException(code, message)`. */
  function ClientException(code: Option<string>, message: Option<string>): BrokerException {
    BrokerException(Client, code, message, NoDiagnostics)
  }

  /** The unchecked exceptions a call can end with. */
  datatype RuntimeError =
    | JsonSyntax                               // Gson could not parse its input
    | NullPointer                              // a null was dereferenced
    | IndexOutOfBounds                         // get(0) on an empty list
    | NumberFormat(input: Option<string>)      // Long.parseLong rejected its input

  datatype Fault =
    | Checked(exception: BrokerException)
    | Unchecked(error: RuntimeError)

  /** A Java call either returns a value or throws. */
  datatype Outcome<+T> = Returns(value: T) | Throws(fault: Fault)
}
