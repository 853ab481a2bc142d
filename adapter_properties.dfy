/**
 Properties of the broker result adapter that relate several calls: the
 precedence and exclusiveness of the error classifier, its indifference to
 the case of the code, and the round trips through the envelope.
 */
module AdapterProperties {
  import opened Wrappers
  import opened JavaText
  import opened BrokerRecords
  import opened BrokerExceptions
  import opened Gson
  import opened Bundles
  import opened MsalBrokerResultAdapter

  // ---------------------------------------------------------------------
  // The rules of the classifier
  // ---------------------------------------------------------------------

  predicate UiRequiredCode(code: Option<string>) {
    MatchesIgnoreCase(INTERACTION_REQUIRED, code) || MatchesIgnoreCase(INVALID_GRANT, code)
  }

  predicate IntunePolicyCase(r: BrokerResult) {
    MatchesIgnoreCase(UNAUTHORIZED_CLIENT, r.errorCode) && MatchesIgnoreCase(PROTECTION_POLICY_REQUIRED, r.subErrorCode)
  }

  predicate HasHttpResponse(r: BrokerResult) {
    !IsEmpty(r.httpResponseHeaders) || !IsEmpty(r.httpResponseBody)
  }

  /** The codes the classifier names are pairwise different, ignoring case. */
  lemma CodesDisjoint(code: Option<string>)
    ensures !(MatchesIgnoreCase(INTERACTION_REQUIRED, code) && MatchesIgnoreCase(UNAUTHORIZED_CLIENT, code))
    ensures !(MatchesIgnoreCase(INVALID_GRANT, code) && MatchesIgnoreCase(UNAUTHORIZED_CLIENT, code))
    ensures !(MatchesIgnoreCase(INTERACTION_REQUIRED, code) && MatchesIgnoreCase(USER_CANCELLED, code))
    ensures !(MatchesIgnoreCase(INVALID_GRANT, code) && MatchesIgnoreCase(USER_CANCELLED, code))
    ensures !(MatchesIgnoreCase(UNAUTHORIZED_CLIENT, code) && MatchesIgnoreCase(USER_CANCELLED, code))
    ensures !(MatchesIgnoreCase(INTERACTION_REQUIRED, code) && MatchesIgnoreCase(ILLEGAL_ARGUMENT_ERROR_CODE, code))
    ensures !(MatchesIgnoreCase(INVALID_GRANT, code) && MatchesIgnoreCase(ILLEGAL_ARGUMENT_ERROR_CODE, code))
    ensures !(MatchesIgnoreCase(UNAUTHORIZED_CLIENT, code) && MatchesIgnoreCase(ILLEGAL_ARGUMENT_ERROR_CODE, code))
    ensures !(MatchesIgnoreCase(USER_CANCELLED, code) && MatchesIgnoreCase(ILLEGAL_ARGUMENT_ERROR_CODE, code))
  {
    MatchesAtMostOne(INTERACTION_REQUIRED, UNAUTHORIZED_CLIENT, code);
    MatchesAtMostOne(INVALID_GRANT, UNAUTHORIZED_CLIENT, code);
    MatchesAtMostOne(INTERACTION_REQUIRED, USER_CANCELLED, code);
    MatchesAtMostOne(INVALID_GRANT, USER_CANCELLED, code);
    MatchesAtMostOne(UNAUTHORIZED_CLIENT, USER_CANCELLED, code);
    MatchesAtMostOne(INTERACTION_REQUIRED, ILLEGAL_ARGUMENT_ERROR_CODE, code);
    MatchesAtMostOne(INVALID_GRANT, ILLEGAL_ARGUMENT_ERROR_CODE, code);
    MatchesAtMostOne(UNAUTHORIZED_CLIENT, ILLEGAL_ARGUMENT_ERROR_CODE, code);
    MatchesAtMostOne(USER_CANCELLED, ILLEGAL_ARGUMENT_ERROR_CODE, code);
  }

  /**
   Every record reaches exactly one kind, and each kind is reached exactly
   when its own rule holds: the rules are disjoint, so the order of the list
   only matters where the HTTP test overlaps a code test.
   */
  lemma ClassificationIsExclusive(g: GsonCodec, r: BrokerResult)
    ensures var e := ExceptionFromRecord(g, r);
      && (e.kind.UiRequired? <==> UiRequiredCode(r.errorCode))
      && (e.kind.IntunePolicyRequired? <==> IntunePolicyCase(r))
      && (e.kind.UserCancel? <==> MatchesIgnoreCase(USER_CANCELLED, r.errorCode))
      && (e.kind.Argument? <==> MatchesIgnoreCase(ILLEGAL_ARGUMENT_ERROR_CODE, r.errorCode))
      && (e.kind.Service? <==>
            !UiRequiredCode(r.errorCode) && !IntunePolicyCase(r)
            && !MatchesIgnoreCase(USER_CANCELLED, r.errorCode)
            && !MatchesIgnoreCase(ILLEGAL_ARGUMENT_ERROR_CODE, r.errorCode)
            && HasHttpResponse(r))
      && (e.kind.Client? <==>
            !UiRequiredCode(r.errorCode) && !IntunePolicyCase(r)
            && !MatchesIgnoreCase(USER_CANCELLED, r.errorCode)
            && !MatchesIgnoreCase(ILLEGAL_ARGUMENT_ERROR_CODE, r.errorCode)
            && !HasHttpResponse(r))
      && !e.kind.Base?
  {
    CodesDisjoint(r.errorCode);
  }

  /** interaction_required or invalid_grant give UiRequiredException whatever else the record holds. */
  lemma UiRequiredRule(g: GsonCodec, r: BrokerResult)
    requires UiRequiredCode(r.errorCode)
    ensures ExceptionFromRecord(g, r) == BrokerException(UiRequired, r.errorCode, r.errorMessage, DiagnosticsOf(r))
  {
  }

  /** The Intune rule is tried before the HTTP rule: a body or headers do not make it a ServiceException. */
  lemma IntunePrecedesService(g: GsonCodec, r: BrokerResult)
    requires IntunePolicyCase(r)
    ensures ExceptionFromRecord(g, r) == IntuneProtectionRequiredException(g, r).(diagnostics := DiagnosticsOf(r))
  {
    CodesDisjoint(r.errorCode);
  }

  lemma UserCancelRule(g: GsonCodec, r: BrokerResult)
    requires MatchesIgnoreCase(USER_CANCELLED, r.errorCode)
    ensures ExceptionFromRecord(g, r) == UserCancelException.(diagnostics := DiagnosticsOf(r))
  {
    CodesDisjoint(r.errorCode);
  }

  lemma ArgumentRule(g: GsonCodec, r: BrokerResult)
    requires MatchesIgnoreCase(ILLEGAL_ARGUMENT_ERROR_CODE, r.errorCode)
    ensures ExceptionFromRecord(g, r)
              == BrokerException(Argument(ACQUIRE_TOKEN_OPERATION_NAME), r.errorCode, r.errorMessage, DiagnosticsOf(r))
  {
    CodesDisjoint(r.errorCode);
  }

  /** A code the list does not name, with an HTTP body or headers, gives ServiceException. */
  lemma ServiceRule(g: GsonCodec, r: BrokerResult)
    requires !UiRequiredCode(r.errorCode) && !IntunePolicyCase(r)
    requires !MatchesIgnoreCase(USER_CANCELLED, r.errorCode) && !MatchesIgnoreCase(ILLEGAL_ARGUMENT_ERROR_CODE, r.errorCode)
    requires HasHttpResponse(r)
    ensures ExceptionFromRecord(g, r) == ServiceExceptionFromRecord(g, r).(diagnostics := DiagnosticsOf(r))
  {
  }

  /** A code the list does not name gives ClientException with the code and message verbatim. */
  lemma ClientDefault(g: GsonCodec, r: BrokerResult)
    requires !UiRequiredCode(r.errorCode) && !IntunePolicyCase(r)
    requires !MatchesIgnoreCase(USER_CANCELLED, r.errorCode) && !MatchesIgnoreCase(ILLEGAL_ARGUMENT_ERROR_CODE, r.errorCode)
    requires !HasHttpResponse(r)
    ensures ExceptionFromRecord(g, r) == BrokerException(Client, r.errorCode, r.errorMessage, DiagnosticsOf(r))
  {
  }

  /**
   The classifier sees the code only up to case: replacing it by a string equal
   to it ignoring case changes nothing but the code the exception carries.
   */
  lemma ClassificationIgnoresCase(g: GsonCodec, r: BrokerResult, code: string)
    requires r.errorCode.Some? && EqualsIgnoreCase(r.errorCode.value, code)
    ensures var e := ExceptionFromRecord(g, r);
            var e' := ExceptionFromRecord(g, r.(errorCode := Some(code)));
            e'.kind == e.kind && e'.message == e.message && e'.diagnostics == e.diagnostics
  {
    var c := r.errorCode.value;
    MatchesRespectsCase(INTERACTION_REQUIRED, c, code);
    MatchesRespectsCase(INVALID_GRANT, c, code);
    MatchesRespectsCase(UNAUTHORIZED_CLIENT, c, code);
    MatchesRespectsCase(USER_CANCELLED, c, code);
    MatchesRespectsCase(ILLEGAL_ARGUMENT_ERROR_CODE, c, code);
  }

  /** Reading a failure envelope back classifies the very record that was written. */
  lemma DecodeFailureEnvelope(g: GsonCodec, e: BrokerException)
    requires ResultLaw(g)
    ensures BaseExceptionFromBundle(g, ResultEnvelope(g.resultToJson(FailureRecord(g, e)), false))
              == Returns(ExceptionFromRecord(g, FailureRecord(g, e)))
  {
    var record := FailureRecord(g, e);
    assert g.resultFromJson(g.resultToJson(record)) == Parsed(record);
  }

  /** UNKNOWN_ERROR is none of the codes the classifier names. */
  lemma UnknownErrorNamesNoRule()
    ensures !UiRequiredCode(Some(UNKNOWN_ERROR))
    ensures !MatchesIgnoreCase(UNAUTHORIZED_CLIENT, Some(UNKNOWN_ERROR))
    ensures !MatchesIgnoreCase(USER_CANCELLED, Some(UNKNOWN_ERROR))
    ensures !MatchesIgnoreCase(ILLEGAL_ARGUMENT_ERROR_CODE, Some(UNKNOWN_ERROR))
  {
    assert !CharEqualsIgnoreCase(INVALID_GRANT[0], UNKNOWN_ERROR[0]);
  }

  /** A bundle without a record yields BaseException UNKNOWN_ERROR, which comes back as a ClientException. */
  lemma UnknownErrorRoundTrip(g: GsonCodec, bundle: Envelope)
    requires ResultLaw(g)
    requires BROKER_RESULT_V2 !in bundle
    ensures BaseExceptionFromBundle(g, bundle) == Returns(UnknownErrorException)
    ensures BaseExceptionFromBundle(g, ResultEnvelope(g.resultToJson(FailureRecord(g, UnknownErrorException)), false))
              == Returns(ClientException(Some(UNKNOWN_ERROR), UnknownErrorException.message))
  {
    var record := FailureRecord(g, UnknownErrorException);
    DecodeFailureEnvelope(g, UnknownErrorException);
    UnknownErrorNamesNoRule();
    ClientDefault(g, record);
  }

  // ---------------------------------------------------------------------
  // Failure round trip
  // ---------------------------------------------------------------------

  /** The re-encoded record of an exception that carries no HTTP context has none either. */
  lemma ReencodedHasNoHttp(g: GsonCodec, e: BrokerException)
    requires !IsServiceException(e)
    ensures !HasHttpResponse(FailureRecord(g, e)) && FailureRecord(g, e).subErrorCode.None?
  {
  }

  lemma UiRequiredSurvives(g: GsonCodec, r: BrokerResult)
    requires UiRequiredCode(r.errorCode)
    ensures ExceptionFromRecord(g, FailureRecord(g, ExceptionFromRecord(g, r))) == ExceptionFromRecord(g, r)
  {
    var e := ExceptionFromRecord(g, r);
    UiRequiredRule(g, r);
    UiRequiredRule(g, FailureRecord(g, e));
  }

  lemma UserCancelSurvives(g: GsonCodec, r: BrokerResult)
    requires MatchesIgnoreCase(USER_CANCELLED, r.errorCode)
    ensures ExceptionFromRecord(g, FailureRecord(g, ExceptionFromRecord(g, r))) == ExceptionFromRecord(g, r)
  {
    var e := ExceptionFromRecord(g, r);
    UserCancelRule(g, r);
    EqualsIgnoreCaseReflexive(USER_CANCELLED);
    UserCancelRule(g, FailureRecord(g, e));
  }

  lemma ArgumentSurvives(g: GsonCodec, r: BrokerResult)
    requires MatchesIgnoreCase(ILLEGAL_ARGUMENT_ERROR_CODE, r.errorCode)
    ensures ExceptionFromRecord(g, FailureRecord(g, ExceptionFromRecord(g, r))) == ExceptionFromRecord(g, r)
  {
    var e := ExceptionFromRecord(g, r);
    ArgumentRule(g, r);
    ArgumentRule(g, FailureRecord(g, e));
  }

  lemma ClientSurvives(g: GsonCodec, r: BrokerResult)
    requires ExceptionFromRecord(g, r).kind.Client?
    ensures ExceptionFromRecord(g, FailureRecord(g, ExceptionFromRecord(g, r))) == ExceptionFromRecord(g, r)
  {
    var e := ExceptionFromRecord(g, r);
    var r' := FailureRecord(g, e);
    ClassificationIsExclusive(g, r);
    ReencodedHasNoHttp(g, e);
    ClientDefault(g, r);
    ClientDefault(g, r');
  }

  lemma IntuneSurvives(g: GsonCodec, r: BrokerResult)
    requires BodyLaw(g) && HeadersLaw(g)
    requires IntunePolicyCase(r)
    requires var e := ExceptionFromRecord(g, r); e.kind.http.body.Some? && e.kind.http.headers.Some?
    ensures ExceptionFromRecord(g, FailureRecord(g, ExceptionFromRecord(g, r))) == ExceptionFromRecord(g, r)
  {
    var e := ExceptionFromRecord(g, r);
    var r' := FailureRecord(g, e);
    IntunePrecedesService(g, r);
    IntunePrecedesService(g, r');
    var http := e.kind.http;
    var b := http.body.value;
    var h := http.headers.value;
    assert g.bodyFromJson(Some(g.bodyToJson(Some(b)))) == Parsed(b);
    var hj := g.headersToJson(Some(h));
    assert hj.Some? && g.headersFromJson(hj.value) == Parsed(h);
    assert IntuneProtectionRequiredException(g, r').kind.http == http;
  }

  lemma ServiceSurvives(g: GsonCodec, r: BrokerResult)
    requires BodyLaw(g) && HeadersLaw(g)
    requires var e := ExceptionFromRecord(g, r); e.kind.Service? && e.kind.http.body.Some? && e.kind.http.headers.Some?
    ensures ExceptionFromRecord(g, FailureRecord(g, ExceptionFromRecord(g, r))) == ExceptionFromRecord(g, r)
  {
    var e := ExceptionFromRecord(g, r);
    var r' := FailureRecord(g, e);
    ClassificationIsExclusive(g, r);
    ServiceRule(g, r);
    var http := e.kind.http;
    var b := http.body.value;
    var h := http.headers.value;
    assert g.bodyFromJson(Some(g.bodyToJson(Some(b)))) == Parsed(b);
    var hj := g.headersToJson(Some(h));
    assert hj.Some? && hj.value != "" && g.headersFromJson(hj.value) == Parsed(h);
    assert HasHttpResponse(r');
    ServiceRule(g, r');
    assert ServiceExceptionFromRecord(g, r').kind.http == http;
  }

  /**
   Every exception the classifier produces survives bundleFromBaseException
   followed by baseExceptionFromBundle unchanged, provided the JSON calls keep
   their laws and, for a ServiceException, both the body and the headers
   were parsed.
   */
  lemma FailureRoundTrip(g: GsonCodec, r: BrokerResult)
    requires ResultLaw(g) && BodyLaw(g) && HeadersLaw(g)
    requires var e := ExceptionFromRecord(g, r);
             IsServiceException(e) ==> e.kind.http.body.Some? && e.kind.http.headers.Some?
    ensures var e := ExceptionFromRecord(g, r);
            BaseExceptionFromBundle(g, ResultEnvelope(g.resultToJson(FailureRecord(g, e)), false)) == Returns(e)
  {
    var e := ExceptionFromRecord(g, r);
    DecodeFailureEnvelope(g, e);
    ClassificationIsExclusive(g, r);
    if e.kind.UiRequired? {
      UiRequiredSurvives(g, r);
    } else if e.kind.IntunePolicyRequired? {
      IntuneSurvives(g, r);
    } else if e.kind.UserCancel? {
      UserCancelSurvives(g, r);
    } else if e.kind.Argument? {
      ArgumentSurvives(g, r);
    } else if e.kind.Service? {
      ServiceSurvives(g, r);
    } else {
      ClientSurvives(g, r);
    }
  }

  /** The HTTP status code a ServiceException is encoded with is never read back. */
  lemma StatusCodeIsNotDecoded(g: GsonCodec, r: BrokerResult)
    requires var e := ExceptionFromRecord(g, r); IsServiceException(e)
    ensures ExceptionFromRecord(g, r).kind.http.httpStatusCode.None?
  {
  }

  // ---------------------------------------------------------------------
  // Success round trip
  // ---------------------------------------------------------------------

  /** Timestamps the cache wrote with Long.toString always encode, to exactly those values. */
  lemma CanonicalTimestampsEncode(ar: AuthenticationResult, expiresOn: int, extendedExpiresOn: int, cachedAt: int)
    requires IsLong(expiresOn) && IsLong(extendedExpiresOn) && IsLong(cachedAt)
    requires ar.accessTokenRecord.expiresOn == Some(LongToString(expiresOn))
    requires ar.accessTokenRecord.extendedExpiresOn == Some(LongToString(extendedExpiresOn))
    requires ar.accessTokenRecord.cachedAt == Some(LongToString(cachedAt))
    ensures SuccessRecord(ar).Returns?
    ensures SuccessRecord(ar).value.expiresOn == Some(expiresOn)
    ensures SuccessRecord(ar).value.extendedExpiresOn == Some(extendedExpiresOn)
    ensures SuccessRecord(ar).value.cachedAt == Some(cachedAt)
  {
    ParseLongOfToString(expiresOn);
    ParseLongOfToString(extendedExpiresOn);
    ParseLongOfToString(cachedAt);
  }

  /**
   Decoding what bundleFromAuthenticationResult wrote gives back its
   tenant-profile records with the first as the current one; an empty list
   cannot be decoded.
   */
  lemma SuccessRoundTrip(g: GsonCodec, ar: AuthenticationResult)
    requires ResultLaw(g)
    requires SuccessRecord(ar).Returns?
    ensures var bundle := ResultEnvelope(g.resultToJson(SuccessRecord(ar).value), true);
            var records := ar.tenantProfileRecords;
            AuthenticationResultFromBundle(g, bundle)
              == if |records| == 0 then Throws(Unchecked(IndexOutOfBounds))
                 else Returns(Some(DecodedAuthenticationResult(records[0], records, Msal)))
  {
    var record := SuccessRecord(ar).value;
    assert g.resultFromJson(g.resultToJson(record)) == Parsed(record);
  }

  /** The decoder does not consult the success flag: a failure payload read as a success dereferences null. */
  lemma FailurePayloadIsNoSuccess(g: GsonCodec, e: BrokerException)
    requires ResultLaw(g)
    ensures AuthenticationResultFromBundle(g, ResultEnvelope(g.resultToJson(FailureRecord(g, e)), true))
              == Throws(Unchecked(NullPointer))
  {
    var record := FailureRecord(g, e);
    assert g.resultFromJson(g.resultToJson(record)) == Parsed(record);
  }

  // ---------------------------------------------------------------------
  // Handshake
  // ---------------------------------------------------------------------

  /** A negotiated version wins over error keys that are also present. */
  lemma HelloVersionWins(bundle: Envelope, version: string, code: string, description: string)
    requires version != ""
    ensures HelloResultFromBundle(Some(bundle[ERROR := StringValue(code)][ERROR_DESCRIPTION := StringValue(description)]
                                             [NEGOTIATED_BP_VERSION_KEY := StringValue(version)]))
              == Returns(true)
  {
  }

  /** Without a version, a non-empty error and description throw a ClientException carrying exactly them. */
  lemma HelloErrorPairThrows(bundle: Envelope, code: string, description: string)
    requires code != "" && description != ""
    requires IsEmpty(GetString(bundle, NEGOTIATED_BP_VERSION_KEY))
    ensures HelloResultFromBundle(Some(bundle[ERROR := StringValue(code)][ERROR_DESCRIPTION := StringValue(description)]))
              == Throws(Checked(ClientException(Some(code), Some(description))))
  {
  }

  /** Without a version or an error pair, a BrokerResult stored directly throws with its code and message. */
  lemma HelloLegacyResultThrows(bundle: Envelope, legacy: BrokerResult)
    requires IsEmpty(GetString(bundle, NEGOTIATED_BP_VERSION_KEY))
    requires IsEmpty(GetString(bundle, ERROR)) || IsEmpty(GetString(bundle, ERROR_DESCRIPTION))
    ensures HelloResultFromBundle(Some(bundle[BROKER_RESULT_V2 := BrokerResultValue(legacy)]))
              == Throws(Checked(ClientException(legacy.errorCode, legacy.errorMessage)))
  {
  }

  /**
   Without a version, a complete error pair or a stored BrokerResult, the
   broker is taken not to support the handshake: false, not an error. This
   covers a broker that ignores the call, an incomplete error pair, and a
   string (not an object) under BROKER_RESULT_V2.
   */
  lemma HelloWithoutSupport(bundle: Envelope)
    requires IsEmpty(GetString(bundle, NEGOTIATED_BP_VERSION_KEY))
    requires IsEmpty(GetString(bundle, ERROR)) || IsEmpty(GetString(bundle, ERROR_DESCRIPTION))
    requires !(BROKER_RESULT_V2 in bundle && bundle[BROKER_RESULT_V2].BrokerResultValue?)
    ensures HelloResultFromBundle(Some(bundle)) == Returns(false)
  {
  }

  // ---------------------------------------------------------------------
  // Device mode and accounts
  // ---------------------------------------------------------------------

  lemma DeviceModeRoundTrip(isSharedDevice: bool)
    ensures DeviceModeFromBundle(map[BROKER_DEVICE_MODE := BooleanValue(isSharedDevice)]) == isSharedDevice
  {
  }

  /** An exported list, empty or not, comes back in order; no list at all is NO_ACCOUNT_FOUND. */
  lemma AccountsRoundTrip(g: GsonCodec, cacheRecords: seq<CacheRecord>)
    requires RecordsLaw(g)
    ensures AccountsFromBundle(g, map[BROKER_ACCOUNTS := StringValue(g.recordsToJson(cacheRecords))]) == Returns(Some(cacheRecords))
    ensures AccountsFromBundle(g, map[]) == Throws(Checked(NoAccountFoundException))
  {
    assert g.recordsFromJson(g.recordsToJson(cacheRecords)) == Parsed(cacheRecords);
  }
}
