/**
 MsalBrokerResultAdapter: the codec between an app and the broker process.
 It writes an authentication result or an exception into a Bundle, reads
 them back, interprets the broker's reply to the hello handshake, and moves
 the device mode and exported account lists across the same channel.
 */
module MsalBrokerResultAdapter {
  import opened Wrappers
  import opened JavaText
  import opened BrokerRecords
  import opened BrokerExceptions
  import opened Gson
  import opened Bundles

  // =====================================================================
  // Encoding a result or an exception into a Bundle
  // =====================================================================

  /** Every result bundle: the serialized BrokerResult under BROKER_RESULT_V2 and the success flag. */
  function ResultEnvelope(json: string, success: bool): (bundle: Envelope)
    ensures GetString(bundle, BROKER_RESULT_V2) == Some(json)
    ensures GetBoolean(bundle, BROKER_REQUEST_V2_SUCCESS) == success
    ensures bundle.Keys == {BROKER_RESULT_V2, BROKER_REQUEST_V2_SUCCESS}
  {
    map[BROKER_RESULT_V2 := StringValue(json), BROKER_REQUEST_V2_SUCCESS := BooleanValue(success)]
  }

  /**
   The BrokerResult that bundleFromAuthenticationResult builds. The three
   timestamps are parsed as decimal longs, in the order expiresOn,
   extendedExpiresOn, cachedAt; the first that does not parse ends the call
   with a NumberFormatException.
   */
  function SuccessRecord(ar: AuthenticationResult): (r: Outcome<BrokerResult>)
    ensures var at := ar.accessTokenRecord;
      r.Returns? <==> ParseLong(at.expiresOn).Some? && ParseLong(at.extendedExpiresOn).Some? && ParseLong(at.cachedAt).Some?
    ensures var at := ar.accessTokenRecord;
      r.Throws? ==> r.fault.Unchecked? && r.fault.error.NumberFormat?
                    && ParseLong(r.fault.error.input).None?
                    && r.fault.error.input in [at.expiresOn, at.extendedExpiresOn, at.cachedAt]
    ensures var at := ar.accessTokenRecord;
      r.Returns? ==> && r.value.success
                     && r.value.tenantProfileData == Some(ar.tenantProfileRecords)
                     && r.value.expiresOn == ParseLong(at.expiresOn)
                     && r.value.extendedExpiresOn == ParseLong(at.extendedExpiresOn)
                     && r.value.cachedAt == ParseLong(at.cachedAt)
                     && r.value.errorCode.None? && r.value.errorMessage.None?
                     && r.value.correlationId.None? && r.value.cliTelemErrorCode.None? && r.value.cliTelemSubErrorCode.None?
                     && r.value.subErrorCode.None? && r.value.httpStatusCode.None?
                     && r.value.httpResponseHeaders.None? && r.value.httpResponseBody.None?
    // The fields copied from the result and its account and access-token records.
    ensures var account := ar.accountRecord;
            var at := ar.accessTokenRecord;
      r.Returns? ==> && r.value.accessToken == ar.accessToken
                     && r.value.idToken == ar.idToken
                     && r.value.refreshToken == ar.refreshToken
                     && r.value.familyId == ar.familyId
                     && r.value.tenantId == ar.tenantId
                     && r.value.speRing == ar.speRing
                     && r.value.refreshTokenAge == ar.refreshTokenAge
                     && r.value.homeAccountId == account.homeAccountId
                     && r.value.localAccountId == account.localAccountId
                     && r.value.userName == account.username
                     && r.value.clientInfo == account.clientInfo
                     && r.value.tokenType == at.accessTokenType
                     && r.value.clientId == at.clientId
                     && r.value.scope == at.target
                     && r.value.authority == at.authority
                     && r.value.environment == at.environment
  {
    var account := ar.accountRecord;
    var at := ar.accessTokenRecord;
    var expiresOn := ParseLong(at.expiresOn);
    var extendedExpiresOn := ParseLong(at.extendedExpiresOn);
    var cachedAt := ParseLong(at.cachedAt);
    if expiresOn.None? then Throws(Unchecked(NumberFormat(at.expiresOn)))
    else if extendedExpiresOn.None? then Throws(Unchecked(NumberFormat(at.extendedExpiresOn)))
    else if cachedAt.None? then Throws(Unchecked(NumberFormat(at.cachedAt)))
    else
      Returns(EmptyBrokerResult.(
        tenantProfileData := Some(ar.tenantProfileRecords),
        accessToken := ar.accessToken,
        idToken := ar.idToken,
        refreshToken := ar.refreshToken,
        homeAccountId := account.homeAccountId,
        localAccountId := account.localAccountId,
        userName := account.username,
        tokenType := at.accessTokenType,
        clientId := at.clientId,
        familyId := ar.familyId,
        scope := at.target,
        clientInfo := account.clientInfo,
        authority := at.authority,
        environment := at.environment,
        tenantId := ar.tenantId,
        expiresOn := expiresOn,
        extendedExpiresOn := extendedExpiresOn,
        cachedAt := cachedAt,
        speRing := ar.speRing,
        refreshTokenAge := ar.refreshTokenAge,
        success := true))
  }

  /** bundleFromAuthenticationResult. */
  method BundleFromAuthenticationResult(g: GsonCodec, ar: AuthenticationResult) returns (r: Outcome<Bundle>)
    ensures r.Throws? <==> SuccessRecord(ar).Throws?
    ensures r.Throws? ==> r.fault == SuccessRecord(ar).fault
    ensures r.Returns? ==> fresh(r.value)
                           && r.value.entries == ResultEnvelope(g.resultToJson(SuccessRecord(ar).value), true)
  {
    var record := SuccessRecord(ar);
    if record.Throws? {
      return Throws(record.fault);
    }
    var bundle := new Bundle();
    bundle.PutString(BROKER_RESULT_V2, g.resultToJson(record.value));
    bundle.PutBoolean(BROKER_REQUEST_V2_SUCCESS, true);
    return Returns(bundle);
  }

  /**
   The BrokerResult that bundleFromBaseException builds: the error fields every
   exception has, then the HTTP context of a ServiceException, then the
   identity of an IntuneAppProtectionPolicyRequiredException.
   */
  function FailureRecord(g: GsonCodec, e: BrokerException): (r: BrokerResult)
    ensures !r.success
    // None of the fields only a success sets.
    ensures && r.tenantProfileData.None? && r.accessToken.None? && r.idToken.None? && r.refreshToken.None?
            && r.homeAccountId.None? && r.tokenType.None? && r.clientId.None? && r.familyId.None?
            && r.scope.None? && r.clientInfo.None? && r.environment.None?
            && r.expiresOn.None? && r.extendedExpiresOn.None? && r.cachedAt.None?
    ensures r.errorCode == e.errorCode && r.errorMessage == e.message
    ensures DiagnosticsOf(r) == e.diagnostics
    ensures IsServiceException(e) <==> r.httpResponseBody.Some?
    ensures IsServiceException(e) ==>
              && r.subErrorCode == e.kind.http.oauthSubErrorCode
              && r.httpStatusCode == e.kind.http.httpStatusCode
              && r.httpResponseHeaders == g.headersToJson(e.kind.http.headers)
              && r.httpResponseBody == Some(g.bodyToJson(e.kind.http.body))
    ensures !IsServiceException(e) ==>
              r.subErrorCode.None? && r.httpStatusCode.None? && r.httpResponseHeaders.None?
    ensures e.kind.IntunePolicyRequired? ==>
              PolicyIdentity(r.tenantId, r.authority, r.localAccountId, r.userName) == e.kind.identity
    ensures !e.kind.IntunePolicyRequired? ==>
              r.tenantId.None? && r.authority.None? && r.localAccountId.None? && r.userName.None?
  {
    var builder := EmptyBrokerResult.(
      success := false,
      errorCode := e.errorCode,
      errorMessage := e.message,
      correlationId := e.diagnostics.correlationId,
      cliTelemErrorCode := e.diagnostics.cliTelemErrorCode,
      cliTelemSubErrorCode := e.diagnostics.cliTelemSubErrorCode,
      speRing := e.diagnostics.speRing,
      refreshTokenAge := e.diagnostics.refreshTokenAge);
    var builder :=
      if IsServiceException(e) then
        builder.(
          subErrorCode := e.kind.http.oauthSubErrorCode,
          httpStatusCode := e.kind.http.httpStatusCode,
          httpResponseHeaders := g.headersToJson(e.kind.http.headers),
          httpResponseBody := Some(g.bodyToJson(e.kind.http.body)))
      else builder;
    var builder :=
      if e.kind.IntunePolicyRequired? then
        builder.(
          userName := e.kind.identity.accountUpn,
          localAccountId := e.kind.identity.accountUserId,
          authority := e.kind.identity.authorityUrl,
          tenantId := e.kind.identity.tenantId)
      else builder;
    builder
  }

  /** bundleFromBaseException. */
  method BundleFromBaseException(g: GsonCodec, e: BrokerException) returns (bundle: Bundle)
    ensures fresh(bundle)
    ensures bundle.entries == ResultEnvelope(g.resultToJson(FailureRecord(g, e)), false)
    ensures ResultLaw(g) ==> BrokerResultFromBundle(g, bundle.entries) == Returns(Some(FailureRecord(g, e)))
  {
    var record := FailureRecord(g, e);
    bundle := new Bundle();
    bundle.PutString(BROKER_RESULT_V2, g.resultToJson(record));
    bundle.PutBoolean(BROKER_REQUEST_V2_SUCCESS, false);
  }

  // =====================================================================
  // Decoding a result bundle
  // =====================================================================

  /**
   brokerResultFromBundle: Gson on the string under BROKER_RESULT_V2. A missing
   string, or a document that is JSON null, gives no record; malformed JSON
   raises JsonSyntaxException.
   */
  function BrokerResultFromBundle(g: GsonCodec, bundle: Envelope): (r: Outcome<Option<BrokerResult>>)
    ensures var json := GetString(bundle, BROKER_RESULT_V2);
      r == Returns(None) <==> json.None? || g.resultFromJson(json.value).ParsedNull?
    ensures var json := GetString(bundle, BROKER_RESULT_V2);
      r.Throws? <==> json.Some? && g.resultFromJson(json.value).JsonSyntaxError?
    ensures r.Throws? ==> r.fault == Unchecked(JsonSyntax)
    ensures var json := GetString(bundle, BROKER_RESULT_V2);
      json.Some? && g.resultFromJson(json.value).Parsed? ==> r == Returns(Some(g.resultFromJson(json.value).value))
    ensures r.Returns? && r.value.Some? ==>
              GetString(bundle, BROKER_RESULT_V2).Some?
              && g.resultFromJson(GetString(bundle, BROKER_RESULT_V2).value) == Parsed(r.value.value)
  {
    var json := GetString(bundle, BROKER_RESULT_V2);
    if json.None? then Returns(None)
    else
      match g.resultFromJson(json.value)
      case Parsed(record) => Returns(Some(record))
      case ParsedNull => Returns(None)
      case JsonSyntaxError => Throws(Unchecked(JsonSyntax))
  }

  /**
   authenticationResultFromBundle: no record gives null; otherwise the first
   tenant-profile record is the current one. A missing list dereferences null
   and an empty one indexes out of bounds.
   */
  function AuthenticationResultFromBundle(g: GsonCodec, bundle: Envelope)
    : (r: Outcome<Option<DecodedAuthenticationResult>>)
    ensures r == Returns(None) <==> BrokerResultFromBundle(g, bundle) == Returns(None)
    ensures BrokerResultFromBundle(g, bundle).Throws? ==> r == Throws(BrokerResultFromBundle(g, bundle).fault)
    ensures var decoded := BrokerResultFromBundle(g, bundle);
      decoded.Returns? && decoded.value.Some? ==>
        var records := decoded.value.value.tenantProfileData;
        && (records.None? ==> r == Throws(Unchecked(NullPointer)))
        && (records == Some([]) ==> r == Throws(Unchecked(IndexOutOfBounds)))
        && (records.Some? && |records.value| > 0 ==>
              r == Returns(Some(DecodedAuthenticationResult(records.value[0], records.value, Msal))))
    ensures r.Returns? && r.value.Some? ==>
              var result := r.value.value;
              && |result.tenantProfileRecords| > 0
              && result.currentRecord == result.tenantProfileRecords[0]
              && result.sdkType == Msal
              && BrokerResultFromBundle(g, bundle).Returns?
              && BrokerResultFromBundle(g, bundle).value.Some?
              && BrokerResultFromBundle(g, bundle).value.value.tenantProfileData == Some(result.tenantProfileRecords)
  {
    match BrokerResultFromBundle(g, bundle)
    case Throws(fault) => Throws(fault)
    case Returns(None) => Returns(None)
    case Returns(Some(record)) =>
      match record.tenantProfileData
      case None => Throws(Unchecked(NullPointer))
      case Some(records) =>
        if |records| == 0 then Throws(Unchecked(IndexOutOfBounds))
        else Returns(Some(DecodedAuthenticationResult(records[0], records, Msal)))
  }

  // =====================================================================
  // The hello handshake
  // =====================================================================

  /**
   getHelloResultFromBundle: true when a protocol version was negotiated,
   false when the bundle is null or the broker does not know the handshake;
   a ClientException when the broker reports an error, either as an OAuth
   error/error_description pair or as a BrokerResult object stored directly
   (brokers 3.0.4 and 3.0.6).
   */
  function HelloResultFromBundle(bundle: Option<Envelope>): (r: Outcome<bool>)
    ensures r == Returns(true) <==> bundle.Some? && !IsEmpty(GetString(bundle.value, NEGOTIATED_BP_VERSION_KEY))
    ensures r.Throws? ==> bundle.Some? && IsEmpty(GetString(bundle.value, NEGOTIATED_BP_VERSION_KEY))
                          && r.fault.Checked? && r.fault.exception.kind.Client?
                          && r.fault.exception.diagnostics == NoDiagnostics
    ensures bundle.None? ==> r == Returns(false)
    // The last rung: nothing the broker sent identifies a version, an error pair or a stored result.
    ensures r == Returns(false) <==>
              || bundle.None?
              || (&& IsEmpty(GetString(bundle.value, NEGOTIATED_BP_VERSION_KEY))
                  && (IsEmpty(GetString(bundle.value, ERROR)) || IsEmpty(GetString(bundle.value, ERROR_DESCRIPTION)))
                  && !(BROKER_RESULT_V2 in bundle.value && bundle.value[BROKER_RESULT_V2].BrokerResultValue?))
  {
    if bundle.None? then Returns(false)
    else
      var b := bundle.value;
      if !IsEmpty(GetString(b, NEGOTIATED_BP_VERSION_KEY)) then Returns(true)
      else if !IsEmpty(GetString(b, ERROR)) && !IsEmpty(GetString(b, ERROR_DESCRIPTION)) then
        Throws(Checked(ClientException(GetString(b, ERROR), GetString(b, ERROR_DESCRIPTION))))
      else if BROKER_RESULT_V2 in b && b[BROKER_RESULT_V2].BrokerResultValue? then
        var legacy := b[BROKER_RESULT_V2].result;
        Throws(Checked(ClientException(legacy.errorCode, legacy.errorMessage)))
      else Returns(false)
  }

  // =====================================================================
  // Decoding an exception
  // =====================================================================

  /** The diagnostic quintet a BrokerResult carries. */
  function DiagnosticsOf(r: BrokerResult): Diagnostics {
    Diagnostics(r.cliTelemErrorCode, r.cliTelemSubErrorCode, r.correlationId, r.speRing, r.refreshTokenAge)
  }

  /** What baseExceptionFromBundle returns when the bundle holds no record. */
  const UnknownErrorException :=
    BrokerException(Base, Some(UNKNOWN_ERROR), Some("Broker Result not returned from Broker"), NoDiagnostics)

  /** `new UserCancelException()`. */
  const UserCancelException := BrokerException(UserCancel, Some(USER_CANCELLED), Some(USER_CANCELLED_MESSAGE), NoDiagnostics)

  /**
   getIntuneProtectionRequiredException. The identity and the sub-error code
   are always set; the body parse comes first and, when it raises a
   JSONException, the headers are not parsed either. JSON null leaves a field null.
   */
  function IntuneProtectionRequiredException(g: GsonCodec, r: BrokerResult): (e: BrokerException)
    ensures e.kind.IntunePolicyRequired? && e.errorCode == r.errorCode && e.message == r.errorMessage
    ensures e.diagnostics == NoDiagnostics
    ensures e.kind.identity == PolicyIdentity(r.tenantId, r.authority, r.localAccountId, r.userName)
    ensures e.kind.http.oauthSubErrorCode == r.subErrorCode && e.kind.http.httpStatusCode.None?
    ensures e.kind.http.body.Some? <==> g.bodyFromJson(r.httpResponseBody).Parsed?
    ensures e.kind.http.body.Some? ==> g.bodyFromJson(r.httpResponseBody) == Parsed(e.kind.http.body.value)
    ensures e.kind.http.headers.Some? <==>
              !g.bodyFromJson(r.httpResponseBody).JsonSyntaxError?
              && r.httpResponseHeaders.Some? && g.headersFromJson(r.httpResponseHeaders.value).Parsed?
    ensures e.kind.http.headers.Some? ==> g.headersFromJson(r.httpResponseHeaders.value) == Parsed(e.kind.http.headers.value)
  {
    var identity := PolicyIdentity(r.tenantId, r.authority, r.localAccountId, r.userName);
    var http := NoHttpContext.(oauthSubErrorCode := r.subErrorCode);
    var http :=
      match g.bodyFromJson(r.httpResponseBody)
      case JsonSyntaxError => http
      case _ =>
        var http := http.(body := ParsedValue(g.bodyFromJson(r.httpResponseBody)));
        if r.httpResponseHeaders.None? then http
        else
          match g.headersFromJson(r.httpResponseHeaders.value)
          case JsonSyntaxError => http
          case parsed => http.(headers := ParsedValue(parsed));
    BrokerException(IntunePolicyRequired(http, identity), r.errorCode, r.errorMessage, NoDiagnostics)
  }

  /**
   getServiceException. A null body or null headers are left null without
   parsing; the body is parsed first and a JSONException there leaves the
   headers unset too.
   */
  function ServiceExceptionFromRecord(g: GsonCodec, r: BrokerResult): (e: BrokerException)
    ensures e.kind.Service? && e.errorCode == r.errorCode && e.message == r.errorMessage
    ensures e.diagnostics == NoDiagnostics
    ensures e.kind.http.oauthSubErrorCode == r.subErrorCode && e.kind.http.httpStatusCode.None?
    ensures e.kind.http.body.Some? <==> r.httpResponseBody.Some? && g.bodyFromJson(r.httpResponseBody).Parsed?
    ensures e.kind.http.body.Some? ==> g.bodyFromJson(r.httpResponseBody) == Parsed(e.kind.http.body.value)
    ensures e.kind.http.headers.Some? <==>
              (r.httpResponseBody.None? || !g.bodyFromJson(r.httpResponseBody).JsonSyntaxError?)
              && r.httpResponseHeaders.Some? && g.headersFromJson(r.httpResponseHeaders.value).Parsed?
    ensures e.kind.http.headers.Some? ==> g.headersFromJson(r.httpResponseHeaders.value) == Parsed(e.kind.http.headers.value)
  {
    var http := NoHttpContext.(oauthSubErrorCode := r.subErrorCode);
    var bodyParse := if r.httpResponseBody.None? then ParsedNull else g.bodyFromJson(r.httpResponseBody);
    var http :=
      if bodyParse.JsonSyntaxError? then http
      else
        var http := http.(body := ParsedValue(bodyParse));
        var headersParse := if r.httpResponseHeaders.None? then ParsedNull else g.headersFromJson(r.httpResponseHeaders.value);
        if headersParse.JsonSyntaxError? then http
        else http.(headers := ParsedValue(headersParse));
    BrokerException(Service(http), r.errorCode, r.errorMessage, NoDiagnostics)
  }

  /** The value a successful parse assigns: the parsed value, or null. */
  function ParsedValue<T>(p: Parsed<T>): Option<T>
    requires !p.JsonSyntaxError?
  {
    if p.Parsed? then Some(p.value) else None
  }

  /**
   The decision list of baseExceptionFromBundle, first match wins, followed
   by the five setters that copy the diagnostics onto whatever was chosen.
   */
  function ExceptionFromRecord(g: GsonCodec, r: BrokerResult): (e: BrokerException)
    ensures e.diagnostics == DiagnosticsOf(r)
    ensures !e.kind.Base?
  {
    var code := r.errorCode;
    var chosen :=
      if MatchesIgnoreCase(INTERACTION_REQUIRED, code) || MatchesIgnoreCase(INVALID_GRANT, code) then
        BrokerException(UiRequired, code, r.errorMessage, NoDiagnostics)
      else if MatchesIgnoreCase(UNAUTHORIZED_CLIENT, code) && MatchesIgnoreCase(PROTECTION_POLICY_REQUIRED, r.subErrorCode) then
        IntuneProtectionRequiredException(g, r)
      else if MatchesIgnoreCase(USER_CANCELLED, code) then
        UserCancelException
      else if MatchesIgnoreCase(ILLEGAL_ARGUMENT_ERROR_CODE, code) then
        BrokerException(Argument(ACQUIRE_TOKEN_OPERATION_NAME), code, r.errorMessage, NoDiagnostics)
      else if !IsEmpty(r.httpResponseHeaders) || !IsEmpty(r.httpResponseBody) then
        ServiceExceptionFromRecord(g, r)
      else
        ClientException(r.errorCode, r.errorMessage);
    chosen.(diagnostics := DiagnosticsOf(r))
  }

  /** baseExceptionFromBundle. */
  function BaseExceptionFromBundle(g: GsonCodec, bundle: Envelope): (r: Outcome<BrokerException>)
    ensures BrokerResultFromBundle(g, bundle) == Returns(None) <==> r == Returns(UnknownErrorException)
    ensures r.Throws? <==> BrokerResultFromBundle(g, bundle).Throws?
    ensures r.Throws? ==> r.fault == Unchecked(JsonSyntax)
    ensures var decoded := BrokerResultFromBundle(g, bundle);
      decoded.Returns? && decoded.value.Some? ==> r == Returns(ExceptionFromRecord(g, decoded.value.value))
    ensures r.Returns? && !r.value.kind.Base? ==>
              BrokerResultFromBundle(g, bundle).Returns? && BrokerResultFromBundle(g, bundle).value.Some?
              && r.value.diagnostics == DiagnosticsOf(BrokerResultFromBundle(g, bundle).value.value)
  {
    match BrokerResultFromBundle(g, bundle)
    case Throws(fault) => Throws(fault)
    case Returns(None) => Returns(UnknownErrorException)
    case Returns(Some(record)) => Returns(ExceptionFromRecord(g, record))
  }

  // =====================================================================
  // Device mode and account lists
  // =====================================================================

  /** bundleFromDeviceMode. */
  method BundleFromDeviceMode(isSharedDevice: bool) returns (bundle: Bundle)
    ensures fresh(bundle)
    ensures bundle.entries == map[BROKER_DEVICE_MODE := BooleanValue(isSharedDevice)]
    ensures DeviceModeFromBundle(bundle.entries) == isSharedDevice
  {
    bundle := new Bundle();
    bundle.PutBoolean(BROKER_DEVICE_MODE, isSharedDevice);
  }

  /** deviceModeFromBundle: false unless the device-mode key holds true. */
  function DeviceModeFromBundle(bundle: Envelope): (isSharedDevice: bool)
    ensures isSharedDevice <==> BROKER_DEVICE_MODE in bundle && bundle[BROKER_DEVICE_MODE] == BooleanValue(true)
  {
    GetBoolean(bundle, BROKER_DEVICE_MODE)
  }

  /** bundleFromAccounts: a null list leaves the accounts key out. */
  method BundleFromAccounts(g: GsonCodec, cacheRecords: Option<seq<CacheRecord>>) returns (bundle: Bundle)
    ensures fresh(bundle)
    ensures bundle.entries == if cacheRecords.None? then map[]
                              else map[BROKER_ACCOUNTS := StringValue(g.recordsToJson(cacheRecords.value))]
    ensures RecordsLaw(g) ==>
              AccountsFromBundle(g, bundle.entries)
                == if cacheRecords.None? then Throws(Checked(NoAccountFoundException))
                   else Returns(cacheRecords)
  {
    bundle := new Bundle();
    if cacheRecords.Some? {
      bundle.PutString(BROKER_ACCOUNTS, g.recordsToJson(cacheRecords.value));
    }
  }

  /** The ClientException accountsFromBundle throws when the key is absent. */
  const NoAccountFoundException :=
    ClientException(Some(NO_ACCOUNT_FOUND), Some("No account found. The bundle does not contain the BROKER_ACCOUNTS value."))

  /** getICacheRecordListFromJsonString: the decoded list, null for JSON null, or a syntax error. */
  function CacheRecordListFromJsonString(g: GsonCodec, accountJson: string): (r: Outcome<Option<seq<CacheRecord>>>)
    ensures r.Returns? <==> !g.recordsFromJson(accountJson).JsonSyntaxError?
    ensures r.Returns? && r.value.Some? ==> g.recordsFromJson(accountJson) == Parsed(r.value.value)
    ensures g.recordsFromJson(accountJson).Parsed? ==> r == Returns(Some(g.recordsFromJson(accountJson).value))
    ensures g.recordsFromJson(accountJson).ParsedNull? ==> r == Returns(None)
    ensures r.Throws? ==> r.fault == Unchecked(JsonSyntax)
  {
    match g.recordsFromJson(accountJson)
    case Parsed(records) => Returns(Some(records))
    case ParsedNull => Returns(None)
    case JsonSyntaxError => Throws(Unchecked(JsonSyntax))
  }

  /**
   accountsFromBundle: an absent key throws NO_ACCOUNT_FOUND; a present one,
   even holding an empty list, is decoded.
   */
  function AccountsFromBundle(g: GsonCodec, bundle: Envelope): (r: Outcome<Option<seq<CacheRecord>>>)
    ensures GetString(bundle, BROKER_ACCOUNTS).None? <==> r == Throws(Checked(NoAccountFoundException))
    ensures GetString(bundle, BROKER_ACCOUNTS).Some? ==>
              r == CacheRecordListFromJsonString(g, GetString(bundle, BROKER_ACCOUNTS).value)
  {
    var accountJson := GetString(bundle, BROKER_ACCOUNTS);
    if accountJson.None? then Throws(Checked(NoAccountFoundException))
    else CacheRecordListFromJsonString(g, accountJson.value)
  }
}
