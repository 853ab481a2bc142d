/**
 The records that cross the app/broker boundary: the cache records a result
 carries, the app-side view of an authentication result, and the flat
 BrokerResult record that is serialized into the envelope.
 */
module BrokerRecords {
  import opened Wrappers

  /** The identity part of a cache record (IAccountRecord). */
  datatype AccountRecord = AccountRecord(
    homeAccountId: Option<string>,
    localAccountId: Option<string>,
    username: Option<string>,
    clientInfo: Option<string>)

  /** An access-token cache record; its three timestamps are stored as decimal strings. */
  datatype AccessTokenRecord = AccessTokenRecord(
    accessTokenType: Option<string>,
    clientId: Option<string>,
    target: Option<string>,
    authority: Option<string>,
    environment: Option<string>,
    expiresOn: Option<string>,
    extendedExpiresOn: Option<string>,
    cachedAt: Option<string>)

  /** One ICacheRecord: an account with the credentials cached for it. The adapter only carries these. */
  datatype CacheRecord = CacheRecord(
    account: AccountRecord,
    accessToken: Option<AccessTokenRecord>,
    idToken: Option<string>,
    refreshToken: Option<string>)

  /** What the encoder reads from an ILocalAuthenticationResult, getter by getter. */
  datatype AuthenticationResult = AuthenticationResult(
    accountRecord: AccountRecord,
    accessTokenRecord: AccessTokenRecord,
    accessToken: Option<string>,
    idToken: Option<string>,
    refreshToken: Option<string>,
    familyId: Option<string>,
    tenantId: Option<string>,
    speRing: Option<string>,
    refreshTokenAge: Option<string>,
    tenantProfileRecords: seq<CacheRecord>)

  datatype SdkType = Msal | Adal

  /** The arguments of the LocalAuthenticationResult that the decoder constructs. */
  datatype DecodedAuthenticationResult = DecodedAuthenticationResult(
    currentRecord: CacheRecord,
    tenantProfileRecords: seq<CacheRecord>,
    sdkType: SdkType)

  /** A parsed HTTP response body (HashMap<String, String>). */
  type HttpBody = map<string, string>

  /** Parsed HTTP response headers (HashMap<String, List<String>>). */
  type HttpHeaders = map<string, seq<string>>

  /**
   BrokerResult: one flat record for both outcomes. A success fills the token
   fields; a failure fills the error fields. An unset field is None.
   */
  datatype BrokerResult = BrokerResult(
    tenantProfileData: Option<seq<CacheRecord>>,
    accessToken: Option<string>,
    idToken: Option<string>,
    refreshToken: Option<string>,
    homeAccountId: Option<string>,
    localAccountId: Option<string>,
    userName: Option<string>,
    tokenType: Option<string>,
    clientId: Option<string>,
    familyId: Option<string>,
    scope: Option<string>,
    clientInfo: Option<string>,
    authority: Option<string>,
    environment: Option<string>,
    tenantId: Option<string>,
    expiresOn: Option<int>,
    extendedExpiresOn: Option<int>,
    cachedAt: Option<int>,
    speRing: Option<string>,
    refreshTokenAge: Option<string>,
    success: bool,
    errorCode: Option<string>,
    errorMessage: Option<string>,
    correlationId: Option<string>,
    cliTelemErrorCode: Option<string>,
    cliTelemSubErrorCode: Option<string>,
    subErrorCode: Option<string>,
    httpStatusCode: Option<int>,
    httpResponseHeaders: Option<string>,
    httpResponseBody: Option<string>)

  /** What `new BrokerResult.Builder()` starts from: nothing set. */
  const EmptyBrokerResult := BrokerResult(
    None, None, None, None, None, None, None, None, None, None,
    None, None, None, None, None, None, None, None, None, None,
    false, None, None, None, None, None, None, None, None, None)
}
