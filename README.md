# Broker result adapter

This project models `MsalBrokerResultAdapter` from Microsoft's identity
common library. The adapter is the codec between an app and the
authentication broker process. Its jobs are:

- write an authentication result or an exception into an Android `Bundle`
  as a JSON-serialized `BrokerResult` plus a success flag;
- read such a bundle back into an authentication result or into the right
  exception class;
- interpret the broker's reply to the "hello" protocol handshake;
- carry the device mode and exported account lists over the same bundle
  channel.

Files:

- `wrappers.dfy`: `Option`.
- `java_text.dfy` (`JavaText`): the JDK string operations the adapter
  relies on.
  - `String.equalsIgnoreCase`, with its per-character rule.
  - `Long.parseLong` for decimal text, and the `Long.toString` rendering
    the token cache writes.
- `broker_records.dfy` (`BrokerRecords`): the cache records, the
  authentication result, the decoded result and the `BrokerResult`
  transfer object.
- `broker_exceptions.dfy` (`BrokerExceptions`): the exception taxonomy.
  - One record holds the code, the message and the diagnostic fields that
    every exception has.
  - A kind adds the HTTP context of a `ServiceException` and the identity
    of an `IntuneAppProtectionPolicyRequiredException`.
  - `Outcome` models a Java call that either returns or throws.
- `gson.dfy` (`Gson`): the JSON calls. They are a codec *value* of
  function type passed to every operation. The round-trip laws such a
  codec keeps are stated as predicates, and lemmas take them as
  hypotheses.
- `bundles.dfy` (`Bundles`): the bundle keys and the bundle itself.
  - `Bundle` is a class whose `entries` map the put methods update in
    place.
  - `getString` and `getBoolean` are pure functions over the entries.
- `msal_broker_result_adapter.dfy` (`MsalBrokerResultAdapter`): the
  adapter.
  - The encoders are methods that fill a fresh `Bundle`.
  - The builder chains and decoders are functions.
- `adapter_properties.dfy` (`AdapterProperties`): properties that relate
  several calls.
  - The precedence, exclusiveness and case-insensitivity of the error
    classifier.
  - The failure and success round trips through the envelope.
  - The handshake's precedence.
  - The device-mode and account round trips.

## Model

| member | source | states |
|---|---|---|
| JavaText.EqualsIgnoreCaseIffLowered | common/src/main/java/com/microsoft/identity/common/internal/result/MsalBrokerResultAdapter.java:229-230 | in the ASCII case model, equalsIgnoreCase (the test every classifier rule uses) holds exactly when the two strings are equal after lower-casing each character |
| JavaText.EqualsIgnoreCaseSymmetric | common/src/main/java/com/microsoft/identity/common/internal/result/MsalBrokerResultAdapter.java:229-230 | equalsIgnoreCase is symmetric |
| JavaText.EqualsIgnoreCaseTransitive | common/src/main/java/com/microsoft/identity/common/internal/result/MsalBrokerResultAdapter.java:229-230 | equalsIgnoreCase is transitive |
| JavaText.MatchesAtMostOne | common/src/main/java/com/microsoft/identity/common/internal/result/MsalBrokerResultAdapter.java:229-253 | a code matches at most one of two constants that differ ignoring case; `equalsIgnoreCase(null)` is false |
| JavaText.MatchesRespectsCase | common/src/main/java/com/microsoft/identity/common/internal/result/MsalBrokerResultAdapter.java:229-253 | two codes equal ignoring case match the same constants |
| JavaText.ParseLong | common/src/main/java/com/microsoft/identity/common/internal/result/MsalBrokerResultAdapter.java:88-90 | Long.parseLong accepts exactly an optional + or - followed by one or more ASCII digits whose value fits in 64 bits; digits alone or after + give their value, after - its negation; null, empty text, a lone sign or a non-digit is rejected |
| JavaText.ParseLongOfToString | common/src/main/java/com/microsoft/identity/common/internal/result/MsalBrokerResultAdapter.java:88-90 | parsing the decimal rendering of any 64-bit long gives back that long |
| JavaText.EqualsIgnoreCaseReflexive | common/src/main/java/com/microsoft/identity/common/internal/result/MsalBrokerResultAdapter.java:229-253 | every string equals itself ignoring case, so a code written as a constant matches that constant |
| JavaText.NatToDecimalValue | common/src/main/java/com/microsoft/identity/common/internal/result/MsalBrokerResultAdapter.java:88-90 | the decimal rendering of a natural number is a non-empty, unsigned string of digits whose value is that number |
| Bundles.GetString | common/src/main/java/com/microsoft/identity/common/internal/result/MsalBrokerResultAdapter.java:175 | Bundle.getString gives a string iff the key holds a string value, and then exactly that string |
| Bundles.GetBoolean | common/src/main/java/com/microsoft/identity/common/internal/result/MsalBrokerResultAdapter.java:369 | Bundle.getBoolean is true iff the key holds boolean true; absent keys and other values give false |
| Bundles.Bundle.constructor | common/src/main/java/com/microsoft/identity/common/internal/result/MsalBrokerResultAdapter.java:96 | a new Bundle is empty |
| Bundles.Bundle.PutString | common/src/main/java/com/microsoft/identity/common/internal/result/MsalBrokerResultAdapter.java:97-100 | putString maps the key to the string and leaves every other key as it was |
| Bundles.Bundle.PutBoolean | common/src/main/java/com/microsoft/identity/common/internal/result/MsalBrokerResultAdapter.java:101 | putBoolean maps the key to the boolean and leaves every other key as it was |
| MsalBrokerResultAdapter.ResultEnvelope | common/src/main/java/com/microsoft/identity/common/internal/result/MsalBrokerResultAdapter.java:96-101 | a result bundle holds exactly two keys: the JSON under BROKER_RESULT_V2 and the success flag under BROKER_REQUEST_V2_SUCCESS |
| MsalBrokerResultAdapter.SuccessRecord | common/src/main/java/com/microsoft/identity/common/internal/result/MsalBrokerResultAdapter.java:68-94 | the builder succeeds iff all three timestamps parse as longs; otherwise it throws NumberFormatException on an input that does not parse; on success the record is flagged successful and carries the tenant-profile list, the parsed timestamps, and the three tokens, family id, tenant id, SPE ring and refresh-token age of the result, the home and local account id, username and client info of the account, and the token type, client id, scope, authority and environment of the access token; the error code and message, correlation id, both telemetry codes, sub-error, status code, headers and body are all unset |
| MsalBrokerResultAdapter.BundleFromAuthenticationResult | common/src/main/java/com/microsoft/identity/common/internal/result/MsalBrokerResultAdapter.java:65-104 | throws exactly when the builder throws, with the same fault; otherwise returns a fresh bundle with the serialized success record and the flag true |
| MsalBrokerResultAdapter.FailureRecord | common/src/main/java/com/microsoft/identity/common/internal/result/MsalBrokerResultAdapter.java:110-136 | success is false; the code, message and diagnostics are copied; the tenant-profile list, the three tokens, home account id, token type, client id, family id, scope, client info, environment and the three timestamps are unset; the sub-error, status, headers and body appear iff the exception is a ServiceException; tenant, authority, account id and UPN appear iff it is an Intune policy exception |
| MsalBrokerResultAdapter.BundleFromBaseException | common/src/main/java/com/microsoft/identity/common/internal/result/MsalBrokerResultAdapter.java:107-146 | a fresh bundle with the serialized failure record and the flag false, whose record the decoder reads back unchanged |
| MsalBrokerResultAdapter.BrokerResultFromBundle | common/src/main/java/com/microsoft/identity/common/internal/result/MsalBrokerResultAdapter.java:170-178 | null iff the key holds no string or the string parses as JSON null; JsonSyntaxException iff the string is malformed; otherwise exactly the record the string parses to |
| MsalBrokerResultAdapter.AuthenticationResultFromBundle | common/src/main/java/com/microsoft/identity/common/internal/result/MsalBrokerResultAdapter.java:149-168 | null iff no record was decoded; a syntax error propagates; a decoded record with a tenant-profile list gives that list with its first entry current and SDK type MSAL; a missing list raises NullPointerException and an empty one IndexOutOfBoundsException |
| MsalBrokerResultAdapter.HelloResultFromBundle | common/src/main/java/com/microsoft/identity/common/internal/result/MsalBrokerResultAdapter.java:180-211 | true iff a non-empty negotiated version is present; false iff the bundle is null or has no version, no complete error pair and no stored BrokerResult; any exception is a ClientException without diagnostics and occurs only when no version is present |
| MsalBrokerResultAdapter.IntuneProtectionRequiredException | common/src/main/java/com/microsoft/identity/common/internal/result/MsalBrokerResultAdapter.java:289-315 | code, message, identity and sub-error always come from the record; the body is set iff it parsed; the headers are set iff the body parse did not fail, headers exist and they parsed |
| MsalBrokerResultAdapter.ServiceExceptionFromRecord | common/src/main/java/com/microsoft/identity/common/internal/result/MsalBrokerResultAdapter.java:320-348 | code, message and sub-error come from the record; a null body is not parsed; the headers are set iff the body exists without a syntax error (or is null) and the headers exist and parse |
| MsalBrokerResultAdapter.ExceptionFromRecord | common/src/main/java/com/microsoft/identity/common/internal/result/MsalBrokerResultAdapter.java:225-283 | whatever kind is chosen carries the record's five diagnostic fields, and the kind is never a bare BaseException |
| MsalBrokerResultAdapter.BaseExceptionFromBundle | common/src/main/java/com/microsoft/identity/common/internal/result/MsalBrokerResultAdapter.java:214-284 | BaseException UNKNOWN_ERROR iff no record was decoded; JsonSyntaxException iff the record is malformed; a decoded record gives exactly the exception the decision list chooses for it, carrying its diagnostics |
| MsalBrokerResultAdapter.BundleFromDeviceMode | common/src/main/java/com/microsoft/identity/common/internal/result/MsalBrokerResultAdapter.java:356-360 | a fresh bundle holding only the device-mode flag, which deviceModeFromBundle reads back |
| MsalBrokerResultAdapter.DeviceModeFromBundle | common/src/main/java/com/microsoft/identity/common/internal/result/MsalBrokerResultAdapter.java:368-370 | true iff the device-mode key holds boolean true |
| MsalBrokerResultAdapter.BundleFromAccounts | common/src/main/java/com/microsoft/identity/common/internal/result/MsalBrokerResultAdapter.java:378-392 | a null list leaves the bundle empty; otherwise it holds the list's JSON under BROKER_ACCOUNTS; accountsFromBundle gives back the same list, or NO_ACCOUNT_FOUND for a null list |
| MsalBrokerResultAdapter.CacheRecordListFromJsonString | common/src/main/java/com/microsoft/identity/common/internal/result/MsalBrokerResultAdapter.java:411-418 | a parsed list is returned as is, JSON null gives null, and malformed JSON (and only that) raises JsonSyntaxException |
| MsalBrokerResultAdapter.AccountsFromBundle | common/src/main/java/com/microsoft/identity/common/internal/result/MsalBrokerResultAdapter.java:400-409 | throws NO_ACCOUNT_FOUND iff the key holds no string; otherwise decodes the string, so an empty list is not an error |
| AdapterProperties.CodesDisjoint | common/src/main/java/com/microsoft/identity/common/internal/result/MsalBrokerResultAdapter.java:229-253 | no code matches two of the classifier's constants |
| AdapterProperties.ClassificationIsExclusive | common/src/main/java/com/microsoft/identity/common/internal/result/MsalBrokerResultAdapter.java:225-275 | each kind is produced iff its own rule holds and no earlier rule does; the six kinds cover every record |
| AdapterProperties.UiRequiredRule | common/src/main/java/com/microsoft/identity/common/internal/result/MsalBrokerResultAdapter.java:229-236 | interaction_required or invalid_grant, in any case, gives UiRequiredException with the code and message, whatever else the record holds |
| AdapterProperties.IntunePrecedesService | common/src/main/java/com/microsoft/identity/common/internal/result/MsalBrokerResultAdapter.java:238-246 | unauthorized_client with sub-error protection_policy_required gives the Intune exception even when a body or headers are present |
| AdapterProperties.UserCancelRule | common/src/main/java/com/microsoft/identity/common/internal/result/MsalBrokerResultAdapter.java:248-251 | user_cancelled gives a default UserCancelException with the record's diagnostics |
| AdapterProperties.ArgumentRule | common/src/main/java/com/microsoft/identity/common/internal/result/MsalBrokerResultAdapter.java:253-260 | illegal_argument_exception gives ArgumentException tagged with the acquireToken operation name |
| AdapterProperties.ServiceRule | common/src/main/java/com/microsoft/identity/common/internal/result/MsalBrokerResultAdapter.java:262-266 | an unnamed code with non-empty headers or body gives the ServiceException built from the record |
| AdapterProperties.ClientDefault | common/src/main/java/com/microsoft/identity/common/internal/result/MsalBrokerResultAdapter.java:268-275 | an unnamed code with no HTTP response gives ClientException with the code and message verbatim |
| AdapterProperties.ClassificationIgnoresCase | common/src/main/java/com/microsoft/identity/common/internal/result/MsalBrokerResultAdapter.java:229-253 | replacing the code with one equal to it ignoring case changes neither the kind, the message nor the diagnostics |
| AdapterProperties.DecodeFailureEnvelope | common/src/main/java/com/microsoft/identity/common/internal/result/MsalBrokerResultAdapter.java:107-146 | decoding a failure bundle classifies exactly the record that was encoded |
| AdapterProperties.UnknownErrorNamesNoRule | common/src/main/java/com/microsoft/identity/common/internal/result/MsalBrokerResultAdapter.java:221 | unknown_error matches none of the classifier's codes |
| AdapterProperties.UnknownErrorRoundTrip | common/src/main/java/com/microsoft/identity/common/internal/result/MsalBrokerResultAdapter.java:219-223 | a bundle with no record yields BaseException UNKNOWN_ERROR, and that exception, encoded and decoded again, comes back as a ClientException with the same code and message |
| AdapterProperties.ReencodedHasNoHttp | common/src/main/java/com/microsoft/identity/common/internal/result/MsalBrokerResultAdapter.java:120-129 | an exception that is not a ServiceException is encoded with no headers, body or sub-error |
| AdapterProperties.UiRequiredSurvives | common/src/main/java/com/microsoft/identity/common/internal/result/MsalBrokerResultAdapter.java:229-236 | a UiRequiredException is reclassified identically after re-encoding |
| AdapterProperties.UserCancelSurvives | common/src/main/java/com/microsoft/identity/common/internal/result/MsalBrokerResultAdapter.java:248-251 | a UserCancelException is reclassified identically after re-encoding |
| AdapterProperties.ArgumentSurvives | common/src/main/java/com/microsoft/identity/common/internal/result/MsalBrokerResultAdapter.java:253-260 | an ArgumentException is reclassified identically after re-encoding |
| AdapterProperties.ClientSurvives | common/src/main/java/com/microsoft/identity/common/internal/result/MsalBrokerResultAdapter.java:268-275 | a ClientException is reclassified identically after re-encoding |
| AdapterProperties.IntuneSurvives | common/src/main/java/com/microsoft/identity/common/internal/result/MsalBrokerResultAdapter.java:289-315 | an Intune exception whose body and headers parsed is reclassified identically, identity and HTTP context included |
| AdapterProperties.ServiceSurvives | common/src/main/java/com/microsoft/identity/common/internal/result/MsalBrokerResultAdapter.java:320-348 | a ServiceException whose body and headers parsed is reclassified identically |
| AdapterProperties.FailureRoundTrip | common/src/main/java/com/microsoft/identity/common/internal/result/MsalBrokerResultAdapter.java:107-146 | every exception the classifier produces survives bundleFromBaseException followed by baseExceptionFromBundle unchanged, given well-behaved JSON calls and, for service kinds, a parsed body and headers |
| AdapterProperties.StatusCodeIsNotDecoded | common/src/main/java/com/microsoft/identity/common/internal/result/MsalBrokerResultAdapter.java:320-348 | a decoded ServiceException never carries an HTTP status code, although the encoder writes one |
| AdapterProperties.CanonicalTimestampsEncode | common/src/main/java/com/microsoft/identity/common/internal/result/MsalBrokerResultAdapter.java:88-90 | timestamps rendered as decimal longs always encode, to exactly those values |
| AdapterProperties.SuccessRoundTrip | common/src/main/java/com/microsoft/identity/common/internal/result/MsalBrokerResultAdapter.java:149-168 | decoding an encoded success gives back the tenant-profile list with its first entry current; an empty list raises IndexOutOfBoundsException |
| AdapterProperties.FailurePayloadIsNoSuccess | common/src/main/java/com/microsoft/identity/common/internal/result/MsalBrokerResultAdapter.java:159-161 | the success decoder ignores the flag: a failure record read as a success dereferences the missing tenant-profile list |
| AdapterProperties.HelloVersionWins | common/src/main/java/com/microsoft/identity/common/internal/result/MsalBrokerResultAdapter.java:187-194 | a negotiated version gives true even when an error pair is also present |
| AdapterProperties.HelloErrorPairThrows | common/src/main/java/com/microsoft/identity/common/internal/result/MsalBrokerResultAdapter.java:196-201 | with no version, a non-empty error and description raise ClientException with exactly those |
| AdapterProperties.HelloLegacyResultThrows | common/src/main/java/com/microsoft/identity/common/internal/result/MsalBrokerResultAdapter.java:203-208 | with no version and no complete error pair, a BrokerResult object stored directly raises ClientException with its code and message |
| AdapterProperties.HelloWithoutSupport | common/src/main/java/com/microsoft/identity/common/internal/result/MsalBrokerResultAdapter.java:210 | with no version, no complete error pair and no BrokerResult object under BROKER_RESULT_V2 (a string there does not count), the result is false, not an error |
| AdapterProperties.DeviceModeRoundTrip | common/src/main/java/com/microsoft/identity/common/internal/result/MsalBrokerResultAdapter.java:356-370 | the device mode written is the device mode read |
| AdapterProperties.AccountsRoundTrip | common/src/main/java/com/microsoft/identity/common/internal/result/MsalBrokerResultAdapter.java:378-418 | an exported list, empty or not, reads back in order; a bundle without the key raises NO_ACCOUNT_FOUND |

## Left out

- Gson, `HashMapExtensions.jsonStringAsMap` and `HeaderSerializationUtil` are not part of this model.
  - They are parameters of type `GsonCodec`.
  - Their round-trip behaviour is a hypothesis (`ResultLaw`, `RecordsLaw`, `BodyLaw`, `HeadersLaw`) of the lemmas that need it.
  - The text-level JSON format is not modelled.
  - `ICacheRecordGsonAdapter`'s type discriminator is not modelled either. Both the `BrokerResult` (lines 99 and 141) and the account list (line 391) are written with plain Gson and read with that adapter (lines 171-177 and 412-417). `ResultLaw` and `RecordsLaw` assume that the two agree.
- Only syntax errors are modelled as exceptions from those JSON calls. A null pointer inside `jsonStringAsMap(null)`, for instance, is not.
- The catch blocks at lines 311 and 343 name `org.json.JSONException`. The model treats every body or header parse failure as caught there. This assumes that `jsonStringAsMap` and `HeaderSerializationUtil.fromJson` report malformed input with that checked exception and not with an unchecked Gson exception, which would escape `baseExceptionFromBundle`.
- JavaText.EqualsIgnoreCase: maps case for ASCII letters only, not the full Unicode case mapping of `Character.toUpperCase`/`toLowerCase`.
- JavaText.ParseLong: accepts ASCII digits only, where `Character.digit` also accepts other Unicode decimal digits.
- `StringUtil.isEmpty` and `TextUtils.isEmpty` are both modelled as "null or the empty string"; `StringUtil` is not part of this model.
- The exception classes are not part of this model.
  - `UiRequiredException` is taken not to be a `ServiceException`.
  - `UserCancelException()` is taken to set the code `user_cancelled` and a fixed message.
  - `new ArgumentException(operationName, errorCode, message)` (lines 256-260) is taken to keep its second argument as the error code and its third as the message.
  - A `BaseException`'s message is the one passed to its constructor.
  - The diagnostic fields of a fresh exception start out null.
- The values of the error codes and bundle keys are defined in `AuthenticationConstants`, `ErrorStrings` and `ArgumentException`, which are not part of this model. The model uses these values:
  - `invalid_grant` and `unauthorized_client`, from section 5.2 of RFC 6749;
  - `interaction_required`, from section 3.1.2.6 of OpenID Connect Core 1.0;
  - the library's own codes (`protection_policy_required`, `user_cancelled`, `illegal_argument_exception`, `unknown_error`, `no_account_found`) and key names, spelled descriptively.
- The proofs rely only on three facts about these values. The five classifier codes are pairwise distinct ignoring case. The bundle keys are pairwise distinct, which `ResultEnvelope`, `HelloVersionWins`, `HelloErrorPairThrows` and `HelloLegacyResultThrows` use. The code `unknown_error` differs, ignoring case, from every classifier code, which `UnknownErrorNamesNoRule` and `UnknownErrorRoundTrip` use.
- The accessors of `ILocalAuthenticationResult`, `IAccountRecord` and `AccessTokenRecord` are field reads. A null account or access-token record, which would dereference null, is not modelled. Neither is a null `getCacheRecordWithTenantProfileData()` (line 73): the tenant-profile list of an `AuthenticationResult` is always a list.
- `LocalAuthenticationResult`'s constructor is not part of this model: the decoded result is the current record, the list and the SDK type.
- A `Bundle` holds only strings, booleans and the legacy `BrokerResult` value. Other value types never reach these keys in the adapter.
- Logging is not modelled.
- `BrokerAccountServiceConnection` and `AcquireTokenOperationParameters` are left out. Neither uses the adapter.
  - `BrokerAccountServiceConnection` completes a future with the bound service and logs.
  - `AcquireTokenOperationParameters` holds request parameters; its only logic trims the login hint.
- The model keeps these behaviours of the code as written.
  - A missing record makes `authenticationResultFromBundle` return null rather than report a decode error.
  - A missing tenant-profile list raises `NullPointerException`, and an empty one `IndexOutOfBoundsException`.
  - A parse failure during `getServiceException` still leaves the sub-error code set.
  - The HTTP status code is never decoded (`StatusCodeIsNotDecoded`).
