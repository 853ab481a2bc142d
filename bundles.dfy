/**
 The wire envelope: an Android Bundle, a flat mapping from keys to values
 that the encoders fill in place and the decoders read.
 */
module Bundles {
  import opened Wrappers
  import opened BrokerRecords

  // Keys of the envelope.
  const BROKER_RESULT_V2 := "broker_result_v2"
  const BROKER_REQUEST_V2_SUCCESS := "broker_request_v2_success"
  const BROKER_DEVICE_MODE := "broker_device_mode"
  const BROKER_ACCOUNTS := "broker_accounts"
  const NEGOTIATED_BP_VERSION_KEY := "common.broker.protocol.version.name"
  /** The OAuth 2.0 error response parameters of section 5.2 of RFC 6749. */
  const ERROR := "error"
  const ERROR_DESCRIPTION := "error_description"

  /**
   A value stored in a Bundle. Besides strings and booleans, brokers of
   versions 3.0.4 and 3.0.6 stored a BrokerResult object itself.
   */
  datatype Value =
    | StringValue(s: string)
    | BooleanValue(b: bool)
    | BrokerResultValue(result: BrokerResult)

  type Envelope = map<string, Value>

  /** Bundle.getString: null when the key is absent or holds something other than a string. */
  function GetString(bundle: Envelope, key: string): (r: Option<string>)
    ensures r.Some? <==> key in bundle && bundle[key].StringValue?
    ensures r.Some? ==> bundle[key] == StringValue(r.value)
  {
    if key in bundle && bundle[key].StringValue? then Some(bundle[key].s) else None
  }

  /** Bundle.getBoolean: false when the key is absent or holds something other than a boolean. */
  function GetBoolean(bundle: Envelope, key: string): (r: bool)
    ensures r <==> key in bundle && bundle[key] == BooleanValue(true)
  {
    key in bundle && bundle[key].BooleanValue? && bundle[key].b
  }

  /** An android.os.Bundle, filled by put calls. */
  class Bundle {
    var entries: Envelope

    constructor ()
      ensures entries == map[]
    {
      entries := map[];
    }

    method PutString(key: string, value: string)
      modifies this
      ensures entries == old(entries)[key := StringValue(value)]
    {
      entries := entries[key := StringValue(value)];
    }

    method PutBoolean(key: string, value: bool)
      modifies this
      ensures entries == old(entries)[key := BooleanValue(value)]
    {
      entries := entries[key := BooleanValue(value)];
    }
  }
}
