/**
 The JSON library calls the adapter makes (Gson with the cache-record type
 adapter, HashMapExtensions.jsonStringAsMap, HeaderSerializationUtil). Their
 code is not part of this model, so a codec is a value of function type that
 every operation takes as a parameter, and the laws a well-behaved codec
 keeps are predicates that the lemmas needing them assume.
 */
module Gson {
  import opened Wrappers
  import opened BrokerRecords

  /** What a parse ends with: a value, a JSON null (or an empty document), or a syntax error. */
  datatype Parsed<+T> = Parsed(value: T) | ParsedNull | JsonSyntaxError

  datatype GsonCodec = GsonCodec(
    /** new Gson().toJson(brokerResult, BrokerResult.class) */
    resultToJson: BrokerResult -> string,
    /** Gson with ICacheRecordGsonAdapter: fromJson(json, BrokerResult.class) on a non-null string */
    resultFromJson: string -> Parsed<BrokerResult>,
    /** getJsonStringFromICacheRecordList */
    recordsToJson: seq<CacheRecord> -> string,
    /** getICacheRecordListFromJsonString */
    recordsFromJson: string -> Parsed<seq<CacheRecord>>,
    /** new Gson().toJson(body); a null body is written as the document "null" */
    bodyToJson: Option<HttpBody> -> string,
    /** HashMapExtensions.jsonStringAsMap */
    bodyFromJson: Option<string> -> Parsed<HttpBody>,
    /** HeaderSerializationUtil.toJson */
    headersToJson: Option<HttpHeaders> -> Option<string>,
    /** HeaderSerializationUtil.fromJson on a non-null string */
    headersFromJson: string -> Parsed<HttpHeaders>)

  /** Gson reads back every BrokerResult it writes. */
  ghost predicate ResultLaw(g: GsonCodec) {
    forall r :: g.resultFromJson(g.resultToJson(r)) == Parsed(r)
  }

  /** Gson reads back every record list it writes, in order. */
  ghost predicate RecordsLaw(g: GsonCodec) {
    forall rs :: g.recordsFromJson(g.recordsToJson(rs)) == Parsed(rs)
  }

  /** A written body is never the empty string, and a written map reads back as itself. */
  ghost predicate BodyLaw(g: GsonCodec) {
    && (forall b :: g.bodyToJson(b) != "")
    && (forall b: HttpBody :: g.bodyFromJson(Some(g.bodyToJson(Some(b)))) == Parsed(b))
  }

  /** Headers are written as a non-empty string that reads back as themselves. */
  ghost predicate HeadersLaw(g: GsonCodec) {
    forall h: HttpHeaders ::
      var json := g.headersToJson(Some(h));
      json.Some? && json.value != "" && g.headersFromJson(json.value) == Parsed(h)
  }
}
