/** The part of the crate's error taxonomy that the request layer produces.
    The crate's errors module is not part of this model: only the variants
    that src/request.rs constructs are declared, and the payloads of the
    foreign libraries (serde_json, yaup) are opaque descriptions. */
module Errors {
  import opened Wrappers

  /** An HTTP status code, Rust's `u16`. */
  newtype u16 = x: int | 0 <= x < 0x1_0000

  /** A decoding failure reported by the JSON deserialiser. */
  datatype JsonError = JsonError(description: string)

  /** A serialisation failure reported by the query-string encoder. */
  datatype QueryError = QueryError(description: string)

  /** A structured error object returned by the Meilisearch server. */
  datatype MeilisearchError = MeilisearchError(
    message: string,
    errorCode: string,
    errorType: string,
    errorLink: string)

  /** An HTTP-level failure whose body was not a recognisable server error. */
  datatype MeilisearchCommunicationError = MeilisearchCommunicationError(
    statusCode: u16,
    message: Option<string>,
    url: string)

  datatype Error =
    | Meilisearch(apiError: MeilisearchError)
    | MeilisearchCommunication(communication: MeilisearchCommunicationError)
    | ParseError(parseError: JsonError)
    /** the query object could not be encoded as a query string */
    | Yaup(queryError: QueryError)
}
