# Meilisearch Rust SDK: request layer

A Dafny model of the decision logic in the SDK's HTTP transport,
`src/request.rs`: the five-variant `Method` type and the request each variant
becomes, appending the encoded query string to a URL, replacing an empty
response body by the JSON text `null`, classifying a response into a decoded
value or one of the crate's errors, and the user-agent string.

The foreign code the transport calls is passed in as total functions, so every
property holds whatever that code does:

- `encodeQuery` stands for the query-string encoder (`yaup::to_string`);
- `serializeBody` stands for `serde_json::to_string` on a buffered body;
- `decodeOutput` and `decodeApiError` stand for `serde_json::from_str` at the
  output type and at `MeilisearchError`;
- `send` stands for building and executing the request with reqwest and
  reading the response text: it maps the request shape to a status and body.

Files:

- `wrappers.dfy` — `Option` and `Result`.
- `errors.dfy` — the error variants the request layer constructs, except the reqwest error (see Left out), and `u16`.
  The crate's errors module is not part of this model. Its payloads from
  serde_json and yaup are kept as opaque descriptions.
- `text.dfy` — counting a character, and splitting a string at the first
  occurrence of a separator. These are used to state how a server reads a
  request target back.
- `request.dfy` — the model of `src/request.rs`.

`request` and `stream_request` differ only in how a body is attached. Both are
modelled by one function, `Exchange`, which is parameterised by the
Content-Type and by the body encoder. `BufferedRequest` instantiates it with
`application/json` and the JSON serialiser. `StreamRequest` instantiates it
with the caller's Content-Type and the identity, because the byte source is
attached as it is. The `let mut body` reassignment in both is the pure
function `NormalizeBody`. All of the code in scope is stateless, so the model
has no classes.

Two behaviours of the code a caller might not expect:

- A failed network call is an `unwrap()`, so it panics rather than returning a
  typed transport error. The model has no transport-error variant.
- Below 400, a status mismatch with an unreadable body reports the failure to
  decode the body as a `MeilisearchError`. It does not report the failure to
  decode it as the output.

## Model

| member | source | states |
|---|---|---|
| `Request.ParseResponse` | src/request.rs:259-298 | Success exactly when the status equals the expected one and the body decodes as the output, and then it is that decoded value. On the expected status, a decoding failure is a `ParseError`, whatever the status. A server error is reported exactly when the status differs and the body decodes as one, and it is that error. A communication error is reported exactly when the status differs, the body is no server error and the status is at least 400. It carries that status, the given URL and no message. Below 400 the result is a `ParseError` carrying the failure to decode the body as a server error. The result is never a query-encoding error. |
| `Request.ParseResponseConsultsOneDecoder` | src/request.rs:265-284 | On the expected status the result does not depend on the server-error decoder. On any other status it does not depend on the output decoder. |
| `Request.AddQueryParameters` | src/request.rs:249-257 | Fails exactly when the query cannot be encoded, with that encoding error. On success the URL is a prefix of the result. The result equals the URL exactly when the encoding is empty. Otherwise, for every URL, what follows the URL is exactly '?' and the encoding. |
| `Request.QueryRoundTrip` | src/request.rs:249-257 | For a URL without '?', splitting the result at its first '?' gives back the URL and exactly the encoded query. It gives no query part when the encoding is empty. |
| `Request.AddsOneSeparator` | src/request.rs:252-256 | A non-empty encoding adds exactly one '?' beyond those in the URL and in the encoding. An empty encoding adds none. |
| `Request.NormalizeBody` | src/request.rs:142-144 | The result is never empty. An empty body becomes `null`. A non-empty body is returned unchanged. |
| `Request.NormalizeBodyIdempotent` | src/request.rs:241-243 | Normalising twice is the same as normalising once. |
| `Request.QualifiedVersion` | src/request.rs:300-304 | The user agent is "Meilisearch Rust (v", the version and ")", and the version read back from it is the build-time version, or "unknown" when there is none. Injectivity is `Request.QualifiedVersionInjective`. |
| `Request.QualifiedVersionInjective` | src/request.rs:300-304 | Two user agents are equal only when their versions, after the "unknown" fallback, are equal. |
| `Request.BuildRequest` | src/request.rs:94-134 | Fails exactly when the query cannot be encoded, with that error. Otherwise it uses the variant's verb and the URL with the query appended. A body and a Content-Type are present exactly for POST, PATCH and PUT, and they are the encoded body and the given Content-Type. The streaming construction at src/request.rs:181-233 is the same function with the identity as body encoder. |
| `Request.Exchange` | src/request.rs:136-146 | The shared tail of both requests (also src/request.rs:235-245). The result is a query-encoding error exactly when the caller's query cannot be encoded, and then it is that error. It succeeds only when the answer to the built request has the expected status and its normalised body decodes as the returned value. Further properties: `Request.EmptyBodyDecodesAsNull`, `Request.CommunicationErrorNamesCallerUrl`. |
| `Request.BufferedRequest` | src/request.rs:62-147 | A query that cannot be encoded fails the call with that error before anything is sent. Otherwise the result is the classification, with the caller's URL, of the normalised answer to exactly one request. That request has the variant's verb and the URL with the query appended. For POST, PATCH and PUT it has the serialised body under `application/json`; for GET and DELETE it has neither body nor Content-Type. |
| `Request.StreamRequest` | src/request.rs:149-246 | The same as the buffered request, except that for POST, PATCH and PUT the request carries the caller's byte source itself under the caller's Content-Type. |
| `Request.EmptyBodyDecodesAsNull` | src/request.rs:136-146 | An empty answer on the expected status succeeds with whatever `null` decodes to, so a unit output succeeds. |
| `Request.CommunicationErrorNamesCallerUrl` | src/request.rs:235-245 | A communication error from the whole exchange names the caller's URL, without the query string. It carries the status the backend answered with, which is at least 400, and no message. |

## Left out

- Header construction (the user-agent and `Bearer` authorization headers in a `HeaderMap`) and the reqwest client builder are library calls. `QualifiedVersion` models the user-agent text only.
- The reqwest errors from `.build()?` and from reading the response text are not modelled. `send` always yields a status and a body.
- The panics of `execute(...).unwrap()` and of `to_string(&body).unwrap()` are not modelled. `send` and `serializeBody` are total.
- Adapting the byte stream into a request body (`compat`, `ReaderStream`, `Body::wrap_stream`) is async I/O over foreign types. The model attaches the byte source as an opaque value.
- JSON syntax and query-string escaping belong to serde_json and yaup, which are parameters here.
- The `HttpClient` trait and its `Infallible` implementation, whose methods are `unreachable!()`, only satisfy the type system and have no behaviour.
- The `trace!`, `warn!` and `error!` logging calls do not affect control flow.
