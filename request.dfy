/** The decision layer of the SDK's HTTP transport (src/request.rs): how a
    request is shaped from a `Method`, how the query string is appended to
    the URL, how an empty response body is normalised, and how a status code
    and body are classified into a decoded value or one of the crate's
    errors.

    The JSON deserialiser, the JSON serialiser, the query-string encoder and
    the HTTP exchange itself are foreign code: each is a total function
    passed in as a parameter, so every property below holds whatever they do. */
module Request {
  import opened Wrappers
  import opened Errors
  import Text

  /** The request variants. GET and DELETE carry only a query; POST, PATCH
      and PUT always carry a query together with a body. */
  datatype Method<Q, B> =
    | Get(query: Q)
    | Post(query: Q, body: B)
    | Patch(query: Q, body: B)
    | Put(query: Q, body: B)
    | Delete(query: Q)
  {
    predicate HasBody()
    {
      Post? || Patch? || Put?
    }

    /** The HTTP verb each variant is sent with. */
    function HttpVerb(): Verb
    {
      match this
      case Get(_) => GET
      case Post(_, _) => POST
      case Patch(_, _) => PATCH
      case Put(_, _) => PUT
      case Delete(_) => DELETE
    }
  }

  datatype Verb = GET | POST | PATCH | PUT | DELETE

  /** What the HTTP backend is asked to send: verb, full URL, the
      Content-Type header if one is set, and the request body if any. */
  datatype RequestShape<C> = RequestShape(
    verb: Verb,
    url: string,
    contentType: Option<string>,
    body: Option<C>)

  /** What comes back: the status code and the body read as text. */
  datatype Response = Response(status: u16, text: string)

  const JsonContentType: string := "application/json"
  const UserAgentPrefix: string := "Meilisearch Rust (v"
  const UnknownVersion: string := "unknown"

  // ---------------------------------------------------------------------
  // User agent

  /** The user-agent string; `version` is the package version recorded at
      build time, if any. */
  function QualifiedVersion(version: Option<string>): (agent: string)
    ensures UserAgentVersion(agent) == Some(version.GetOr(UnknownVersion))
  {
    UserAgentPrefix + version.GetOr(UnknownVersion) + ")"
  }

  /** Reads the version back out of a user-agent string of that form. */
  function UserAgentVersion(agent: string): Option<string>
  {
    if |agent| > |UserAgentPrefix| && agent[..|UserAgentPrefix|] == UserAgentPrefix
       && agent[|agent| - 1] == ')'
    then Some(agent[|UserAgentPrefix|..|agent| - 1])
    else None
  }

  /** Distinct versions give distinct user agents, and a known version is
      never confused with a missing one unless it is literally "unknown". */
  lemma QualifiedVersionInjective(a: Option<string>, b: Option<string>)
    requires QualifiedVersion(a) == QualifiedVersion(b)
    ensures a.GetOr(UnknownVersion) == b.GetOr(UnknownVersion)
  {
  }

  // ---------------------------------------------------------------------
  // Query string

  /** Appends the encoded query to `url`, separated by '?', unless the
      encoding is empty; an encoding failure becomes a `Yaup` error. */
  function AddQueryParameters<Q>(url: string, query: Q, encodeQuery: Q -> Result<string, QueryError>)
    : (r: Result<string, Error>)
    ensures r.Failure? <==> encodeQuery(query).Failure?
    ensures r.Failure? ==> r.error == Yaup(encodeQuery(query).error)
    ensures r.Success? ==> url <= r.value
    // after the URL comes exactly one '?' and the encoding, whatever the URL holds
    ensures r.Success? && encodeQuery(query).value != [] ==> r.value[|url|..] == "?" + encodeQuery(query).value
    ensures r.Success? ==> (r.value == url <==> encodeQuery(query).value == [])
  {
    match encodeQuery(query)
    case Failure(e) => Failure(Yaup(e))
    case Success(encoded) =>
      if encoded == [] then Success(url) else Success(url + "?" + encoded)
  }

  /** Reading the request target back: when `url` has no query of its own,
      splitting at the first '?' gives back `url` and exactly the encoded
      query, and no query at all when the encoding was empty. */
  lemma QueryRoundTrip<Q>(url: string, query: Q, encodeQuery: Q -> Result<string, QueryError>)
    requires '?' !in url
    requires encodeQuery(query).Success?
    ensures var encoded := encodeQuery(query).value;
      Text.SplitAtFirst(AddQueryParameters(url, query, encodeQuery).value, '?')
        == (url, if encoded == [] then None else Some(encoded))
  {
    var encoded := encodeQuery(query).value;
    if encoded == [] {
      Text.SplitAtFirstAbsent(url, '?');
    } else {
      Text.SplitAtFirstJoined(url, '?', encoded);
    }
  }

  /** A non-empty query adds exactly one '?' besides those inside `url` and
      the encoding; an empty one adds nothing. */
  lemma AddsOneSeparator<Q>(url: string, query: Q, encodeQuery: Q -> Result<string, QueryError>)
    requires encodeQuery(query).Success?
    ensures var encoded := encodeQuery(query).value;
      Text.Count('?', AddQueryParameters(url, query, encodeQuery).value)
        == Text.Count('?', url) + Text.Count('?', encoded) + (if encoded == [] then 0 else 1)
  {
    var encoded := encodeQuery(query).value;
    if encoded == [] {
      assert AddQueryParameters(url, query, encodeQuery).value == url;
      assert Text.Count('?', encoded) == 0;
    } else {
      Text.CountConcat('?', url, "?");
      Text.CountConcat('?', url + "?", encoded);
    }
  }

  // ---------------------------------------------------------------------
  // Response body and response classification

  /** An empty response body is read as the JSON text `null`, so that
      endpoints answering with no content decode as a unit output. */
  function NormalizeBody(body: string): (r: string)
    ensures r != []
    ensures body != [] ==> r == body
    ensures body == [] ==> r == "null"
  {
    if body == [] then "null" else body
  }

  lemma NormalizeBodyIdempotent(body: string)
    ensures NormalizeBody(NormalizeBody(body)) == NormalizeBody(body)
  {
  }

  /** Classifies a response. On the expected status the body must decode as
      the output; on any other status the body is tried as a server error,
      and failing that the status decides between a communication error
      (400 and above) and a parse error. */
  function ParseResponse<O>(
    statusCode: u16,
    expectedStatusCode: u16,
    body: string,
    url: string,
    decodeOutput: string -> Result<O, JsonError>,
    decodeApiError: string -> Result<MeilisearchError, JsonError>)
    : (r: Result<O, Error>)
    // success exactly when the status matches and the body decodes as the output
    ensures r.Success? <==> statusCode == expectedStatusCode && decodeOutput(body).Success?
    ensures r.Success? ==> r.value == decodeOutput(body).value
    // on the expected status a decoding failure is a parse error, whatever the status
    ensures (statusCode == expectedStatusCode && decodeOutput(body).Failure?)
              ==> r == Failure(ParseError(decodeOutput(body).error))
    // a server error is reported exactly when the status differs and the body is one
    ensures (r.Failure? && r.error.Meilisearch?)
              <==> statusCode != expectedStatusCode && decodeApiError(body).Success?
    ensures r.Failure? && r.error.Meilisearch? ==> r.error.apiError == decodeApiError(body).value
    // a communication error exactly when the status differs, the body is no
    // server error and the status is 400 or above
    ensures (r.Failure? && r.error.MeilisearchCommunication?)
              <==> statusCode != expectedStatusCode && decodeApiError(body).Failure? && statusCode >= 400
    ensures (r.Failure? && r.error.MeilisearchCommunication?)
              ==> r.error.communication == MeilisearchCommunicationError(statusCode, None, url)
    // below 400 the failure to decode the server error is what is reported
    ensures (statusCode != expectedStatusCode && decodeApiError(body).Failure? && statusCode < 400)
              ==> r == Failure(ParseError(decodeApiError(body).error))
    ensures !(r.Failure? && r.error.Yaup?)
  {
    if statusCode == expectedStatusCode then
      match decodeOutput(body)
      case Success(output) => Success(output)
      case Failure(e) => Failure(ParseError(e))
    else
      match decodeApiError(body)
      case Success(apiError) => Failure(Meilisearch(apiError))
      case Failure(e) =>
        if statusCode >= 400 then
          Failure(MeilisearchCommunication(MeilisearchCommunicationError(statusCode, None, url)))
        else
          Failure(ParseError(e))
  }

  /** On the expected status the server-error decoder is never consulted;
      on any other status the output decoder is never consulted. */
  lemma ParseResponseConsultsOneDecoder<O>(
    statusCode: u16,
    expectedStatusCode: u16,
    body: string,
    url: string,
    decodeOutput: string -> Result<O, JsonError>,
    otherOutput: string -> Result<O, JsonError>,
    decodeApiError: string -> Result<MeilisearchError, JsonError>,
    otherApiError: string -> Result<MeilisearchError, JsonError>)
    ensures statusCode == expectedStatusCode ==>
      ParseResponse(statusCode, expectedStatusCode, body, url, decodeOutput, decodeApiError)
        == ParseResponse(statusCode, expectedStatusCode, body, url, decodeOutput, otherApiError)
    ensures statusCode != expectedStatusCode ==>
      ParseResponse(statusCode, expectedStatusCode, body, url, decodeOutput, decodeApiError)
        == ParseResponse(statusCode, expectedStatusCode, body, url, otherOutput, decodeApiError)
  {
  }

  // ---------------------------------------------------------------------
  // Request construction and the whole exchange

  /** The request the backend is asked to send for `call`: the query is
      appended to `url` first; body-bearing variants carry the encoded body
      under `contentType`, the others neither a body nor a Content-Type. */
  function BuildRequest<Q, B, C>(
    url: string,
    call: Method<Q, B>,
    contentType: string,
    encodeBody: B -> C,
    encodeQuery: Q -> Result<string, QueryError>)
    : (r: Result<RequestShape<C>, Error>)
    ensures r.Failure? <==> encodeQuery(call.query).Failure?
    ensures r.Failure? ==> r.error == Yaup(encodeQuery(call.query).error)
    ensures r.Success? ==> r.value.url == AddQueryParameters(url, call.query, encodeQuery).value
    ensures r.Success? ==> r.value.verb == call.HttpVerb()
    ensures r.Success? ==> (r.value.body.Some? <==> call.HasBody())
    ensures r.Success? ==> (r.value.contentType.Some? <==> call.HasBody())
    ensures (r.Success? && call.HasBody())
              ==> r.value.contentType == Some(contentType) && r.value.body == Some(encodeBody(call.body))
  {
    match AddQueryParameters(url, call.query, encodeQuery)
    case Failure(e) => Failure(e)
    case Success(target) =>
      match call
      case Get(_) => Success(RequestShape(GET, target, None, None))
      case Delete(_) => Success(RequestShape(DELETE, target, None, None))
      case Post(_, body) => Success(RequestShape(POST, target, Some(contentType), Some(encodeBody(body))))
      case Patch(_, body) => Success(RequestShape(PATCH, target, Some(contentType), Some(encodeBody(body))))
      case Put(_, body) => Success(RequestShape(PUT, target, Some(contentType), Some(encodeBody(body))))
  }

  /** Builds the request, sends it, normalises the body and classifies the
      response; the URL given to the classifier is the caller's `url`, not
      the one with the query appended. */
  function Exchange<Q, B, C, O>(
    url: string,
    call: Method<Q, B>,
    contentType: string,
    encodeBody: B -> C,
    expectedStatusCode: u16,
    encodeQuery: Q -> Result<string, QueryError>,
    send: RequestShape<C> -> Response,
    decodeOutput: string -> Result<O, JsonError>,
    decodeApiError: string -> Result<MeilisearchError, JsonError>)
    : (r: Result<O, Error>)
    // the only query-encoding failure is the caller's query failing to encode
    ensures (r.Failure? && r.error.Yaup?) <==> encodeQuery(call.query).Failure?
    ensures (r.Failure? && r.error.Yaup?) ==> r.error.queryError == encodeQuery(call.query).error
    // success only when the answer to the built request has the expected
    // status and its normalised body decodes as the output
    ensures r.Success? ==>
      var response := send(BuildRequest(url, call, contentType, encodeBody, encodeQuery).value);
      && response.status == expectedStatusCode
      && decodeOutput(NormalizeBody(response.text)) == Success(r.value)
  {
    match BuildRequest(url, call, contentType, encodeBody, encodeQuery)
    case Failure(e) => Failure(e)
    case Success(request) =>
      var response := send(request);
      ParseResponse(response.status, expectedStatusCode, NormalizeBody(response.text), url,
                    decodeOutput, decodeApiError)
  }

  /** The buffered request: bodies are serialised to JSON text and sent as
      `application/json`. A query that cannot be encoded fails the call
      before anything is sent; otherwise the outcome is the classification
      of the backend's answer to exactly one request, with the caller's URL. */
  function BufferedRequest<Q, B, O>(
    url: string,
    call: Method<Q, B>,
    expectedStatusCode: u16,
    encodeQuery: Q -> Result<string, QueryError>,
    serializeBody: B -> string,
    send: RequestShape<string> -> Response,
    decodeOutput: string -> Result<O, JsonError>,
    decodeApiError: string -> Result<MeilisearchError, JsonError>)
    : (r: Result<O, Error>)
    ensures encodeQuery(call.query).Failure? ==> r == Failure(Yaup(encodeQuery(call.query).error))
    ensures encodeQuery(call.query).Success? ==>
      var target := AddQueryParameters(url, call.query, encodeQuery).value;
      var sent := if call.HasBody()
        then RequestShape(call.HttpVerb(), target, Some(JsonContentType), Some(serializeBody(call.body)))
        else RequestShape(call.HttpVerb(), target, None, None);
      r == ParseResponse(send(sent).status, expectedStatusCode, NormalizeBody(send(sent).text), url,
                         decodeOutput, decodeApiError)
  {
    Exchange(url, call, JsonContentType, serializeBody, expectedStatusCode,
             encodeQuery, send, decodeOutput, decodeApiError)
  }

  /** The streaming request: the caller's byte source is attached as it is,
      under the caller's Content-Type; otherwise as the buffered request. */
  function StreamRequest<Q, B, O>(
    url: string,
    call: Method<Q, B>,
    contentType: string,
    expectedStatusCode: u16,
    encodeQuery: Q -> Result<string, QueryError>,
    send: RequestShape<B> -> Response,
    decodeOutput: string -> Result<O, JsonError>,
    decodeApiError: string -> Result<MeilisearchError, JsonError>)
    : (r: Result<O, Error>)
    ensures encodeQuery(call.query).Failure? ==> r == Failure(Yaup(encodeQuery(call.query).error))
    ensures encodeQuery(call.query).Success? ==>
      var target := AddQueryParameters(url, call.query, encodeQuery).value;
      var sent := if call.HasBody()
        then RequestShape(call.HttpVerb(), target, Some(contentType), Some(call.body))
        else RequestShape(call.HttpVerb(), target, None, None);
      r == ParseResponse(send(sent).status, expectedStatusCode, NormalizeBody(send(sent).text), url,
                         decodeOutput, decodeApiError)
  {
    Exchange(url, call, contentType, (b: B) => b, expectedStatusCode,
             encodeQuery, send, decodeOutput, decodeApiError)
  }

  // ---------------------------------------------------------------------
  // Properties of the whole exchange

  /** An empty answer on the expected status is decoded as the JSON text
      `null`: a unit output succeeds. */
  lemma EmptyBodyDecodesAsNull<Q, B, C, O>(
    url: string,
    call: Method<Q, B>,
    contentType: string,
    encodeBody: B -> C,
    expectedStatusCode: u16,
    encodeQuery: Q -> Result<string, QueryError>,
    send: RequestShape<C> -> Response,
    decodeOutput: string -> Result<O, JsonError>,
    decodeApiError: string -> Result<MeilisearchError, JsonError>)
    requires BuildRequest(url, call, contentType, encodeBody, encodeQuery).Success?
    requires send(BuildRequest(url, call, contentType, encodeBody, encodeQuery).value)
               == Response(expectedStatusCode, [])
    requires decodeOutput("null").Success?
    ensures Exchange(url, call, contentType, encodeBody, expectedStatusCode, encodeQuery, send, decodeOutput, decodeApiError)
              == Success(decodeOutput("null").value)
  {
  }

  /** A communication error names the caller's URL, without the query
      string, and the status the backend answered with. */
  lemma CommunicationErrorNamesCallerUrl<Q, B, C, O>(
    url: string,
    call: Method<Q, B>,
    contentType: string,
    encodeBody: B -> C,
    expectedStatusCode: u16,
    encodeQuery: Q -> Result<string, QueryError>,
    send: RequestShape<C> -> Response,
    decodeOutput: string -> Result<O, JsonError>,
    decodeApiError: string -> Result<MeilisearchError, JsonError>)
    requires var r := Exchange(url, call, contentType, encodeBody, expectedStatusCode,
                               encodeQuery, send, decodeOutput, decodeApiError);
      r.Failure? && r.error.MeilisearchCommunication?
    ensures BuildRequest(url, call, contentType, encodeBody, encodeQuery).Success?
    ensures var request := BuildRequest(url, call, contentType, encodeBody, encodeQuery).value;
      var r := Exchange(url, call, contentType, encodeBody, expectedStatusCode,
                        encodeQuery, send, decodeOutput, decodeApiError);
      && r.error.communication.url == url
      && r.error.communication.statusCode == send(request).status
      && r.error.communication.message == None
      && send(request).status >= 400
  {
  }
}
