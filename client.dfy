/**
 * `NetNeuronClient`: assembling a `URLRequest` from a `Resource`, and turning the
 * one transport round trip into a decoded value or a thrown error.
 *
 * URL parsing, the `URLSession` transport and the JSON decoder are outside the
 * model. A request receives them as the functions of a `Collaborators` record, so
 * a result that does not depend on one of them shows that it was never consulted.
 */
module Client {
  import opened Wrappers
  import opened Foundation
  import opened Methods
  import opened Errors
  import opened Configuration
  import opened Resources

  /** The outside collaborators of one request for success type `T` and error-body type `U`. */
  datatype Collaborators<T, U> = Collaborators(
    parsesAsURL: string -> bool,                 // whether `URL(string:)` accepts the text
    session: URLRequest -> Outcome<Exchange, U>, // one `URLSession.data(for:)` round trip
    decodeResponse: Data -> Outcome<T, U>,       // `decoder.decode(T.self, from:)`
    decodeError: Data -> Outcome<U, U>,          // `decoder.decode(U.self, from:)`
    responseTypeName: string)                    // `String(describing: T.self)`

  // ---------------------------------------------------------------------------
  // Request assembly
  // ---------------------------------------------------------------------------

  /**
   * `configuration.headers?.merging(additionalHeaders, uniquingKeysWith: { $1 })`:
   * without default headers the result is nil and the additional headers are lost;
   * otherwise both key sets, with the additional value winning on a shared key.
   */
  function MergeHeaders(defaults: Option<HTTPHeaders>, additional: HTTPHeaders): (r: Option<HTTPHeaders>)
    ensures r.None? <==> defaults.None?
    ensures r.Some? ==> r.value.Keys == defaults.value.Keys + additional.Keys
    ensures r.Some? ==> forall k :: k in r.value ==>
              r.value[k] == if k in additional then additional[k] else defaults.value[k]
  {
    match defaults
    case None => None
    case Some(headers) => Some(headers + additional)
  }

  /** Merging in no additional headers keeps the defaults as they are, absent or not. */
  lemma MergeNoHeaders(defaults: Option<HTTPHeaders>)
    ensures MergeHeaders(defaults, map[]) == defaults
  {
    if defaults.Some? {
      assert defaults.value + map[] == defaults.value;
    }
  }

  /** `{A: 1, B: 2}` merged with `{B: 3, C: 4}` is `{A: 1, B: 3, C: 4}`. */
  lemma MergeHeadersExample()
    ensures MergeHeaders(Some(map["A" := "1", "B" := "2"]), map["B" := "3", "C" := "4"])
            == Some(map["A" := "1", "B" := "3", "C" := "4"])
  {
    var merged := MergeHeaders(Some(map["A" := "1", "B" := "2"]), map["B" := "3", "C" := "4"]).value;
    var expected := map["A" := "1", "B" := "3", "C" := "4"];
    assert merged.Keys == expected.Keys;
    assert merged["A"] == "1" && merged["B"] == "3" && merged["C"] == "4";
    assert forall k :: k in merged ==> merged[k] == expected[k];
    assert merged == expected;
  }

  /** The text handed to `URL(string:)`: the host URL followed directly by the endpoint. */
  function FullURLString(configuration: ClientConfiguration, resource: Resource): (s: string)
    ensures |s| == |configuration.hostURL| + |resource.endpoint|
    ensures s[..|configuration.hostURL|] == configuration.hostURL && s[|configuration.hostURL|..] == resource.endpoint
  {
    configuration.hostURL + resource.endpoint
  }

  /**
   * The request that assembly yields once the URL text parses: that text with the
   * resource's query items (if any) appended, a method string that identifies the
   * resource's method, the merged headers, and the body as given.
   */
  function PreparedRequest(configuration: ClientConfiguration, resource: Resource, body: Option<Data>,
                           additionalHeaders: HTTPHeaders): (r: URLRequest)
    ensures r.url.text == FullURLString(configuration, resource)
    ensures r.url.appendedQueryItems == if resource.queryItems.Some? then resource.queryItems.value else []
    ensures FromRawValue(r.httpMethod) == Some(resource.httpMethod)
    ensures r.allHTTPHeaderFields.None? <==> configuration.headers.None?
    ensures r.allHTTPHeaderFields == MergeHeaders(configuration.headers, additionalHeaders)
    ensures r.httpBody == body
  {
    RawValueRoundTrip(resource.httpMethod);
    URLRequest(URL(FullURLString(configuration, resource), resource.queryItems.GetOr([])),
               resource.httpMethod.RawValue(),
               MergeHeaders(configuration.headers, additionalHeaders),
               body)
  }

  // ---------------------------------------------------------------------------
  // Status dispatch
  // ---------------------------------------------------------------------------

  /** The arms of the `switch` on the status code. */
  datatype StatusClass = SuccessRange | Status401 | Status404 | ApiErrorRange | OtherStatus

  /** Which arm a status code takes; every integer takes exactly one, and each arm is the range stated. */
  function ClassifyStatus(statusCode: int): (c: StatusClass)
    ensures c == SuccessRange <==> 200 <= statusCode <= 399
    ensures c == Status401 <==> statusCode == 401
    ensures c == Status404 <==> statusCode == 404
    ensures c == ApiErrorRange <==> 400 <= statusCode <= 599 && statusCode != 401 && statusCode != 404
    ensures c == OtherStatus <==> statusCode < 200 || 599 < statusCode
  {
    if 200 <= statusCode <= 399 then SuccessRange
    else if statusCode == 401 then Status401
    else if statusCode == 404 then Status404
    else if statusCode == 400 || statusCode == 402 || statusCode == 403 || 405 <= statusCode <= 599 then ApiErrorRange
    else OtherStatus
  }

  /** The message of a `parsingError`, naming the type that failed to decode. */
  function ParsingMessage(typeName: string): (m: string)
    ensures |m| > |typeName| && m[|m| - |typeName|..] == typeName
  {
    "\U{26A0}\U{FE0F} Failed parsing object: " + typeName
  }

  /** What the `switch` on an HTTP response's status code returns or throws. */
  function HandleHTTPResponse<T, U>(data: Data, response: HTTPURLResponse, env: Collaborators<T, U>): (r: Outcome<T, U>)
    ensures r.Returned? <==> 200 <= response.statusCode <= 399 && env.decodeResponse(data).Returned?
    ensures r.Returned? ==> r.value == env.decodeResponse(data).value
    ensures 200 <= response.statusCode <= 399 && env.decodeResponse(data).Threw? ==>
              r == Threw(NetNeuron(ParsingError(ParsingMessage(env.responseTypeName), env.decodeResponse(data).error)))
    ensures response.statusCode == 401 ==> r == Threw(NetNeuron(Unauthorized))
    ensures response.statusCode == 404 ==> r == Threw(NetNeuron(NotFound))
    ensures ClassifyStatus(response.statusCode) == ApiErrorRange && env.decodeError(data).Returned? ==>
              r == Threw(NetNeuron(ApiErrorWithBody(response.statusCode, env.decodeError(data).value)))
    ensures ClassifyStatus(response.statusCode) == ApiErrorRange && env.decodeError(data).Threw? ==>
              r == Threw(NetNeuron(ApiErrorWithResponse(response.statusCode, response)))
    ensures response.statusCode < 200 || 599 < response.statusCode ==> r == Threw(URLError(Unknown))
  {
    match ClassifyStatus(response.statusCode)
    case SuccessRange =>
      (match env.decodeResponse(data)
       case Returned(decodedResponse) => Returned(decodedResponse)
       case Threw(error) => Threw(NetNeuron(ParsingError(ParsingMessage(env.responseTypeName), error))))
    case Status401 => Threw(NetNeuron(Unauthorized))
    case Status404 => Threw(NetNeuron(NotFound))
    case ApiErrorRange =>
      (match env.decodeError(data)
       case Returned(apiError) => Threw(NetNeuron(ApiErrorWithBody(response.statusCode, apiError)))
       case Threw(_) => Threw(NetNeuron(ApiErrorWithResponse(response.statusCode, response))))
    case OtherStatus => Threw(URLError(Unknown))
  }

  /** 401, 404 and the statuses outside 200-599 are decided by the status alone: neither body nor decoder is consulted. */
  lemma StatusAloneDecides<T, U>(data1: Data, data2: Data, response: HTTPURLResponse,
                                 env1: Collaborators<T, U>, env2: Collaborators<T, U>)
    requires ClassifyStatus(response.statusCode) in {Status401, Status404, OtherStatus}
    ensures HandleHTTPResponse(data1, response, env1) == HandleHTTPResponse(data2, response, env2)
  {
  }

  /** A status in the API-error arm always yields an `apiError` carrying that very status code. */
  lemma ApiErrorKeepsStatus<T, U>(data: Data, response: HTTPURLResponse, env: Collaborators<T, U>)
    requires ClassifyStatus(response.statusCode) == ApiErrorRange
    ensures var r := HandleHTTPResponse(data, response, env);
            r.Threw? && r.error.NetNeuron?
            && (r.error.error.ApiErrorWithBody? <==> env.decodeError(data).Returned?)
            && (r.error.error.ApiErrorWithBody? || r.error.error.ApiErrorWithResponse?)
            && r.error.error.statusCode == response.statusCode
  {
  }

  // ---------------------------------------------------------------------------
  // Error translation in the `catch`
  // ---------------------------------------------------------------------------

  /** A `URLError` that says the device is offline or lost its connection. */
  predicate IsConnectivityLoss<U>(e: Error<U>)
  {
    e.URLError? && (e.code == NotConnectedToInternet || e.code == NetworkConnectionLost)
  }

  /** The `catch`: connectivity losses become `noInternetConnection`, every other error is rethrown as it is. */
  function TranslateConnectivity<U>(e: Error<U>): (r: Error<U>)
    ensures IsConnectivityLoss(e) ==> r == NetNeuron(NoInternetConnection)
    ensures !IsConnectivityLoss(e) ==> r == e
  {
    match e
    case URLError(code) =>
      if code == NotConnectedToInternet || code == NetworkConnectionLost then NetNeuron(NoInternetConnection) else e
    case _ => e
  }

  /** Translating an already translated error changes nothing more. */
  lemma TranslateConnectivityIdempotent<U>(e: Error<U>)
    ensures TranslateConnectivity(TranslateConnectivity(e)) == TranslateConnectivity(e)
  {
  }

  /** The `do`/`catch` around the transport call: a returned value passes, a thrown error is translated. */
  function Caught<V, U>(attempt: Outcome<V, U>): (r: Outcome<V, U>)
    ensures r.Returned? <==> attempt.Returned?
    ensures r.Returned? ==> r.value == attempt.value
    ensures attempt.Threw? && !IsConnectivityLoss(attempt.error) ==> r == attempt
    ensures attempt.Threw? && IsConnectivityLoss(attempt.error) ==> r == Threw(NetNeuron(NoInternetConnection))
  {
    match attempt
    case Returned(v) => Returned(v)
    case Threw(e) => Threw(TranslateConnectivity(e))
  }

  /** The body of the `do`: the transport's own failure, the non-HTTP guard, then the status dispatch. */
  function Exchanged<T, U>(transport: Outcome<Exchange, U>, env: Collaborators<T, U>): (r: Outcome<T, U>)
    ensures transport.Threw? ==> r == Threw(transport.error)
    ensures transport.Returned? && transport.value.response.NonHTTP? ==> r == Threw(URLError(BadServerResponse))
    ensures transport.Returned? && transport.value.response.HTTP? ==>
              r == HandleHTTPResponse(transport.value.data, transport.value.response.http, env)
  {
    match transport
    case Threw(e) => Threw(e)
    case Returned(Exchange(data, response)) =>
      match response
      case NonHTTP => Threw(URLError(BadServerResponse))
      case HTTP(httpResponse) => HandleHTTPResponse(data, httpResponse, env)
  }

  /** What a request yields for a given transport outcome, once the `catch` has run. */
  function Received<T, U>(transport: Outcome<Exchange, U>, env: Collaborators<T, U>): (r: Outcome<T, U>)
    ensures r.Returned? ==> transport.Returned? && transport.value.response.HTTP?
                            && 200 <= transport.value.response.http.statusCode <= 399
                            && env.decodeResponse(transport.value.data) == Returned(r.value)
    ensures transport.Threw? ==> r == Threw(TranslateConnectivity(transport.error))
  {
    Caught(Exchanged(transport, env))
  }

  /** The status dispatch never throws an error the `catch` would change. */
  lemma CatchKeepsDispatchErrors<T, U>(data: Data, response: HTTPURLResponse, env: Collaborators<T, U>)
    ensures Caught(HandleHTTPResponse(data, response, env)) == HandleHTTPResponse(data, response, env)
  {
  }

  /** A request returns a value exactly when an HTTP response with a 200-399 status decodes to that value. */
  lemma ReceivedReturnsExactly<T, U>(transport: Outcome<Exchange, U>, env: Collaborators<T, U>, v: T)
    ensures Received(transport, env) == Returned(v) <==>
              transport.Returned? && transport.value.response.HTTP?
              && 200 <= transport.value.response.http.statusCode <= 399
              && env.decodeResponse(transport.value.data) == Returned(v)
  {
    if transport.Returned? && transport.value.response.HTTP? {
      CatchKeepsDispatchErrors(transport.value.data, transport.value.response.http, env);
    }
  }

  /** `noInternetConnection` comes only from the transport: from a connectivity loss, or passed through as it was thrown. */
  lemma NoInternetOnlyFromTransport<T, U>(transport: Outcome<Exchange, U>, env: Collaborators<T, U>)
    ensures Received(transport, env) == Threw(NetNeuron(NoInternetConnection)) <==>
              transport.Threw? && (IsConnectivityLoss(transport.error) || transport.error == NetNeuron(NoInternetConnection))
  {
    if transport.Returned? && transport.value.response.HTTP? {
      CatchKeepsDispatchErrors(transport.value.data, transport.value.response.http, env);
    }
  }

  /** An answer that is not an HTTP response ends in `URLError(.badServerResponse)`, untouched by the `catch`. */
  lemma NonHTTPResponseIsBadServerResponse<T, U>(data: Data, env: Collaborators<T, U>)
    ensures Received(Returned(Exchange(data, NonHTTP)), env) == Threw(URLError(BadServerResponse))
  {
  }

  /** Every transport failure other than a connectivity loss reaches the caller unchanged. */
  lemma TransportFailurePassesThrough<T, U>(e: Error<U>, env: Collaborators<T, U>)
    requires !IsConnectivityLoss(e)
    ensures Received(Threw(e), env) == Threw(e)
  {
  }

  // ---------------------------------------------------------------------------
  // The client
  // ---------------------------------------------------------------------------

  /** A client owns one configuration and nothing it ever changes. */
  class NetNeuronClient {
    const configuration: ClientConfiguration

    constructor (configuration: ClientConfiguration)
      ensures this.configuration == configuration
    {
      this.configuration := configuration;
    }

    /**
     * The assembly steps before the `do`: the URL text must parse, or `URLError(.badURL)`
     * is thrown; otherwise the resource's query items, its method's raw value, the
     * merged headers and the body (when there is one) go into the request.
     */
    method MakeRequest<U>(resource: Resource, body: Option<Data>, additionalHeaders: HTTPHeaders,
                          parsesAsURL: string -> bool) returns (r: Outcome<URLRequest, U>)
      requires body.Some? && parsesAsURL(FullURLString(configuration, resource)) ==> resource.httpMethod != GET
      ensures r.Threw? <==> !parsesAsURL(FullURLString(configuration, resource))
      ensures r.Threw? ==> r.error == URLError(BadURL)
      ensures r.Returned? ==> r.value == PreparedRequest(configuration, resource, body, additionalHeaders)
    {
      var fullURLString := FullURLString(configuration, resource);
      if !parsesAsURL(fullURLString) {
        return Threw(URLError(BadURL));
      }
      var url := URL(fullURLString, []);
      if resource.queryItems.Some? {
        url := url.Appending(resource.queryItems.value);
      }
      var request := NewURLRequest(url);
      request := request.(httpMethod := resource.httpMethod.RawValue());
      request := request.(allHTTPHeaderFields := MergeHeaders(configuration.headers, additionalHeaders));
      if body.Some? {
        request := request.(httpBody := body);
      }
      return Returned(request);
    }

    /**
     * The private `request(resource:body:...)`: an unparsable URL throws
     * `URLError(.badURL)` before the transport is called and outside the `catch`;
     * otherwise the one round trip's outcome is dispatched and translated.
     */
    method Request<T, U>(resource: Resource, body: Option<Data>, additionalHeaders: HTTPHeaders,
                         env: Collaborators<T, U>) returns (r: Outcome<T, U>)
      requires body.Some? && env.parsesAsURL(FullURLString(configuration, resource)) ==> resource.httpMethod != GET
      ensures !env.parsesAsURL(FullURLString(configuration, resource)) ==> r == Threw(URLError(BadURL))
      ensures env.parsesAsURL(FullURLString(configuration, resource)) ==>
                r == Received(env.session(PreparedRequest(configuration, resource, body, additionalHeaders)), env)
    {
      var prepared := MakeRequest<U>(resource, body, additionalHeaders, env.parsesAsURL);
      if prepared.Threw? {
        return Threw(prepared.error);
      }
      var request := prepared.value;
      var transport := env.session(request);
      r := Caught(Exchanged(transport, env));
    }

    /** The public overload without a body. */
    method RequestWithoutBody<T, U>(resource: Resource, env: Collaborators<T, U>,
                                    additionalHeaders: HTTPHeaders := map[]) returns (r: Outcome<T, U>)
      ensures !env.parsesAsURL(FullURLString(configuration, resource)) ==> r == Threw(URLError(BadURL))
      ensures env.parsesAsURL(FullURLString(configuration, resource)) ==>
                r == Received(env.session(PreparedRequest(configuration, resource, None, additionalHeaders)), env)
    {
      r := Request(resource, None, additionalHeaders, env);
    }

    /**
     * The public overload with a body: an encoder failure is rethrown as it is;
     * otherwise the encoded bytes become the request body.
     */
    method RequestWithBody<B, T, U>(resource: Resource, body: B, encode: B -> Outcome<Data, U>,
                                    env: Collaborators<T, U>, additionalHeaders: HTTPHeaders := map[])
      returns (r: Outcome<T, U>)
      requires encode(body).Returned? && env.parsesAsURL(FullURLString(configuration, resource)) ==>
                 resource.httpMethod != GET
      ensures encode(body).Threw? ==> r == Threw(encode(body).error)
      ensures encode(body).Returned? && !env.parsesAsURL(FullURLString(configuration, resource)) ==>
                r == Threw(URLError(BadURL))
      ensures encode(body).Returned? && env.parsesAsURL(FullURLString(configuration, resource)) ==>
                r == Received(env.session(PreparedRequest(configuration, resource, Some(encode(body).value),
                                                          additionalHeaders)), env)
    {
      var encoded := encode(body);
      if encoded.Threw? {
        return Threw(encoded.error);
      }
      var data := encoded.value;
      r := Request(resource, Some(data), additionalHeaders, env);
    }
  }
}
