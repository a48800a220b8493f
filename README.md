# NetNeuron request core, modelled in Dafny

NetNeuron is a small Swift HTTP client. This project models its two pieces of
decision logic and proves their properties:

- **`Resource`**, the immutable endpoint descriptor (method, endpoint, optional
  query items), and its two derivations: `appending(_ route:)`, which strips every
  leading and trailing `/` from both the endpoint and the route and joins them with
  one `/`, and `appending(parameters:)`, which appends query items to the existing
  list or to an empty one.
- **`NetNeuronClient`**, which assembles a `URLRequest` (URL text = host URL +
  endpoint, query items, method, merged headers, optional body), makes one
  transport round trip, dispatches on the status code and translates connectivity
  failures into `noInternetConnection`.

Files and modules: `wrappers.dfy` (`Option`), `foundation.dfy` (the Foundation
value types: `URL`, `URLQueryItem`, `URLRequest`, responses, `URLError` codes),
`http_method.dfy` (`HTTPMethod`), `errors.dfy` (`NetNeuronError`, a thrown
`Error`, and `Outcome` = returns or throws), `configuration.dfy`
(`ClientConfiguration`), `resource.dfy` (`Resource` and trimming) and `client.dfy`
(header merge, status dispatch, error translation and the `NetNeuronClient` class).

`Resource` is a datatype, so a derivation cannot change the value it is called
on: it always builds a new one. Its constructor is the initializer and stores its
three arguments as given, with `queryItems` defaulting to none. The client is a
class whose only field is a `const` configuration. Its methods change no state.
Request assembly is written step by step, as in the source, and each method
states the request or outcome it produces. The status switch and the `catch` are
pure functions with lemmas about them.

URL parsing, the `URLSession` transport and the JSON decoders are outside the
model. Each request receives them as the functions of a `Collaborators` record
(`parsesAsURL`, `session`, `decodeResponse`, `decodeError`, plus the success
type's name). The encoder is passed as a function to `RequestWithBody`. When a
result does not depend on one of these functions, that function was never
consulted. This is how the model states "no decode for 401/404" and "a bad URL
throws before any transport call".

Three behaviours of the code that a reader might expect to be otherwise; the model keeps them as written:
- a status outside 200-599 throws `URLError(.unknown)`, not a dedicated
  unknown-status error (`Sources/NetNeuron/NetNeuronClient.swift:150-152`);
- nothing is ever wrapped in `unexpectedError`; errors the `catch` does not
  recognise are rethrown as they are;
- when the configuration has no default headers, the merged header map is nil
  and the additional headers are dropped (`Sources/NetNeuron/NetNeuronClient.swift:97`).
  The code does not start from an empty map.

## Model

| member | source | states |
|---|---|---|
| Methods.HTTPMethod.RawValue | Sources/NetNeuron/HTTPMethod.swift:11-31 | the raw value put in the request is a non-empty string of capital letters |
| Methods.FromRawValue | Sources/NetNeuron/HTTPMethod.swift:11-31 | `HTTPMethod(rawValue:)` returns a method only when that method's raw value is the given string |
| Methods.RawValueRoundTrip | Sources/NetNeuron/HTTPMethod.swift:11-31 | every method is recovered from its raw value |
| Methods.RawValueInjective | Sources/NetNeuron/HTTPMethod.swift:11-31 | two methods have the same raw value exactly when they are the same method |
| Resources.TrimLeadingSlashes | Sources/NetNeuron/NetNeuronResource.swift:39-40 | what the leading trim keeps is no longer than the input and does not start with `/` |
| Resources.TrimTrailingSlashes | Sources/NetNeuron/NetNeuronResource.swift:39-40 | what the trailing trim keeps is no longer than the input, does not end with `/` and starts with the input's first character |
| Resources.TrimLeadingKeepsSuffix | Sources/NetNeuron/NetNeuronResource.swift:39-40 | the leading trim keeps a suffix of the input, and what it drops is all slashes |
| Resources.TrimTrailingKeepsPrefix | Sources/NetNeuron/NetNeuronResource.swift:39-40 | the trailing trim keeps a prefix of the input, and what it drops is all slashes |
| Resources.TrimSlashes | Sources/NetNeuron/NetNeuronResource.swift:39-40 | the trimmed string neither starts nor ends with `/` and is no longer than the input |
| Resources.TrimSlashesIsSlice | Sources/NetNeuron/NetNeuronResource.swift:39-40 | the trimmed string is a contiguous slice of the input with only slashes before and after it |
| Resources.TrimLeadingOfPadded | Sources/NetNeuron/NetNeuronResource.swift:39-40 | slashes in front of a string not starting with `/` are exactly what the leading trim drops |
| Resources.TrimTrailingOfPadded | Sources/NetNeuron/NetNeuronResource.swift:39-40 | slashes behind a string not ending with `/` are exactly what the trailing trim drops |
| Resources.TrimSlashesOfPadded | Sources/NetNeuron/NetNeuronResource.swift:39-40 | trimming slashes + t + slashes gives t for any t that neither starts nor ends with `/`, so the trimmed result is unique |
| Resources.TrimSlashesOfTrimmed | Sources/NetNeuron/NetNeuronResource.swift:39-40 | a string that neither starts nor ends with `/` is left as it is |
| Resources.TrimSlashesIdempotent | Sources/NetNeuron/NetNeuronResource.swift:39-40 | trimming twice equals trimming once |
| Resources.TrimLeadingAbsorbsPadding | Sources/NetNeuron/NetNeuronResource.swift:39-40 | extra leading slashes do not change the leading trim |
| Resources.TrimTrailingAbsorbsPadding | Sources/NetNeuron/NetNeuronResource.swift:39-40 | extra trailing slashes do not change the trailing trim |
| Resources.TrimSlashesAbsorbsPadding | Sources/NetNeuron/NetNeuronResource.swift:39-40 | extra slashes on either side do not change the trimmed result |
| Resources.Resource.Appending | Sources/NetNeuron/NetNeuronResource.swift:38-44 | the new endpoint is trim(endpoint) + "/" + trim(route); method and query items are unchanged |
| Resources.AppendingTrimmed | Sources/NetNeuron/NetNeuronResource.swift:38-44 | for operands that are already trimmed, the new endpoint is endpoint + "/" + route |
| Resources.AppendingIgnoresSlashPadding | Sources/NetNeuron/NetNeuronResource.swift:39-42 | extra leading or trailing slashes on the endpoint or the route give the same derived resource, e.g. `appending("/x/")` equals `appending("x")` |
| Resources.AppendingJoinsWithOneSlash | Sources/NetNeuron/NetNeuronResource.swift:42 | the derived endpoint has one `/` where the parts meet, with no slash on either side of it |
| Resources.Resource.AppendingParameters | Sources/NetNeuron/NetNeuronResource.swift:47-52 | query items become present and are the old items (or none) followed by the new ones, in order, duplicates kept (the multiset is the sum); method and endpoint are unchanged |
| Resources.AppendingParametersTwice | Sources/NetNeuron/NetNeuronResource.swift:47-52 | appending two lists in turn equals appending their concatenation |
| Resources.AppendingNoParameters | Sources/NetNeuron/NetNeuronResource.swift:48-51 | appending an empty list leaves a resource unchanged exactly when it already had query items (a nil list becomes an empty one) |
| Resources.DerivationsCommute | Sources/NetNeuron/NetNeuronResource.swift:38-52 | appending a route and appending parameters can be done in either order |
| Client.MergeHeaders | Sources/NetNeuron/NetNeuronClient.swift:97 | the result is nil exactly when the default headers are nil; otherwise its keys are both key sets and a shared key takes the additional value |
| Client.MergeNoHeaders | Sources/NetNeuron/NetNeuronClient.swift:97 | merging the default (empty) additional headers leaves the configuration's headers as they are, nil included |
| Client.MergeHeadersExample | Sources/NetNeuron/NetNeuronClient.swift:97 | `{A: 1, B: 2}` merged with `{B: 3, C: 4}` is `{A: 1, B: 3, C: 4}` |
| Client.FullURLString | Sources/NetNeuron/NetNeuronClient.swift:76 | the URL text is the host URL followed directly by the endpoint, with nothing between them |
| Client.PreparedRequest | Sources/NetNeuron/NetNeuronClient.swift:76-103 | the assembled request carries the URL text with the resource's query items (none when absent), a method string from which the resource's method is recovered, the merged headers (nil exactly when the configuration has none) and the given body |
| Client.ParsingMessage | Sources/NetNeuron/NetNeuronClient.swift:129 | the `parsingError` message ends with the name of the type that failed to decode |
| Client.ClassifyStatus | Sources/NetNeuron/NetNeuronClient.swift:122-153 | every integer status falls in exactly one arm: 200-399, 401, 404, the rest of 400-599, or below 200 / above 599 |
| Client.HandleHTTPResponse | Sources/NetNeuron/NetNeuronClient.swift:122-153 | a value is returned exactly for a 200-399 status whose body decodes, and it is the decoded value; a failed decode throws `parsingError` naming the type with the decoder's error; 401 throws `unauthorized`; 404 throws `notFound`; an API-error status throws `apiError` with the decoded error body, or with the response when that decode fails; any other status throws `URLError(.unknown)` |
| Client.StatusAloneDecides | Sources/NetNeuron/NetNeuronClient.swift:131-152 | for 401, 404 and statuses outside 200-599 the outcome depends neither on the body nor on the decoders |
| Client.ApiErrorKeepsStatus | Sources/NetNeuron/NetNeuronClient.swift:137-149 | an API-error status always throws an `apiError` carrying that status; it is the decoded-body form exactly when the error body decodes |
| Client.TranslateConnectivity | Sources/NetNeuron/NetNeuronClient.swift:155-161 | `URLError` `.notConnectedToInternet` and `.networkConnectionLost` become `noInternetConnection`; every other error is rethrown unchanged |
| Client.TranslateConnectivityIdempotent | Sources/NetNeuron/NetNeuronClient.swift:155-161 | translating a translated error changes nothing further |
| Client.Caught | Sources/NetNeuron/NetNeuronClient.swift:155-161 | the `catch` lets a returned value through unchanged, turns a connectivity loss into `noInternetConnection` and rethrows every other error as it is |
| Client.Exchanged | Sources/NetNeuron/NetNeuronClient.swift:110-153 | inside the `do`: a transport failure is thrown as it is, a non-HTTP response throws `URLError(.badServerResponse)`, and an HTTP response goes to the status dispatch |
| Client.Received | Sources/NetNeuron/NetNeuronClient.swift:105-161 | a request that returns a value had an HTTP response with a 200-399 status whose body decoded to that value; a transport failure comes out translated by the `catch` |
| Client.CatchKeepsDispatchErrors | Sources/NetNeuron/NetNeuronClient.swift:122-161 | whatever the status dispatch returns or throws passes through the `catch` unchanged |
| Client.ReceivedReturnsExactly | Sources/NetNeuron/NetNeuronClient.swift:110-161 | a request returns v exactly when the transport gave an HTTP response with a 200-399 status whose body decodes to v |
| Client.NoInternetOnlyFromTransport | Sources/NetNeuron/NetNeuronClient.swift:110-161 | `noInternetConnection` is thrown exactly when the transport failed with a connectivity loss (or threw that error itself) |
| Client.NonHTTPResponseIsBadServerResponse | Sources/NetNeuron/NetNeuronClient.swift:113-114 | a response that is not an HTTP response ends in `URLError(.badServerResponse)`, untouched by the `catch` |
| Client.TransportFailurePassesThrough | Sources/NetNeuron/NetNeuronClient.swift:155-161 | a transport failure other than a connectivity loss reaches the caller unchanged |
| Client.NetNeuronClient.constructor | Sources/NetNeuron/NetNeuronClient.swift:13-17 | the client keeps the configuration it is given |
| Client.NetNeuronClient.MakeRequest | Sources/NetNeuron/NetNeuronClient.swift:76-103 | it throws `URLError(.badURL)` exactly when host URL + endpoint does not parse (a GET with a body included); otherwise it yields the assembled request. A GET with a body and a URL that parses is excluded by precondition, where the source's `assert` would fire |
| Client.NetNeuronClient.Request | Sources/NetNeuron/NetNeuronClient.swift:68-162 | an unparsable URL throws `URLError(.badURL)` whatever the transport does and whatever the method and body, so the `catch` never sees it; otherwise the result is the dispatch and translation of the one transport outcome for the assembled request |
| Client.NetNeuronClient.RequestWithoutBody | Sources/NetNeuron/NetNeuronClient.swift:31-38 | the bodiless overload behaves as the private request with no body |
| Client.NetNeuronClient.RequestWithBody | Sources/NetNeuron/NetNeuronClient.swift:51-64 | an encoder failure is rethrown unchanged; otherwise the overload behaves as the private request with the encoded bytes as body |

## Left out

- The `URLSession` transport, `async`/`await` and concurrency: the transport is a function from the request to an outcome. `Request` calls it once, but no contract counts the calls.
- `JSONEncoder` and `JSONDecoder`: encoding and decoding are functions supplied by the caller that return or throw. No JSON is modelled.
- `URL(string:)` validity is the supplied predicate `parsesAsURL`. `url.appending(queryItems:)` is modelled as appending to the URL's list of added query items. Its percent-encoded text is not modelled, so appending an empty list looks the same as appending none.
- The `#if DEBUG` print statements, which only log.
- Swift's `assert` on a GET request with a body only fires in debug builds, and only after the URL has parsed. The model makes it a precondition of `MakeRequest`, `Request` and (once encoding succeeds) `RequestWithBody` that applies only when the URL parses. A release build that sends such a request is not modelled.
- Header names are compared as exact character sequences, in the merge and in the request. Swift's `Dictionary` treats canonically equivalent strings as one key, and `URLRequest` stores header fields case-insensitively. So `["Content-Type": "a"]` merged with `["content-type": "b"]` gives two keys in the model, while the program's request holds one `Content-Type` whose surviving value depends on dictionary order.
- `FromRawValue` (Swift's built-in `HTTPMethod(rawValue:)`) is never called by the client. It is kept as the inverse of `RawValue`, to show that the method string in an assembled request identifies the resource's method.
- The `session`, `encoder` and `decoder` fields of `ClientConfiguration` are not fields in the model. They arrive with each request as the collaborator functions.
- The `NetNeuronResource` protocol: a single property and no logic.
- `badData`, `badRequest` and `unexpectedError` are part of the error type, but the client never produces them.
- Swift's untyped `Error` is modelled as a `URLError` code, a `NetNeuronError`, or any other error known only by its description. `apiError(Int, error: Decodable)` carries the caller's error-body type `U`. `String(describing: T.self)` is supplied as a string.
- Trimming works on Dafny characters (Unicode scalar values), as `trimmingCharacters(in:)` does; Swift's grapheme-cluster view of strings is not involved.
- `URLError.Code` has more codes than the model lists. The model lists the ones the client tests or raises, plus `cancelled` and `timedOut` as examples of other transport failures; all the others behave like these two.
