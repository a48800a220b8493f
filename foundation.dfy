/**
 * The Foundation value types the client touches, reduced to the data the model
 * needs. Parsing, percent-encoding and networking stay outside the model: they are
 * supplied to the client as functions (see module Client).
 */
module Foundation {
  import opened Wrappers

  newtype byte = x: int | 0 <= x < 256

  /** The bytes of a request or response body. */
  type Data = seq<byte>

  /** `URLQueryItem`: a name and an optional value. */
  datatype URLQueryItem = URLQueryItem(name: string, value: Option<string>)

  /**
   * A URL that `URL(string:)` accepted: the text it was parsed from, and the query
   * items later appended with `appending(queryItems:)`, in order. Their
   * percent-encoded textual form is not modelled.
   */
  datatype URL = URL(text: string, appendedQueryItems: seq<URLQueryItem>) {

    function Appending(queryItems: seq<URLQueryItem>): URL
    {
      URL(text, appendedQueryItems + queryItems)
    }
  }

  /** The `URLRequest` fields the client sets. */
  datatype URLRequest = URLRequest(
    url: URL,
    httpMethod: string,
    allHTTPHeaderFields: Option<map<string, string>>,
    httpBody: Option<Data>)

  /** `URLRequest(url:)`: method "GET", no header fields, no body. */
  function NewURLRequest(url: URL): URLRequest
  {
    URLRequest(url, "GET", None, None)
  }

  datatype HTTPURLResponse = HTTPURLResponse(statusCode: int, allHeaderFields: map<string, string>)

  /** What a data task yields as its response: an HTTP response, or some other kind of `URLResponse`. */
  datatype URLResponse = HTTP(http: HTTPURLResponse) | NonHTTP

  /** The `(Data, URLResponse)` pair `URLSession.data(for:)` returns. */
  datatype Exchange = Exchange(data: Data, response: URLResponse)

  /** The `URLError.Code` values that matter to the client, and two others a transport can raise. */
  datatype URLErrorCode =
    | Unknown
    | Cancelled
    | BadURL
    | TimedOut
    | NetworkConnectionLost
    | NotConnectedToInternet
    | BadServerResponse
}
