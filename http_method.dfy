/** The HTTP methods a resource can use; each one's raw value is its own name. */
module Methods {
  import opened Wrappers

  datatype HTTPMethod = GET | HEAD | POST | PUT | DELETE | CONNECT | OPTIONS | TRACE | PATCH {

    /**
     * `rawValue`, the string the client puts in `URLRequest.httpMethod`: the
     * method's name in capitals (RawValueRoundTrip recovers the method from it).
     */
    function RawValue(): (r: string)
      ensures |r| > 0 && forall i :: 0 <= i < |r| ==> 'A' <= r[i] <= 'Z'
    {
      match this
      case GET => "GET"
      case HEAD => "HEAD"
      case POST => "POST"
      case PUT => "PUT"
      case DELETE => "DELETE"
      case CONNECT => "CONNECT"
      case OPTIONS => "OPTIONS"
      case TRACE => "TRACE"
      case PATCH => "PATCH"
    }
  }

  /** `HTTPMethod(rawValue:)`, the failable initializer a `String`-backed enum has. */
  function FromRawValue(raw: string): (m: Option<HTTPMethod>)
    ensures m.Some? ==> m.value.RawValue() == raw
  {
    if raw == "GET" then Some(GET)
    else if raw == "HEAD" then Some(HEAD)
    else if raw == "POST" then Some(POST)
    else if raw == "PUT" then Some(PUT)
    else if raw == "DELETE" then Some(DELETE)
    else if raw == "CONNECT" then Some(CONNECT)
    else if raw == "OPTIONS" then Some(OPTIONS)
    else if raw == "TRACE" then Some(TRACE)
    else if raw == "PATCH" then Some(PATCH)
    else None
  }

  /** Every method is recovered from its raw value. */
  lemma RawValueRoundTrip(m: HTTPMethod)
    ensures FromRawValue(m.RawValue()) == Some(m)
  {
  }

  /** Distinct methods have distinct raw values, so the request's method string identifies the method. */
  lemma RawValueInjective(m: HTTPMethod, n: HTTPMethod)
    ensures m.RawValue() == n.RawValue() <==> m == n
  {
    RawValueRoundTrip(m);
    RawValueRoundTrip(n);
  }
}
