/**
 * `Resource`: an immutable endpoint descriptor, and the two derivations that build
 * a new descriptor from an old one. Being a datatype, a `Resource` cannot change
 * after it is built; a derivation always yields a new value.
 */
module Resources {
  import opened Wrappers
  import opened Foundation
  import opened Methods

  // ---------------------------------------------------------------------------
  // Trimming `/` from both ends, as `trimmingCharacters(in: "/")` does
  // ---------------------------------------------------------------------------

  predicate AllSlashes(s: string)
  {
    forall i :: 0 <= i < |s| ==> s[i] == '/'
  }

  lemma AllSlashesConcat(a: string, b: string)
    requires AllSlashes(a) && AllSlashes(b)
    ensures AllSlashes(a + b)
  {
    forall i | 0 <= i < |a + b| ensures (a + b)[i] == '/' {
      if i < |a| { assert (a + b)[i] == a[i]; } else { assert (a + b)[i] == b[i - |a|]; }
    }
  }

  lemma Regroup(p: string, x: string, t: string, y: string, q: string)
    ensures p + (x + t + y) + q == (p + x) + t + (y + q)
  {
    assert p + (x + t + y) == (p + x) + t + y;
    assert (p + x) + t + y + q == (p + x) + t + (y + q);
  }

  /** Neither starts nor ends with `/`. */
  predicate Trimmed(s: string)
  {
    |s| == 0 || (s[0] != '/' && s[|s| - 1] != '/')
  }

  /** Drops the leading run of `/`; what is kept does not start with one. */
  function TrimLeadingSlashes(s: string): (r: string)
    ensures |r| <= |s|
    ensures |r| == 0 || r[0] != '/'
  {
    if |s| > 0 && s[0] == '/' then TrimLeadingSlashes(s[1..]) else s
  }

  /** Drops the trailing run of `/`; what is kept does not end with one, and starts as `s` does. */
  function TrimTrailingSlashes(s: string): (r: string)
    ensures |r| <= |s|
    ensures |r| == 0 || r[|r| - 1] != '/'
    ensures |r| > 0 ==> r[0] == s[0]
  {
    if |s| > 0 && s[|s| - 1] == '/' then TrimTrailingSlashes(s[..|s| - 1]) else s
  }

  /** The leading trim keeps a suffix, and what it drops is all slashes. */
  lemma {:induction false} TrimLeadingKeepsSuffix(s: string)
    ensures var r := TrimLeadingSlashes(s);
            r == s[|s| - |r|..] && AllSlashes(s[..|s| - |r|])
  {
    if |s| > 0 && s[0] == '/' {
      TrimLeadingKeepsSuffix(s[1..]);
      var r := TrimLeadingSlashes(s[1..]);
      assert s[1..][|s| - 1 - |r|..] == s[|s| - |r|..];
      assert s[..|s| - |r|] == [s[0]] + s[1..][..|s| - 1 - |r|];
    }
  }

  /** The trailing trim keeps a prefix, and what it drops is all slashes. */
  lemma {:induction false} TrimTrailingKeepsPrefix(s: string)
    ensures var r := TrimTrailingSlashes(s);
            r == s[..|r|] && AllSlashes(s[|r|..])
  {
    if |s| > 0 && s[|s| - 1] == '/' {
      TrimTrailingKeepsPrefix(s[..|s| - 1]);
      var r := TrimTrailingSlashes(s[..|s| - 1]);
      assert s[..|s| - 1][..|r|] == s[..|r|];
      assert s[|r|..] == s[..|s| - 1][|r|..] + [s[|s| - 1]];
    }
  }

  /**
   * `s.trimmingCharacters(in: CharacterSet(charactersIn: "/"))`: the result
   * neither starts nor ends with `/` (TrimSlashesIsSlice shows that only slashes
   * are removed, TrimSlashesOfPadded that the result is unique).
   */
  function TrimSlashes(s: string): (r: string)
    ensures Trimmed(r) && |r| <= |s|
  {
    TrimTrailingSlashes(TrimLeadingSlashes(s))
  }

  /** The trimmed string is a slice of the original with only slashes on either side of it. */
  lemma TrimSlashesIsSlice(s: string)
    ensures var r, k := TrimSlashes(s), |s| - |TrimLeadingSlashes(s)|;
            r == s[k..k + |r|] && AllSlashes(s[..k]) && AllSlashes(s[k + |r|..])
  {
    var a := TrimLeadingSlashes(s);
    var r := TrimTrailingSlashes(a);
    var k := |s| - |a|;
    TrimLeadingKeepsSuffix(s);
    TrimTrailingKeepsPrefix(a);
    assert s[k + |r|..] == a[|r|..];
  }

  /** Slashes in front of a string that does not start with `/` are exactly what the leading trim drops. */
  lemma {:induction false} TrimLeadingOfPadded(p: string, u: string)
    requires AllSlashes(p) && (|u| == 0 || u[0] != '/')
    ensures TrimLeadingSlashes(p + u) == u
  {
    if |p| == 0 {
      assert p + u == u;
    } else {
      assert (p + u)[1..] == p[1..] + u;
      TrimLeadingOfPadded(p[1..], u);
    }
  }

  /** Slashes after a string that does not end with `/` are exactly what the trailing trim drops. */
  lemma {:induction false} TrimTrailingOfPadded(u: string, q: string)
    requires AllSlashes(q) && (|u| == 0 || u[|u| - 1] != '/')
    ensures TrimTrailingSlashes(u + q) == u
  {
    if |q| == 0 {
      assert u + q == u;
    } else {
      assert (u + q)[..|u + q| - 1] == u + q[..|q| - 1];
      TrimTrailingOfPadded(u, q[..|q| - 1]);
    }
  }

  /** Trimming `p + t + q` gives back `t` when `p` and `q` are slashes and `t` is trimmed: the result is unique. */
  lemma TrimSlashesOfPadded(p: string, t: string, q: string)
    requires AllSlashes(p) && AllSlashes(q) && Trimmed(t)
    ensures TrimSlashes(p + t + q) == t
  {
    if |t| == 0 {
      assert p + t + q == (p + q) + "";
      TrimLeadingOfPadded(p + q, "");
    } else {
      assert p + t + q == p + (t + q);
      TrimLeadingOfPadded(p, t + q);
      TrimTrailingOfPadded(t, q);
    }
  }

  /** A string that neither starts nor ends with `/` is left as it is. */
  lemma TrimSlashesOfTrimmed(t: string)
    requires Trimmed(t)
    ensures TrimSlashes(t) == t
  {
    assert "" + t == t;
    TrimLeadingOfPadded("", t);
    assert t + "" == t;
    TrimTrailingOfPadded(t, "");
  }

  /** Trimming twice is trimming once. */
  lemma TrimSlashesIdempotent(s: string)
    ensures TrimSlashes(TrimSlashes(s)) == TrimSlashes(s)
  {
    TrimSlashesOfTrimmed(TrimSlashes(s));
  }

  /** Slashes in front make no difference to the leading trim. */
  lemma {:induction false} TrimLeadingAbsorbsPadding(p: string, s: string)
    requires AllSlashes(p)
    ensures TrimLeadingSlashes(p + s) == TrimLeadingSlashes(s)
  {
    if |p| == 0 {
      assert p + s == s;
    } else {
      assert (p + s)[1..] == p[1..] + s;
      TrimLeadingAbsorbsPadding(p[1..], s);
    }
  }

  /** Slashes behind make no difference to the trailing trim. */
  lemma {:induction false} TrimTrailingAbsorbsPadding(s: string, q: string)
    requires AllSlashes(q)
    ensures TrimTrailingSlashes(s + q) == TrimTrailingSlashes(s)
  {
    if |q| == 0 {
      assert s + q == s;
    } else {
      assert (s + q)[..|s + q| - 1] == s + q[..|q| - 1];
      TrimTrailingAbsorbsPadding(s, q[..|q| - 1]);
    }
  }

  /** Extra slashes on either side make no difference to the trimmed result. */
  lemma TrimSlashesAbsorbsPadding(p: string, s: string, q: string)
    requires AllSlashes(p) && AllSlashes(q)
    ensures TrimSlashes(p + s + q) == TrimSlashes(s)
  {
    var t := TrimSlashes(s);
    var k := |s| - |TrimLeadingSlashes(s)|;
    TrimSlashesIsSlice(s);
    var x, y := s[..k], s[k + |t|..];
    assert s == x + t + y;
    Regroup(p, x, t, y, q);
    AllSlashesConcat(p, x);
    AllSlashesConcat(y, q);
    TrimSlashesOfPadded(p + x, t, y + q);
  }

  // ---------------------------------------------------------------------------
  // The descriptor
  // ---------------------------------------------------------------------------

  /**
   * `Resource(httpMethod, endpoint, queryItems:)`; the datatype constructor is the
   * initializer and stores its three arguments as they are.
   */
  datatype Resource = Resource(httpMethod: HTTPMethod, endpoint: string, queryItems: Option<seq<URLQueryItem>> := None) {

    /** `appending(_ route:)`: both operands stripped of slashes at their ends, joined by one `/`. */
    function Appending(route: string): (r: Resource)
      ensures r.httpMethod == httpMethod && r.queryItems == queryItems
      ensures r.endpoint == TrimSlashes(endpoint) + "/" + TrimSlashes(route)
    {
      var cleanedRoute := TrimSlashes(route);
      var cleanEndpoint := TrimSlashes(endpoint);
      Resource(httpMethod, cleanEndpoint + "/" + cleanedRoute, queryItems)
    }

    /** `appending(parameters:)`: the prior items (none when absent), then the new ones, nothing merged. */
    function AppendingParameters(parameters: seq<URLQueryItem>): (r: Resource)
      ensures r.httpMethod == httpMethod && r.endpoint == endpoint
      ensures r.queryItems.Some?
      ensures var prior := queryItems.GetOr([]);
              |r.queryItems.value| == |prior| + |parameters|
              && (forall i :: 0 <= i < |prior| ==> r.queryItems.value[i] == prior[i])
              && (forall j :: 0 <= j < |parameters| ==> r.queryItems.value[|prior| + j] == parameters[j])
      ensures multiset(r.queryItems.value) == multiset(queryItems.GetOr([])) + multiset(parameters)
    {
      var items := queryItems.GetOr([]);
      var items' := items + parameters;
      Resource(httpMethod, endpoint, Some(items'))
    }
  }

  /** When both operands are already trimmed, the route is joined to the endpoint with exactly one `/`. */
  lemma AppendingTrimmed(res: Resource, route: string)
    requires Trimmed(res.endpoint) && Trimmed(route)
    ensures res.Appending(route).endpoint == res.endpoint + "/" + route
  {
    TrimSlashesOfTrimmed(res.endpoint);
    TrimSlashesOfTrimmed(route);
  }

  /** Leading and trailing slashes on either operand do not change the derived endpoint: `appending("/x/")` is `appending("x")`. */
  lemma AppendingIgnoresSlashPadding(res: Resource, route: string, p1: string, q1: string, p2: string, q2: string)
    requires AllSlashes(p1) && AllSlashes(q1) && AllSlashes(p2) && AllSlashes(q2)
    ensures res.(endpoint := p1 + res.endpoint + q1).Appending(p2 + route + q2) == res.Appending(route)
  {
    TrimSlashesAbsorbsPadding(p1, res.endpoint, q1);
    TrimSlashesAbsorbsPadding(p2, route, q2);
  }

  /**
   * The derived endpoint has a single `/` where the two parts meet: the part
   * before it does not end with `/` and the part after it does not start with one.
   */
  lemma AppendingJoinsWithOneSlash(res: Resource, route: string)
    ensures var e := res.Appending(route).endpoint;
            var k := |TrimSlashes(res.endpoint)|;
            k < |e| && e[k] == '/' && Trimmed(e[..k]) && Trimmed(e[k + 1..])
            && (k > 0 ==> e[k - 1] != '/') && (k + 1 < |e| ==> e[k + 1] != '/')
  {
    var e := res.Appending(route).endpoint;
    var a, b := TrimSlashes(res.endpoint), TrimSlashes(route);
    assert e[..|a|] == a;
    assert e[|a| + 1..] == b;
  }

  /** Appending two parameter lists one after the other is appending their concatenation. */
  lemma AppendingParametersTwice(res: Resource, first: seq<URLQueryItem>, second: seq<URLQueryItem>)
    ensures res.AppendingParameters(first).AppendingParameters(second) == res.AppendingParameters(first + second)
  {
    var prior := res.queryItems.GetOr([]);
    assert prior + first + second == prior + (first + second);
  }

  /** Appending no parameters leaves a resource as it was exactly when it already had a list of query items. */
  lemma AppendingNoParameters(res: Resource)
    ensures res.AppendingParameters([]) == res <==> res.queryItems.Some?
  {
    if res.queryItems.Some? {
      assert res.queryItems.value + [] == res.queryItems.value;
    }
  }

  /** The two derivations touch different fields, so their order does not matter. */
  lemma DerivationsCommute(res: Resource, route: string, parameters: seq<URLQueryItem>)
    ensures res.Appending(route).AppendingParameters(parameters) == res.AppendingParameters(parameters).Appending(route)
  {
  }
}
