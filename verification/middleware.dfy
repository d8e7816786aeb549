/** The route guard of middleware.ts. A request without a session whose
    path starts with a protected prefix is redirected to the login page,
    its original path carried in the `redirectedFrom` query parameter;
    every other request passes. The session lookup is an input. */
module Middleware {
  import opened Text

  /** `protectedRoutes`. */
  const ProtectedRoutes: seq<string> := ["/journal"]

  const LoginPath: string := "/auth/login"
  const RedirectParam: string := "redirectedFrom"

  /** A request URL: its path and its query parameters in order. */
  datatype Url = Url(pathname: string, query: seq<(string, string)>)

  datatype Response = Pass | Redirect(location: Url)

  /** `routes.some(route => path.startsWith(route))`. */
  function AnyPrefix(path: string, routes: seq<string>): (b: bool)
    ensures b <==> exists k :: 0 <= k < |routes| && StartsWith(path, routes[k])
  {
    if |routes| == 0 then false
    else if StartsWith(path, routes[0]) then true
    else
      assert forall k :: 1 <= k < |routes| ==> routes[k] == routes[1..][k - 1];
      AnyPrefix(path, routes[1..])
  }

  predicate IsProtectedRoute(path: string)
  {
    AnyPrefix(path, ProtectedRoutes)
  }

  /** The query pairs whose name is not `name`, in order. */
  function Without(query: seq<(string, string)>, name: string): (r: seq<(string, string)>)
    ensures forall p :: p in r <==> p in query && p.0 != name
  {
    if |query| == 0 then []
    else if query[0].0 == name then Without(query[1..], name)
    else [query[0]] + Without(query[1..], name)
  }

  /** `URLSearchParams.set`: the first pair named `name` takes the new
      value and later ones are removed; without such a pair, one is
      appended. */
  function SetParam(query: seq<(string, string)>, name: string, value: string): seq<(string, string)>
  {
    if |query| == 0 then [(name, value)]
    else if query[0].0 == name then [(name, value)] + Without(query[1..], name)
    else [query[0]] + SetParam(query[1..], name, value)
  }

  /** Number of pairs named `name`. */
  function Occurrences(query: seq<(string, string)>, name: string): nat
  {
    if |query| == 0 then 0
    else (if query[0].0 == name then 1 else 0) + Occurrences(query[1..], name)
  }

  lemma {:induction false} WithoutRemovesAll(query: seq<(string, string)>, name: string)
    ensures Occurrences(Without(query, name), name) == 0
    ensures Without(Without(query, name), name) == Without(query, name)
  {
    if |query| > 0 {
      WithoutRemovesAll(query[1..], name);
      var w := Without(query[1..], name);
      if query[0].0 != name {
        assert ([query[0]] + w)[1..] == w;
      }
    }
  }

  /** After `set`, the parameter occurs exactly once, with the new value, and
      the other parameters are kept in their order. */
  lemma {:induction false} SetParamSpec(query: seq<(string, string)>, name: string, value: string)
    ensures Occurrences(SetParam(query, name, value), name) == 1
    ensures (name, value) in SetParam(query, name, value)
    ensures Without(SetParam(query, name, value), name) == Without(query, name)
  {
    var r := SetParam(query, name, value);
    if |query| == 0 {
      assert r[1..] == [];
    } else if query[0].0 == name {
      WithoutRemovesAll(query[1..], name);
      assert r[1..] == Without(query[1..], name);
    } else {
      SetParamSpec(query[1..], name, value);
      assert r[1..] == SetParam(query[1..], name, value);
    }
  }

  /** `middleware`: the decision for a request with or without a session. */
  function Guard(hasSession: bool, url: Url): (r: Response)
    ensures hasSession ==> r == Pass
    ensures !hasSession && !IsProtectedRoute(url.pathname) ==> r == Pass
    ensures r.Redirect? ==> r.location.pathname == LoginPath
  {
    if !hasSession && IsProtectedRoute(url.pathname) then
      Redirect(Url(LoginPath, SetParam(url.query, RedirectParam, url.pathname)))
    else Pass
  }

  /** A visitor without a session on a protected path is sent to the login
      page, which learns the path they came from and keeps every other query
      parameter. */
  lemma RedirectCarriesOrigin(url: Url)
    requires IsProtectedRoute(url.pathname)
    ensures Guard(false, url).Redirect?
    ensures var q := Guard(false, url).location.query;
            (RedirectParam, url.pathname) in q && Occurrences(q, RedirectParam) == 1
            && Without(q, RedirectParam) == Without(url.query, RedirectParam)
  {
    SetParamSpec(url.query, RedirectParam, url.pathname);
  }

  /** Protection is by prefix: "/journal", its sub-paths and "/journalfoo"
      are protected; "/dashboard" and "/" are not. */
  lemma ProtectedPaths(query: seq<(string, string)>)
    ensures IsProtectedRoute("/journal") && IsProtectedRoute("/journal/new") && IsProtectedRoute("/journalfoo")
    ensures !IsProtectedRoute("/dashboard") && !IsProtectedRoute("/")
    ensures Guard(false, Url("/dashboard", query)) == Pass
  {
    assert StartsWith("/journal/new", "/journal") by { assert "/journal/new"[..8] == "/journal"; }
    assert StartsWith("/journalfoo", "/journal") by { assert "/journalfoo"[..8] == "/journal"; }
    assert !StartsWith("/dashboard", "/journal") by { assert "/dashboard"[..8][1] != "/journal"[1]; }
  }

  /** `config.matcher`: the guard runs only for "/dashboard" and "/journal"
      and the paths below them; for every other path the request passes
      untouched. */
  predicate UnderMatcher(path: string, base: string)
  {
    path == base || StartsWith(path, base + "/")
  }

  predicate Matched(path: string)
  {
    UnderMatcher(path, "/dashboard") || UnderMatcher(path, "/journal")
  }

  /** The full request pipeline: the matcher, then the guard. */
  function HandleRequest(hasSession: bool, url: Url): (r: Response)
    ensures r.Redirect? <==> !hasSession && Matched(url.pathname) && IsProtectedRoute(url.pathname)
  {
    if Matched(url.pathname) then Guard(hasSession, url) else Pass
  }

  /** Behind the matcher the guard redirects exactly the unsigned requests
      for "/journal" and the paths below it: "/journalfoo", which the prefix
      test alone would protect, never reaches the guard. */
  lemma MatcherNarrowsProtection(url: Url)
    ensures HandleRequest(false, url).Redirect? <==> UnderMatcher(url.pathname, "/journal")
  {
    var p := url.pathname;
    if UnderMatcher(p, "/journal") {
      if p != "/journal" {
        assert p[..8] == (p[..9])[..8];
        assert (p[..9])[..8] == ("/journal" + "/")[..8];
      }
      assert StartsWith(p, ProtectedRoutes[0]);
    } else if HandleRequest(false, url).Redirect? {
      assert StartsWith(p, "/journal");
      assert UnderMatcher(p, "/dashboard");
      assert p[1] == "/dashboard"[1] by {
        if p == "/dashboard" {
        } else {
          assert p[..11][1] == ("/dashboard" + "/")[1];
        }
      }
      assert false;
    }
  }
}
