/** The request gate that runs before every page and route (middleware.ts). */
module Middleware {
  import opened Text

  const PUBLIC_PATHS: seq<string> := ["/", "/login", "/register"]

  /** Either let the request through, or redirect to "/login?from=<from>". */
  datatype Decision = Next | RedirectToLogin(from: string)

  /** Static files and framework internals. */
  predicate IsStaticPath(pathname: string) {
    StartsWith(pathname, "/_next") || StartsWith(pathname, "/favicon.ico")
    || StartsWith(pathname, "/public")
  }

  /**
   * The routing decision for `pathname`; `hasToken` is whether the session
   * cookie decodes to a token (the token lookup itself is I/O).
   */
  function Route(pathname: string, hasToken: bool): (d: Decision)
    ensures IsStaticPath(pathname) ==> d == Next
    ensures StartsWith(pathname, "/api/auth") ==> d == Next
    ensures pathname in PUBLIC_PATHS ==> d == Next
    ensures hasToken ==> d == Next
    ensures d.RedirectToLogin? <==>
      !hasToken && !IsStaticPath(pathname) && !StartsWith(pathname, "/api/auth")
      && pathname !in PUBLIC_PATHS
    ensures d.RedirectToLogin? ==> d.from == pathname
  {
    if IsStaticPath(pathname) then Next
    else if StartsWith(pathname, "/api/auth") then Next
    else if pathname in PUBLIC_PATHS then Next
    else if !hasToken then RedirectToLogin(pathname)
    else Next
  }

  /** Public paths are matched exactly, not as prefixes. */
  lemma PublicPathsAreExact()
    ensures Route("/login", false) == Next
    ensures Route("/login/x", false) == RedirectToLogin("/login/x")
    ensures Route("/registerx", false) == RedirectToLogin("/registerx")
  {
    assert "/login/x" !in PUBLIC_PATHS;
    assert "/registerx" !in PUBLIC_PATHS;
    DiffersAt("/login/x", "/_next", 1);
    DiffersAt("/login/x", "/public", 1);
    DiffersAt("/login/x", "/favicon.ico", 1);
    DiffersAt("/login/x", "/api/auth", 1);
    DiffersAt("/registerx", "/_next", 1);
    DiffersAt("/registerx", "/public", 1);
    DiffersAt("/registerx", "/favicon.ico", 1);
    DiffersAt("/registerx", "/api/auth", 1);
  }

  lemma DiffersAt(s: string, p: string, i: nat)
    requires i < |p| && (i >= |s| || s[i] != p[i])
    ensures !StartsWith(s, p)
  {
    if |p| <= |s| {
      assert s[..|p|][i] != p[i];
    }
  }

  /** Any path under /api/auth is let through, whatever follows the prefix. */
  lemma AuthApiBypasses(rest: string, hasToken: bool)
    ensures Route("/api/auth" + rest, hasToken) == Next
  {
    assert ("/api/auth" + rest)[..|"/api/auth"|] == "/api/auth";
  }
}
