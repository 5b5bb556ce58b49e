/**
 * The request guard that runs before the page and API routes its matcher
 * selects (static assets and image files are skipped): it lets a request
 * through, answers 401/403 for the API, or redirects to the login page, the
 * home page or the "unauthorized" page.
 */
module RouteGuard {
  import opened Wrappers
  import opened Session
  import opened Strings

  datatype Decision =
    | Next                           // the request proceeds
    | Json401                        // {"error": "Unauthorized"}, status 401
    | Json403                        // {"error": "Forbidden - Admin access required"}, status 403
    | RedirectLogin(callbackUrl: string)
    | RedirectHome
    | RedirectUnauthorized

  /** Only the ADMIN role passes the admin checks; a missing session has no role. */
  predicate HasAdminRole(session: MaybeSession) {
    session.Some? && session.value.role == Admin
  }

  /** The `adminRoutes` prefixes. */
  const AdminRoutes: seq<string> := ["/admin"]

  predicate IsAdminRoute(pathname: string) {
    exists i :: 0 <= i < |AdminRoutes| && StartsWith(pathname, AdminRoutes[i])
  }

  /** How the guard's prefixes relate: "/api/…" paths and "/admin…" paths are disjoint. */
  lemma PrefixFacts(pathname: string)
    ensures IsAdminRoute(pathname) <==> StartsWith(pathname, "/admin")
    ensures StartsWith(pathname, "/api/auth") ==> StartsWith(pathname, "/api")
    ensures StartsWith(pathname, "/api/admin") ==> StartsWith(pathname, "/api") && !StartsWith(pathname, "/api/auth")
    ensures StartsWith(pathname, "/api") ==> !StartsWith(pathname, "/admin")
    ensures StartsWith(pathname, "/admin") || StartsWith(pathname, "/api") ==>
      pathname != "/login" && pathname != "/unauthorized"
  {
    if StartsWith(pathname, "/api/auth") {
      assert pathname[..4] == pathname[..9][..4];
    }
    if StartsWith(pathname, "/api/admin") {
      assert pathname[..4] == pathname[..10][..4];
      assert pathname[6] == 'd';
    }
    if StartsWith(pathname, "/api") {
      assert pathname[2] == 'p';
    }
    if StartsWith(pathname, "/admin") {
      assert pathname[1] == 'a';
      assert StartsWith(pathname, AdminRoutes[0]);
    }
  }

  /** The guard's decision for a request to `pathname`; the session is `None` when nobody is logged in. */
  function Decide(pathname: string, session: MaybeSession): (r: Decision)
    ensures StartsWith(pathname, "/api/auth") ==> r == Next
    ensures !StartsWith(pathname, "/api/auth") && StartsWith(pathname, "/api") && session.None? ==> r == Json401
    ensures !StartsWith(pathname, "/api") && pathname == "/unauthorized" ==> r == Next
    ensures !StartsWith(pathname, "/api") && pathname != "/unauthorized" && pathname != "/login" && session.None? ==>
      r == RedirectLogin(pathname)
    ensures session.Some? && pathname == "/login" ==> r == RedirectHome
    ensures session.Some? && !HasAdminRole(session) && StartsWith(pathname, "/admin") ==> r == RedirectUnauthorized
    ensures session.Some? && !HasAdminRole(session) && StartsWith(pathname, "/api/admin") ==> r == Json403
    ensures HasAdminRole(session) ==> (r == if pathname == "/login" then RedirectHome else Next)
  {
    PrefixFacts(pathname);
    var isLoggedIn := session.Some?;
    var isLoginPage := pathname == "/login";
    var isApiRoute := StartsWith(pathname, "/api");
    if StartsWith(pathname, "/api/auth") then Next
    else if isApiRoute && !isLoggedIn then Json401
    else if pathname == "/unauthorized" then Next
    else if !isLoggedIn && !isLoginPage then RedirectLogin(pathname)
    else if isLoggedIn && isLoginPage then RedirectHome
    else if IsAdminRoute(pathname) && isLoggedIn && !HasAdminRole(session) then RedirectUnauthorized
    else if isApiRoute && StartsWith(pathname, "/api/admin") && isLoggedIn && !HasAdminRole(session) then Json403
    else Next
  }

  /**
   * When a request proceeds: the auth API and the "unauthorized" page always;
   * the login page for a visitor; anything else but the login page for a
   * logged-in user, except that the admin pages and the admin API need ADMIN.
   */
  lemma NextIff(pathname: string, session: MaybeSession)
    ensures Decide(pathname, session) == Next <==>
      || StartsWith(pathname, "/api/auth")
      || pathname == "/unauthorized"
      || (session.None? && pathname == "/login")
      || (&& session.Some? && pathname != "/login"
          && (HasAdminRole(session) || (!StartsWith(pathname, "/admin") && !StartsWith(pathname, "/api/admin"))))
  {
    PrefixFacts(pathname);
  }

  /** Without a login, a page request is sent to the login page carrying the page as its callback. */
  lemma VisitorRedirectedWithCallback(pathname: string)
    requires !StartsWith(pathname, "/api") && pathname != "/unauthorized" && pathname != "/login"
    ensures Decide(pathname, None).RedirectLogin?
    ensures Decide(pathname, None).callbackUrl == pathname
  {
  }

  /** The admin check is a plain prefix test: "/administrator" counts as an admin page too. */
  lemma AdministratorIsAdminRoute(user: SessionUser)
    requires user.role == User
    ensures Decide("/administrator", Some(user)) == RedirectUnauthorized
    ensures Decide("/admin/users", Some(user)) == RedirectUnauthorized
  {
    assert StartsWith("/administrator", "/admin") by {
      assert "/administrator"[..6] == "/admin";
    }
    assert StartsWith("/admin/users", "/admin") by {
      assert "/admin/users"[..6] == "/admin";
    }
  }

  /** The API check is a prefix test too: "/apidocs" is an API path, so a visitor gets 401. */
  lemma ApiPrefixIsNotASegment()
    ensures Decide("/apidocs", None) == Json401
  {
    assert StartsWith("/apidocs", "/api") by {
      assert "/apidocs"[..4] == "/api";
    }
  }

  /* ------------------------------- Matcher -------------------------------- */

  /** The characters the pattern's `.` does not match. */
  predicate IsLineTerminator(c: char) {
    c == '\n' || c == '\r' || c == '\U{2028}' || c == '\U{2029}'
  }

  predicate EndsWith(s: string, suffix: string) {
    |suffix| <= |s| && s[|s| - |suffix|..] == suffix
  }

  /** The extensions of the image files the matcher skips. */
  const ImageExtensions: seq<string> := ["svg", "png", "jpg", "jpeg", "gif", "webp"]

  /**
   * `config.matcher`: the guard runs on "/" + `rest` unless `rest` starts with
   * "_next/static", "_next/image" or "favicon", any character, "ico", or ends
   * in "." and an image extension. The pattern's `.` matches no line
   * terminator, so a path holding one is not matched at all.
   */
  predicate Matched(pathname: string) {
    && |pathname| >= 1 && pathname[0] == '/'
    && var rest := pathname[1..];
    && (forall i :: 0 <= i < |rest| ==> !IsLineTerminator(rest[i]))
    && !StartsWith(rest, "_next/static")
    && !StartsWith(rest, "_next/image")
    && !(|rest| >= 11 && rest[..7] == "favicon" && rest[8..11] == "ico")
    && !(exists k :: 0 <= k < |ImageExtensions| && EndsWith(rest, "." + ImageExtensions[k]))
  }

  /** What happens to a request: a path the matcher skips proceeds without the guard. */
  function Middleware(pathname: string, session: MaybeSession): (r: Decision)
    ensures !Matched(pathname) ==> r == Next
    ensures Matched(pathname) ==> r == Decide(pathname, session)
  {
    if Matched(pathname) then Decide(pathname, session) else Next
  }

  /** When a request proceeds: a path the matcher skips, or one the guard lets through. */
  lemma MiddlewareNextIff(pathname: string, session: MaybeSession)
    ensures Middleware(pathname, session) == Next <==>
      || !Matched(pathname)
      || StartsWith(pathname, "/api/auth")
      || pathname == "/unauthorized"
      || (session.None? && pathname == "/login")
      || (&& session.Some? && pathname != "/login"
          && (HasAdminRole(session) || (!StartsWith(pathname, "/admin") && !StartsWith(pathname, "/api/admin"))))
  {
    NextIff(pathname, session);
  }

  /** Without a login, a matched page request is sent to the login page carrying the page as its callback. */
  lemma MatchedVisitorRedirectedWithCallback(pathname: string)
    requires Matched(pathname)
    requires !StartsWith(pathname, "/api") && pathname != "/unauthorized" && pathname != "/login"
    ensures Middleware(pathname, None) == RedirectLogin(pathname)
  {
    VisitorRedirectedWithCallback(pathname);
  }

  /** The matcher skips by file name alone: an image path under "/admin" reaches a non-admin user unguarded. */
  lemma AdminImageSkipsTheGuard(user: SessionUser)
    requires user.role == User
    ensures Decide("/admin/logo.png", Some(user)) == RedirectUnauthorized
    ensures Middleware("/admin/logo.png", Some(user)) == Next
    ensures Middleware("/admin/logo.png", None) == Next
  {
    assert StartsWith("/admin/logo.png", "/admin") by {
      assert "/admin/logo.png"[..6] == "/admin";
    }
    assert EndsWith("/admin/logo.png"[1..], "." + ImageExtensions[1]);
  }

  /** Build assets and the favicon skip the guard; an ordinary page goes through it. */
  lemma MatcherExamples()
    ensures !Matched("/_next/static/app.js") && !Matched("/_next/image") && !Matched("/favicon.ico")
    ensures Matched("/invoices")
  {
    assert StartsWith("/_next/static/app.js"[1..], "_next/static") by {
      assert "/_next/static/app.js"[1..][..12] == "_next/static";
    }
    assert StartsWith("/_next/image"[1..], "_next/image") by {
      assert "/_next/image"[1..][..11] == "_next/image";
    }
    assert "/favicon.ico"[1..][..7] == "favicon" && "/favicon.ico"[1..][8..11] == "ico";
    var rest := "/invoices"[1..];
    assert rest == "invoices";
    assert rest[0] == 'i';
    forall k | 0 <= k < |ImageExtensions|
      ensures !EndsWith(rest, "." + ImageExtensions[k])
    {
      assert rest[|rest| - 1] == 's';
    }
  }
}
