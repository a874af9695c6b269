/**
 * The route gate (`proxy`): from the requested path and whether the auth
 * cookie holds a value, let the request through, send it to the login page,
 * or answer 401.
 */
module Proxy {
  import opened Wrappers
  import opened JsText

  datatype Decision =
    | Pass              // NextResponse.next()
    | RedirectToLogin   // a redirect to /login
    | Unauthorized      // 401 JSON

  /** The cookie's value is truthy: present and not empty. */
  predicate HasToken(token: Option<string>) {
    token.Some? && token.value != []
  }

  /** The login and logout pages, the auth routes, Next's assets and the icon. */
  predicate Public(path: string) {
    || path == "/login"
    || StartsWith(path, "/login/")
    || path == "/logout"
    || StartsWith(path, "/logout/")
    || StartsWith(path, "/auth/")
    || StartsWith(path, "/_next")
    || path == "/favicon.ico"
  }

  /** The two auth API routes the login check itself calls. */
  predicate AuthApi(path: string) {
    path == "/api/auth/me" || path == "/api/auth/ping"
  }

  /** An API path: `/api/` and anything after it. */
  predicate Api(path: string) {
    StartsWith(path, "/api/")
  }

  /** No API path is public. */
  lemma ApiNotPublic(path: string)
    requires Api(path)
    ensures !Public(path)
  {
    assert path[1] == "/api/"[1] && path[2] == "/api/"[2];
    assert path != "/login" && path != "/logout" && path != "/favicon.ico" by {
      assert "/login"[1] != path[1] && "/logout"[1] != path[1] && "/favicon.ico"[1] != path[1];
    }
    forall p | p in ["/login/", "/logout/", "/auth/", "/_next"]
      ensures !StartsWith(path, p)
    {
      assert p[1] != path[1] || p[2] != path[2];
    }
  }

  /**
   * `proxy`. Without a token, the dashboard page is sent to the login page
   * and every API path but the two auth routes is refused; everything else
   * passes.
   */
  function Decide(path: string, token: Option<string>): (d: Decision)
    ensures d == RedirectToLogin <==> path == "/" && !HasToken(token)
    ensures d == Unauthorized <==> Api(path) && !AuthApi(path) && !HasToken(token)
  {
    if Public(path) then
      assert !Api(path) by {
        if Api(path) {
          ApiNotPublic(path);
        }
      }
      Pass
    else if AuthApi(path) then Pass
    else if path == "/" && !HasToken(token) then RedirectToLogin
    else if Api(path) && !HasToken(token) then Unauthorized
    else Pass
  }

  /** Public paths pass with or without a token. */
  lemma PublicPasses(path: string, token: Option<string>)
    requires Public(path)
    ensures Decide(path, token) == Pass
  {
    assert !Api(path) by {
      if Api(path) {
        ApiNotPublic(path);
      }
    }
    RootNotPublic();
  }

  /** The dashboard page is not public. */
  lemma RootNotPublic()
    ensures !Public("/")
  {
    assert !StartsWith("/", "/login/") && !StartsWith("/", "/logout/");
    assert !StartsWith("/", "/auth/") && !StartsWith("/", "/_next");
  }

  /** The auth API routes pass with or without a token. */
  lemma AuthApiPasses(path: string, token: Option<string>)
    requires AuthApi(path)
    ensures Decide(path, token) == Pass
  {
  }

  /** With a token every path passes. */
  lemma TokenPasses(path: string, token: Option<string>)
    requires HasToken(token)
    ensures Decide(path, token) == Pass
  {
  }

  /** A path that is neither the dashboard nor an API path always passes. */
  lemma OtherPathsPass(path: string, token: Option<string>)
    requires path != "/" && !Api(path)
    ensures Decide(path, token) == Pass
  {
  }

  /** Worked example: the rules on some sample paths. */
  lemma Examples()
    ensures Decide("/login/x", None) == Pass
    ensures Decide("/", None) == RedirectToLogin
    ensures Decide("/", Some("")) == RedirectToLogin
    ensures Decide("/api/images", None) == Unauthorized
    ensures Decide("/api/auth/me", None) == Pass
    ensures Decide("/api/images", Some("t")) == Pass
  {
    assert StartsWith("/login/x", "/login/");
    assert StartsWith("/api/images", "/api/");
    assert StartsWith("/api/auth/me", "/api/");
  }
}
