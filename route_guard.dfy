/** The Next.js middleware: a pure decision on the request path and the
    value of the `authToken` cookie, run only for the paths its matcher names. */
module RouteGuard {
  import opened Options
  import opened Text

  /** `NextResponse.next()` or a redirect to one of two fixed pages. */
  datatype Decision = Next | RedirectToLogin | RedirectToAdmin

  const LoginPath: string := "/login"
  const AdminPath: string := "/admin"

  /** `if (token)`: a missing cookie and an empty cookie value are both falsy. */
  predicate HasToken(cookie: Option<string>)
  {
    Truthy(cookie)
  }

  /** The admin rule is a raw string prefix test. */
  predicate IsProtected(path: string)
  {
    StartsWith(path, AdminPath)
  }

  /** `middleware(request)` with the path and `request.cookies.get('authToken')?.value`. */
  function Decide(path: string, cookie: Option<string>): Decision
  {
    if IsProtected(path) && !HasToken(cookie) then RedirectToLogin
    else if path == LoginPath && HasToken(cookie) then RedirectToAdmin
    else Next
  }

  /** `config.matcher: ['/admin/:path*', '/login']`: `/admin` itself, anything below
      `/admin/`, and exactly `/login`. */
  predicate Matched(path: string)
  {
    path == AdminPath || StartsWith(path, AdminPath + "/") || path == LoginPath
  }

  /** What a request gets: the decision where the matcher invokes the middleware,
      and an unmodified pass elsewhere. A request goes to `/login` exactly when it is
      matched, under the admin prefix and without a token, and to `/admin` exactly
      when it is for `/login` with a token. */
  function Route(path: string, cookie: Option<string>): (d: Decision)
    ensures d == RedirectToLogin <==> Matched(path) && IsProtected(path) && !HasToken(cookie)
    ensures d == RedirectToAdmin <==> path == LoginPath && HasToken(cookie)
    ensures !Matched(path) ==> d == Next
  {
    if Matched(path) then LoginNotProtected(); Decide(path, cookie) else Next
  }

  /** The two rules never meet: the login page is not under the admin prefix. */
  lemma LoginNotProtected()
    ensures !IsProtected(LoginPath)
  {
    assert LoginPath[1] != AdminPath[1];
  }

  /** Without a token, every path under the admin prefix goes to the login page. */
  lemma AdminWithoutToken(path: string, cookie: Option<string>)
    requires IsProtected(path) && !HasToken(cookie)
    ensures Decide(path, cookie) == RedirectToLogin
  {
  }

  /** With a token, admin paths pass through. */
  lemma AdminWithToken(path: string, cookie: Option<string>)
    requires IsProtected(path) && HasToken(cookie)
    ensures Decide(path, cookie) == Next
  {
    LoginNotProtected();
  }

  /** The login page sends a holder of a token to the admin area and lets everyone else in. */
  lemma LoginPage(cookie: Option<string>)
    ensures Decide(LoginPath, cookie) == (if HasToken(cookie) then RedirectToAdmin else Next)
  {
    LoginNotProtected();
  }

  /** The login rule is an exact match: a path below `/login` is never sent to the admin area. */
  lemma LoginRuleIsExact(rest: string, cookie: Option<string>)
    requires rest != ""
    ensures Decide(LoginPath + rest, cookie) != RedirectToAdmin
  {
    assert LoginPath + rest != LoginPath by {
      assert |LoginPath + rest| > |LoginPath|;
    }
  }

  /** The admin rule is a prefix on raw characters: `/administrator` is gated too. */
  lemma AdministratorIsGated()
    ensures Decide("/administrator", None) == RedirectToLogin
    ensures !Matched("/administrator")
    ensures Route("/administrator", None) == Next
  {
    assert "/administrator"[..6] == AdminPath;
    assert "/administrator"[6] != (AdminPath + "/")[6];
  }

  /** An empty cookie value behaves exactly like a missing cookie, on every path. */
  lemma EmptyTokenIsNoToken(path: string)
    ensures Decide(path, Some("")) == Decide(path, None)
  {
  }

  /** Only the three decisions exist, and each non-pass outcome has exactly one cause. */
  lemma DecisionCauses(path: string, cookie: Option<string>)
    ensures Decide(path, cookie) == RedirectToLogin <==> IsProtected(path) && !HasToken(cookie)
    ensures Decide(path, cookie) == RedirectToAdmin <==> path == LoginPath && HasToken(cookie)
  {
    LoginNotProtected();
  }

  /** No redirect loop: for a fixed cookie, the page a redirect leads to passes. */
  lemma NoRedirectLoop(path: string, cookie: Option<string>)
    ensures Decide(path, cookie) == RedirectToLogin ==> Route(LoginPath, cookie) == Next
    ensures Decide(path, cookie) == RedirectToAdmin ==> Route(AdminPath, cookie) == Next
  {
    LoginNotProtected();
    assert IsProtected(AdminPath);
  }

  /** Both redirect targets are themselves covered by the matcher. */
  lemma TargetsAreMatched()
    ensures Matched(LoginPath) && Matched(AdminPath)
  {
  }

  /** Every matched path is one that the decision can act upon. */
  lemma MatchedPathsAreRuled(path: string)
    requires Matched(path)
    ensures IsProtected(path) || path == LoginPath
  {
    if StartsWith(path, AdminPath + "/") {
      StartsWithTransitive(path, AdminPath + "/", AdminPath);
    }
  }

  /** Five sample requests and the decisions the middleware gives them. */
  lemma Scenarios()
    ensures Decide("/admin", None) == RedirectToLogin
    ensures Decide("/admin/products/add", Some("abc123")) == Next
    ensures Decide("/login", Some("abc123")) == RedirectToAdmin
    ensures Decide("/login", None) == Next
    ensures Decide("/admin/orders", Some("")) == RedirectToLogin
  {
    assert "/admin/products/add"[..6] == AdminPath;
    assert "/admin/orders"[..6] == AdminPath;
    LoginNotProtected();
  }
}
