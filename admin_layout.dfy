/** The admin layout: the sidebar's active-link test, the user name and initial
    derived from `localStorage` when the layout mounts, and logout. */
module AdminLayout {
  import opened Options
  import opened Text
  import opened Seqs
  import opened Session
  import RouteGuard

  datatype NavItem = NavItem(name: string, href: string)

  const Navigation: seq<NavItem> := [
    NavItem("Dashboard", "/admin"),
    NavItem("Products", "/admin/products"),
    NavItem("Categories", "/admin/categories"),
    NavItem("Brands", "/admin/brands"),
    NavItem("Manufacturers", "/admin/manufacturers"),
    NavItem("Orders", "/admin/orders"),
    NavItem("Customers", "/admin/customers")
  ]

  const DefaultEmail: string := "admin@ecom.com"
  const DefaultName: string := "Admin User"

  /** `pathname === item.href || pathname?.startsWith(item.href + '/')` */
  predicate IsActive(pathname: string, href: string)
  {
    pathname == href || StartsWith(pathname, href + "/")
  }

  /** The sidebar items highlighted on a page, in sidebar order. */
  function ActiveItems(pathname: string): (r: seq<NavItem>)
    ensures forall it :: it in r <==> it in Navigation && IsActive(pathname, it.href)
  {
    var r := Filter(Navigation, (it: NavItem) => IsActive(pathname, it.href));
    forall it | it in Navigation && IsActive(pathname, it.href) ensures it in r {
      FilterKeeps(Navigation, (it: NavItem) => IsActive(pathname, it.href), it);
    }
    r
  }

  /** An active link is a path prefix of the page; a lookalike sibling never is. */
  lemma ActiveIsPathPrefix(pathname: string, href: string)
    requires IsActive(pathname, href)
    ensures StartsWith(pathname, href)
    ensures |pathname| == |href| || pathname[|href|] == '/'
  {
    if pathname != href {
      StartsWithTransitive(pathname, href + "/", href);
      assert pathname[|href|] == (href + "/")[|href|];
    }
  }

  /** Dashboard's href is `/admin`, so Dashboard is active on every page below it. */
  lemma DashboardAlwaysActive(pathname: string)
    requires StartsWith(pathname, "/admin/")
    ensures IsActive(pathname, Navigation[0].href)
  {
  }

  /** On the add-product page exactly Dashboard and Products are highlighted. */
  lemma AddProductPageHighlights()
    ensures forall k :: 0 <= k < |Navigation| ==>
              (IsActive("/admin/products/add", Navigation[k].href) <==> k < 2)
  {
    var p := "/admin/products/add";
    assert p[..7] == "/admin/";
    assert p[..16] == "/admin/products/";
    assert p[7] == 'p';
    assert Navigation[2].href + "/" == "/admin/categories/";
    assert !StartsWith(p, "/admin/categories/") by { assert "/admin/categories/"[7] == 'c'; }
    assert !StartsWith(p, "/admin/brands/") by { assert "/admin/brands/"[7] == 'b'; }
    assert !StartsWith(p, "/admin/manufacturers/") by { assert "/admin/manufacturers/"[7] == 'm'; }
    assert !StartsWith(p, "/admin/orders/") by { assert "/admin/orders/"[7] == 'o'; }
    assert !StartsWith(p, "/admin/customers/") by { assert "/admin/customers/"[7] == 'c'; }
  }

  /** What decoding the stored `authToken` as a JWT yields (its payload's names), or
      `None` when decoding throws. */
  datatype Claims = Claims(firstName: Option<string>, lastName: Option<string>)

  /** The three values the header shows. */
  datatype Profile = Profile(email: string, name: string, initial: string)

  /** `localStorage.getItem('userEmail') || 'admin@ecom.com'` */
  function EmailOf(b: Browser): (e: string)
    ensures e != ""
  {
    OrOpt(ItemText(b, EmailKey), DefaultEmail)
  }

  /** `JSON.parse(localStorage.getItem('userData'))` when it yields an object. A missing,
      empty or unparsable entry is `None`: all three end in the same branch's outcome. */
  function StoredUser(b: Browser): Option<UserRecord>
  {
    if UserDataKey in b.storage && b.storage[UserDataKey].UserJson? then Some(b.storage[UserDataKey].user)
    else None
  }

  /** The names after the effect's steps: stored names first, token claims only fill the empty ones. */
  function Names(u: UserRecord, token: Option<string>, claims: Option<Claims>): (string, string)
  {
    var first := OrOpt(u.firstName, "");
    var last := OrOpt(u.lastName, "");
    if (first == "" || last == "") && Truthy(token) && claims.Some? then
      (Or(first, OrOpt(claims.value.firstName, "")), Or(last, OrOpt(claims.value.lastName, "")))
    else (first, last)
  }

  /** `` `${firstName} ${lastName}`.trim() || 'Admin User' `` */
  function DisplayName(first: string, last: string): string
  {
    Or(Trim(first + " " + last), DefaultName)
  }

  /** `(firstName ? firstName[0] : email[0]).toUpperCase()` */
  function Initial(first: string, email: string): string
    requires email != ""
  {
    if first != "" then [UpperChar(first[0])] else [UpperChar(email[0])]
  }

  /** The profile the layout shows, given the browser and what decoding its token yields. */
  function ProfileOf(b: Browser, claims: Option<Claims>): Profile
  {
    var email := EmailOf(b);
    match StoredUser(b)
    case None => Profile(email, DefaultName, Initial("", email))
    case Some(u) =>
      var names := Names(u, ItemText(b, TokenKey), claims);
      Profile(email, DisplayName(names.0, names.1), Initial(names.0, email))
  }

  /** The header always has an email, a name and a one-letter initial. */
  lemma ProfileNeverEmpty(b: Browser, claims: Option<Claims>)
    ensures var p := ProfileOf(b, claims);
            p.email != "" && p.name != "" && |p.initial| == 1
  {
  }

  /** A missing or unparsable `userData` shows "Admin User" and the email's initial. */
  lemma NoStoredUser(b: Browser, claims: Option<Claims>)
    requires StoredUser(b).None?
    ensures ProfileOf(b, claims) == Profile(EmailOf(b), DefaultName, [UpperChar(EmailOf(b)[0])])
  {
  }

  /** A stored name is never overridden by the token; a claim only fills an empty name. */
  lemma StoredNamesWin(u: UserRecord, token: Option<string>, claims: Option<Claims>)
    ensures Truthy(u.firstName) ==> Names(u, token, claims).0 == u.firstName.value
    ensures Truthy(u.lastName) ==> Names(u, token, claims).1 == u.lastName.value
    ensures !Truthy(u.firstName) && Truthy(token) && claims.Some?
            ==> Names(u, token, claims).0 == OrOpt(claims.value.firstName, "")
    ensures !Truthy(token) || claims.None?
            ==> Names(u, token, claims) == (OrOpt(u.firstName, ""), OrOpt(u.lastName, ""))
  {
  }

  /** With one name missing on both sides the other one alone is shown. */
  lemma DisplayNameOfOne(first: string)
    requires first != [] && !IsSpace(first[0]) && !IsSpace(first[|first| - 1])
    ensures DisplayName(first, "") == first
  {
    var s := first + " " + "";
    assert TrimStart(s) == s;
    assert s[|s| - 1] == ' ';
    assert s[..|s| - 1] == first;
    assert TrimEnd(s) == TrimEnd(first);
  }

  /** `handleLogout`'s writes, in order. */
  const LogoutWrites: seq<Effect> := [
    RemoveItem(TokenKey), RemoveItem(EmailKey), RemoveItem(UserDataKey),
    WriteCookie(TokenKey, "", "/", 0), Navigate("/login")
  ]

  /** After logout no session remains: the three keys are gone, every admin page sends
      the user to the login page, the login page lets them in, and the window is there. */
  lemma LogoutEndsSession(b: Browser, path: string)
    requires RouteGuard.IsProtected(path)
    ensures var b' := ApplyAll(b, LogoutWrites);
            && TokenKey !in b'.storage && EmailKey !in b'.storage && UserDataKey !in b'.storage
            && !SignedIn(b')
            && RouteGuard.Decide(path, CookieValue(b', TokenKey)) == RouteGuard.RedirectToLogin
            && RouteGuard.Decide(RouteGuard.LoginPath, CookieValue(b', TokenKey)) == RouteGuard.Next
            && b'.location == "/login"
  {
    LogoutResult(b);
    RouteGuard.LoginNotProtected();
  }

  lemma LogoutResult(b: Browser)
    ensures ApplyAll(b, LogoutWrites)
         == b.(storage := b.storage - {TokenKey} - {EmailKey} - {UserDataKey},
               cookies := b.cookies - {TokenKey}, location := "/login")
  {
    var w := LogoutWrites;
    var b1 := Apply(b, w[0]);
    var b2 := Apply(b1, w[1]);
    var b3 := Apply(b2, w[2]);
    var b4 := Apply(b3, w[3]);
    var b5 := Apply(b4, w[4]);
    assert w[1..][1..][1..][1..][1..] == [];
    assert ApplyAll(b4, w[1..][1..][1..][1..]) == b5;
    assert ApplyAll(b3, w[1..][1..][1..]) == b5;
    assert ApplyAll(b2, w[1..][1..]) == b5;
    assert ApplyAll(b1, w[1..]) == b5;
  }

  /** The layout's state. */
  class AdminShell {
    var userEmail: string
    var userName: string
    var userInitial: string
    var browser: Browser

    constructor (b: Browser)
      ensures userEmail == "" && userName == "" && userInitial == "A" && browser == b
    {
      userEmail, userName, userInitial, browser := "", "", "A", b;
    }

    /** The mount effect: the names are reassigned step by step, then the three setters run. */
    method LoadUser(claims: Option<Claims>)
      modifies this
      ensures Profile(userEmail, userName, userInitial) == ProfileOf(old(browser), claims)
      ensures browser == old(browser)
    {
      var email := EmailOf(browser);
      userEmail := email;
      var stored := StoredUser(browser);
      if stored.Some? {
        var u := stored.value;
        var firstName := OrOpt(u.firstName, "");
        var lastName := OrOpt(u.lastName, "");
        if firstName == "" || lastName == "" {
          var token := ItemText(browser, TokenKey);
          if Truthy(token) && claims.Some? {
            firstName := Or(firstName, OrOpt(claims.value.firstName, ""));
            lastName := Or(lastName, OrOpt(claims.value.lastName, ""));
          }
        }
        ghost var names := Names(u, ItemText(browser, TokenKey), claims);
        assert firstName == names.0 && lastName == names.1;
        userName := DisplayName(firstName, lastName);
        userInitial := Initial(firstName, email);
        assert ProfileOf(browser, claims) == Profile(email, DisplayName(names.0, names.1), Initial(names.0, email));
      } else {
        userName := DefaultName;
        userInitial := Initial("", email);
      }
    }

    /** `handleLogout` */
    method HandleLogout()
      modifies this
      ensures browser == ApplyAll(old(browser), LogoutWrites)
      ensures userEmail == old(userEmail) && userName == old(userName) && userInitial == old(userInitial)
    {
      LogoutResult(browser);
      browser := Apply(browser, RemoveItem(TokenKey));
      browser := Apply(browser, RemoveItem(EmailKey));
      browser := Apply(browser, RemoveItem(UserDataKey));
      browser := Apply(browser, WriteCookie(TokenKey, "", "/", 0));
      browser := Apply(browser, Navigate("/login"));
    }
  }
}
