/** The root client layout: the storefront header and footer are shown on every
    page outside the admin area, and the page's own content is shown everywhere. */
module ClientLayout {
  import opened Options
  import opened Text
  import RouteGuard
  import AdminLayout

  /** `pathname.startsWith("/admin")` */
  predicate IsAdminRoute(pathname: string)
  {
    StartsWith(pathname, "/admin")
  }

  /** What the layout renders: the header with the categories it is handed (or no
      header), the `<main>` content, and whether the footer is there. */
  datatype Rendered<C, K> = Rendered(header: Option<seq<C>>, main: K, footer: bool)

  /** The layout's JSX for a pathname, the server-fetched categories and the children. */
  function Render<C, K>(pathname: string, categories: seq<C>, children: K): (r: Rendered<C, K>)
    ensures r.header.Some? <==> !IsAdminRoute(pathname)
    ensures r.header.Some? ==> r.header.value == categories
    ensures r.footer <==> !IsAdminRoute(pathname)
    ensures r.main == children
  {
    Rendered(if IsAdminRoute(pathname) then None else Some(categories), children, !IsAdminRoute(pathname))
  }

  /** The chrome test and the middleware's admin rule are the same predicate. */
  lemma SameAsGuard(pathname: string)
    ensures IsAdminRoute(pathname) <==> RouteGuard.IsProtected(pathname)
  {
  }

  /** Header and footer come and go together. */
  lemma ChromeTogether<C, K>(pathname: string, categories: seq<C>, children: K)
    ensures Render(pathname, categories, children).header.Some?
        <==> Render(pathname, categories, children).footer
  {
  }

  /** A page rendered without chrome is one the middleware keeps from visitors without
      a token, and the login page always has the chrome. */
  lemma BareWithoutTokenRedirects<C, K>(pathname: string, categories: seq<C>, children: K, cookie: Option<string>)
    requires !Render(pathname, categories, children).footer
    requires !RouteGuard.HasToken(cookie)
    ensures RouteGuard.Decide(pathname, cookie) == RouteGuard.RedirectToLogin
    ensures Render(RouteGuard.LoginPath, categories, children).footer
  {
    RouteGuard.LoginNotProtected();
  }

  /** Every page with a highlighted sidebar link is rendered without the storefront chrome. */
  lemma SidebarPagesAreBare(pathname: string, k: nat)
    requires k < |AdminLayout.Navigation|
    requires AdminLayout.IsActive(pathname, AdminLayout.Navigation[k].href)
    ensures IsAdminRoute(pathname)
  {
    AdminLayout.ActiveIsPathPrefix(pathname, AdminLayout.Navigation[k].href);
    StartsWithTransitive(pathname, AdminLayout.Navigation[k].href, "/admin");
  }
}
