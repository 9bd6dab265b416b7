/**
 * The admin section's layout: what it renders for the current path and
 * login state, where its effect redirects, and which navigation link is
 * highlighted. The login, admin and loading flags are inputs.
 */
module AdminLayout {
  import opened Wrappers

  const AdminLoginPath := "/admin/login"

  /** The hrefs of `adminNavLinks`, in menu order. */
  const NavLinks: seq<string> := ["/admin", "/admin/orders", "/admin/products", "/admin/users"]

  datatype AdminRender =
    | BareChildren      // the login page, without the admin chrome
    | LoadingPanel      // "Loading Admin Panel..."
    | AccessDenied      // "Access Denied. Redirecting..."
    | Panel             // sidebar, header and the page

  /** The early returns, in the layout's order. */
  function SelectAdminRender(pathname: string, isLoadingAuth: bool, isLoggedIn: bool, isAdmin: bool): (r: AdminRender)
    ensures r == BareChildren <==> pathname == AdminLoginPath
    ensures r == LoadingPanel <==> pathname != AdminLoginPath && isLoadingAuth
    ensures r == AccessDenied <==> pathname != AdminLoginPath && !isLoadingAuth && !(isLoggedIn && isAdmin)
    ensures r == Panel <==> pathname != AdminLoginPath && !isLoadingAuth && isLoggedIn && isAdmin
  {
    if pathname == AdminLoginPath then BareChildren
    else if isLoadingAuth then LoadingPanel
    else if !isLoggedIn || !isAdmin then AccessDenied
    else Panel
  }

  /** The effect's `router.replace`: only once loaded, off the login page, for anyone but a logged-in admin. */
  function AdminRedirect(pathname: string, isLoadingAuth: bool, isLoggedIn: bool, isAdmin: bool): (r: Option<string>)
    ensures r.Some? <==> !isLoadingAuth && pathname != AdminLoginPath && (!isLoggedIn || !isAdmin)
    ensures r.Some? ==> r.value == AdminLoginPath
  {
    if !isLoadingAuth && pathname != AdminLoginPath && (!isLoggedIn || !isAdmin) then Some(AdminLoginPath) else None
  }

  /** The redirect fires exactly when Access Denied is shown, so the panel is never shown while leaving. */
  lemma RedirectExactlyWhenDenied(pathname: string, isLoadingAuth: bool, isLoggedIn: bool, isAdmin: bool)
    ensures AdminRedirect(pathname, isLoadingAuth, isLoggedIn, isAdmin).Some?
      <==> SelectAdminRender(pathname, isLoadingAuth, isLoggedIn, isAdmin) == AccessDenied
  {
  }

  /** `pathname === link.href` */
  predicate Highlighted(pathname: string, href: string) {
    pathname == href
  }

  /** Highlighting is exact: `/admin/orders/42` highlights no link, not even `/admin`. */
  lemma AtMostOneHighlighted(pathname: string)
    ensures forall i, j :: 0 <= i < j < |NavLinks| ==> !(Highlighted(pathname, NavLinks[i]) && Highlighted(pathname, NavLinks[j]))
    ensures forall i :: 0 <= i < |NavLinks| ==> !Highlighted("/admin/orders/42", NavLinks[i])
  {
  }

  /** `currentUser?.name || 'Admin'` */
  function WelcomeName(currentUserName: Option<string>): (n: string)
    ensures n == "Admin" <==> currentUserName.None? || currentUserName.value == "" || currentUserName.value == "Admin"
    ensures n != "Admin" ==> currentUserName == Some(n)
  {
    if currentUserName.Some? && currentUserName.value != "" then currentUserName.value else "Admin"
  }
}
