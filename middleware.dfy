/** The route guard of `src/middleware.ts`: a decision from the request path
    and which cookies are present. */
module Middleware {
  import opened JsStrings

  datatype Decision = Redirect(to: string) | Next

  const AdminLogin: string := "/admin/login"
  const CustomerLogin: string := "/login"

  /** The admin area: every path starting with "/admin" except the admin
      login page itself. */
  predicate GuardsAdmin(pathname: string) {
    pathname != AdminLogin && StartsWith(pathname, "/admin")
  }

  /** The customer area: every path starting with "/me". */
  predicate GuardsCustomer(pathname: string) {
    StartsWith(pathname, "/me")
  }

  /** `middleware(req)`: the admin rule first, then the customer rule,
      otherwise the request passes. */
  function Decide(pathname: string, hasAdmin: bool, hasCustomer: bool): (d: Decision)
    ensures d == Redirect(AdminLogin) <==> GuardsAdmin(pathname) && !hasAdmin
    ensures d == Redirect(CustomerLogin) <==> !(GuardsAdmin(pathname) && !hasAdmin) && GuardsCustomer(pathname) && !hasCustomer
    ensures d == Next <==> !(GuardsAdmin(pathname) && !hasAdmin) && !(GuardsCustomer(pathname) && !hasCustomer)
  {
    if pathname != AdminLogin && StartsWith(pathname, "/admin") && !hasAdmin then Redirect(AdminLogin)
    else if StartsWith(pathname, "/me") && !hasCustomer then Redirect(CustomerLogin)
    else Next
  }

  /** The admin login page is never sent to itself, with or without the
      admin cookie, and a visitor with both cookies is never redirected. */
  lemma LoginPagePasses(hasAdmin: bool, hasCustomer: bool, pathname: string)
    ensures Decide(AdminLogin, hasAdmin, hasCustomer) == Next
    ensures Decide(pathname, true, true) == Next
  {
    assert AdminLogin[1] == 'a';
  }

  /** Only the two login pages are ever redirect targets. */
  lemma RedirectTargets(pathname: string, hasAdmin: bool, hasCustomer: bool)
    ensures Decide(pathname, hasAdmin, hasCustomer).Redirect? ==>
      Decide(pathname, hasAdmin, hasCustomer).to in {AdminLogin, CustomerLogin}
  {
  }

  /** The rules are raw prefix tests: called on "/administrator" the
      decision asks for the admin cookie, and on "/messages" for the
      customer cookie. The route matcher keeps such paths from reaching
      the function at all. */
  lemma PrefixesAreRaw()
    ensures Decide("/administrator", false, true) == Redirect(AdminLogin)
    ensures Decide("/messages", true, false) == Redirect(CustomerLogin)
  {
  }

  /** The admin rule goes first: a path in both areas would need the admin
      cookie before the customer cookie is looked at, and no path is in
      both. */
  lemma AreasDisjoint(pathname: string)
    ensures !(GuardsAdmin(pathname) && GuardsCustomer(pathname))
  {
    if StartsWith(pathname, "/admin") {
      assert pathname[1] == "/admin"[1] == 'a';
    }
  }
}
