/** Link visibility and highlighting in the top bar (app/components/Navbar.tsx). */
module Navbar {
  import opened Domain
  import opened Text

  /** A link is highlighted on its own page and on every page below it. */
  predicate IsActive(pathname: string, href: string) {
    pathname == href || StartsWith(pathname, href + "/")
  }

  /** The session's role may be missing while the session loads. */
  predicate CanManageUsers(role: Option<Role>) {
    role == Some(ADMIN) || role == Some(OWNER)
  }

  predicate CanOperate(role: Option<Role>) {
    role == Some(ADMIN) || role == Some(OWNER) || role == Some(STAFF)
  }

  /** The hrefs of the links shown, in display order. */
  function VisibleLinks(role: Option<Role>): (links: seq<string>)
    ensures "/dashboard" in links && "/alerts" in links
    ensures ("/products" in links) == CanOperate(role)
    ensures ("/sales" in links) == CanOperate(role)
    ensures ("/expenses" in links) == CanOperate(role)
    ensures ("/users" in links) == CanManageUsers(role)
    ensures |links| <= 6
  {
    ["/dashboard", "/alerts"]
    + (if CanOperate(role) then ["/products", "/sales", "/expenses"] else [])
    + (if CanManageUsers(role) then ["/users"] else [])
  }

  lemma ManageUsersImpliesOperate(role: Option<Role>)
    ensures CanManageUsers(role) ==> CanOperate(role)
    ensures CanManageUsers(role) <==> role.Some? && role.value in {ADMIN, OWNER}
    ensures CanOperate(role) <==> role.Some? && role.value in {ADMIN, OWNER, STAFF}
  {
  }

  lemma NoRoleNoPermission()
    ensures !CanManageUsers(None) && !CanOperate(None)
    ensures VisibleLinks(None) == ["/dashboard", "/alerts"]
  {
  }

  /** "/sales" is active on "/sales/new" but not on "/salesX". */
  lemma ActiveNeedsSeparator()
    ensures IsActive("/sales", "/sales")
    ensures IsActive("/sales/new", "/sales")
    ensures !IsActive("/salesX", "/sales")
  {
    assert "/sales/new"[..|"/sales/"|] == "/sales/";
    assert "/salesX"[..|"/sales/"|] != "/sales/" by {
      assert "/salesX"[6] != "/sales/"[6];
    }
  }

  /** Being active is the same as being equal to or under `href`. */
  lemma ActiveMeansUnder(pathname: string, href: string)
    ensures IsActive(pathname, href) <==>
      pathname == href
      || (|href| < |pathname| && pathname[..|href|] == href && pathname[|href|] == '/')
  {
    if |href| < |pathname| && pathname[..|href|] == href && pathname[|href|] == '/' {
      assert pathname[..|href| + 1] == href + "/";
    }
    if StartsWith(pathname, href + "/") {
      assert pathname[..|href|] == (href + "/")[..|href|];
      assert pathname[|href|] == (href + "/")[|href|];
    }
  }
}
