/** The active-link test of src/components/Admin/AdminNavbar.tsx. */
module AdminNavbar {
  import Text

  datatype NavItem = NavItem(name: string, path: string)

  /** `navItems`, in menu order. */
  const NavItems: seq<NavItem> := [
    NavItem("Dashboard", "/admin"),
    NavItem("Products", "/admin/products"),
    NavItem("Orders", "/admin/orders"),
    NavItem("Users", "/admin/users")
  ]

  /** `isActive(path)` at `pathname`: the dashboard only on an exact match,
      every other item on a prefix match. */
  predicate IsActive(pathname: string, path: string) {
    if path == "/admin" then pathname == "/admin" else Text.StartsWith(pathname, path)
  }

  /** At '/admin' the dashboard is the only active item. */
  lemma OnlyDashboardAtAdmin()
    ensures forall k :: 0 <= k < |NavItems| ==> (IsActive("/admin", NavItems[k].path) <==> k == 0)
  {
  }

  /** Under '/admin/products' the products item is active and no other. */
  lemma ProductsUnderPrefix(pathname: string)
    requires Text.StartsWith(pathname, "/admin/products")
    ensures forall k :: 0 <= k < |NavItems| ==> (IsActive(pathname, NavItems[k].path) <==> k == 1)
  {
    assert pathname[..15] == "/admin/products";
    assert pathname[7] == 'p';
    assert pathname[..14][7] == 'p';
    assert pathname[..12][7] == 'p';
  }

  /** The prefix test has no segment boundary: '/admin/productsX' also
      activates the products item. */
  lemma NoSegmentBoundary()
    ensures IsActive("/admin/productsX", "/admin/products")
    ensures !IsActive("/admin/", "/admin")
  {
    assert "/admin/productsX"[..15] == "/admin/products";
  }

  /** An active item pins the pathname down: exactly '/admin' for the
      dashboard, and for the others a path whose eighth character is the
      one after '/admin/' in the item's path. */
  lemma ActiveShape(pathname: string, k: nat)
    requires k < |NavItems|
    ensures IsActive(pathname, NavItems[k].path) && k == 0 ==> |pathname| == 6
    ensures IsActive(pathname, NavItems[k].path) && k > 0 ==>
      |pathname| >= 8 && pathname[7] == NavItems[k].path[7]
  {
    if k > 0 && IsActive(pathname, NavItems[k].path) {
      var p := NavItems[k].path;
      assert pathname[..|p|][7] == pathname[7];
    }
  }

  /** Whatever the pathname, at most one item is active. */
  lemma AtMostOneActive(pathname: string)
    ensures forall i, j :: 0 <= i < j < |NavItems| ==>
      !(IsActive(pathname, NavItems[i].path) && IsActive(pathname, NavItems[j].path))
  {
    forall i, j | 0 <= i < j < |NavItems| && IsActive(pathname, NavItems[i].path)
      ensures !IsActive(pathname, NavItems[j].path)
    {
      ActiveShape(pathname, i);
      ActiveShape(pathname, j);
    }
  }
}
