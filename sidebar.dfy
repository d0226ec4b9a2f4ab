/**
 * The navigation sidebar: which entries a session sees, which entry is
 * highlighted, and the admin marks in the user panel.
 */
module Sidebar {
  import opened Wrappers
  import opened Text
  import opened Seqs
  import opened AuthContext

  /** One navigation entry (the icon is left out). */
  datatype NavItem = NavItem(name: string, href: string, adminOnly: bool)

  /** `navItems`, in menu order; only the dashboard is open to every user. */
  const NavItems: seq<NavItem> := [
    NavItem("Dashboard", "/dashboard", false),
    NavItem("Usuarios", "/usuarios", true),
    NavItem("Buses", "/buses", true),
    NavItem("Encomiendas", "/encomiendas", true),
    NavItem("Historial", "/historial", true),
    NavItem("Estadísticas", "/estadisticas", true),
    NavItem("Configuración", "/configuracion", true)
  ]

  predicate Visible(item: NavItem, isAdmin: bool) {
    !item.adminOnly || isAdmin
  }

  /** `filteredItems`: the entries shown, in menu order. */
  function FilteredItems(isAdmin: bool): (r: seq<NavItem>)
    ensures IsSubsequence(r, NavItems)
    ensures forall item :: item in r <==> item in NavItems && (!item.adminOnly || isAdmin)
  {
    Filter(NavItems, item => Visible(item, isAdmin))
  }

  /** An admin sees the whole menu, anyone else the dashboard alone. */
  lemma FilteredItemsByRole(isAdmin: bool)
    ensures isAdmin ==> FilteredItems(isAdmin) == NavItems
    ensures !isAdmin ==> FilteredItems(isAdmin) == [NavItem("Dashboard", "/dashboard", false)]
  {
    var p := item => Visible(item, isAdmin);
    if isAdmin {
      FilterAll(NavItems, p);
    } else {
      FilterNone(NavItems[1..], p);
    }
  }

  /** `location.pathname === item.href`. */
  predicate IsActive(pathname: string, item: NavItem) {
    pathname == item.href
  }

  /** No two entries share an `href`. */
  lemma HrefsDistinct()
    ensures forall i, j :: 0 <= i < j < |NavItems| ==> NavItems[i].href != NavItems[j].href
  {
    forall i, j | 0 <= i < j < |NavItems| ensures NavItems[i].href != NavItems[j].href {
      assert NavItems[i].href[1] != NavItems[j].href[1] || |NavItems[i].href| != |NavItems[j].href|
        || NavItems[i].href[2] != NavItems[j].href[2];
    }
  }

  /** Whatever the path and the role, at most one shown entry is highlighted. */
  lemma AtMostOneActive(pathname: string, isAdmin: bool)
    ensures forall a, b ::
      (a in FilteredItems(isAdmin) && b in FilteredItems(isAdmin) && IsActive(pathname, a) && IsActive(pathname, b)) ==> a == b
  {
    HrefsDistinct();
    forall a, b | a in NavItems && b in NavItems && a.href == b.href ensures a == b {
      var i :| 0 <= i < |NavItems| && NavItems[i] == a;
      var j :| 0 <= j < |NavItems| && NavItems[j] == b;
      assert !(i < j) && !(j < i);
    }
  }

  /** The user panel: the "A" badge, the name line and the role line. */
  datatype UserPanel = UserPanel(badge: bool, name: string, role: string)

  /** `isAdmin && badge`, `user?.displayName || 'Usuario'`, and the role line. */
  function Panel(user: Option<User>): (p: UserPanel)
    ensures p.badge <==> IsAdmin(user)
    ensures p.role == "Administrador" <==> IsAdmin(user)
    ensures !IsAdmin(user) ==> p.role == "Usuario"
    ensures p.name != ""
  {
    var isAdmin := IsAdmin(user);
    var shown := if user.Some? then user.value.displayName else None;
    UserPanel(isAdmin, if Truthy(shown) then shown.value else "Usuario", if isAdmin then "Administrador" else "Usuario")
  }
}
