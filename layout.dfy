/** The dashboard shell: it admits only a signed-in admin, highlights the
    sidebar entry of the current route and signs the admin out. */
module Layout {
  import opened Js
  import opened Text
  import opened Entities
  import opened Browser

  datatype MenuItem = MenuItem(href: string, caption: string)

  /** The sidebar entries, in order. */
  const MenuItems := [
    MenuItem("/dashboard", "Dashboard"),
    MenuItem("/dashboard/users", "Users"),
    MenuItem("/dashboard/nanny-approvals", "Nanny Approvals"),
    MenuItem("/dashboard/providers", "Providers"),
    MenuItem("/dashboard/bookings", "Bookings"),
    MenuItem("/dashboard/reviews", "Reviews"),
    MenuItem("/dashboard/notifications", "Notifications"),
    MenuItem("/dashboard/analytics", "Analytics"),
    MenuItem("/dashboard/settings", "Settings")
  ]

  /** An entry is highlighted on an exact match, and every entry but the
      dashboard home also on any path that starts with its href. */
  predicate IsActive(pathname: string, href: string) {
    pathname == href || (href != DashboardRoute && StartsWith(pathname, href))
  }

  /** The home entry needs an exact match; another entry matches by plain
      prefix, so `/dashboard/usersX` highlights Users. */
  lemma ActiveRule(pathname: string, href: string)
    ensures IsActive(pathname, DashboardRoute) <==> pathname == DashboardRoute
    ensures href != DashboardRoute ==> (IsActive(pathname, href) <==> StartsWith(pathname, href))
    ensures IsActive("/dashboard/usersX", "/dashboard/users")
  {
    assert StartsWith("/dashboard/usersX", "/dashboard/users") by {
      assert "/dashboard/usersX"[..16] == "/dashboard/users";
    }
  }

  /** Two prefixes of one path agree on their common length. */
  lemma {:induction false} SharedPrefix(p: string, a: string, b: string, n: nat)
    requires StartsWith(p, a) && StartsWith(p, b) && n <= |a| && n <= |b|
    ensures a[..n] == b[..n]
  {
    assert a[..n] == p[..n] == b[..n];
  }

  /** Every sidebar path but home is told apart by its first 13 characters. */
  lemma MenuKeysDistinct(i: nat, j: nat)
    requires 1 <= i < |MenuItems| && 1 <= j < |MenuItems| && i != j
    ensures |MenuItems[i].href| >= 13 && |MenuItems[j].href| >= 13
    ensures MenuItems[i].href[..13] != MenuItems[j].href[..13]
  {
    var a, b := MenuItems[i].href, MenuItems[j].href;
    if a[11] == b[11] {
      assert a[12] != b[12];
      assert a[..13][12] != b[..13][12];
    } else {
      assert a[..13][11] != b[..13][11];
    }
  }

  /** Whatever the path, at most one entry besides home is highlighted. */
  lemma AtMostOneActive(pathname: string, i: nat, j: nat)
    requires 1 <= i < |MenuItems| && 1 <= j < |MenuItems|
    requires IsActive(pathname, MenuItems[i].href) && IsActive(pathname, MenuItems[j].href)
    ensures i == j
  {
    if i != j {
      MenuKeysDistinct(i, j);
      var a, b := MenuItems[i].href, MenuItems[j].href;
      assert StartsWith(pathname, a) && StartsWith(pathname, b);
      SharedPrefix(pathname, a, b, 13);
    }
  }

  /** The name shown under the avatar: the admin's name, else `Admin`. */
  function DisplayName(admin: Option<AdminRecord>): (r: string)
    ensures r != ""
    ensures admin.Some? && Truthy(admin.value.name) ==> r == admin.value.name.value
    ensures !(admin.Some? && Truthy(admin.value.name)) ==> r == "Admin"
  {
    if admin.Some? then OrElse(admin.value.name, "Admin") else "Admin"
  }

  /** The avatar letter: the name's first character, else `A`. */
  function Initial(admin: Option<AdminRecord>): (r: string)
    ensures |r| == 1
    ensures admin.Some? && Truthy(admin.value.name) ==> r[0] == admin.value.name.value[0]
    ensures !(admin.Some? && Truthy(admin.value.name)) ==> r == "A"
  {
    if admin.Some? && Truthy(admin.value.name) then [admin.value.name.value[0]] else "A"
  }

  class DashboardLayout {
    var sidebarOpen: bool
    var admin: Option<AdminRecord>

    constructor()
      ensures !sidebarOpen && admin == None
    {
      sidebarOpen, admin := false, None;
    }

    /** Nothing is rendered until an admin is known. */
    predicate Rendered()
      reads this
    {
      admin.Some?
    }

    /** The mount effect: without a stored session it returns to the login
        route; otherwise it takes the stored admin. A stored `undefined`
        makes `JSON.parse` throw and leaves the admin unset. */
    method Mount(w: Window)
      modifies this`admin, w`location
      ensures SessionKey !in w.storage ==> w.location == LoginRoute && admin == old(admin)
      ensures SessionKey in w.storage ==> w.location == old(w.location)
      ensures SessionKey in w.storage && w.storage[SessionKey].StoredAdmin? ==>
                admin == Some(w.storage[SessionKey].admin)
      ensures SessionKey in w.storage && w.storage[SessionKey].StoredUndefined? ==> admin == old(admin)
    {
      if SessionKey !in w.storage {
        w.Push(LoginRoute);
        return;
      }
      match w.storage[SessionKey] {
        case StoredAdmin(a) => admin := Some(a);
        case StoredUndefined =>
      }
    }

    /** `handleLogout`: drops the session and returns to the login route. */
    method Logout(w: Window)
      modifies w`storage, w`location
      ensures SessionKey !in w.storage
      ensures w.storage == old(w.storage) - {SessionKey}
      ensures w.location == LoginRoute
    {
      w.RemoveItem(SessionKey);
      w.Push(LoginRoute);
    }
  }
}
