/**
 * The frame around every signed-in page (components/dashboard-layout.tsx):
 * the navigation entries, which of them is highlighted for the current path,
 * which menus list which entries, the mobile menu toggle and the logout
 * handler. The router is the sequence of paths it was sent to.
 */
module DashboardLayout {
  import opened Common
  import opened JsText
  import opened Auth

  datatype NavItem = NavItem(href: string, caption: string)

  /** `navigationItems`, in order. */
  const NavigationItems: seq<NavItem> := [
    NavItem("/login", "Inicio de Sesión"),
    NavItem("/dashboard", "Dashboard"),
    NavItem("/products", "Gestión de Productos"),
    NavItem("/quick-update", "Actualización Rápida de Existencias")
  ]

  /** `isActivePath(href)`: exact for the dashboard, by prefix for every other entry. */
  predicate IsActivePath(pathname: string, href: string)
  {
    if href == "/dashboard" then pathname == "/dashboard" else StartsWith(pathname, href)
  }

  /** The desktop bar: `navigationItems.slice(1)`, every entry but the first. */
  function DesktopItems(): (items: seq<NavItem>)
    ensures |items| == |NavigationItems| - 1
    ensures forall k :: 0 <= k < |items| ==> items[k] == NavigationItems[k + 1]
  {
    NavigationItems[1..]
  }

  /** The mobile menu lists every entry while it is open and nothing while it is closed. */
  function MobileItems(isOpen: bool): (items: seq<NavItem>)
    ensures isOpen ==> items == NavigationItems
    ensures !isOpen ==> items == []
  {
    if isOpen then NavigationItems else []
  }

  class Layout {
    const store: SessionStore
    const pathname: string
    var isMobileMenuOpen: bool
    /** Every path the router or a link was sent to, oldest first. */
    var visited: seq<string>

    constructor (store: SessionStore, pathname: string)
      ensures this.store == store && this.pathname == pathname
      ensures !isMobileMenuOpen && visited == []
    {
      this.store := store;
      this.pathname := pathname;
      isMobileMenuOpen := false;
      visited := [];
    }

    /** `handleLogout()`: clears the session first, then goes to the login page. */
    method HandleLogout()
      modifies store, this`visited
      ensures store.Contents() == LoggedOut(old(store.Contents()))
      ensures visited == old(visited) + ["/login"]
    {
      store.Logout();
      visited := visited + ["/login"];
    }

    /** The menu button flips the mobile menu. */
    method ToggleMobileMenu()
      modifies this`isMobileMenuOpen
      ensures isMobileMenuOpen == !old(isMobileMenuOpen)
    {
      isMobileMenuOpen := !isMobileMenuOpen;
    }

    /** Following an entry of the open mobile menu closes the menu. */
    method FollowMobileLink(k: nat)
      requires isMobileMenuOpen && k < |MobileItems(isMobileMenuOpen)|
      modifies this`isMobileMenuOpen, this`visited
      ensures !isMobileMenuOpen
      ensures visited == old(visited) + [NavigationItems[k].href]
    {
      var item := MobileItems(isMobileMenuOpen)[k];
      isMobileMenuOpen := false;
      visited := visited + [item.href];
    }
  }

  /** The dashboard entry is highlighted on "/dashboard" and on no other path. */
  lemma DashboardIsExact(pathname: string)
    ensures IsActivePath(pathname, "/dashboard") <==> pathname == "/dashboard"
  {
  }

  /**
   * Every other entry is highlighted on its own path and below it, and on
   * nothing that only shares a shorter prefix: "/product/5" is not under
   * "/products", while "/products/5" is.
   */
  lemma OtherEntriesByPrefix(pathname: string, href: string, rest: string)
    requires href != "/dashboard"
    ensures IsActivePath(pathname, href) <==> StartsWith(pathname, href)
    ensures IsActivePath(href + rest, href)
    ensures !IsActivePath("/product/5", "/products")
    ensures IsActivePath("/products/5", "/products")
  {
    assert (href + rest)[..|href|] == href;
    assert "/product/5"[..9] != "/products" by {
      assert "/product/5"[8] == '/';
    }
    assert "/products/5"[..9] == "/products";
  }

  /** No path highlights two entries: the entries already differ in their second character. */
  lemma AtMostOneActive(pathname: string, i: nat, j: nat)
    requires i < |NavigationItems| && j < |NavigationItems|
    requires IsActivePath(pathname, NavigationItems[i].href)
    requires IsActivePath(pathname, NavigationItems[j].href)
    ensures i == j
  {
    var a, b := NavigationItems[i].href, NavigationItems[j].href;
    assert |a| >= 2 && |b| >= 2;
    assert pathname[1] == a[1] by {
      if a == "/dashboard" {
      } else {
        assert pathname[..|a|][1] == a[1];
      }
    }
    assert pathname[1] == b[1] by {
      if b == "/dashboard" {
      } else {
        assert pathname[..|b|][1] == b[1];
      }
    }
  }

  /** The desktop bar leaves out the login entry and keeps the other three. */
  lemma DesktopOmitsLogin()
    ensures |DesktopItems()| == 3
    ensures forall k :: 0 <= k < |DesktopItems()| ==> DesktopItems()[k].href != "/login"
    ensures forall item :: item in NavigationItems && item.href != "/login" ==> item in DesktopItems()
  {
    assert DesktopItems()[0].href == "/dashboard";
  }
}
