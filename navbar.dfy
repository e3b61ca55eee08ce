/** The navigation bar: which items a user sees, which one is highlighted for the current
    path, and the administrator badge. Styling and icons' drawings are not modelled. */
module Navbar {
  import opened Wrappers
  import opened Js
  import opened Api

  datatype Icon = SearchIcon | ListMusicIcon | ShieldIcon | SettingsIcon

  datatype NavItem = NavItem(name: string, href: string, icon: Icon)

  const SearchItem := NavItem("Search", "/search", SearchIcon)
  const RequestsItem := NavItem("My Requests", "/requests", ListMusicIcon)
  const AdminItem := NavItem("Admin", "/admin", ShieldIcon)
  const SettingsItem := NavItem("Settings", "/settings", SettingsIcon)

  /** `session?.user?.role === "ADMIN"`: unlike the routes' gate, no user id is needed. */
  predicate ShowsAdmin(session: Option<Session>) {
    session.Some? && session.value.role == ADMIN
  }

  /** The `navigation` list: the two user items, then the two administrator items for an administrator. */
  function Navigation(session: Option<Session>): (items: seq<NavItem>)
    ensures ShowsAdmin(session) ==> items == [SearchItem, RequestsItem, AdminItem, SettingsItem]
    ensures !ShowsAdmin(session) ==> items == [SearchItem, RequestsItem]
  {
    [SearchItem, RequestsItem]
    + (if ShowsAdmin(session) then [AdminItem] else [])
    + (if ShowsAdmin(session) then [SettingsItem] else [])
  }

  /** An item is highlighted when the path is its link or lies below it. */
  predicate IsActive(pathname: string, href: string) {
    pathname == href || StartsWith(pathname, href + "/")
  }

  /** A rendered link: the item's name and target, and whether it is highlighted. */
  datatype Link = Link(name: string, href: string, active: bool)

  /** `navigation.map(item => <Link …>)`, as both menus render it. */
  function MenuLinks(pathname: string, items: seq<NavItem>): (links: seq<Link>)
    ensures |links| == |items|
    ensures forall i :: 0 <= i < |items| ==>
              links[i].name == items[i].name && links[i].href == items[i].href
              && (links[i].active <==> IsActive(pathname, items[i].href))
  {
    seq(|items|, i requires 0 <= i < |items| => Link(items[i].name, items[i].href, IsActive(pathname, items[i].href)))
  }

  /** What the bar shows: the desktop and mobile menus, the user's name and the badge. */
  datatype Rendered = Rendered(desktop: seq<Link>, mobile: seq<Link>, userName: Option<string>, adminBadge: bool)

  function Render(pathname: string, session: Option<Session>): (view: Rendered)
    ensures view.adminBadge <==> ShowsAdmin(session)
    ensures view.desktop == view.mobile
    ensures view.desktop == MenuLinks(pathname, Navigation(session))
  {
    var navigation := Navigation(session);
    Rendered(MenuLinks(pathname, navigation), MenuLinks(pathname, navigation),
             if session.Some? then Some(session.value.name) else None,
             ShowsAdmin(session))
  }

  /** A path is active for an item exactly when it is the item's link, or continues it with a
      `/` after the link: a path that merely starts with the same letters is not. */
  lemma {:induction false} ActiveMeansBelow(pathname: string, href: string)
    ensures IsActive(pathname, href) <==>
              pathname == href || (|pathname| > |href| && pathname[..|href|] == href && pathname[|href|] == '/')
  {
    if |pathname| > |href| && pathname[..|href|] == href && pathname[|href|] == '/' {
      assert pathname[..|href| + 1] == href + "/";
    }
    if StartsWith(pathname, href + "/") {
      assert pathname[..|href|] == (href + "/")[..|href|] == href;
      assert pathname[|href|] == (href + "/")[|href|];
    }
  }

  /** `/searching` does not highlight Search, while `/search` and `/search/results` do. */
  lemma SearchHighlighting()
    ensures !IsActive("/searching", "/search")
    ensures IsActive("/search", "/search") && IsActive("/search/results", "/search")
  {
    ActiveMeansBelow("/searching", "/search");
    assert "/searching"[7] == 'i';
    assert "/search/" <= "/search/results";
  }

  /** At most one item of the navigation is highlighted, since no item's link lies below another's. */
  lemma {:induction false} AtMostOneActive(pathname: string, session: Option<Session>, i: nat, j: nat)
    requires var links := Render(pathname, session).desktop;
             i < j < |links| && links[i].active
    ensures !Render(pathname, session).desktop[j].active
  {
    var items := Navigation(session);
    assert Render(pathname, session).desktop == MenuLinks(pathname, items);
    ActiveMeansBelow(pathname, items[i].href);
    ActiveMeansBelow(pathname, items[j].href);
    if ShowsAdmin(session) {
      assert items == [SearchItem, RequestsItem, AdminItem, SettingsItem];
    } else {
      assert items == [SearchItem, RequestsItem];
    }
    assert pathname[1] == items[i].href[1];
  }
}
