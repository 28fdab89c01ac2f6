/** The page frame: role-filtered navigation, the sign-out button and the
    mobile sidebar's open/closed state. */
module Layout {
  import opened Common
  import opened Types
  import opened Constants

  /** Whether a navigation entry is listed: always without a user, otherwise
      when the entry's roles include the user's role. */
  function VisibleTo(user: Option<User>): NavItem -> bool {
    (item: NavItem) => user.None? || user.value.role in item.roles
  }

  /** `filteredNav`: the navigation table filtered by role, in table order. */
  function FilteredNav(user: Option<User>): (r: seq<NavItem>)
    ensures |r| <= |NAV_ITEMS|
    ensures forall i :: 0 <= i < |r| ==> r[i] in NAV_ITEMS && VisibleTo(user)(r[i])
  {
    Filter(VisibleTo(user), NAV_ITEMS)
  }

  /** An entry of the table is listed exactly when it is visible to the user. */
  lemma FilteredNavHas(user: Option<User>, i: nat)
    requires i < |NAV_ITEMS|
    ensures NAV_ITEMS[i] in FilteredNav(user) <==> VisibleTo(user)(NAV_ITEMS[i])
  {
    FilterHas(VisibleTo(user), NAV_ITEMS, i);
  }

  /** Without a user (the login screen) and for an admin, every entry is listed. */
  lemma FilteredNavAll(user: Option<User>)
    requires user.None? || user.value.role == Admin
    ensures FilteredNav(user) == NAV_ITEMS
  {
    NavRoles();
    forall i | 0 <= i < |NAV_ITEMS| ensures VisibleTo(user)(NAV_ITEMS[i]) {
      assert user.None? || Admin in NAV_ITEMS[i].roles;
    }
    FilterKeepsAll(VisibleTo(user), NAV_ITEMS);
  }

  /** A staff member sees exactly one entry: the new-entry form. */
  lemma FilteredNavStaff(u: User)
    requires u.role == Staff
    ensures FilteredNav(Some(u)) == [NAV_ITEMS[2]]
    ensures FilteredNav(Some(u))[0].path == "/add"
  {
    var p := VisibleTo(Some(u));
    var front, back := NAV_ITEMS[..2], NAV_ITEMS[3..];
    assert NAV_ITEMS == front + [NAV_ITEMS[2]] + back;
    FilterDropsAll(p, front);
    FilterDropsAll(p, back);
    FilterConcat(p, front, [NAV_ITEMS[2]]);
    FilterConcat(p, front + [NAV_ITEMS[2]], back);
    assert Filter(p, [NAV_ITEMS[2]]) == [NAV_ITEMS[2]];
  }

  /** The sign-out button is rendered only for a signed-in user. */
  predicate ShowSignOut(user: Option<User>) {
    user.Some?
  }

  /** The sidebar state of the frame. */
  class LayoutView {
    var sidebarOpen: bool

    constructor()
      ensures !sidebarOpen
    {
      sidebarOpen := false;
    }

    /** The menu button flips the sidebar. */
    method ToggleMenu()
      modifies this
      ensures sidebarOpen == !old(sidebarOpen)
    {
      sidebarOpen := !sidebarOpen;
    }

    /** Following a navigation link closes the sidebar. */
    method NavLinkClick()
      modifies this
      ensures !sidebarOpen
    {
      sidebarOpen := false;
    }

    /** The overlay, shown only while the sidebar is open, closes it when clicked. */
    method OverlayClick()
      requires sidebarOpen
      modifies this
      ensures !sidebarOpen
    {
      sidebarOpen := false;
    }

    /** The menu button pressed twice leaves the sidebar as it was. */
    method ToggleTwice()
      modifies this
      ensures sidebarOpen == old(sidebarOpen)
    {
      ToggleMenu();
      ToggleMenu();
    }
  }
}
