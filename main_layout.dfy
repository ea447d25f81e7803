/**
 * The sidebar of the main layout (src/components/MainLayout.tsx): a static
 * menu filtered by permission, at most one entry expanded at a time, and the
 * "open tab" string that the page switches dispatch on.
 */
module MainLayout {
  import opened Wrappers
  import opened Auth
  import Text
  import ListView

  datatype SubItem = SubItem(title: string, path: string, permission: string)

  /** A top-level entry; `subItems` is absent for entries without a sub-menu. */
  datatype NavItem = NavItem(title: string, path: string, permission: string, subItems: Option<seq<SubItem>>)

  /** `navItems`, in menu order. */
  const NavItems: seq<NavItem> := [
    NavItem("Dashboard", "/dashboard", "admin", None),
    NavItem("HR", "/hr", "hr", Some([
      SubItem("Employees", "#hr-employees", "hr"),
      SubItem("Attendance", "#hr-attendance", "hr"),
      SubItem("Recruitment", "#hr-recruitment", "hr"),
      SubItem("Performance Management", "#hr-performance", "hr"),
      SubItem("Training & Development", "#hr-training", "hr")])),
    NavItem("Payroll", "/payroll", "hr", Some([
      SubItem("Employee Information", "#payroll-employee-info", "hr"),
      SubItem("Payroll Setup", "#payroll-setup", "hr"),
      SubItem("Payslip Generation", "#payroll-payslips", "hr"),
      SubItem("Attendance & Time Tracking", "#payroll-attendance", "hr"),
      SubItem("Earnings & Deductions", "#payroll-earnings-deductions", "hr"),
      SubItem("Statutory Contributions", "#payroll-contributions", "hr")])),
    NavItem("Sales", "/sales", "sales", None),
    NavItem("Accounting", "/accounting", "accounting", Some([
      SubItem("General Ledger", "#accounting-general-ledger", "accounting"),
      SubItem("Currencies", "#accounting-currencies", "accounting"),
      SubItem("Accounts Payable", "#accounting-payable", "accounting"),
      SubItem("Accounts Receivable", "#accounting-receivable", "accounting"),
      SubItem("Financial Reports", "#accounting-reports", "accounting"),
      SubItem("Tax Management", "#accounting-tax", "accounting")])),
    NavItem("Procurement", "/procurement", "procurement", Some([
      SubItem("Orders", "#procurement/orders", "procurement"),
      SubItem("Suppliers", "#procurement/suppliers", "procurement"),
      SubItem("Reports", "#procurement/reports", "procurement")])),
    NavItem("Inventory", "/inventory", "inventory", Some([
      SubItem("Stock", "/inventory/stock", "inventory"),
      SubItem("Categories", "#inventory/categories", "inventory"),
      SubItem("Movements", "#inventory/movements", "inventory")])),
    NavItem("Settings", "/settings", "admin", Some([
      SubItem("General", "#settings/general", "admin"),
      SubItem("Users", "#settings/users", "admin"),
      SubItem("Permissions", "#settings/permissions", "admin")]))
  ]

  /** The top-level entries shown, on desktop and on mobile alike. */
  function VisibleItems(user: Option<User>): (r: seq<NavItem>)
    ensures forall item :: item in r <==> item in NavItems && HasPermission(user, item.permission)
  {
    ListView.Filter(NavItems, (item: NavItem) => HasPermission(user, item.permission))
  }

  /** `expandedItems[path]`, where a missing key reads as `undefined`, which is falsy. */
  predicate IsExpanded(expanded: map<string, bool>, path: string) {
    path in expanded && expanded[path]
  }

  /** At most one entry is expanded. */
  predicate AtMostOneExpanded(expanded: map<string, bool>) {
    forall a, b | a in expanded && b in expanded :: expanded[a] && expanded[b] ==> a == b
  }

  /**
   * The sub-entries listed under `item`: only when the sub-menu exists and is
   * expanded (and, on desktop, the sidebar is not collapsed), and then only
   * those whose tag the user holds.
   */
  function VisibleSubItems(item: NavItem, desktop: bool, collapsed: bool, expanded: map<string, bool>, user: Option<User>): (r: seq<SubItem>)
    ensures r != [] ==> item.subItems.Some? && IsExpanded(expanded, item.path) && !(desktop && collapsed)
    ensures forall sub :: sub in r <==>
      (item.subItems.Some? && IsExpanded(expanded, item.path) && !(desktop && collapsed)
       && sub in item.subItems.value && HasPermission(user, sub.permission))
  {
    if item.subItems.Some? && IsExpanded(expanded, item.path) && !(desktop && collapsed) then
      ListView.Filter(item.subItems.value, (sub: SubItem) => HasPermission(user, sub.permission))
    else []
  }

  /**
   * The map `toggleItemExpand(path)` builds: every key already present set to
   * false, and `path` set to the negation of its previous reading.
   */
  function Toggled(expanded: map<string, bool>, path: string): (r: map<string, bool>)
    ensures r.Keys == expanded.Keys + {path}
  {
    (map k | k in expanded :: false)[path := !IsExpanded(expanded, path)]
  }

  /** After a toggle, only the toggled entry can be expanded, and it is exactly when it was not before. */
  lemma ToggledExpandsOnlyPath(expanded: map<string, bool>, path: string)
    ensures IsExpanded(Toggled(expanded, path), path) <==> !IsExpanded(expanded, path)
    ensures forall k :: k != path ==> !IsExpanded(Toggled(expanded, path), k)
    ensures AtMostOneExpanded(Toggled(expanded, path))
  {
    var r := Toggled(expanded, path);
    forall a, b | IsExpanded(r, a) && IsExpanded(r, b) ensures a == b {
      assert a == path && b == path;
    }
  }

  /** Toggling the same entry twice restores its own reading and leaves every other entry collapsed. */
  lemma ToggleTwice(expanded: map<string, bool>, path: string)
    ensures IsExpanded(Toggled(Toggled(expanded, path), path), path) == IsExpanded(expanded, path)
    ensures forall k :: k != path ==> !IsExpanded(Toggled(Toggled(expanded, path), path), k)
  {
  }

  /** On desktop, the sub-menus of two different entries are never listed at the same time. */
  lemma OneSubMenuAtATime(i: NavItem, j: NavItem, desktop: bool, collapsed: bool, expanded: map<string, bool>, user: Option<User>)
    requires AtMostOneExpanded(expanded)
    requires VisibleSubItems(i, desktop, collapsed, expanded, user) != []
    requires VisibleSubItems(j, desktop, collapsed, expanded, user) != []
    ensures i.path == j.path
  {
  }

  /** `isActivePath(path)`: the current location starts with `path`. */
  predicate IsActivePath(pathname: string, path: string) {
    Text.StartsWith(pathname, path)
  }

  /** An entry is highlighted on its own path and on every path below it. */
  lemma ActiveBelowPath(path: string, rest: string)
    ensures IsActivePath(path + rest, path)
  {
    assert (path + rest)[..|path|] == path;
  }

  /** The permission tag of each top-level entry, in menu order. */
  lemma NavPermissions()
    ensures |NavItems| == 8
    ensures forall k :: 0 <= k < |NavItems| ==>
      NavItems[k].permission == ["admin", "hr", "hr", "sales", "accounting", "procurement", "inventory", "admin"][k]
  {
  }

  /** The administrator sees every top-level entry. */
  lemma VisibleToAdmin()
    ensures VisibleItems(Some(DefaultUser())) == NavItems
  {
    NavPermissions();
    var p := (item: NavItem) => HasPermission(Some(DefaultUser()), item.permission);
    forall k | 0 <= k < |NavItems| ensures p(NavItems[k]) {
      assert NavItems[k].permission in AdminPermissions;
    }
    ListView.FilterAll(NavItems, p);
  }

  /** A visitor with no session sees no entry at all. */
  lemma HiddenWithoutSession(user: Option<User>)
    requires user.None?
    ensures VisibleItems(user) == []
  {
    NoEntryWithoutSession(NavItems, user);
  }

  lemma NoEntryWithoutSession(items: seq<NavItem>, user: Option<User>)
    requires user.None?
    ensures ListView.Filter(items, (item: NavItem) => HasPermission(user, item.permission)) == []
  {
    ListView.FilterNone(items, (item: NavItem) => HasPermission(user, item.permission));
  }

  /**
   * The layout's state. `openTab` stands for the value handed to the page's
   * `setOpenTab`, and `navigations` records the targets passed to `navigate`,
   * oldest first.
   */
  class Sidebar {
    var collapsed: bool
    var mobileMenuOpen: bool
    var expanded: map<string, bool>
    var openTab: string
    var navigations: seq<string>

    ghost predicate Valid()
      reads this
    {
      AtMostOneExpanded(expanded)
    }

    constructor ()
      ensures Valid()
      ensures !collapsed && !mobileMenuOpen && expanded == map[] && openTab == "" && navigations == []
    {
      collapsed := false;
      mobileMenuOpen := false;
      expanded := map[];
      openTab := "";
      navigations := [];
    }

    /** `toggleSidebar`: flips `collapsed` and nothing else. */
    method ToggleSidebar()
      modifies this
      ensures collapsed == !old(collapsed)
      ensures mobileMenuOpen == old(mobileMenuOpen) && expanded == old(expanded)
      ensures openTab == old(openTab) && navigations == old(navigations)
    {
      collapsed := !collapsed;
    }

    /** The menu button and the close button of the mobile menu. */
    method SetMobileMenuOpen(open: bool)
      modifies this
      ensures mobileMenuOpen == open
      ensures collapsed == old(collapsed) && expanded == old(expanded)
      ensures openTab == old(openTab) && navigations == old(navigations)
    {
      mobileMenuOpen := open;
    }

    /**
     * `toggleItemExpand(path)`: navigates to `path`, clears the open tab, and
     * expands `path` unless it was expanded, collapsing every other entry.
     */
    method ToggleItemExpand(path: string)
      modifies this
      ensures Valid()
      ensures expanded == Toggled(old(expanded), path)
      ensures IsExpanded(expanded, path) <==> !IsExpanded(old(expanded), path)
      ensures openTab == "" && navigations == old(navigations) + [path]
      ensures collapsed == old(collapsed) && mobileMenuOpen == old(mobileMenuOpen)
    {
      navigations := navigations + [path];
      openTab := "";
      ToggledExpandsOnlyPath(expanded, path);
      expanded := Toggled(expanded, path);
    }

    /**
     * `handleNavigation(path)`: the open tab ends as `path` (the intermediate
     * `""` is batched away), the mobile menu closes and the router goes to `path`.
     */
    method HandleNavigation(path: string)
      modifies this
      ensures openTab == path && !mobileMenuOpen && navigations == old(navigations) + [path]
      ensures collapsed == old(collapsed) && expanded == old(expanded)
    {
      openTab := "";
      openTab := path;
      mobileMenuOpen := false;
      navigations := navigations + [path];
    }

    /**
     * A click on a desktop entry: an entry with a sub-menu while the sidebar is
     * open, or the Dashboard entry, is toggled; any other entry is navigated
     * to. Either way the router goes to the entry's path.
     */
    method DesktopClick(item: NavItem)
      requires Valid()
      modifies this
      ensures Valid()
      ensures navigations == old(navigations) + [item.path]
      ensures collapsed == old(collapsed)
      ensures (item.subItems.Some? && !old(collapsed)) || item.title == "Dashboard" ==>
        expanded == Toggled(old(expanded), item.path) && openTab == "" && mobileMenuOpen == old(mobileMenuOpen)
      ensures !((item.subItems.Some? && !old(collapsed)) || item.title == "Dashboard") ==>
        expanded == old(expanded) && openTab == item.path && !mobileMenuOpen
    {
      if (item.subItems.Some? && !collapsed) || item.title == "Dashboard" {
        ToggleItemExpand(item.path);
      } else {
        HandleNavigation(item.path);
      }
    }

    /**
     * A click on a mobile entry: an entry with a sub-menu is toggled; any
     * other goes to `"#" + path` without touching the open tab or the menu.
     */
    method MobileClick(item: NavItem)
      requires Valid()
      modifies this
      ensures Valid()
      ensures collapsed == old(collapsed) && mobileMenuOpen == old(mobileMenuOpen)
      ensures item.subItems.Some? ==>
        expanded == Toggled(old(expanded), item.path) && openTab == "" && navigations == old(navigations) + [item.path]
      ensures item.subItems.None? ==>
        expanded == old(expanded) && openTab == old(openTab) && navigations == old(navigations) + ["#" + item.path]
    {
      if item.subItems.Some? {
        ToggleItemExpand(item.path);
      } else {
        navigations := navigations + ["#" + item.path];
      }
    }

    /** A click on a listed sub-entry, desktop or mobile: `handleNavigation(sub.path)`. */
    method SubItemClick(sub: SubItem)
      requires Valid()
      modifies this
      ensures Valid()
      ensures openTab == sub.path && !mobileMenuOpen && navigations == old(navigations) + [sub.path]
      ensures collapsed == old(collapsed) && expanded == old(expanded)
    {
      HandleNavigation(sub.path);
    }

    // ---- the handlers as src/App.tsx wires them ----
    // Every route renders `<MainLayout>` without a `setOpenTab` prop, so the
    // handlers call `undefined` and throw a TypeError at their first use of it.

    /**
     * `toggleItemExpand(path)` without `setOpenTab`: the router has already
     * been told to go to `path` when the call throws, and the expansion map
     * is never updated.
     */
    method ToggleItemExpandUnwired(path: string) returns (threw: bool)
      modifies this
      ensures threw
      ensures navigations == old(navigations) + [path]
      ensures expanded == old(expanded) && openTab == old(openTab)
      ensures collapsed == old(collapsed) && mobileMenuOpen == old(mobileMenuOpen)
    {
      navigations := navigations + [path];
      threw := true;
    }

    /** `handleNavigation(path)` without `setOpenTab`: it throws before doing anything. */
    method HandleNavigationUnwired(path: string) returns (threw: bool)
      ensures threw
    {
      threw := true;
    }

    /**
     * A desktop click as wired: an entry that would be toggled only moves
     * the router; any other entry does nothing at all. No entry expands.
     */
    method DesktopClickUnwired(item: NavItem) returns (threw: bool)
      requires Valid()
      modifies this
      ensures Valid() && threw
      ensures expanded == old(expanded) && openTab == old(openTab)
      ensures collapsed == old(collapsed) && mobileMenuOpen == old(mobileMenuOpen)
      ensures (item.subItems.Some? && !old(collapsed)) || item.title == "Dashboard" ==>
        navigations == old(navigations) + [item.path]
      ensures !((item.subItems.Some? && !old(collapsed)) || item.title == "Dashboard") ==>
        navigations == old(navigations)
    {
      if (item.subItems.Some? && !collapsed) || item.title == "Dashboard" {
        threw := ToggleItemExpandUnwired(item.path);
      } else {
        threw := HandleNavigationUnwired(item.path);
      }
    }

    /** A mobile click as wired: a sub-menu entry only moves the router, and does not expand. */
    method MobileClickUnwired(item: NavItem) returns (threw: bool)
      requires Valid()
      modifies this
      ensures Valid() && (threw <==> item.subItems.Some?)
      ensures expanded == old(expanded) && openTab == old(openTab)
      ensures collapsed == old(collapsed) && mobileMenuOpen == old(mobileMenuOpen)
      ensures item.subItems.Some? ==> navigations == old(navigations) + [item.path]
      ensures item.subItems.None? ==> navigations == old(navigations) + ["#" + item.path]
    {
      if item.subItems.Some? {
        threw := ToggleItemExpandUnwired(item.path);
      } else {
        navigations := navigations + ["#" + item.path];
        threw := false;
      }
    }

    /** A sub-entry click as wired: it throws and nothing changes. */
    method SubItemClickUnwired(sub: SubItem) returns (threw: bool)
      ensures threw
    {
      threw := HandleNavigationUnwired(sub.path);
    }
  }

  /**
   * The sidebar starts with nothing expanded and, as wired, no click ever
   * expands an entry: no sub-menu is listed on either layout, so no
   * sub-entry can be reached from the sidebar.
   */
  lemma NoSubMenuWhenNothingExpanded(item: NavItem, desktop: bool, collapsed: bool, user: Option<User>)
    ensures VisibleSubItems(item, desktop, collapsed, map[], user) == []
  {
    assert !IsExpanded(map[], item.path);
  }
}
