/**
 * The application header: the navigation list with "Account" hidden once
 * signed in, which entry is highlighted for the current location, the
 * avatar's initial, and the menu flags its handlers flip.
 */
module AppHeader {
  import opened Wrappers
  import opened Seqs
  import opened Text
  import Snackbar

  /** `NavigationItemType` without its icon component. */
  datatype NavItem = NavItem(caption: string, path: string, icon: string)

  const NavigationItems: seq<NavItem> := [
    NavItem("Dashboard", "/dashboard", "LayoutDashboard"),
    NavItem("Products", "/products", "Package"),
    NavItem("Cart", "/shopping-cart", "ShoppingCart"),
    NavItem("Account", "/user-authentication", "User"),
    NavItem("E Book", "/ebook", "Book"),
    NavItem("Library", "/library", "LibraryBig")
  ]

  /** Whether the desktop navigation shows `item`. */
  predicate Shown(item: NavItem, isAuthenticated: bool) {
    item.caption != "Account" || !isAuthenticated
  }

  /** The `filter` behind `filteredNavItems`, over any list of items. */
  function NavFilter(items: seq<NavItem>, isAuthenticated: bool): seq<NavItem> {
    Filter((item: NavItem) => Shown(item, isAuthenticated), items)
  }

  /** `filteredNavItems`, the desktop navigation. */
  function FilteredNavItems(isAuthenticated: bool): (r: seq<NavItem>)
    ensures forall item :: item in r <==> item in NavigationItems && (item.caption != "Account" || !isAuthenticated)
    ensures !isAuthenticated ==> r == NavigationItems
  {
    FilteredNavItemsSpec(NavigationItems, isAuthenticated);
    NavFilter(NavigationItems, isAuthenticated)
  }

  /**
   * The desktop navigation is the mobile list (`NavigationItems`, always all
   * six) with "Account" removed exactly when somebody is signed in, in order.
   */
  lemma FilteredNavItemsSpec(items: seq<NavItem>, isAuthenticated: bool)
    ensures forall item :: item in NavFilter(items, isAuthenticated) <==>
      item in items && (item.caption != "Account" || !isAuthenticated)
    ensures IsSubsequence(NavFilter(items, isAuthenticated), items)
    ensures !isAuthenticated ==> NavFilter(items, isAuthenticated) == items
  {
    var shown := (item: NavItem) => Shown(item, isAuthenticated);
    assert NavFilter(items, isAuthenticated) == Filter(shown, items);
    FilterIsSubsequence(shown, items);
    if !isAuthenticated {
      FilterKeepsAll(shown, items);
    }
  }

  /** Signed in, the desktop navigation is the mobile list without "Account". */
  lemma SignedInNavItems()
    ensures FilteredNavItems(true) == NavigationItems[..3] + NavigationItems[4..]
  {
    var shown := (item: NavItem) => Shown(item, true);
    var s := NavigationItems;
    assert FilteredNavItems(true) == NavFilter(s, true) == Filter(shown, s);
    forall i | 0 <= i < |s| ensures shown(s[i]) <==> i != 3 {
      OnlyAccountHidden(i);
    }
    FilterDropsOne(shown, s, 3);
  }

  /** Of the six entries, signing in hides the fourth ("Account") alone. */
  lemma OnlyAccountHidden(i: nat)
    requires i < |NavigationItems|
    ensures Shown(NavigationItems[i], true) <==> i != 3
  {
    if i == 5 {
      assert "Library"[0] != "Account"[0];
    }
  }

  /** `isActivePath(path)` at location `pathname`. */
  predicate IsActivePath(pathname: string, path: string) {
    if StartsWith(path, "/products") then StartsWith(pathname, "/products") else pathname == path
  }

  /** Every page below "/products" (a product's details page) highlights "Products". */
  lemma ProductPagesHighlightProducts(pathname: string)
    requires StartsWith(pathname, "/products")
    ensures IsActivePath(pathname, "/products")
  {
  }

  /** Whatever the location, at most one navigation entry is highlighted. */
  lemma AtMostOneActive(pathname: string, i: nat, j: nat)
    requires i < j < |NavigationItems|
    ensures !(IsActivePath(pathname, NavigationItems[i].path) && IsActivePath(pathname, NavigationItems[j].path))
  {
    if i != 1 {
      PlainPath(i);
    }
    if j != 1 {
      PlainPath(j);
    }
    PathLengthsDiffer(i, j);
  }

  /** Every entry but "Products" is highlighted only at its own path. */
  lemma PlainPath(k: nat)
    requires k < |NavigationItems| && k != 1
    ensures !StartsWith(NavigationItems[k].path, "/products")
  {
    if k != 5 {
      assert NavigationItems[k].path[1] != "/products"[1];
    }
  }

  /** No two entries share a path: their lengths already differ. */
  lemma PathLengthsDiffer(i: nat, j: nat)
    requires i < j < |NavigationItems|
    ensures |NavigationItems[i].path| != |NavigationItems[j].path|
  {
  }

  /** The upper-cased first character of `s`, or "" for "" (`s.charAt(0).toUpperCase()`). */
  function FirstUpper(s: string): (r: string)
    ensures r == Upper(Take(s, 1))
  {
    if s == "" then "" else [UpperChar(s[0])]
  }

  /**
   * `nameInitial`: from the full name when it is non-empty, else from the
   * email; undefined when there is no email either.
   */
  function NameInitial(fullName: string, email: Option<string>): (r: Option<string>)
    ensures fullName != "" ==> r == Some([UpperChar(fullName[0])])
    ensures fullName == "" ==> (r.None? <==> email.None?)
    ensures fullName == "" && email.Some? ==> r == Some(Upper(Take(email.value, 1)))
  {
    if fullName != "" then Some(FirstUpper(fullName))
    else if email.Some? then Some(FirstUpper(email.value))
    else None
  }

  /** The header's menu and modal flags. */
  class HeaderState {
    var mobileMenuOpen: bool
    var isProfileMenuOpen: bool
    var showLogoutModal: bool

    constructor ()
      ensures !mobileMenuOpen && !isProfileMenuOpen && !showLogoutModal
    {
      mobileMenuOpen := false;
      isProfileMenuOpen := false;
      showLogoutModal := false;
    }

    /** `toggleMobileMenu`: flips the flag, so two calls restore it. */
    method ToggleMobileMenu()
      modifies this
      ensures mobileMenuOpen == !old(mobileMenuOpen)
      ensures isProfileMenuOpen == old(isProfileMenuOpen) && showLogoutModal == old(showLogoutModal)
    {
      mobileMenuOpen := !mobileMenuOpen;
    }

    /** The avatar button: flips the profile menu, so two clicks restore it. */
    method ToggleProfileMenu()
      modifies this
      ensures isProfileMenuOpen == !old(isProfileMenuOpen)
      ensures mobileMenuOpen == old(mobileMenuOpen) && showLogoutModal == old(showLogoutModal)
    {
      isProfileMenuOpen := !isProfileMenuOpen;
    }

    /** A click on the profile menu's link closes that menu. */
    method CloseProfileMenu()
      modifies this
      ensures !isProfileMenuOpen
      ensures mobileMenuOpen == old(mobileMenuOpen) && showLogoutModal == old(showLogoutModal)
    {
      isProfileMenuOpen := false;
    }

    /** A click on a mobile menu link closes the menu. */
    method CloseMobileMenu()
      modifies this
      ensures !mobileMenuOpen
      ensures isProfileMenuOpen == old(isProfileMenuOpen) && showLogoutModal == old(showLogoutModal)
    {
      mobileMenuOpen := false;
    }

    /** The document's mouse-down handler: a press outside the profile menu closes it. */
    method HandleOutsideClick(insideProfile: bool)
      modifies this
      ensures !insideProfile ==> !isProfileMenuOpen
      ensures insideProfile ==> isProfileMenuOpen == old(isProfileMenuOpen)
      ensures mobileMenuOpen == old(mobileMenuOpen) && showLogoutModal == old(showLogoutModal)
    {
      if !insideProfile {
        isProfileMenuOpen := false;
      }
    }

    /**
     * `handleLogout`: closes the profile menu, opens the logout modal and,
     * once signed out, shows a success snackbar.
     */
    method HandleLogout(snackbars: Snackbar.SnackbarStore, freshId: string)
      modifies this, snackbars
      ensures !isProfileMenuOpen && showLogoutModal && mobileMenuOpen == old(mobileMenuOpen)
      ensures snackbars.snackbars == old(snackbars.snackbars) + [Snackbar.SnackbarItem(freshId, "Logout successful!", Snackbar.Success)]
    {
      isProfileMenuOpen := false;
      showLogoutModal := true;
      snackbars.Show("Logout successful!", Snackbar.Success, freshId);
    }
  }
}

/** The performance monitor: a three-band status per timing metric. */
module PerformanceMonitor {
  import opened Wrappers

  datatype MetricStatus = Success | Warning | Error

  datatype Thresholds = Thresholds(good: int, moderate: int)

  /** `getMetricStatus`. */
  function GetMetricStatus(value: int, t: Thresholds): (s: MetricStatus)
    ensures s == Success <==> value <= t.good
    ensures s == Warning <==> t.good < value <= t.moderate
    ensures s == Error <==> value > t.good && value > t.moderate
  {
    if value <= t.good then Success
    else if value <= t.moderate then Warning
    else Error
  }

  /** Success before warning before error. */
  function Severity(s: MetricStatus): (n: nat)
    ensures n <= 2
  {
    match s
    case Success => 0
    case Warning => 1
    case Error => 2
  }

  /** With ordered thresholds the status never improves as the value grows. */
  lemma StatusMonotone(v: int, w: int, t: Thresholds)
    requires t.good <= t.moderate && v <= w
    ensures Severity(GetMetricStatus(v, t)) <= Severity(GetMetricStatus(w, t))
  {
  }

  const TtfbThresholds: Thresholds := Thresholds(100, 300)
  const TfpThresholds: Thresholds := Thresholds(1000, 2500)

  /** `ttfbStatus`: time to first byte, in milliseconds. */
  function TtfbStatus(ttfb: int): (s: MetricStatus)
    ensures s == Success <==> ttfb <= 100
    ensures s == Warning <==> 100 < ttfb <= 300
    ensures s == Error <==> ttfb > 300
  {
    GetMetricStatus(ttfb, TtfbThresholds)
  }

  /** `tfpStatus`: time to first paint, in milliseconds. */
  function TfpStatus(tfp: int): (s: MetricStatus)
    ensures s == Success <==> tfp <= 1000
    ensures s == Warning <==> 1000 < tfp <= 2500
    ensures s == Error <==> tfp > 2500
  {
    GetMetricStatus(tfp, TfpThresholds)
  }

  /** `STATUS_COLOR_MAP`. */
  function StatusColor(s: MetricStatus): (r: string)
    ensures r == "bg-success" <==> s == Success
    ensures r == "bg-warning" <==> s == Warning
    ensures r == "bg-error" <==> s == Error
  {
    match s
    case Success => "bg-success"
    case Warning => "bg-warning"
    case Error => "bg-error"
  }

  /** `Math.round`: the nearest integer, halves rounded up. */
  function Round(x: real): (r: int)
    ensures x - 0.5 < r as real <= x + 0.5
  {
    (x + 0.5).Floor
  }

  /** The first navigation entry's request and response start times. */
  datatype NavTiming = NavTiming(requestStart: real, responseStart: real)

  class Monitor {
    var isExpanded: bool
    var ttfb: int
    var tfp: int
    var timestamp: int

    constructor (now: int)
      ensures !isExpanded && ttfb == 0 && tfp == 0 && timestamp == now
    {
      isExpanded := false;
      ttfb := 0;
      tfp := 0;
      timestamp := now;
    }

    /**
     * `measurePerformance`, with the Performance API's entries and the clock
     * as parameters: nothing changes without a navigation entry; otherwise
     * the rounded time to first byte, the rounded first-paint time (0 without
     * one) and the time of the reading.
     */
    method MeasurePerformance(nav: Option<NavTiming>, firstPaint: Option<real>, now: int)
      modifies this
      ensures nav.None? ==> ttfb == old(ttfb) && tfp == old(tfp) && timestamp == old(timestamp)
      ensures nav.Some? ==> ttfb == Round(nav.value.responseStart - nav.value.requestStart)
      ensures nav.Some? ==> tfp == Round(firstPaint.GetOr(0.0)) && timestamp == now
      ensures isExpanded == old(isExpanded)
    {
      if nav.None? {
        return;
      }
      ttfb := Round(nav.value.responseStart - nav.value.requestStart);
      tfp := Round(firstPaint.GetOr(0.0));
      timestamp := now;
    }

    /** The toggle button. */
    method ToggleExpanded()
      modifies this
      ensures isExpanded == !old(isExpanded)
      ensures ttfb == old(ttfb) && tfp == old(tfp) && timestamp == old(timestamp)
    {
      isExpanded := !isExpanded;
    }
  }

  /** Example: before the first reading both metrics show success. */
  lemma InitialMetricsSucceed()
    ensures TtfbStatus(0) == Success && TfpStatus(0) == Success
  {
  }
}
