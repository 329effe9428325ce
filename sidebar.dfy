/**
 * The navigation sidebar (`Sidebar`, frontend/components/ui/sidebar.tsx).
 *
 * Its own state is two booleans, `collapsed` and `mobileOpen`; `isMobile`
 * (a media query) and `pathname` (the router) are inputs. The handlers and
 * the auto-collapse effect change the state; what is drawn is a pure function
 * of state and inputs, given here by `Render`.
 */
module Sidebar {
  import opened Wrappers

  datatype Icon = HomeIcon | FileTextIcon | PlusCircleIcon | BarChartIcon | SettingsIcon | HelpCircleIcon

  datatype NavItem = NavItem(name: string, href: string, icon: Icon)

  /** The `navItems` literal. */
  const NavItems: seq<NavItem> := [
    NavItem("Dashboard", "/", HomeIcon),
    NavItem("Claims", "/claims", FileTextIcon),
    NavItem("New Claim", "/claims/new", PlusCircleIcon),
    NavItem("Analytics", "/analytics", BarChartIcon),
    NavItem("Settings", "/settings", SettingsIcon),
    NavItem("Help", "/help", HelpCircleIcon)
  ]

  // ---------------------------------------------------------------------------
  // Derived expressions

  /** `pathname === item.href`. */
  function IsActive(pathname: string, item: NavItem): (b: bool)
    ensures b <==> pathname == item.href
    ensures |pathname| != |item.href| ==> !b
  {
    pathname == item.href
  }

  /** `(mobileOpen || !isMobile)`: the panel is mounted. */
  function PanelVisible(mobileOpen: bool, isMobile: bool): (b: bool)
    ensures !isMobile ==> b
    ensures isMobile ==> (b <==> mobileOpen)
  {
    mobileOpen || !isMobile
  }

  /** `isMobile && mobileOpen`: the dimming overlay is mounted. */
  function OverlayVisible(mobileOpen: bool, isMobile: bool): (b: bool)
    ensures !isMobile ==> !b
    ensures isMobile ==> (b <==> mobileOpen)
    ensures b ==> PanelVisible(mobileOpen, isMobile)
  {
    isMobile && mobileOpen
  }

  /** `(!collapsed || isMobile)`: brand, item names and user details are drawn. */
  function LabelsVisible(collapsed: bool, isMobile: bool): (b: bool)
    ensures isMobile ==> b
    ensures !isMobile ==> (b <==> !collapsed)
  {
    !collapsed || isMobile
  }

  /** `collapsed && !isMobile`: each item gets a tooltip with its name. */
  function TooltipsVisible(collapsed: bool, isMobile: bool): (b: bool)
    ensures isMobile ==> !b
    ensures !isMobile ==> (b <==> collapsed)
  {
    collapsed && !isMobile
  }

  /** The animated width, in pixels. */
  function PanelWidth(collapsed: bool, isMobile: bool): (w: nat)
    ensures w == 80 || w == 256
    ensures isMobile ==> w == 256
    ensures !isMobile ==> (w == 80 <==> collapsed)
  {
    if collapsed && !isMobile then 80 else 256
  }

  // ---------------------------------------------------------------------------
  // What is drawn

  datatype ItemView = ItemView(href: string, icon: Icon, text: Option<string>, tooltip: Option<string>, active: bool)

  /** The collapse button's icon. */
  datatype Chevron = ChevronLeft | ChevronRight

  datatype PanelView = PanelView(width: nat, brandShown: bool, chevron: Chevron, items: seq<ItemView>, userDetailsShown: bool)

  datatype View = View(panel: Option<PanelView>, overlay: bool)

  /** One nav link: its icon always, its name as a label or else as a tooltip, highlighted on its own path. */
  function RenderItem(item: NavItem, pathname: string, collapsed: bool, isMobile: bool): (v: ItemView)
    ensures v.href == item.href && v.icon == item.icon
    ensures v.text.Some? <==> v.tooltip.None?
    ensures v.text.Some? ==> v.text.value == item.name
    ensures v.tooltip.Some? ==> v.tooltip.value == item.name
    ensures v.text.Some? <==> LabelsVisible(collapsed, isMobile)
    ensures v.active <==> pathname == item.href
  {
    ItemView(
      item.href,
      item.icon,
      if LabelsVisible(collapsed, isMobile) then Some(item.name) else None,
      if TooltipsVisible(collapsed, isMobile) then Some(item.name) else None,
      IsActive(pathname, item))
  }

  /** `navItems.map(...)`, one entry per item in order. */
  function RenderItems(items: seq<NavItem>, pathname: string, collapsed: bool, isMobile: bool): (vs: seq<ItemView>)
    ensures |vs| == |items|
    ensures forall i :: 0 <= i < |items| ==> vs[i] == RenderItem(items[i], pathname, collapsed, isMobile)
    decreases |items|
  {
    if items == [] then []
    else [RenderItem(items[0], pathname, collapsed, isMobile)] + RenderItems(items[1..], pathname, collapsed, isMobile)
  }

  /** The whole sidebar: the panel when it is mounted, and the overlay. */
  function Render(collapsed: bool, mobileOpen: bool, isMobile: bool, pathname: string): (v: View)
    ensures v.panel.Some? <==> PanelVisible(mobileOpen, isMobile)
    ensures v.overlay <==> OverlayVisible(mobileOpen, isMobile)
    ensures v.overlay ==> v.panel.Some?
    ensures v.panel.Some? ==>
      && v.panel.value.width == PanelWidth(collapsed, isMobile)
      && (v.panel.value.brandShown <==> v.panel.value.userDetailsShown)
      && (v.panel.value.brandShown <==> LabelsVisible(collapsed, isMobile))
      && (v.panel.value.chevron == ChevronRight <==> collapsed)
      && |v.panel.value.items| == |NavItems|
  {
    View(
      if PanelVisible(mobileOpen, isMobile) then
        Some(PanelView(
          PanelWidth(collapsed, isMobile),
          LabelsVisible(collapsed, isMobile),
          if collapsed then ChevronRight else ChevronLeft,
          RenderItems(NavItems, pathname, collapsed, isMobile),
          LabelsVisible(collapsed, isMobile)))
      else None,
      OverlayVisible(mobileOpen, isMobile))
  }

  // ---------------------------------------------------------------------------
  // Properties of the view

  /** sidebar.tsx:108,149,153,178: labels and tooltips are exact complements. */
  lemma LabelsAndTooltipsComplement(collapsed: bool, isMobile: bool)
    ensures LabelsVisible(collapsed, isMobile) <==> !TooltipsVisible(collapsed, isMobile)
  {
  }

  /** sidebar.tsx:94: the panel is narrow exactly when tooltips replace the labels. */
  lemma WidthFollowsTooltips(collapsed: bool, isMobile: bool)
    ensures PanelWidth(collapsed, isMobile) == 80 <==> TooltipsVisible(collapsed, isMobile)
    ensures PanelWidth(collapsed, isMobile) == 80 || PanelWidth(collapsed, isMobile) == 256
  {
  }

  /** The hrefs of the nav items are pairwise distinct (they are the React keys). */
  lemma NavHrefsDistinct()
    ensures forall i, j :: 0 <= i < j < |NavItems| ==> NavItems[i].href != NavItems[j].href
  {
  }

  /**
   * sidebar.tsx:129-162: every item is drawn, in order, with its icon
   * whatever `collapsed` is, and its name appears exactly once, as a label or
   * as a tooltip; it is highlighted iff the path is its href.
   */
  lemma {:induction false} ItemsAlwaysNamedOnce(items: seq<NavItem>, pathname: string, collapsed: bool, isMobile: bool)
    ensures forall i :: 0 <= i < |items| ==>
      var v := RenderItems(items, pathname, collapsed, isMobile)[i];
      && v.icon == items[i].icon
      && v.href == items[i].href
      && (v.text.Some? <==> v.tooltip.None?)
      && (v.text.Some? ==> v.text.value == items[i].name)
      && (v.tooltip.Some? ==> v.tooltip.value == items[i].name)
      && (v.active <==> pathname == items[i].href)
  {
  }

  /** sidebar.tsx:130: at most one item is highlighted, and it is the one whose href is the path. */
  lemma AtMostOneActive(pathname: string, collapsed: bool, isMobile: bool, i: nat, j: nat)
    requires i < |NavItems| && j < |NavItems|
    requires RenderItems(NavItems, pathname, collapsed, isMobile)[i].active
    requires RenderItems(NavItems, pathname, collapsed, isMobile)[j].active
    ensures i == j
  {
    NavHrefsDistinct();
  }

  /** Matching is exact: `/claims/new` lights up "New Claim" only, not "Claims". */
  lemma NewClaimPathActivatesOnlyNewClaim(collapsed: bool, isMobile: bool)
    ensures forall i :: 0 <= i < |NavItems| ==>
      (RenderItems(NavItems, "/claims/new", collapsed, isMobile)[i].active <==> i == 2)
  {
    NavHrefsDistinct();
  }

  /** sidebar.tsx:89,191: the panel is mounted iff open or on desktop; the overlay iff open on mobile. */
  lemma PanelAndOverlay(collapsed: bool, mobileOpen: bool, isMobile: bool, pathname: string)
    ensures Render(collapsed, mobileOpen, isMobile, pathname).panel.Some? <==> (mobileOpen || !isMobile)
    ensures Render(collapsed, mobileOpen, isMobile, pathname).overlay <==> (isMobile && mobileOpen)
    ensures Render(collapsed, mobileOpen, isMobile, pathname).overlay ==> Render(collapsed, mobileOpen, isMobile, pathname).panel.Some?
  {
  }

  /**
   * sidebar.tsx:108,121,178: a mounted panel shows the brand and the user
   * details iff labels are visible, and its chevron points right iff the
   * sidebar is collapsed (even on mobile, where the panel stays wide).
   */
  lemma PanelContents(collapsed: bool, mobileOpen: bool, isMobile: bool, pathname: string)
    requires PanelVisible(mobileOpen, isMobile)
    ensures var p := Render(collapsed, mobileOpen, isMobile, pathname).panel;
      && p.Some?
      && (p.value.brandShown <==> (!collapsed || isMobile))
      && (p.value.userDetailsShown <==> (!collapsed || isMobile))
      && (p.value.chevron == ChevronRight <==> collapsed)
      && |p.value.items| == |NavItems|
  {
  }

  // ---------------------------------------------------------------------------
  // The component

  class SidebarComponent {
    var collapsed: bool
    var mobileOpen: bool
    /** The last value of the `(max-width: 768px)` media query. */
    var isMobile: bool

    function CurrentView(pathname: string): View
      reads this
    {
      Render(collapsed, mobileOpen, isMobile, pathname)
    }

    /** Mount: both flags start false, then the effect runs once for the initial `isMobile`. */
    constructor (mobile: bool)
      ensures isMobile == mobile && !mobileOpen
      ensures collapsed == mobile
    {
      collapsed := false;
      mobileOpen := false;
      isMobile := mobile;
      new;
      AutoCollapse();
    }

    /** The effect body. */
    method AutoCollapse()
      modifies this
      ensures isMobile == old(isMobile) && mobileOpen == old(mobileOpen)
      ensures collapsed == (old(collapsed) || isMobile)
    {
      if isMobile {
        collapsed := true;
      }
    }

    /** The media query changes; the effect runs only when its dependency does. */
    method MediaQueryChanged(mobile: bool)
      modifies this
      ensures isMobile == mobile && mobileOpen == old(mobileOpen)
      ensures collapsed == (old(collapsed) || (mobile && !old(isMobile)))
    {
      if mobile != isMobile {
        isMobile := mobile;
        AutoCollapse();
      }
    }

    /** The chevron button. */
    method ToggleCollapsed()
      modifies this
      ensures collapsed == !old(collapsed)
      ensures mobileOpen == old(mobileOpen) && isMobile == old(isMobile)
    {
      collapsed := !collapsed;
    }

    /** The menu button. */
    method ToggleMobileMenu()
      modifies this
      ensures mobileOpen == !old(mobileOpen)
      ensures collapsed == old(collapsed) && isMobile == old(isMobile)
    {
      mobileOpen := !mobileOpen;
    }

    /** `isMobile && setMobileOpen(false)` on a nav link. */
    method NavLinkClicked()
      modifies this
      ensures mobileOpen == (old(mobileOpen) && !isMobile)
      ensures collapsed == old(collapsed) && isMobile == old(isMobile)
      ensures isMobile ==> !OverlayVisible(mobileOpen, isMobile) && !PanelVisible(mobileOpen, isMobile)
    {
      if isMobile {
        mobileOpen := false;
      }
    }

    /** A click on the overlay closes the menu. */
    method OverlayClicked()
      modifies this
      ensures !mobileOpen
      ensures collapsed == old(collapsed) && isMobile == old(isMobile)
      ensures !OverlayVisible(mobileOpen, isMobile)
    {
      mobileOpen := false;
    }
  }
}
