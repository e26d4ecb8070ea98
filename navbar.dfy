/**
 * The navbar: the mobile menu's open/closed state, the active-link test
 * against the current path, and the links both menus render.
 */
module Navbar {
  import opened Navigation

  /** `isActive(path)`: the path is the current pathname, character for character. */
  predicate IsActive(pathname: string, path: string) {
    pathname == path
  }

  datatype RenderedLink = RenderedLink(name: string, href: string, attrs: LinkAttrs, active: bool)

  /** `navigation.map(item => <Link .../>)`, as both the desktop and the mobile menu write it. */
  function RenderLinks(pathname: string, items: seq<NavItem>): (links: seq<RenderedLink>)
    ensures |links| == |items|
    ensures forall k :: 0 <= k < |items| ==>
              links[k].name == items[k].name && links[k].href == items[k].href
              && links[k].attrs == ExternalAttrs(items[k])
              && (links[k].active <==> pathname == items[k].href)
  {
    if items == [] then []
    else [RenderedLink(items[0].name, items[0].href, ExternalAttrs(items[0]), IsActive(pathname, items[0].href))]
         + RenderLinks(pathname, items[1..])
  }

  /** With distinct addresses, at most one link is highlighted, whatever the path. */
  lemma AtMostOneActive(pathname: string, items: seq<NavItem>)
    requires HrefsDistinct(items)
    ensures var links := RenderLinks(pathname, items);
            forall p, q :: 0 <= p < q < |links| ==> !(links[p].active && links[q].active)
  {
  }

  /** There is no prefix match: a path below a section does not highlight the section's link. */
  lemma NoPrefixMatch(pathname: string, section: string)
    requires |section| < |pathname| && pathname[..|section|] == section
    ensures !IsActive(pathname, section)
  {
  }

  class NavbarState {
    var isOpen: bool
    const pathname: string

    /** The mobile menu starts closed. */
    constructor (pathname: string)
      ensures !isOpen && this.pathname == pathname
    {
      isOpen := false;
      this.pathname := pathname;
    }

    /** The menu button: `setIsOpen(!isOpen)`. */
    method ToggleMenu()
      modifies this
      ensures isOpen == !old(isOpen)
    {
      isOpen := !isOpen;
    }

    /** A click on a mobile link or on the mobile "Get in Touch" button: `setIsOpen(false)`. */
    method CloseMenu()
      modifies this
      ensures !isOpen
    {
      isOpen := false;
    }

    function DesktopLinks(): seq<RenderedLink>
      reads this
    {
      RenderLinks(pathname, NavigationItems)
    }

    /** The mobile menu renders only while open, and then lists what the desktop menu lists, in order. */
    function MobileLinks(): (links: seq<RenderedLink>)
      reads this
      ensures isOpen ==> links == DesktopLinks()
      ensures !isOpen ==> links == []
    {
      if isOpen then RenderLinks(pathname, NavigationItems) else []
    }
  }

  /** Two presses of the menu button leave the menu as it was. */
  method ToggleTwice(nav: NavbarState)
    modifies nav
    ensures nav.isOpen == old(nav.isOpen)
  {
    nav.ToggleMenu();
    nav.ToggleMenu();
  }
}
