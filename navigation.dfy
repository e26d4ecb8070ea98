/** The site's navigation list, shared by the navbar and the footer, and the rule for external links. */
module Navigation {
  import opened Wrappers

  datatype NavItem = NavItem(name: string, href: string, external: bool)

  const NavigationItems := [
    NavItem("Home", "/", false),
    NavItem("About", "/about", false),
    NavItem("Courses", "/courses", false),
    NavItem("Training", "/training", false),
    NavItem("Consultancy", "/consultancy", false),
    NavItem("Resources", "/resources", false),
    NavItem("Blog", "https://blog.easi.ac.ug/", true),
    NavItem("Contact", "/contact", false)
  ]

  /** The `target` and `rel` attributes of a link; `None` leaves the attribute off. */
  datatype LinkAttrs = LinkAttrs(target: Option<string>, rel: Option<string>)

  const NoAttrs := LinkAttrs(None, None)

  /**
   * `target={item.external ? '_blank' : undefined}` and
   * `rel={item.external ? 'noopener noreferrer' : undefined}`: an external
   * item opens in a new tab without an opener, any other item sets neither.
   */
  function ExternalAttrs(item: NavItem): (a: LinkAttrs)
    ensures a.target.Some? <==> item.external
    ensures a.rel.Some? <==> item.external
    ensures item.external ==> a == LinkAttrs(Some("_blank"), Some("noopener noreferrer"))
  {
    if item.external then LinkAttrs(Some("_blank"), Some("noopener noreferrer")) else NoAttrs
  }

  /** No two items share an `href`. */
  predicate HrefsDistinct(items: seq<NavItem>) {
    forall p, q :: 0 <= p < q < |items| ==> items[p].href != items[q].href
  }

  /** The site's list has eight entries, one external, all with different addresses. */
  lemma NavigationShape()
    ensures |NavigationItems| == 8 && HrefsDistinct(NavigationItems)
    ensures forall k :: 0 <= k < 8 ==> (NavigationItems[k].external <==> k == 6)
  {
  }
}
