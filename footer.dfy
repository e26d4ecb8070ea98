/**
 * The footer's two link columns: "Quick Links" takes the first four
 * navigation items and never opens a new tab; "Services" takes the next four
 * and opens external ones in a new tab.
 */
module Footer {
  import opened Navigation
  import opened Text

  datatype FooterLink = FooterLink(name: string, href: string, attrs: LinkAttrs)

  /** `navigation.slice(0, 4).map(...)`, with no `target` or `rel`. */
  function QuickLinks(items: seq<NavItem>): seq<FooterLink> {
    var column := Slice(items, 0, 4);
    seq(|column|, k requires 0 <= k < |column| => FooterLink(column[k].name, column[k].href, NoAttrs))
  }

  /** `navigation.slice(4, 8).map(...)`, with the external-link rule. */
  function ServiceLinks(items: seq<NavItem>): seq<FooterLink> {
    var column := Slice(items, 4, 8);
    seq(|column|, k requires 0 <= k < |column| => FooterLink(column[k].name, column[k].href, ExternalAttrs(column[k])))
  }

  /**
   * Read one after the other, the two columns list the first eight
   * navigation items (all of them when there are at most eight) in order,
   * each once.
   */
  lemma ColumnsListFirstEight(items: seq<NavItem>)
    ensures var cols := QuickLinks(items) + ServiceLinks(items);
            var n := if |items| < 8 then |items| else 8;
            |cols| == n
            && forall k :: 0 <= k < n ==> cols[k].name == items[k].name && cols[k].href == items[k].href
  {
    var q := QuickLinks(items);
    var cols := q + ServiceLinks(items);
    var n := if |items| < 8 then |items| else 8;
    forall k | 0 <= k < n ensures cols[k].name == items[k].name && cols[k].href == items[k].href {
      if k < |q| {
        assert cols[k] == q[k];
      } else {
        assert cols[k] == ServiceLinks(items)[k - 4];
      }
    }
  }

  /** Quick links never set a target; a service link opens a new tab exactly when its item is external. */
  lemma ColumnAttributes(items: seq<NavItem>)
    ensures forall l :: l in QuickLinks(items) ==> l.attrs == NoAttrs
    ensures forall k :: 0 <= k < |ServiceLinks(items)| ==>
              (ServiceLinks(items)[k].attrs.target.Some? <==> items[4 + k].external)
  {
  }

  /** On the site's eight items: Home to Training, then Consultancy to Contact, Blog the only new tab. */
  lemma FooterOnSite()
    ensures |QuickLinks(NavigationItems)| == 4 && |ServiceLinks(NavigationItems)| == 4
    ensures forall k :: 0 <= k < 4 ==> QuickLinks(NavigationItems)[k].href == NavigationItems[k].href
    ensures forall k :: 0 <= k < 4 ==> ServiceLinks(NavigationItems)[k].href == NavigationItems[4 + k].href
    ensures forall k :: 0 <= k < 4 ==> (ServiceLinks(NavigationItems)[k].attrs.target.Some? <==> k == 2)
  {
  }
}
