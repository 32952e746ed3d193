/**
 * The dashboard's navigation rail: which links it shows and which one is
 * highlighted for the current path.
 */
module Sidebar {
  import opened Strings

  datatype NavItem = NavItem(name: string, href: string)

  const DashboardHref: string := "/dashboard"
  const SettingsHref: string := "/dashboard/settings"

  const NavItems: seq<NavItem> := [
    NavItem("Dashboard", "/dashboard"),
    NavItem("Proposals", "/dashboard/proposals"),
    NavItem("Knowledge", "/dashboard/knowledge"),
    NavItem("Brand", "/dashboard/brand"),
    NavItem("Sales", "/dashboard/sales"),
    NavItem("Settings", "/dashboard/settings")]

  /** The top of the rail: the first five items, so every item but Settings. */
  function TopRail(): (r: seq<NavItem>)
    ensures |r| == 5 && r == NavItems[..5]
    ensures forall k :: 0 <= k < |r| ==> r[k].href != SettingsHref
    ensures r[0].href == DashboardHref
  {
    NavItems[..5]
  }

  /** A top link is highlighted on its own path, and, except the dashboard link, on any path below it. */
  predicate IsActive(pathname: string, href: string)
  {
    pathname == href || (href != DashboardHref && StartsWith(pathname, href))
  }

  /** The bottom Settings link is highlighted only on its own path. */
  predicate SettingsActive(pathname: string)
  {
    pathname == SettingsHref
  }

  /** The dashboard link is highlighted on the dashboard path and nowhere else. */
  lemma DashboardExactOnly(pathname: string)
    ensures IsActive(pathname, DashboardHref) <==> pathname == DashboardHref
  {
  }

  /** Any other link is highlighted exactly on the paths that start with it. */
  lemma OtherLinksByPrefix(pathname: string, href: string)
    requires href != DashboardHref
    ensures IsActive(pathname, href) <==> href <= pathname
  {
  }

  /** Two prefixes of one text are prefixes of each other. */
  lemma PrefixesComparable(s: string, a: string, b: string)
    requires a <= s && b <= s && |a| <= |b|
    ensures a <= b
  {
    assert forall i :: 0 <= i < |a| ==> a[i] == s[i] == b[i];
  }

  lemma NotPrefix(a: string, b: string, i: nat)
    requires i < |a| && i < |b| && a[i] != b[i]
    ensures !(a <= b) && !(b <= a)
  {
  }

  /** No top link other than the dashboard's is a prefix of another top link. */
  lemma TopHrefsIndependent(i: nat, j: nat)
    requires 0 < i < 5 && j < 5 && i != j
    ensures !(NavItems[i].href <= NavItems[j].href)
  {
    var a, b := NavItems[i].href, NavItems[j].href;
    if j != 0 {
      assert a[11] != b[11];
      NotPrefix(a, b, 11);
    } else {
      assert |a| > |b|;
    }
  }

  /** At most one link of the top rail is highlighted, whatever the path. */
  lemma AtMostOneActive(pathname: string, i: nat, j: nat)
    requires i < 5 && j < 5
    requires IsActive(pathname, NavItems[i].href) && IsActive(pathname, NavItems[j].href)
    ensures i == j
  {
    if i != j {
      var a, b := NavItems[i].href, NavItems[j].href;
      assert a <= pathname && b <= pathname;
      if i == 0 || j == 0 {
        // the dashboard link needs the bare dashboard path, which is shorter than every other link
      } else if |a| <= |b| {
        PrefixesComparable(pathname, a, b);
        TopHrefsIndependent(i, j);
      } else {
        PrefixesComparable(pathname, b, a);
        TopHrefsIndependent(j, i);
      }
    }
  }

  /** On the knowledge page its link is highlighted and the dashboard link is not. */
  lemma KnowledgePageHighlight()
    ensures IsActive("/dashboard/knowledge", NavItems[2].href)
    ensures !IsActive("/dashboard/knowledge", NavItems[0].href)
  {
  }

  /** Below the settings path the bottom link is not highlighted, though the top-rail rule would highlight it. */
  lemma SettingsSubpathNotActive(rest: string)
    requires |rest| > 0
    ensures !SettingsActive(SettingsHref + rest)
    ensures IsActive(SettingsHref + rest, SettingsHref)
  {
    assert |SettingsHref + rest| > |SettingsHref|;
  }
}
