/** The sidebar's navigation: which entries are highlighted for the current
    path, and the mobile sheet closing when an entry is followed. */
module Sidebar {
  import opened Util

  datatype NavItem = NavItem(name: string, href: string)

  /** The main menu, in display order. */
  const Navigation: seq<NavItem> := [
    NavItem("Dashboard", "/"),
    NavItem("Students", "/students"),
    NavItem("Analytics", "/analytics"),
    NavItem("Upload Data", "/upload"),
    NavItem("Reports", "/reports")
  ]

  /** The "System" menu. */
  const SecondaryNavigation: seq<NavItem> := [NavItem("Settings", "/settings")]

  /** A main entry is highlighted on its own path and, except for the root,
      on every path its href is a textual prefix of. */
  predicate IsActiveMain(pathname: string, item: NavItem)
    ensures IsActiveMain(pathname, item) ==> StartsWith(pathname, item.href)
    ensures item.href == "/" ==> (IsActiveMain(pathname, item) <==> pathname == "/")
  {
    assert pathname[..|pathname|] == pathname;
    pathname == item.href || (item.href != "/" && StartsWith(pathname, item.href))
  }

  /** A secondary entry is highlighted on its own path only, so it is never
      highlighted where the main rule would not highlight it. */
  predicate IsActiveSecondary(pathname: string, item: NavItem)
    ensures IsActiveSecondary(pathname, item) ==> IsActiveMain(pathname, item)
  {
    pathname == item.href
  }

  /** The highlighted main entries, in menu order. */
  function ActiveMain(pathname: string): (r: seq<NavItem>)
    ensures |r| <= |Navigation|
    ensures forall item :: item in r <==> item in Navigation && IsActiveMain(pathname, item)
  {
    Filter(Navigation, item => IsActiveMain(pathname, item))
  }

  /** A detail path highlights its section; the test is textual, so a path
      that merely begins with the same letters does too. */
  lemma PrefixActivates()
    ensures IsActiveMain("/students/42", Navigation[1])
    ensures IsActiveMain("/studentsX", Navigation[1])
    ensures !IsActiveMain("/students", Navigation[0])
  {
    assert "/students/42"[..9] == "/students";
    assert "/studentsX"[..9] == "/students";
  }

  /** No main href other than the root is a prefix of another. */
  lemma HrefsIndependent(i: nat, j: nat)
    requires 1 <= i < |Navigation| && 1 <= j < |Navigation| && i != j
    ensures !StartsWith(Navigation[j].href, Navigation[i].href)
  {
    var a, b := Navigation[i].href, Navigation[j].href;
    if |a| <= |b| {
      assert a[1] != b[1] || a[2] != b[2] || a[3] != b[3];
    }
  }

  /** For any path at most one main entry is highlighted. */
  lemma AtMostOneActive(pathname: string)
    ensures forall i, j :: 0 <= i < j < |Navigation| ==>
              !(IsActiveMain(pathname, Navigation[i]) && IsActiveMain(pathname, Navigation[j]))
    ensures |ActiveMain(pathname)| <= 1
  {
    forall i, j | 0 <= i < j < |Navigation|
      ensures !(IsActiveMain(pathname, Navigation[i]) && IsActiveMain(pathname, Navigation[j]))
    {
      var a, b := Navigation[i].href, Navigation[j].href;
      if IsActiveMain(pathname, Navigation[i]) && IsActiveMain(pathname, Navigation[j]) {
        if i == 0 {
          // the root is only active on "/", which no other href prefixes
        } else if |a| <= |b| {
          PrefixesNest(pathname, a, b);
          HrefsIndependent(i, j);
        } else {
          PrefixesNest(pathname, b, a);
          HrefsIndependent(j, i);
        }
      }
    }
    FilterAtMostOne(Navigation, item => IsActiveMain(pathname, item));
  }

  /** A secondary entry is not highlighted below its path, where a main
      entry with the same href (other than the root) would be. */
  lemma SecondaryExactOnly(item: NavItem, suffix: string)
    requires suffix != []
    ensures !IsActiveSecondary(item.href + suffix, item)
    ensures item.href != "/" ==> IsActiveMain(item.href + suffix, item)
  {
    assert (item.href + suffix)[..|item.href|] == item.href;
  }

  /** The mobile sheet's open flag. */
  datatype Sheet = Sheet(open: bool)

  /** onOpenChange: the sheet takes the state it is asked for. */
  function OnOpenChange(sheet: Sheet, open: bool): (r: Sheet)
    ensures r.open == open
  {
    Sheet(open)
  }

  /** onNavigate: following any entry from the sheet closes it. */
  function OnNavigate(sheet: Sheet): (r: Sheet)
    ensures !r.open
  {
    Sheet(false)
  }
}
