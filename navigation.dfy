/** The navigation tables and their active-item rule
    (src/components/layout/Sidebar.tsx, src/components/layout/MobileTabNav.tsx). */
module Navigation {
  import opened Seqs
  import Text

  datatype NavItem = NavItem(caption: string, href: string)

  /** The sidebar's main items. */
  const SidebarItems: seq<NavItem> := [
    NavItem("ホーム", "/"), NavItem("スポーツ", "/sports"), NavItem("ごはん", "/food"),
    NavItem("フリマ", "/marketplace"), NavItem("研究", "/research"), NavItem("就活", "/career")
  ]

  /** The sidebar's bottom items. */
  const SidebarBottomItems: seq<NavItem> := [NavItem("プロフィール", "/profile"), NavItem("設定", "/settings")]

  /** The mobile tab bar's table. */
  const TabItems: seq<NavItem> := [
    NavItem("ホーム", "/"), NavItem("スポーツ", "/sports"), NavItem("ごはん", "/food"),
    NavItem("フリマ", "/marketplace"), NavItem("メッセージ", "/messages"), NavItem("ランキング", "/ranking")
  ]

  /** A main item or a tab is highlighted on its own page and, except the
      home item, on every path that starts with its href. */
  predicate IsActive(pathname: string, href: string)
  {
    pathname == href || (href != "/" && Text.StartsWith(pathname, href))
  }

  /** A bottom item is highlighted only on its own page. */
  predicate IsBottomActive(pathname: string, href: string)
  {
    pathname == href
  }

  /** An active href is always a prefix of the path. */
  lemma ActiveIsPrefix(pathname: string, href: string)
    requires IsActive(pathname, href)
    ensures href <= pathname
  {
  }

  /** Home is highlighted only on exactly `/`. */
  lemma HomeOnlyAtRoot(pathname: string)
    ensures IsActive(pathname, "/") <==> pathname == "/"
  {
  }

  /** Every path under a non-home href highlights it. */
  lemma SubpathActivates(href: string, rest: string)
    requires href != "/"
    ensures IsActive(href + rest, href)
  {
    assert (href + rest)[..|href|] == href;
  }

  /** The prefix test does not look at path segments. */
  lemma NotSegmentAware()
    ensures IsActive("/sportsX", "/sports")
  {
    SubpathActivates("/sports", "X");
    assert "/sports" + "X" == "/sportsX";
  }

  /** Bottom items are not highlighted below their page. */
  lemma BottomItemsExact(href: string, rest: string)
    requires rest != []
    ensures !IsBottomActive(href + rest, href)
  {
    assert |href + rest| != |href|;
  }

  /** At most six tabs are drawn. */
  function VisibleTabs(items: seq<NavItem>): (r: seq<NavItem>)
    ensures |r| == Min(6, |items|) && r <= items
    ensures |items| <= 6 ==> r == items
  {
    Take(items, 6)
  }

  /** Distinct hrefs, none a prefix of another apart from the home href. */
  predicate Unambiguous(items: seq<NavItem>)
  {
    forall i, j :: 0 <= i < |items| && 0 <= j < |items| && i != j ==>
      items[i].href != items[j].href && (items[i].href == "/" || !(items[i].href <= items[j].href))
  }

  /** Two prefixes of one string are prefixes of each other. */
  lemma PrefixesComparable(a: string, b: string, s: string)
    requires a <= s && b <= s && |a| <= |b|
    ensures a <= b
  {
    assert b[..|a|] == s[..|a|];
  }

  /** In an unambiguous table at most one item is highlighted for any path. */
  lemma AtMostOneActive(items: seq<NavItem>, pathname: string, i: nat, j: nat)
    requires Unambiguous(items) && i < |items| && j < |items|
    requires IsActive(pathname, items[i].href) && IsActive(pathname, items[j].href)
    ensures i == j
  {
    if i != j {
      var a, b := items[i].href, items[j].href;
      if a == "/" || b == "/" {
      } else if |a| <= |b| {
        PrefixesComparable(a, b, pathname);
      } else {
        PrefixesComparable(b, a, pathname);
      }
    }
  }

  /** Strings that differ at a position shared by both are not prefixes of each other. */
  lemma DifferAt(a: string, b: string, k: nat)
    requires k < |a| && k < |b| && a[k] != b[k]
    ensures a != b && !(a <= b) && !(b <= a)
  {
  }

  /** Every href starts with `/`, only home is just `/`, and any two other
      hrefs differ in their second or third character. */
  predicate SeparatedHrefs(items: seq<NavItem>)
  {
    (forall i :: 0 <= i < |items| ==> |items[i].href| >= 1 && items[i].href[0] == '/') &&
    (forall i :: 0 <= i < |items| ==> items[i].href == "/" || |items[i].href| >= 3) &&
    (forall i, j :: 0 <= i < |items| && 0 <= j < |items| && i != j ==>
       (items[i].href == "/") != (items[j].href == "/") ||
       (items[i].href != "/" && items[j].href != "/" &&
        (items[i].href[1] != items[j].href[1] || items[i].href[2] != items[j].href[2])))
  }

  lemma SeparatedIsUnambiguous(items: seq<NavItem>)
    requires SeparatedHrefs(items)
    ensures Unambiguous(items)
  {
    forall i, j | 0 <= i < |items| && 0 <= j < |items| && i != j
      ensures items[i].href != items[j].href && (items[i].href == "/" || !(items[i].href <= items[j].href))
    {
      var a, b := items[i].href, items[j].href;
      if a != "/" && b != "/" {
        DifferAt(a, b, if a[1] != b[1] then 1 else 2);
      } else if a == "/" {
        assert |b| >= 3;
      } else {
        assert |a| >= 3;
      }
    }
  }

  lemma TabTableUnambiguous()
    ensures Unambiguous(TabItems)
  {
    var t := TabItems;
    assert t[0].href == "/" && t[1].href == "/sports" && t[2].href == "/food";
    assert t[3].href == "/marketplace" && t[4].href == "/messages" && t[5].href == "/ranking";
    forall i, j | 0 <= i < |t| && 0 <= j < |t| && i != j
      ensures (t[i].href == "/") != (t[j].href == "/") ||
              (t[i].href != "/" && t[j].href != "/" && (t[i].href[1] != t[j].href[1] || t[i].href[2] != t[j].href[2]))
    {
      assert i == 0 || i == 1 || i == 2 || i == 3 || i == 4 || i == 5;
      assert j == 0 || j == 1 || j == 2 || j == 3 || j == 4 || j == 5;
    }
    SeparatedIsUnambiguous(t);
  }

  lemma SidebarTableUnambiguous()
    ensures Unambiguous(SidebarItems)
  {
    var t := SidebarItems;
    assert t[0].href == "/" && t[1].href == "/sports" && t[2].href == "/food";
    assert t[3].href == "/marketplace" && t[4].href == "/research" && t[5].href == "/career";
    forall i, j | 0 <= i < |t| && 0 <= j < |t| && i != j
      ensures (t[i].href == "/") != (t[j].href == "/") ||
              (t[i].href != "/" && t[j].href != "/" && (t[i].href[1] != t[j].href[1] || t[i].href[2] != t[j].href[2]))
    {
      assert i == 0 || i == 1 || i == 2 || i == 3 || i == 4 || i == 5;
      assert j == 0 || j == 1 || j == 2 || j == 3 || j == 4 || j == 5;
    }
    SeparatedIsUnambiguous(t);
  }
}
