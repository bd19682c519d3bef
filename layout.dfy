/**
 * The sidebar of the application layout: which navigation items a visitor
 * sees, which one is highlighted, and how each is rendered.
 */
module Layout {
  import opened Wrappers

  /** A navigation entry; an entry without `to` would render as a button running its action. */
  datatype NavItem = NavItem(text: string, to: Option<string>, adminOnly: bool)

  const NavItems: seq<NavItem> := [
    NavItem("Главная", Some("/"), false),
    NavItem("Технологии", Some("/technologies"), false),
    NavItem("Проекты", Some("/projects"), false),
    NavItem("Команды", Some("/teams"), false),
    NavItem("Пользователи", Some("/users"), true),
    NavItem("Админ", Some("/admin"), true)
  ]

  predicate Shown(item: NavItem, isAdmin: bool)
  {
    !item.adminOnly || isAdmin
  }

  /** `items.filter(item => !item.adminOnly || isAdmin)` */
  function Visible(items: seq<NavItem>, isAdmin: bool): (shown: seq<NavItem>)
    ensures |shown| <= |items|
  {
    if |items| == 0 then []
    else (if Shown(items[0], isAdmin) then [items[0]] else []) + Visible(items[1..], isAdmin)
  }

  /** The visible items are exactly the items the visitor may see. */
  lemma {:induction false} VisibleMembers(items: seq<NavItem>, isAdmin: bool, x: NavItem)
    ensures x in Visible(items, isAdmin) <==> x in items && Shown(x, isAdmin)
  {
    if |items| > 0 {
      VisibleMembers(items[1..], isAdmin, x);
      assert items == [items[0]] + items[1..];
    }
  }

  /** Filtering a concatenation filters each part: the filter keeps the items' relative order. */
  lemma {:induction false} VisibleAppend(a: seq<NavItem>, b: seq<NavItem>, isAdmin: bool)
    ensures Visible(a + b, isAdmin) == Visible(a, isAdmin) + Visible(b, isAdmin)
  {
    if |a| == 0 {
      assert a + b == b;
    } else {
      var head := if Shown(a[0], isAdmin) then [a[0]] else [];
      VisibleAppend(a[1..], b, isAdmin);
      assert (a + b)[1..] == a[1..] + b;
      assert (a + b)[0] == a[0];
      assert Visible(a + b, isAdmin) == head + (Visible(a[1..], isAdmin) + Visible(b, isAdmin));
      assert Visible(a, isAdmin) == head + Visible(a[1..], isAdmin);
      assert head + (Visible(a[1..], isAdmin) + Visible(b, isAdmin)) == (head + Visible(a[1..], isAdmin)) + Visible(b, isAdmin);
    }
  }

  /** Items every visitor may see all stay, and admin-only items all go for a non-admin. */
  lemma {:induction false} VisibleExtremes(items: seq<NavItem>, isAdmin: bool)
    ensures (isAdmin || forall k :: 0 <= k < |items| ==> !items[k].adminOnly) ==> Visible(items, isAdmin) == items
    ensures (forall k :: 0 <= k < |items| ==> items[k].adminOnly) ==> Visible(items, false) == []
  {
    if |items| > 0 {
      VisibleExtremes(items[1..], isAdmin);
      assert items == [items[0]] + items[1..];
    }
  }

  /** The sidebar: four items for everyone, the two admin pages on top of them for admins. */
  lemma SidebarForRoles()
    ensures Visible(NavItems, false) == NavItems[..4] && |Visible(NavItems, false)| == 4
    ensures Visible(NavItems, true) == NavItems && |Visible(NavItems, true)| == 6
  {
    VisibleExtremes(NavItems, true);
    assert NavItems == NavItems[..4] + NavItems[4..];
    VisibleAppend(NavItems[..4], NavItems[4..], false);
    VisibleExtremes(NavItems[..4], false);
    VisibleExtremes(NavItems[4..], false);
  }

  /** `location.pathname === item.to` */
  predicate Active(pathname: string, item: NavItem)
  {
    item.to == Some(pathname)
  }

  /** The React key of an entry: `to ?? label`. */
  function Key(item: NavItem): string
  {
    item.to.GetOr(item.text)
  }

  /** An entry renders as a link exactly when it has a non-empty `to`. */
  predicate IsLink(item: NavItem)
  {
    item.to.Some? && item.to.value != ""
  }

  /** No two items lead to the same place. */
  predicate DistinctTargets(items: seq<NavItem>)
  {
    forall i, j :: 0 <= i < j < |items| ==> items[i].to != items[j].to
  }

  /** Among items with distinct targets, at most one is active on any path. */
  lemma AtMostOneActive(items: seq<NavItem>, pathname: string, i: int, j: int)
    requires DistinctTargets(items)
    requires 0 <= i < |items| && 0 <= j < |items|
    requires Active(pathname, items[i]) && Active(pathname, items[j])
    ensures i == j
  {
  }

  /** Every sidebar entry is a link whose key is its target, and the sidebar never shows two targets twice. */
  lemma SidebarEntries(isAdmin: bool)
    ensures forall k :: 0 <= k < |NavItems| ==> IsLink(NavItems[k]) && Key(NavItems[k]) == NavItems[k].to.value
    ensures DistinctTargets(Visible(NavItems, isAdmin))
  {
    SidebarForRoles();
    TargetsDistinct();
  }

  /** The six targets differ in length, or else in their first letter. */
  lemma TargetsDistinct()
    ensures DistinctTargets(NavItems)
  {
    var t := seq(6, k requires 0 <= k < 6 => NavItems[k].to.value);
    assert |t[0]| == 1 && |t[1]| == 13 && |t[2]| == 9 && |t[3]| == 6 && |t[4]| == 6 && |t[5]| == 6;
    assert t[3][1] == 't' && t[4][1] == 'u' && t[5][1] == 'a';
    forall i, j | 0 <= i < j < 6 ensures NavItems[i].to != NavItems[j].to {
      assert t[i] != t[j];
    }
  }
}
