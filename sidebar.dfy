/**
 * The sidebar menu (app/components/layout/Sidebar.tsx): the fixed menu and
 * the rule that highlights the item whose link the current path starts with.
 */
module Sidebar {
  import opened Optional
  import Text

  datatype MenuItem = MenuItem(name: string, href: string)

  const MenuItems: seq<MenuItem> := [
    MenuItem("Chronicles", "/diary"),
    MenuItem("Reflections", "/analysis"),
    MenuItem("Almanac", "/calendar"),
    MenuItem("Grimoire", "/settings")
  ]

  /** `pathname?.startsWith(href)`: an absent pathname highlights nothing. */
  function IsActive(pathname: Option<string>, href: string): (active: bool)
    ensures active <==> pathname.Some? && Text.StartsWith(pathname.value, href)
    ensures pathname.None? ==> !active
  {
    match pathname
    case None => false
    case Some(p) => Text.StartsWith(p, href)
  }

  /** Two prefixes of one string: the shorter is a prefix of the longer. */
  lemma PrefixesNest(s: string, a: string, b: string)
    requires Text.StartsWith(s, a) && Text.StartsWith(s, b) && |a| <= |b|
    ensures Text.StartsWith(b, a)
  {
    assert b[..|a|] == s[..|b|][..|a|] == s[..|a|];
  }

  /** No menu link is a prefix of another. */
  lemma HrefsPrefixFree()
    ensures forall i, j :: 0 <= i < |MenuItems| && 0 <= j < |MenuItems| && i != j ==>
              !Text.StartsWith(MenuItems[j].href, MenuItems[i].href)
  {
    forall i, j | 0 <= i < |MenuItems| && 0 <= j < |MenuItems| && i != j
      ensures !Text.StartsWith(MenuItems[j].href, MenuItems[i].href)
    {
      var a, b := MenuItems[i].href, MenuItems[j].href;
      assert a[1] != b[1] || a[2] != b[2];
    }
  }

  /** Whatever the path, at most one menu item is highlighted. */
  lemma {:induction false} AtMostOneActive(pathname: Option<string>)
    ensures forall i, j :: 0 <= i < j < |MenuItems| ==>
              !(IsActive(pathname, MenuItems[i].href) && IsActive(pathname, MenuItems[j].href))
  {
    HrefsPrefixFree();
    forall i, j | 0 <= i < j < |MenuItems| && IsActive(pathname, MenuItems[i].href)
      ensures !IsActive(pathname, MenuItems[j].href)
    {
      var a, b := MenuItems[i].href, MenuItems[j].href;
      if IsActive(pathname, b) {
        if |a| <= |b| {
          PrefixesNest(pathname.value, a, b);
        } else {
          PrefixesNest(pathname.value, b, a);
        }
      }
    }
  }

  /** The items a path highlights: the one whose link it starts with, or none. */
  function ActiveItems(pathname: Option<string>): (items: seq<MenuItem>)
    ensures |items| <= 1
    ensures forall k :: 0 <= k < |MenuItems| && IsActive(pathname, MenuItems[k].href) ==> items == [MenuItems[k]]
    ensures items == [] <==> forall k :: 0 <= k < |MenuItems| ==> !IsActive(pathname, MenuItems[k].href)
  {
    AtMostOneActive(pathname);
    if IsActive(pathname, MenuItems[0].href) then [MenuItems[0]]
    else if IsActive(pathname, MenuItems[1].href) then [MenuItems[1]]
    else if IsActive(pathname, MenuItems[2].href) then [MenuItems[2]]
    else if IsActive(pathname, MenuItems[3].href) then [MenuItems[3]]
    else []
  }
}
