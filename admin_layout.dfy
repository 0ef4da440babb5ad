/**
 * The admin panel frame: which sidebar entries are highlighted for the
 * current path, the title shown in the top bar, and the user's role
 * label and avatar initial.
 */
module AdminLayout {
  import opened Wrappers
  import opened Text

  datatype SidebarItem = SidebarItem(name: string, href: string)

  const DashboardHref: string := "/admin"

  /** The sidebar entries, in display order. */
  const SidebarItems: seq<SidebarItem> := [
    SidebarItem("Dashboard", DashboardHref),
    SidebarItem("Courses", "/admin/courses"),
    SidebarItem("Students", "/admin/students"),
    SidebarItem("Enrollments", "/admin/enrollments"),
    SidebarItem("Analytics", "/admin/analytics"),
    SidebarItem("Payments", "/admin/payments"),
    SidebarItem("Reports", "/admin/reports"),
    SidebarItem("Settings", "/admin/settings")
  ]

  const FallbackTitle: string := "Admin"

  /** An entry is highlighted for its own path and for every path below it. */
  predicate IsActive(pathname: string, href: string) {
    pathname == href || StartsWith(pathname, href + "/")
  }

  /** Highlighting needs the href to end at a path-segment boundary of the pathname. */
  lemma ActiveIffSegmentPrefix(pathname: string, href: string)
    ensures IsActive(pathname, href) <==>
      || pathname == href
      || (|href| < |pathname| && pathname[..|href|] == href && pathname[|href|] == '/')
  {
    var slash := href + "/";
    if |href| < |pathname| {
      assert pathname[..|slash|] == pathname[..|href|] + [pathname[|href|]];
    }
  }

  /** A bare text prefix is not enough: "/admin/coursesX" does not highlight Courses. */
  lemma PlainPrefixDoesNotActivate()
    ensures StartsWith("/admin/coursesX", "/admin/courses")
    ensures !IsActive("/admin/coursesX", "/admin/courses")
  {
    ActiveIffSegmentPrefix("/admin/coursesX", "/admin/courses");
    assert "/admin/coursesX"[..14] == "/admin/courses";
  }

  /** On a section page two entries are highlighted at once. */
  lemma TwoEntriesActiveOnCourses()
    ensures IsActive("/admin/courses", SidebarItems[0].href)
    ensures IsActive("/admin/courses", SidebarItems[1].href)
    ensures SidebarItems[0] != SidebarItems[1]
  {
    assert ("/admin" + "/") == "/admin/";
    assert "/admin/courses"[..7] == "/admin/";
  }

  /** No entry of `items` is highlighted for `pathname`. */
  predicate NoneActive(items: seq<SidebarItem>, pathname: string) {
    forall j :: 0 <= j < |items| ==> !IsActive(pathname, items[j].href)
  }

  /** `items.find(...)`: the first highlighted entry, in list order. */
  function FindActive(items: seq<SidebarItem>, pathname: string): (r: Option<SidebarItem>)
    ensures r.None? <==> NoneActive(items, pathname)
    ensures r.Some? ==>
      && IsActive(pathname, r.value.href)
      && exists i :: 0 <= i < |items| && items[i] == r.value && NoneActive(items[..i], pathname)
  {
    if items == [] then None
    else if IsActive(pathname, items[0].href) then
      assert NoneActive(items[..0], pathname);
      Some(items[0])
    else
      var r := FindActive(items[1..], pathname);
      if r.Some? then
        var i :| 0 <= i < |items[1..]| && items[1..][i] == r.value && NoneActive(items[1..][..i], pathname);
        assert items[i + 1] == r.value;
        assert items[..i + 1] == [items[0]] + items[1..][..i];
        r
      else
        assert forall j :: 1 <= j < |items| ==> items[j] == items[1..][j - 1];
        r
  }

  /** The top-bar title: the first highlighted entry's name, or "Admin". */
  function HeaderTitle(pathname: string): string {
    match FindActive(SidebarItems, pathname)
    case Some(item) => OrElse(item.name, FallbackTitle)
    case None => FallbackTitle
  }

  /** Every entry other than Dashboard lies below /admin/. */
  lemma SectionsLieBelowAdmin(j: nat)
    requires 1 <= j < |SidebarItems|
    ensures StartsWith(SidebarItems[j].href, DashboardHref + "/")
  {
    assert DashboardHref + "/" == "/admin/";
  }

  /** A pathname below a path that is below /admin/ is itself below /admin/. */
  lemma BelowIsTransitive(pathname: string, href: string)
    requires StartsWith(href, DashboardHref + "/") && IsActive(pathname, href)
    ensures StartsWith(pathname, DashboardHref + "/")
  {
    var p := DashboardHref + "/";
    if pathname != href {
      assert pathname[..|p|] == pathname[..|href + "/"|][..|p|] == (href + "/")[..|p|] == href[..|p|];
    }
  }

  /**
   * Because Dashboard comes first and highlights every page another entry
   * highlights, the title is always "Dashboard" or "Admin": no section
   * name ever reaches the top bar.
   */
  lemma TitleIsDashboardOrAdmin(pathname: string)
    ensures HeaderTitle(pathname) == "Dashboard" || HeaderTitle(pathname) == FallbackTitle
    ensures HeaderTitle(pathname) == "Dashboard" <==> IsActive(pathname, DashboardHref)
    ensures HeaderTitle(pathname) == FallbackTitle <==> NoneActive(SidebarItems, pathname)
  {
    if IsActive(pathname, DashboardHref) {
      assert FindActive(SidebarItems, pathname) == Some(SidebarItems[0]);
    } else {
      forall j | 1 <= j < |SidebarItems| ensures !IsActive(pathname, SidebarItems[j].href) {
        SectionsLieBelowAdmin(j);
        if IsActive(pathname, SidebarItems[j].href) {
          BelowIsTransitive(pathname, SidebarItems[j].href);
        }
      }
      assert NoneActive(SidebarItems, pathname);
    }
  }

  /** Every admin page, and /admin itself, is titled "Dashboard". */
  lemma EveryAdminPageTitledDashboard(pathname: string)
    requires pathname == DashboardHref || StartsWith(pathname, DashboardHref + "/")
    ensures HeaderTitle(pathname) == "Dashboard"
  {
    TitleIsDashboardOrAdmin(pathname);
  }

  /** `s.replace(from, to)` with a one-character pattern: only the first occurrence is replaced. */
  function ReplaceFirst(s: string, from: char, to: char): (r: string)
    ensures |r| == |s|
    ensures from !in s ==> r == s
  {
    if s == [] then []
    else if s[0] == from then [to] + s[1..]
    else [s[0]] + ReplaceFirst(s[1..], from, to)
  }

  /** Replacing the first occurrence removes exactly one occurrence, when there is one. */
  lemma {:induction false} ReplaceFirstRemovesOne(s: string, from: char, to: char)
    requires from != to
    ensures var count := multiset(s)[from];
      multiset(ReplaceFirst(s, from, to))[from] == if count == 0 then 0 else count - 1
    decreases |s|
  {
    if s != [] {
      assert s == [s[0]] + s[1..];
      if s[0] == from {
        assert multiset(s)[from] == multiset(s[1..])[from] + 1;
      } else {
        ReplaceFirstRemovesOne(s[1..], from, to);
        assert multiset(s)[from] == multiset(s[1..])[from];
      }
    }
  }

  /** The first occurrence is the one after a prefix free of the pattern. */
  lemma {:induction false} ReplaceFirstAt(before: string, after: string, from: char, to: char)
    requires from !in before
    ensures ReplaceFirst(before + [from] + after, from, to) == before + [to] + after
    decreases |before|
  {
    if before == [] {
      assert before + [from] + after == [from] + after;
    } else {
      ReplaceFirstAt(before[1..], after, from, to);
      assert (before + [from] + after)[1..] == before[1..] + [from] + after;
      assert before + [to] + after == [before[0]] + (before[1..] + [to] + after);
    }
  }

  /** `role?.replace('_', ' ')`: the role with its first underscore shown as a space. */
  function RoleLabel(role: Option<string>): (shown: Option<string>)
    ensures shown.None? <==> role.None?
    ensures shown.Some? ==> |shown.value| == |role.value|
    ensures shown.Some? ==>
      var underscores := multiset(role.value)['_'];
      multiset(shown.value)['_'] == if underscores == 0 then 0 else underscores - 1
  {
    match role
    case None => None
    case Some(r) =>
      ReplaceFirstRemovesOne(r, '_', ' ');
      Some(ReplaceFirst(r, '_', ' '))
  }

  /** The two-word role of the seeded super administrator. */
  lemma SuperAdminLabel()
    ensures RoleLabel(Some("SUPER_ADMIN")) == Some("SUPER ADMIN")
  {
    var role, shown := "SUPER_ADMIN", "SUPER ADMIN";
    assert role == "SUPER" + "_" + "ADMIN";
    assert shown == "SUPER" + " " + "ADMIN";
    ReplaceFirstAt("SUPER", "ADMIN", '_', ' ');
    assert ReplaceFirst(role, '_', ' ') == shown;
  }

  function ToUpperAscii(c: char): char {
    if 'a' <= c <= 'z' then (c as int - 32) as char else c
  }

  /** `name?.[0]?.toUpperCase()`: the name's first character in upper case, absent for a missing or empty name. */
  function AvatarInitial(name: Option<string>): (initial: Option<string>)
    ensures initial.Some? <==> name.Some? && name.value != []
    ensures initial.Some? ==> |initial.value| == 1
    ensures initial.Some? && 'a' <= name.value[0] <= 'z' ==>
      initial.value[0] as int == name.value[0] as int - ('a' as int - 'A' as int)
    ensures initial.Some? && !('a' <= name.value[0] <= 'z') ==> initial.value[0] == name.value[0]
  {
    match name
    case Some(n) => if n == [] then None else Some([ToUpperAscii(n[0])])
    case None => None
  }
}
