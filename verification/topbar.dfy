/**
 * The top bar's pathname helpers: whether the page is a detail page, where
 * the back button leads, which section title to show, and which navigation
 * button is highlighted.
 */
module Topbar {
  import opened Wrappers
  import opened Strings

  datatype NavItem = NavItem(href: string, title: string)

  const NavItems: seq<NavItem> := [
    NavItem("/", "Tableau de bord"),
    NavItem("/customers", "Clients"),
    NavItem("/vehicles", "V\U{E9}hicules"),
    NavItem("/invoices", "Factures"),
    NavItem("/settings", "Param\U{E8}tres")]

  /** `isDetailPage`: the path splits into more than two pieces and is not "/". */
  predicate IsDetailPage(pathname: string) {
    |Split(pathname, '/')| > 2 && pathname != "/"
  }

  /** A detail page is exactly a path with at least two slashes; the `!== "/"` test never decides anything. */
  lemma DetailPageIff(pathname: string)
    ensures IsDetailPage(pathname) <==> multiset(pathname)['/'] >= 2
    ensures IsDetailPage(pathname) <==> |Split(pathname, '/')| > 2
  {
    if pathname == "/" {
      assert pathname == ['/'];
      assert multiset(pathname)['/'] == 1;
    }
  }

  /** A page below a section, such as "/customers/new", is a detail page. */
  lemma SubPageIsDetailPage(section: string, sub: string)
    ensures IsDetailPage("/" + section + "/" + sub)
  {
    var p := "/" + section + "/" + sub;
    assert p == [] + ['/'] + (section + "/" + sub);
    SplitAfterPiece([], section + "/" + sub, '/');
    assert |Split(section + "/" + sub, '/')| >= 2 by {
      assert multiset(section + "/" + sub)['/'] >= 1 by {
        assert (section + "/" + sub)[|section|] == '/';
      }
    }
  }

  /** A section's list page and the home page are not detail pages. */
  lemma SectionPageIsNotDetailPage(section: string)
    requires '/' !in section
    ensures !IsDetailPage("/" + section)
    ensures !IsDetailPage("/")
  {
    var p := "/" + section;
    assert p[1..] == section;
    SplitWithoutSeparator(section, '/');
    assert Split(p, '/') == [""] + Split(section, '/');
  }

  /** `split("/").filter(Boolean)`: the non-empty pieces, in order. */
  function Segments(pathname: string): (r: seq<string>)
    ensures forall i :: 0 <= i < |r| ==> r[i] != "" && '/' !in r[i]
  {
    NonEmpty(Split(pathname, '/'))
  }

  /** `filter(Boolean)` on the pieces: the non-empty ones, in their order. */
  function NonEmpty(pieces: seq<string>): (r: seq<string>)
    ensures forall i :: 0 <= i < |r| ==> r[i] != "" && r[i] in pieces
    ensures forall i :: 0 <= i < |pieces| && pieces[i] != "" ==> pieces[i] in r
    decreases |pieces|
  {
    if |pieces| == 0 then []
    else
      var rest := NonEmpty(pieces[1..]);
      assert forall i :: 1 <= i < |pieces| ==> pieces[i] == pieces[1..][i - 1];
      if pieces[0] != "" then [pieces[0]] + rest else rest
  }

  /** The filter distributes over concatenation, so the kept pieces stay in order. */
  lemma {:induction false} NonEmptyConcat(a: seq<string>, b: seq<string>)
    ensures NonEmpty(a + b) == NonEmpty(a) + NonEmpty(b)
    decreases |a|
  {
    if |a| > 0 {
      assert (a + b)[1..] == a[1..] + b;
      NonEmptyConcat(a[1..], b);
    } else {
      assert a + b == b;
    }
  }

  /** `getParentPath`: "/" and the first segment when there are several segments, else "/". */
  function GetParentPath(pathname: string): (r: string)
    ensures var segs := Segments(pathname);
      r == if |segs| > 1 then "/" + segs[0] else "/"
  {
    var segs := Segments(pathname);
    if |segs| > 1 then "/" + segs[0] else "/"
  }

  /** The back button always leads to an absolute path of at most one segment. */
  lemma ParentPathShape(pathname: string)
    ensures StartsWith(GetParentPath(pathname), "/")
    ensures |Segments(GetParentPath(pathname))| <= 1
  {
    var r := GetParentPath(pathname);
    var segs := Segments(pathname);
    if |segs| > 1 {
      SplitJoin(["", segs[0]], '/');
      assert Join(["", segs[0]], "/") == r;
      assert ["", segs[0]][1..] == [segs[0]];
      assert [segs[0]][1..] == [];
      assert Segments(r) == [segs[0]];
    } else {
      assert r == "/";
      assert Split("/", '/') == ["", ""] by {
        SplitJoin(["", ""], '/');
        assert Join(["", ""], "/") == "/";
      }
      assert ["", ""][1..] == [""];
      assert [""][1..] == [];
    }
  }

  /** `pathname.split("/")[1]`, which is missing when the path has no slash. */
  function SecondPiece(pathname: string): (r: Option<string>)
    ensures r.Some? <==> '/' in pathname
    ensures r.Some? ==> r.value == Split(pathname, '/')[1]
  {
    var pieces := Split(pathname, '/');
    if |pieces| > 1 then Some(pieces[1]) else None
  }

  /** The nav item a section piece selects; a missing piece renders as "/undefined" and selects none. */
  predicate SelectsItem(segment: Option<string>, item: NavItem) {
    segment.Some? && (item.href == "/" + segment.value || (segment.value == "" && item.href == "/"))
  }

  /** `navItems.find(...)`: the first item the piece selects. */
  function FindItem(items: seq<NavItem>, segment: Option<string>): (r: Option<NavItem>)
    ensures r.None? <==> forall i :: 0 <= i < |items| ==> !SelectsItem(segment, items[i])
    ensures r.Some? ==> exists i :: 0 <= i < |items| && items[i] == r.value && SelectsItem(segment, r.value) &&
                          forall j :: 0 <= j < i ==> !SelectsItem(segment, items[j])
    decreases |items|
  {
    if |items| == 0 then None
    else if SelectsItem(segment, items[0]) then Some(items[0])
    else
      var r := FindItem(items[1..], segment);
      assert forall i :: 1 <= i < |items| ==> items[i] == items[1..][i - 1];
      if r.Some? then
        ghost var k :| 0 <= k < |items[1..]| && items[1..][k] == r.value && SelectsItem(segment, r.value) &&
                       forall j :: 0 <= j < k ==> !SelectsItem(segment, items[1..][j]);
        assert items[k + 1] == r.value;
        r
      else r
  }

  /** `getCurrentSection`: the selected item's label, or "Page". */
  function GetCurrentSection(pathname: string): (r: string)
    ensures r == "Page" <==> forall i :: 0 <= i < |NavItems| ==> !SelectsItem(SecondPiece(pathname), NavItems[i])
    ensures r != "Page" ==> exists i :: 0 <= i < |NavItems| && NavItems[i].title == r &&
                                       NavItems[i].href == "/" + SecondPiece(pathname).value
  {
    match FindItem(NavItems, SecondPiece(pathname))
    case None => "Page"
    case Some(item) => if item.title != "" then item.title else "Page"
  }

  /** `isActive` of a navigation button: the exact path, or a prefix of it for any item but "/". */
  predicate IsActive(pathname: string, href: string) {
    pathname == href || (href != "/" && StartsWith(pathname, href))
  }

  /** The home button is highlighted on "/" only. */
  lemma HomeActiveOnlyAtRoot(pathname: string)
    ensures IsActive(pathname, "/") <==> pathname == "/"
  {
  }

  /** The activity test is a string prefix, not a path segment: "/customersX" highlights "Clients". */
  lemma ActiveIsPlainPrefix()
    ensures IsActive("/customers/12", "/customers")
    ensures IsActive("/customersX", "/customers")
  {
    assert "/customers/12"[..10] == "/customers";
    assert "/customersX"[..10] == "/customers";
  }

  /** A string starts with the first piece of its split. */
  lemma {:induction false} FirstPieceIsPrefix(s: string, c: char)
    ensures StartsWith(s, Split(s, c)[0])
    decreases |s|
  {
    if |s| > 0 && s[0] != c {
      FirstPieceIsPrefix(s[1..], c);
      assert s == [s[0]] + s[1..];
    }
  }

  /** An absolute path splits into "" and then pieces, and starts with "/" and its second piece. */
  lemma AbsolutePathPieces(pathname: string)
    requires StartsWith(pathname, "/")
    ensures |Split(pathname, '/')| >= 2
    ensures Split(pathname, '/')[0] == ""
    ensures StartsWith(pathname, "/" + Split(pathname, '/')[1])
  {
    assert pathname[0] == '/';
    var rest := pathname[1..];
    assert Split(pathname, '/') == [""] + Split(rest, '/');
    FirstPieceIsPrefix(rest, '/');
    assert pathname == "/" + rest;
  }

  /**
   * On an absolute path, the section title names a highlighted button: the
   * section item's href is a prefix of the path.
   */
  lemma SectionItemIsActive(pathname: string, i: nat)
    requires StartsWith(pathname, "/")
    requires 1 <= i < |NavItems| && SelectsItem(SecondPiece(pathname), NavItems[i])
    ensures IsActive(pathname, NavItems[i].href)
  {
    AbsolutePathPieces(pathname);
  }
}
