/**
 * Page detection and the active navigation link (`getCurrentPage` and
 * `updateActiveNavLink`, the same in both copies of main.js).
 */
module Navigation {
  import opened Strings

  /**
   * `getCurrentPage()` for `window.location.pathname`: the last `/`-piece of
   * the path, `home` for an empty piece or `index.html`, otherwise the piece
   * with its first `.html` removed.
   */
  function CurrentPage(pathname: string): (r: string)
    ensures '/' !in r
    ensures (EndsWith(pathname, "/") || pathname == "") ==> r == "home"
  {
    var page := LastPiece(pathname, '/');
    if page == "" || page == "index.html" then "home"
    else
      ReplaceNoNewSlash(page, ".html");
      ReplaceFirst(page, ".html", "")
  }

  /** Deleting a pattern from a string without `/` leaves no `/`. */
  lemma ReplaceNoNewSlash(s: string, p: string)
    requires '/' !in s
    ensures '/' !in ReplaceFirst(s, p, "")
  {
    var i := IndexOf(s, p);
    if i != -1 {
      assert ReplaceFirst(s, p, "") == s[..i] + s[i + |p|..];
    }
  }

  /** The page of a path is decided by its last piece alone, whatever directory it sits in. */
  lemma {:induction false} CurrentPageOfFile(dir: string, name: string)
    requires '/' !in name
    ensures CurrentPage(dir + "/" + name) ==
      (if name == "" || name == "index.html" then "home" else ReplaceFirst(name, ".html", ""))
  {
    SplitConcat(dir, name, '/');
    SplitNone(name, '/');
    assert dir + "/" + name == dir + ['/'] + name;
  }

  /** A page file `X.html` is recognised as page `X` (and `index.html` as `home`). */
  lemma PageOfHtmlFile(dir: string, base: string)
    requires '/' !in base && !Contains(base, ".html")
    ensures CurrentPage(dir + "/" + base + ".html") == (if base == "index" then "home" else base)
  {
    var name := HtmlFileName(base);
    assert dir + "/" + base + ".html" == dir + "/" + name;
    CurrentPageOfFile(dir, name);
    FirstHtmlAtEnd(base);
  }

  /** `X.html` has no `/` when `X` has none, and it is `index.html` only for `X` = `index`. */
  lemma HtmlFileName(base: string) returns (name: string)
    requires '/' !in base
    ensures name == base + ".html" && name != "" && '/' !in name
    ensures name == "index.html" <==> base == "index"
  {
    name := base + ".html";
    assert name[..|base|] == base && name[|base|..] == ".html";
    forall k | 0 <= k < |name| ensures name[k] != '/' {
      if k < |base| { assert name[k] == base[k]; }
      else { assert name[k] == ".html"[k - |base|]; }
    }
    if name == "index.html" {
      assert base == name[..|base|] == "index";
    }
  }

  /** In `X.html`, with no `.html` inside `X`, the first `.html` is the suffix. */
  lemma FirstHtmlAtEnd(base: string)
    requires !Contains(base, ".html")
    ensures ReplaceFirst(base + ".html", ".html", "") == base
  {
    var s, p, n := base + ".html", ".html", |base|;
    assert OccursAt(s, p, n);
    forall j | 0 <= j < n ensures !OccursAt(s, p, j) {
      if j + 5 <= n {
        assert s[j..j + 5] == base[j..j + 5];
        assert !OccursAt(base, p, j);
      } else {
        // an occurrence straddling the end of `base` would put the final
        // `.` of the suffix inside "html"
        assert s[n] == '.';
        assert s[j..j + 5][n - j] == s[n];
        assert 1 <= n - j <= 4 && p[n - j] != '.';
      }
    }
    assert s[..n] + "" + s[n + 5..] == base;
  }

  /**
   * The page a nav link stands for: `home` for `/` and `index.html`,
   * otherwise its `href` with the first `.html` removed.
   */
  function LinkPage(href: string): (r: string)
    ensures href == "/" || href == "index.html" ==> r == "home"
  {
    if href == "/" || href == "index.html" then "home"
    else ReplaceFirst(href, ".html", "")
  }

  /**
   * A link to a page file in the same directory names the page the browser
   * is on: a non-empty file name without `/` is the link's page exactly when
   * the path ends with it.
   */
  lemma LinkMatchesItsPage(dir: string, href: string)
    requires href != "" && '/' !in href
    ensures LinkPage(href) == CurrentPage(dir + "/" + href)
  {
    CurrentPageOfFile(dir, href);
  }

  /** Both spellings of the home link match the site root and its index file. */
  lemma HomeLinksMatchRoot(dir: string)
    ensures LinkPage("/") == CurrentPage(dir + "/") == "home"
    ensures LinkPage("index.html") == CurrentPage(dir + "/index.html") == "home"
  {
    var root := dir + "/";
    assert root[|root| - 1..] == "/";
    assert EndsWith(root, "/");
    IndexFileIsHome(dir);
  }

  /** The index file of any directory is the home page. */
  lemma IndexFileIsHome(dir: string)
    ensures CurrentPage(dir + "/index.html") == "home"
  {
    var name := "index.html";
    assert '/' !in name;
    assert dir + "/index.html" == dir + "/" + name;
    CurrentPageOfFile(dir, name);
  }

  const ActiveClasses: set<string> := {"text-cyan-400", "font-semibold"}
  const InactiveClasses: set<string> := {"text-white"}

  /** The `classList` of a link after the update: add one style, remove the other. */
  function Restyled(classes: set<string>, active: bool): (r: set<string>)
    ensures active ==> ActiveClasses <= r && r !! InactiveClasses
    ensures !active ==> InactiveClasses <= r && r !! ActiveClasses
    ensures r - ActiveClasses - InactiveClasses == classes - ActiveClasses - InactiveClasses
  {
    if active then classes + ActiveClasses - InactiveClasses
    else classes + InactiveClasses - ActiveClasses
  }

  /** A link shows as active when it carries the active style and not the inactive one. */
  function ShowsActive(classes: set<string>): (r: bool)
    ensures r <==> Restyled(classes, true) == classes
  {
    ActiveClasses <= classes && classes !! InactiveClasses
  }

  /**
   * `updateActiveNavLink(currentPage)` over the `.nav-link` elements, given by
   * their `href`s and their class lists: each link is made active exactly
   * when its page is the current page; every other class is kept.
   */
  method UpdateActiveNavLink(hrefs: seq<string>, classLists: array<set<string>>, currentPage: string)
    requires classLists.Length == |hrefs|
    modifies classLists
    ensures forall i :: 0 <= i < |hrefs| ==>
      classLists[i] == Restyled(old(classLists[i]), LinkPage(hrefs[i]) == currentPage)
    ensures forall i :: 0 <= i < |hrefs| ==> (ShowsActive(classLists[i]) <==> LinkPage(hrefs[i]) == currentPage)
  {
    var i := 0;
    while i < |hrefs|
      invariant 0 <= i <= |hrefs|
      invariant forall k :: 0 <= k < i ==>
        classLists[k] == Restyled(old(classLists[k]), LinkPage(hrefs[k]) == currentPage)
      invariant forall k :: i <= k < |hrefs| ==> classLists[k] == old(classLists[k])
    {
      var linkPage;
      if hrefs[i] == "/" || hrefs[i] == "index.html" {
        linkPage := "home";
      } else {
        linkPage := ReplaceFirst(hrefs[i], ".html", "");
      }
      if linkPage == currentPage {
        classLists[i] := classLists[i] + ActiveClasses - InactiveClasses;
      } else {
        classLists[i] := classLists[i] + InactiveClasses - ActiveClasses;
      }
      i := i + 1;
    }
  }
}
