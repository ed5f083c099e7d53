/**
 * The site's page layout and how a browser resolves a relative link on a
 * page (the merge and dot-segment removal of section 5.2 of RFC 3986, for
 * references made of path segments only, the empty reference included). The footers' link prefixes are
 * stated against it: the home page lives at `/` or `/index.html`, the other
 * pages in `/src/`, the legal pages in `/src/legal/`.
 */
module SitePaths {
  import opened Strings

  /** The directory segments of an absolute page path (`/a/b/page.html` gives `[a, b]`). */
  function PageDirectory(pathname: string): seq<string> {
    var parts := Split(pathname, '/');
    if |parts| <= 1 then [] else parts[1..|parts| - 1]
  }

  /** Applies the segments of a relative reference to a directory: `..` goes up, `.` stays. */
  function ApplySegments(dir: seq<string>, refSegments: seq<string>): seq<string>
    decreases |refSegments|
  {
    if refSegments == [] then dir
    else if refSegments[0] == ".." then
      ApplySegments(if dir == [] then [] else dir[..|dir| - 1], refSegments[1..])
    else if refSegments[0] == "." then ApplySegments(dir, refSegments[1..])
    else ApplySegments(dir + [refSegments[0]], refSegments[1..])
  }

  /** A segment that climbs (`..`) or stays (`.`). */
  predicate DotSegment(seg: string) {
    seg == ".." || seg == "."
  }

  /**
   * The absolute path a relative `href` on the page at `pathname` leads to.
   * The empty reference is the page itself; a reference ending in `.` or
   * `..` names a directory, whose path keeps its trailing `/`.
   */
  function Resolve(pathname: string, href: string): string {
    if href == "" then pathname
    else
      var dir := ApplySegments(PageDirectory(pathname), Split(href, '/'));
      if DotSegment(LastPiece(href, '/')) && dir != [] then "/" + Join(dir, '/') + "/"
      else "/" + Join(dir, '/')
  }

  /** A segment that names a file or a directory below: neither empty, nor a dot segment. */
  predicate PlainSegment(seg: string) {
    seg != "" && !DotSegment(seg)
  }

  /** A reference whose segments are all plain: a path down from the current directory. */
  predicate PlainReference(href: string) {
    forall k :: 0 <= k < |Split(href, '/')| ==> PlainSegment(Split(href, '/')[k])
  }

  /** A reference that is not empty and does not end in a dot segment leads to the merged path. */
  lemma ResolveToFile(pathname: string, href: string)
    requires href != "" && !DotSegment(LastPiece(href, '/'))
    ensures Resolve(pathname, href) == "/" + Join(ApplySegments(PageDirectory(pathname), Split(href, '/')), '/')
  {
  }

  /** A plain reference is not empty and ends in a file segment. */
  lemma PlainLast(href: string)
    requires PlainReference(href)
    ensures href != "" && !DotSegment(LastPiece(href, '/'))
  {
    var parts := Split(href, '/');
    assert PlainSegment(parts[0]);
    assert PlainSegment(parts[|parts| - 1]);
  }

  /** Plain segments are appended to the directory as they are. */
  lemma {:induction false} ApplyPlain(dir: seq<string>, refSegments: seq<string>)
    requires forall k :: 0 <= k < |refSegments| ==> PlainSegment(refSegments[k])
    ensures ApplySegments(dir, refSegments) == dir + refSegments
    decreases |refSegments|
  {
    if refSegments != [] {
      ApplyPlain(dir + [refSegments[0]], refSegments[1..]);
      assert dir + [refSegments[0]] + refSegments[1..] == dir + refSegments;
    }
  }

  /** Each `..` at the front of a reference climbs one directory. */
  lemma ApplyUp(dir: seq<string>, top: string, refSegments: seq<string>)
    ensures ApplySegments(dir + [top], [".."] + refSegments) == ApplySegments(dir, refSegments)
  {
    assert ([".."] + refSegments)[1..] == refSegments;
    assert (dir + [top])[..|dir + [top]| - 1] == dir;
  }

  // ---- the site layout ------------------------------------------------------------

  /** A page of the site: the home page (at `/` or `/index.html`), a page in `src/`, or a legal page. */
  datatype Page = Home(viaIndexFile: bool) | SrcPage(name: string) | LegalPage(name: string)

  function PathOf(p: Page): string {
    match p
    case Home(viaIndexFile) => if viaIndexFile then "/index.html" else "/"
    case SrcPage(name) => "/src/" + name
    case LegalPage(name) => "/src/legal/" + name
  }

  /** File names are one segment and, outside the home page, are not `index.html` files. */
  predicate WellNamed(p: Page) {
    match p
    case Home(_) => true
    case SrcPage(name) => '/' !in name && !Contains(name, "index.html")
    case LegalPage(name) => '/' !in name && !Contains(name, "index.html")
  }

  /** The directory of each page of the layout. */
  lemma DirectoryOf(p: Page)
    requires WellNamed(p)
    ensures PageDirectory(PathOf(p)) ==
      match p
      case Home(_) => []
      case SrcPage(_) => ["src"]
      case LegalPage(_) => ["src", "legal"]
  {
    match p
    case Home(viaIndexFile) =>
      RootFileDirectory(if viaIndexFile then "index.html" else "");
      assert PathOf(p) == "/" + (if viaIndexFile then "index.html" else "");
    case SrcPage(name) =>
      var parts := SrcSplit(name);
      assert PathOf(p) == "/src/" + name;
    case LegalPage(name) =>
      var parts := LegalSplit(name);
      assert PathOf(p) == "/src/legal/" + name;
  }

  /** A file at the root has no directory. */
  lemma RootFileDirectory(file: string)
    requires '/' !in file
    ensures PageDirectory("/" + file) == []
  {
    assert "/" + file == "" + ['/'] + file;
    SplitConcat("", file, '/');
    SplitNone(file, '/');
    SplitNone("", '/');
  }

  /** `/src/name` splits into the empty root piece, `src` and the name. */
  lemma SrcSplit(name: string) returns (parts: seq<string>)
    requires '/' !in name
    ensures parts == Split("/src/" + name, '/') == ["", "src", name]
    ensures PageDirectory("/src/" + name) == ["src"]
  {
    var rest := "src" + ['/'] + name;
    assert "/src/" + name == "" + ['/'] + rest;
    SplitConcat("", rest, '/');
    SplitConcat("src", name, '/');
    SplitNone("", '/');
    SplitNone("src", '/');
    SplitNone(name, '/');
    parts := Split("/src/" + name, '/');
    assert parts == [""] + (["src"] + [name]);
  }

  /** `/src/legal/name` splits into the empty root piece, `src`, `legal` and the name. */
  lemma LegalSplit(name: string) returns (parts: seq<string>)
    requires '/' !in name
    ensures parts == Split("/src/legal/" + name, '/') == ["", "src", "legal", name]
    ensures PageDirectory("/src/legal/" + name) == ["src", "legal"]
  {
    var inner := "legal" + ['/'] + name;
    var rest := "src" + ['/'] + inner;
    assert "/src/legal/" + name == "" + ['/'] + rest;
    SplitConcat("", rest, '/');
    SplitConcat("src", inner, '/');
    SplitConcat("legal", name, '/');
    SplitNone("", '/');
    SplitNone("src", '/');
    SplitNone("legal", '/');
    SplitNone(name, '/');
    parts := Split("/src/legal/" + name, '/');
    assert parts == [""] + (["src"] + (["legal"] + [name]));
  }

  /** Joining a directory with a plain reference: the path is the directory, a `/`, then the reference. */
  lemma JoinUnder(dir: seq<string>, href: string)
    requires |dir| >= 1
    ensures Join(dir + Split(href, '/'), '/') == Join(dir, '/') + "/" + href
  {
    JoinConcat(dir, Split(href, '/'), '/');
  }

  /** A plain reference on a page of `dir` leads to `dir`'s path followed by the reference. */
  lemma ResolvePlain(pathname: string, href: string)
    requires PlainReference(href) && |PageDirectory(pathname)| >= 1
    ensures Resolve(pathname, href) == "/" + Join(PageDirectory(pathname), '/') + "/" + href
  {
    PlainLast(href);
    ApplyPlain(PageDirectory(pathname), Split(href, '/'));
    JoinUnder(PageDirectory(pathname), href);
  }

  /** A plain reference on the home page leads just below the root. */
  lemma ResolvePlainAtRoot(pathname: string, href: string)
    requires PlainReference(href) && PageDirectory(pathname) == []
    ensures Resolve(pathname, href) == "/" + href
  {
    PlainLast(href);
    ApplyPlain([], Split(href, '/'));
    assert [] + Split(href, '/') == Split(href, '/');
  }

  /** `..` followed by a reference: the reference one directory up. */
  lemma UpSplit(href: string)
    ensures Split("../" + href, '/') == [".."] + Split(href, '/')
  {
    assert "../" + href == ".." + ['/'] + href;
    SplitConcat("..", href, '/');
    SplitNone("..", '/');
  }

  /** `..` in front of a reference keeps its last segment. */
  lemma UpLast(href: string)
    ensures LastPiece("../" + href, '/') == LastPiece(href, '/')
  {
    UpSplit(href);
    var parts := Split(href, '/');
    assert ([".."] + parts)[|parts|] == parts[|parts| - 1];
  }

  /** Two `../` prefixes are one `../../` prefix. */
  lemma UpTwice(f: string)
    ensures "../../" + f == "../" + ("../" + f)
  {
  }

  /** On a legal page, `../../f` for a plain segment `f` leads to `/f`. */
  lemma SegmentFromLegal(path: string, f: string)
    requires PageDirectory(path) == ["src", "legal"] && Split(f, '/') == [f] && PlainSegment(f)
    ensures Resolve(path, "../../" + f) == "/" + f
  {
    UpTwice(f);
    UpSplit("../" + f);
    UpSplit(f);
    assert ["src", "legal"] == ["src"] + ["legal"];
    ApplyUp(["src"], "legal", [".."] + [f]);
    assert ["src"] == [] + ["src"];
    ApplyUp([], "src", [f]);
    assert ApplySegments([], [f]) == [f];
  }

  /** On a page of `src/`, `../f` for a plain segment `f` leads to `/f`. */
  lemma SegmentFromSrc(path: string, f: string)
    requires PageDirectory(path) == ["src"] && Split(f, '/') == [f] && PlainSegment(f)
    ensures Resolve(path, "../" + f) == "/" + f
  {
    UpSplit(f);
    assert ["src"] == [] + ["src"];
    ApplyUp([], "src", [f]);
    assert ApplySegments([], [f]) == [f];
  }

  /**
   * The references section 5.2 of RFC 3986 treats apart, on a legal page:
   * the empty reference is the page itself, and `..` and `.` lead to a
   * directory written with its trailing `/`.
   */
  lemma DirectoryReferences(name: string)
    requires '/' !in name
    ensures Resolve("/src/legal/" + name, "") == "/src/legal/" + name
    ensures Resolve("/src/legal/" + name, "..") == "/src/"
    ensures Resolve("/src/legal/" + name, ".") == "/src/legal/"
  {
    var parts := LegalSplit(name);
    SplitNone("..", '/');
    SplitNone(".", '/');
    assert ApplySegments(["src", "legal"], [".."]) == ["src"];
    assert ApplySegments(["src", "legal"], ["."]) == ["src", "legal"];
    assert Join(["src", "legal"], '/') == "src/legal";
  }
}
