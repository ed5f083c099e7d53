/**
 * src/assets/js/footer.js: the path prefixes `getBasePath` and `getHomePath`
 * choose from `window.location.pathname`, and the links `renderFooter`
 * builds from them (the markup around the links is not modelled).
 */
module Footer {
  import opened Strings
  import opened SitePaths

  /** The first test of both functions: the site root or an `index.html` page. */
  predicate OnIndexPage(pathname: string) {
    pathname == "/" || Contains(pathname, "index.html")
  }

  /** The second test: a page under a `legal/` directory. */
  predicate OnLegalPage(pathname: string) {
    Contains(pathname, "/legal/")
  }

  /** `getBasePath()`: the prefix that leads from the page to the `src/` directory. */
  function BasePath(pathname: string): (r: string)
    ensures OnIndexPage(pathname) ==> r == "src/"
    ensures !OnIndexPage(pathname) && OnLegalPage(pathname) ==> r == "../"
    ensures !OnIndexPage(pathname) && !OnLegalPage(pathname) ==> r == ""
  {
    if pathname == "/" || Contains(pathname, "index.html") then "src/"
    else if Contains(pathname, "/legal/") then "../"
    else ""
  }

  /** `getHomePath()`: the prefix that leads from the page to the site root. */
  function HomePath(pathname: string): (r: string)
    ensures OnIndexPage(pathname) ==> r == ""
    ensures !OnIndexPage(pathname) && OnLegalPage(pathname) ==> r == "../../"
    ensures !OnIndexPage(pathname) && !OnLegalPage(pathname) ==> r == "../"
  {
    if pathname == "/" || Contains(pathname, "index.html") then ""
    else if Contains(pathname, "/legal/") then "../../"
    else "../"
  }

  // ---- links ---------------------------------------------------------------------

  /** What a footer link is meant to reach. */
  datatype Target =
    | SiteFile(file: string)      // a file of `src/`, reached through the base path
    | HomeAnchor(anchor: string)  // a section of the home page, reached through the home path
    | External(url: string)       // an absolute URL

  /** A footer link: its text and its target. */
  datatype Link = Link(text: string, target: Target)

  /** The directory of the legal pages, below `src/`. */
  const LegalDir := "legal"

  /** The logo image, `assets/images/zkynet-logo-512x512.png` below `src/`. */
  const LogoName := "zkynet-logo-512x512.png"
  const LogoFile := "assets" + "/" + ("images" + "/" + LogoName)

  /**
   * The footer's links in document order: the Product column, the Company
   * column, the Legal column and the bottom bar.
   */
  const FooterTable: seq<Link> := [
    Link("How It Works", HomeAnchor("how-it-works")),
    Link("Features", HomeAnchor("features")),
    Link("FAQ", HomeAnchor("faq")),
    Link("About", SiteFile("about.html")),
    Link("Support", SiteFile("support.html")),
    Link("Reddit", External("https://reddit.com/u/ZKyNetOfficial")),
    Link("Privacy Policy", SiteFile(LegalDir + "/" + "privacy.html")),
    Link("Terms of Service", SiteFile(LegalDir + "/" + "terms.html")),
    Link("Refund Policy", SiteFile(LegalDir + "/" + "refund.html")),
    Link("Privacy Policy", SiteFile(LegalDir + "/" + "privacy.html")),
    Link("Terms of Service", SiteFile(LegalDir + "/" + "terms.html")),
    Link("Refund Policy", SiteFile(LegalDir + "/" + "refund.html"))
  ]

  /** `index.html#anchor`: a section of the home page, relative to the site root. */
  function HomeSection(anchor: string): string {
    "index.html#" + anchor
  }

  /** The `href` (or `src`) written for a target: `${basePath}file`, `${homePath}index.html#anchor`, or the URL. */
  function Href(pathname: string, t: Target): (r: string)
    ensures t.SiteFile? ==> r == BasePath(pathname) + t.file
    ensures t.HomeAnchor? ==> r == HomePath(pathname) + HomeSection(t.anchor)
    ensures t.External? ==> r == t.url
  {
    match t
    case SiteFile(file) => BasePath(pathname) + file
    case HomeAnchor(anchor) => HomePath(pathname) + HomeSection(anchor)
    case External(url) => url
  }

  /** The two parts of the rendered output. */
  datatype Section =
    | NewsletterSection
    | FooterSection(logoSrc: string, links: seq<(string, string)>)

  /**
   * `renderFooter()`: the newsletter section and then the footer, whose
   * links are the table's, each with the `href` its prefix yields.
   */
  function RenderFooter(pathname: string): (r: seq<Section>)
    ensures |r| == 2 && r[0] == NewsletterSection && r[1].FooterSection?
    ensures r[1].logoSrc == BasePath(pathname) + LogoFile
    ensures |r[1].links| == |FooterTable|
    ensures forall k :: 0 <= k < |FooterTable| ==>
      r[1].links[k] == (FooterTable[k].text, Href(pathname, FooterTable[k].target))
  {
    var links := seq(|FooterTable|, k requires 0 <= k < |FooterTable| =>
      (FooterTable[k].text, Href(pathname, FooterTable[k].target)));
    [NewsletterSection, FooterSection(Href(pathname, SiteFile(LogoFile)), links)]
  }

  // ---- where the links lead ----------------------------------------------------

  /** The absolute path a target should lead to, whichever page the footer is on. */
  function Intended(t: Target): string {
    match t
    case SiteFile(file) => "/src/" + file
    case HomeAnchor(anchor) => "/" + HomeSection(anchor)
    case External(url) => url
  }

  /** Targets that resolve as plain paths: files without `.`/`..` segments, anchors without `/`. */
  predicate PlainTarget(t: Target) {
    match t
    case SiteFile(file) => PlainReference(file)
    case HomeAnchor(anchor) => '/' !in anchor
    case External(_) => false
  }

  /** A pattern starting with a character `a` lacks occurs in `a + b` only if it occurs in `b`. */
  lemma NotContainedPastPrefix(a: string, b: string, p: string)
    requires |p| > 0 && p[0] !in a && !Contains(b, p)
    ensures !Contains(a + b, p)
  {
    var s := a + b;
    forall j | 0 <= j ensures !OccursAt(s, p, j) {
      if j + |p| <= |s| {
        if j < |a| {
          assert s[j..j + |p|][0] == a[j];
        } else {
          NotOccursPastPrefix(a, b, p, j);
        }
      }
    }
  }

  /** Past the prefix `a`, a window of `a + b` is a window of `b`. */
  lemma NotOccursPastPrefix(a: string, b: string, p: string, j: int)
    requires |a| <= j && j + |p| <= |a| + |b| && !Contains(b, p)
    ensures !OccursAt(a + b, p, j)
  {
    assert (a + b)[j..j + |p|] == b[j - |a|..j - |a| + |p|];
    assert !OccursAt(b, p, j - |a|);
  }

  /** A page of `src/` with a one-segment name is not under `legal/`. */
  lemma SrcPageNotLegal(name: string)
    requires '/' !in name
    ensures !Contains("/src/" + name, "/legal/")
  {
    var s, p := "/src/" + name, "/legal/";
    forall j | 0 <= j ensures !OccursAt(s, p, j) {
      if j + 7 <= |s| {
        var w := s[j..j + 7];
        if j == 0 || j == 4 {
          assert w[6] == s[j + 6] == name[j + 1];
        } else if j < 5 {
          assert w[0] == s[j] == "/src/"[j];
        } else {
          assert w[0] == s[j] == name[j - 5];
        }
      }
    }
  }

  /** The prefixes for each page of the layout. */
  lemma PrefixesOf(p: Page)
    requires WellNamed(p)
    ensures p.Home? ==> BasePath(PathOf(p)) == "src/" && HomePath(PathOf(p)) == ""
    ensures p.SrcPage? ==> BasePath(PathOf(p)) == "" && HomePath(PathOf(p)) == "../"
    ensures p.LegalPage? ==> BasePath(PathOf(p)) == "../" && HomePath(PathOf(p)) == "../../"
  {
    match p
    case Home(viaIndexFile) =>
      if viaIndexFile {
        assert PathOf(p) == "/" + "index.html";
        assert PathOf(p)[1..11] == "index.html";
        OccurrenceContains(PathOf(p), "index.html", 1);
      }
    case SrcPage(name) =>
      NotContainedPastPrefix("/src/", name, "index.html");
      SrcPageNotLegal(name);
      assert |PathOf(p)| >= 5;
    case LegalPage(name) =>
      NotContainedPastPrefix("/src/legal/", name, "index.html");
      assert PathOf(p)[4..11] == "/legal/";
      OccurrenceContains(PathOf(p), "/legal/", 4);
  }

  /** `index.html#anchor` is one plain segment when the anchor has no `/`. */
  lemma AnchorSegment(anchor: string)
    requires '/' !in anchor
    ensures Split(HomeSection(anchor), '/') == [HomeSection(anchor)]
    ensures PlainReference(HomeSection(anchor))
  {
    var f := HomeSection(anchor);
    forall k | 0 <= k < |f| ensures f[k] != '/' {
      if k >= 11 { assert f[k] == anchor[k - 11]; }
    }
    SplitNone(f, '/');
    assert |f| > 2;
  }

  /**
   * From every page of the layout, every link whose target resolves as a
   * plain path leads to the file or section it is meant for: the base path
   * always reaches `src/`, the home path always reaches the site root.
   */
  lemma LinkLeadsToTarget(p: Page, t: Target)
    requires WellNamed(p) && PlainTarget(t)
    ensures Resolve(PathOf(p), Href(PathOf(p), t)) == Intended(t)
  {
    match t
    case SiteFile(file) => SiteFileLeads(p, file);
    case HomeAnchor(anchor) => AnchorLeads(p, anchor);
  }

  /** The base path followed by a plain file reaches that file of `src/`. */
  lemma SiteFileLeads(p: Page, file: string)
    requires WellNamed(p) && PlainReference(file)
    ensures Resolve(PathOf(p), BasePath(PathOf(p)) + file) == "/src/" + file
  {
    DirectoryOf(p);
    PrefixesOf(p);
    var path := PathOf(p);
    if p.Home? {
      SrcUnderRoot(path, file);
    } else if p.SrcPage? {
      assert BasePath(path) + file == file;
      FileInSrc(path, file);
    } else {
      UpFromLegal(path, file);
    }
  }

  /** The home path followed by `index.html#anchor` reaches that section of the home page. */
  lemma AnchorLeads(p: Page, anchor: string)
    requires WellNamed(p) && '/' !in anchor
    ensures Resolve(PathOf(p), HomePath(PathOf(p)) + HomeSection(anchor)) == "/" + HomeSection(anchor)
  {
    AnchorSegment(anchor);
    SegmentFromHome(p, HomeSection(anchor));
  }

  /** The home path followed by one plain segment reaches that file of the site root. */
  lemma SegmentFromHome(p: Page, f: string)
    requires WellNamed(p) && Split(f, '/') == [f] && PlainSegment(f)
    ensures Resolve(PathOf(p), HomePath(PathOf(p)) + f) == "/" + f
  {
    var path := PathOf(p);
    DirectoryOf(p);
    PrefixesOf(p);
    if p.Home? {
      assert HomePath(path) + f == f;
      ResolvePlainAtRoot(path, f);
    } else if p.SrcPage? {
      assert HomePath(path) + f == "../" + f;
      SegmentFromSrc(path, f);
    } else {
      assert HomePath(path) + f == "../../" + f;
      SegmentFromLegal(path, f);
    }
  }

  /** On a page of `src/`, a plain reference leads below `/src/`. */
  lemma FileInSrc(path: string, file: string)
    requires PageDirectory(path) == ["src"] && PlainReference(file)
    ensures Resolve(path, file) == "/src/" + file
  {
    ResolvePlain(path, file);
    assert Join(["src"], '/') == "src";
  }

  /** On the home page, `src/file` leads to `/src/file`. */
  lemma SrcUnderRoot(path: string, file: string)
    requires PageDirectory(path) == [] && PlainReference(file)
    ensures Resolve(path, "src/" + file) == "/src/" + file
  {
    var href := "src/" + file;
    assert href == "src" + ['/'] + file;
    SplitConcat("src", file, '/');
    SplitNone("src", '/');
    assert Split(href, '/') == ["src"] + Split(file, '/');
    assert PlainReference(href) by {
      forall k | 0 <= k < |Split(href, '/')| ensures PlainSegment(Split(href, '/')[k]) {
        if k > 0 { assert Split(href, '/')[k] == Split(file, '/')[k - 1]; }
      }
    }
    ResolvePlainAtRoot(path, href);
  }

  /** On a legal page, `../file` leads to `/src/file`. */
  lemma UpFromLegal(path: string, file: string)
    requires PageDirectory(path) == ["src", "legal"] && PlainReference(file)
    ensures Resolve(path, "../" + file) == "/src/" + file
  {
    PlainLast(file);
    UpLast(file);
    ResolveToFile(path, "../" + file);
    UpSplit(file);
    assert ["src", "legal"] == ["src"] + ["legal"];
    ApplyUp(["src"], "legal", Split(file, '/'));
    ApplyPlain(["src"], Split(file, '/'));
    JoinUnder(["src"], file);
    assert Join(["src"], '/') == "src";
  }

  /** The table's files and anchors are plain. */
  lemma FooterTablePlain()
    ensures forall k :: 0 <= k < |FooterTable| && !FooterTable[k].target.External? ==>
      PlainTarget(FooterTable[k].target)
  {
    PlainFile("about.html");
    PlainFile("support.html");
    PlainUnder(LegalDir, "privacy.html");
    PlainUnder(LegalDir, "terms.html");
    PlainUnder(LegalDir, "refund.html");
  }

  /** A one-segment file name other than `.` and `..` is plain. */
  lemma PlainFile(name: string)
    requires '/' !in name && PlainSegment(name)
    ensures PlainReference(name)
  {
    SplitNone(name, '/');
  }

  /** `dir/name`, both one plain segment, is plain. */
  lemma PlainUnder(dir: string, name: string)
    requires '/' !in dir && PlainSegment(dir) && '/' !in name && PlainSegment(name)
    ensures PlainReference(dir + "/" + name)
  {
    assert dir + "/" + name == dir + ['/'] + name;
    SplitConcat(dir, name, '/');
    SplitNone(dir, '/');
    SplitNone(name, '/');
    assert Split(dir + "/" + name, '/') == [dir, name];
  }

  /**
   * The rendered footer, on any page of the layout: the logo and every
   * internal link lead where they are meant to, and the external link is
   * written as it is.
   */
  lemma RenderedLinksLead(p: Page)
    requires WellNamed(p)
    ensures var r := RenderFooter(PathOf(p));
      && Resolve(PathOf(p), r[1].logoSrc) == "/src/" + LogoFile
      && forall k :: 0 <= k < |FooterTable| ==>
           (FooterTable[k].target.External? ==> r[1].links[k].1 == FooterTable[k].target.url)
           && (!FooterTable[k].target.External? ==> Resolve(PathOf(p), r[1].links[k].1) == Intended(FooterTable[k].target))
  {
    FooterTablePlain();
    forall k | 0 <= k < |FooterTable| && !FooterTable[k].target.External?
      ensures Resolve(PathOf(p), Href(PathOf(p), FooterTable[k].target)) == Intended(FooterTable[k].target)
    {
      LinkLeadsToTarget(p, FooterTable[k].target);
    }
    LogoPlain();
    LinkLeadsToTarget(p, SiteFile(LogoFile));
  }

  /** The logo's path is plain. */
  lemma LogoPlain()
    ensures PlainReference(LogoFile)
  {
    PlainUnder("images", LogoName);
    PlainBelow("assets", "images" + "/" + LogoName);
  }

  /** A plain segment in front of a plain reference keeps it plain. */
  lemma PlainBelow(dir: string, href: string)
    requires '/' !in dir && PlainSegment(dir) && PlainReference(href)
    ensures PlainReference(dir + "/" + href)
  {
    assert dir + "/" + href == dir + ['/'] + href;
    SplitConcat(dir, href, '/');
    SplitNone(dir, '/');
    var parts := Split(dir + "/" + href, '/');
    assert parts == [dir] + Split(href, '/');
    forall k | 0 <= k < |parts| ensures PlainSegment(parts[k]) {
      if k > 0 { assert parts[k] == Split(href, '/')[k - 1]; }
    }
  }
}
