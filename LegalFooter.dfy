/**
 * src/assets/js/legal-footer.js: which legal document the page shows
 * (`getCurrentLegalPage`) and the navigation links `renderLegalFooter` puts
 * in the legal pages' footer. The markup around the links is not modelled.
 */
module LegalFooter {
  import opened Strings
  import opened SitePaths

  /** The values `getCurrentLegalPage` returns. */
  datatype LegalDoc = PrivacyPolicy | TermsFuture | TermsMvp | UnknownDoc

  const PrivacyFile := "privacy-policy.html"
  const FutureFile := "terms-future.html"
  const MvpFile := "terms-mvp.html"

  /** The file of each known document. */
  function DocFile(d: LegalDoc): string
    requires d != UnknownDoc
  {
    match d
    case PrivacyPolicy => PrivacyFile
    case TermsFuture => FutureFile
    case TermsMvp => MvpFile
  }

  /**
   * `getCurrentLegalPage()`: the first file name the path contains, tested
   * in the order privacy policy, future terms, MVP terms; `unknown` when it
   * contains none of them.
   */
  function CurrentLegalPage(pathname: string): (r: LegalDoc)
    ensures r == PrivacyPolicy <==> Contains(pathname, PrivacyFile)
    ensures r == TermsFuture <==> !Contains(pathname, PrivacyFile) && Contains(pathname, FutureFile)
    ensures r == TermsMvp <==>
      !Contains(pathname, PrivacyFile) && !Contains(pathname, FutureFile) && Contains(pathname, MvpFile)
    ensures r == UnknownDoc <==>
      !Contains(pathname, PrivacyFile) && !Contains(pathname, FutureFile) && !Contains(pathname, MvpFile)
  {
    if Contains(pathname, PrivacyFile) then PrivacyPolicy
    else if Contains(pathname, FutureFile) then TermsFuture
    else if Contains(pathname, MvpFile) then TermsMvp
    else UnknownDoc
  }

  /**
   * A document's file, below a directory without a `y` or an `f` (such as
   * `/src/legal/`), is recognised as that document: no file name of the
   * three occurs in another's path by accident.
   */
  lemma RecognisedBelow(dir: string, d: LegalDoc)
    requires d != UnknownDoc && 'y' !in dir && 'f' !in dir
    ensures CurrentLegalPage(dir + DocFile(d)) == d
  {
    var s := dir + DocFile(d);
    assert s[|dir|..] == DocFile(d);
    OccurrenceContains(s, DocFile(d), |dir|);
    FileLetters();
    if d != PrivacyPolicy {
      assert 'y' !in s;
      MissingCharNotContained(s, PrivacyFile, 6);
    }
    if d == TermsMvp {
      assert 'f' !in s;
      MissingCharNotContained(s, FutureFile, 6);
    }
  }

  /** The letters that tell the file names apart: only the privacy policy has a `y`, the MVP terms have no `f`. */
  lemma FileLetters()
    ensures PrivacyFile[6] == 'y' && 'y' !in FutureFile && 'y' !in MvpFile
    ensures FutureFile[6] == 'f' && 'f' !in MvpFile
  {
  }

  /** A path without a `-` names none of the three documents. */
  lemma UnhyphenatedIsUnknown(pathname: string)
    requires '-' !in pathname
    ensures CurrentLegalPage(pathname) == UnknownDoc
  {
    HyphenPositions();
    MissingCharNotContained(pathname, PrivacyFile, 7);
    MissingCharNotContained(pathname, FutureFile, 5);
    MissingCharNotContained(pathname, MvpFile, 5);
  }

  /** Each document's file name has a `-`. */
  lemma HyphenPositions()
    ensures PrivacyFile[7] == '-' && FutureFile[5] == '-' && MvpFile[5] == '-'
  {
  }

  /**
   * The legal pages the main footer links to (`legal/privacy.html`,
   * `legal/terms.html`, `legal/refund.html` below `src/`) are none of the
   * three documents this footer knows: on them it shows all four links.
   */
  lemma MainFooterLegalPagesUnknown()
    ensures CurrentLegalPage("/src/legal/" + "privacy.html") == UnknownDoc
    ensures CurrentLegalPage("/src/legal/" + "terms.html") == UnknownDoc
    ensures CurrentLegalPage("/src/legal/" + "refund.html") == UnknownDoc
  {
    assert '-' !in "/src/legal/";
    assert '-' !in "privacy.html" && '-' !in "terms.html" && '-' !in "refund.html";
    UnhyphenatedIsUnknown("/src/legal/" + "privacy.html");
    UnhyphenatedIsUnknown("/src/legal/" + "terms.html");
    UnhyphenatedIsUnknown("/src/legal/" + "refund.html");
  }

  // ---- navigation links ----------------------------------------------------------

  /** A navigation link: its `href` and its text. */
  datatype NavLink = NavLink(href: string, text: string)

  const HomeFile := "index.html"
  const HomeLink := NavLink("../../" + HomeFile, "Home")

  /** The link to a known document: a file of the same directory. */
  function DocLink(d: LegalDoc): (r: NavLink)
    requires d != UnknownDoc
    ensures CurrentLegalPage(r.href) == d
    ensures r.text != HomeLink.text
  {
    RecognisedBelow("", d);
    assert "" + DocFile(d) == DocFile(d);
    match d
    case PrivacyPolicy => NavLink(PrivacyFile, "Privacy Policy")
    case TermsMvp => NavLink(MvpFile, "Terms of Service")
    case TermsFuture => NavLink(FutureFile, "Future Terms")
  }

  /** The documents in the order their links are pushed. */
  const DocOrder: seq<LegalDoc> := [PrivacyPolicy, TermsMvp, TermsFuture]

  /** The links to the documents of `docs` other than `current`, in order. */
  function LinksOmitting(docs: seq<LegalDoc>, current: LegalDoc): (r: seq<NavLink>)
    requires UnknownDoc !in docs
    ensures |r| <= |docs|
    ensures current !in docs ==> |r| == |docs|
    ensures forall k :: 0 <= k < |r| ==> exists i :: 0 <= i < |docs| && docs[i] != current && r[k] == DocLink(docs[i])
  {
    if docs == [] then []
    else
      var rest := LinksOmitting(docs[1..], current);
      assert forall k :: 0 <= k < |rest| ==>
        exists i :: 0 <= i < |docs[1..]| && docs[1..][i] != current && rest[k] == DocLink(docs[1..][i]);
      if docs[0] == current then
        assert forall k :: 0 <= k < |rest| ==>
          exists i :: 0 <= i < |docs| && docs[i] != current && rest[k] == DocLink(docs[i]) by {
          forall k | 0 <= k < |rest|
            ensures exists i :: 0 <= i < |docs| && docs[i] != current && rest[k] == DocLink(docs[i])
          {
            var i :| 0 <= i < |docs[1..]| && docs[1..][i] != current && rest[k] == DocLink(docs[1..][i]);
            assert docs[i + 1] == docs[1..][i];
          }
        }
        rest
      else
        var r := [DocLink(docs[0])] + rest;
        assert forall k :: 1 <= k < |r| ==> r[k] == rest[k - 1];
        r
  }

  /** The links the legal footer shows on the page of `current`: Home, then the other documents. */
  function NavigationLinksFor(current: LegalDoc): (r: seq<NavLink>)
    ensures |r| >= 1 && r[0] == HomeLink
    ensures forall k :: 1 <= k < |r| ==> r[k] != HomeLink
  {
    [HomeLink] + LinksOmitting(DocOrder, current)
  }

  /**
   * The `navigationLinks` array of `renderLegalFooter`: Home is pushed
   * first, then each document's link unless it is the current page.
   */
  method NavigationLinks(current: LegalDoc) returns (links: seq<NavLink>)
    ensures links == NavigationLinksFor(current)
  {
    links := [];
    links := links + [HomeLink];
    if current != PrivacyPolicy {
      links := links + [DocLink(PrivacyPolicy)];
    }
    if current != TermsMvp {
      links := links + [DocLink(TermsMvp)];
    }
    if current != TermsFuture {
      links := links + [DocLink(TermsFuture)];
    }
    OmittingInOrder(current);
    assert links == [HomeLink] + LinksOmitting(DocOrder, current);
  }

  /** `LinksOmitting` over the three documents, unrolled. */
  lemma OmittingInOrder(current: LegalDoc)
    ensures LinksOmitting(DocOrder, current) ==
      (if current != PrivacyPolicy then [DocLink(PrivacyPolicy)] else [])
      + (if current != TermsMvp then [DocLink(TermsMvp)] else [])
      + (if current != TermsFuture then [DocLink(TermsFuture)] else [])
  {
    var tail := DocOrder[1..];
    assert tail == [TermsMvp, TermsFuture];
    assert tail[1..] == [TermsFuture];
    assert tail[1..][1..] == [];
    assert LinksOmitting(tail[1..], current) == if current != TermsFuture then [DocLink(TermsFuture)] else [];
  }

  /** `getCurrentLegalPage` then the link selection, for the page at `pathname`. */
  method LegalFooterLinks(pathname: string) returns (links: seq<NavLink>)
    ensures links == NavigationLinksFor(CurrentLegalPage(pathname))
  {
    var currentPage: LegalDoc;
    if Contains(pathname, PrivacyFile) {
      currentPage := PrivacyPolicy;
    } else if Contains(pathname, FutureFile) {
      currentPage := TermsFuture;
    } else if Contains(pathname, MvpFile) {
      currentPage := TermsMvp;
    } else {
      currentPage := UnknownDoc;
    }
    links := NavigationLinks(currentPage);
  }

  // ---- what the selection promises -----------------------------------------------

  /** Home is always there and always first. */
  lemma HomeAlwaysFirst(current: LegalDoc)
    ensures |NavigationLinksFor(current)| >= 1 && NavigationLinksFor(current)[0] == HomeLink
  {
  }

  /** Four links on an unknown page, three on a known document. */
  lemma LinkCount(current: LegalDoc)
    ensures |NavigationLinksFor(current)| == if current == UnknownDoc then 4 else 3
  {
    OmittingInOrder(current);
  }

  /** Different documents have different links, and none of them is the Home link. */
  lemma DocLinksDistinct(d: LegalDoc, e: LegalDoc)
    requires d != UnknownDoc && e != UnknownDoc
    ensures DocLink(d) != HomeLink
    ensures DocLink(d) == DocLink(e) <==> d == e
  {
    assert DocLink(d).text != HomeLink.text;
    assert d != e ==> DocLink(d).text != DocLink(e).text;
  }

  /** The current document's link is left out and every other document's link is there. */
  lemma CurrentOmittedOthersPresent(current: LegalDoc, d: LegalDoc)
    requires d != UnknownDoc
    ensures DocLink(d) in NavigationLinksFor(current) <==> d != current
  {
    OmittingInOrder(current);
    DocLinksDistinct(d, PrivacyPolicy);
    DocLinksDistinct(d, TermsMvp);
    DocLinksDistinct(d, TermsFuture);
  }

  /** The position of a link in the full list Home, Privacy Policy, Terms of Service, Future Terms. */
  function Rank(link: NavLink): int {
    if link == HomeLink then 0
    else if link == DocLink(PrivacyPolicy) then 1
    else if link == DocLink(TermsMvp) then 2
    else if link == DocLink(TermsFuture) then 3
    else 4
  }

  /** The links keep the fixed order Home, Privacy Policy, Terms of Service, Future Terms. */
  lemma LinksInFixedOrder(current: LegalDoc)
    ensures var links := NavigationLinksFor(current);
      forall i, j :: 0 <= i < j < |links| ==> Rank(links[i]) < Rank(links[j])
  {
    OmittingInOrder(current);
    DocLinksDistinct(PrivacyPolicy, TermsMvp);
    DocLinksDistinct(PrivacyPolicy, TermsFuture);
    DocLinksDistinct(TermsMvp, TermsFuture);
    DocLinksDistinct(TermsMvp, TermsMvp);
    DocLinksDistinct(TermsFuture, TermsFuture);
  }

  // ---- where the links lead ------------------------------------------------------

  /** The path of a known document's page. */
  function DocPath(d: LegalDoc): string
    requires d != UnknownDoc
  {
    "/src/legal/" + DocFile(d)
  }

  /** The joined directory `src`, `legal` is the prefix of the legal pages' paths. */
  lemma LegalDirectoryPath(file: string)
    ensures "/" + Join(["src", "legal"], '/') + "/" + file == "/src/legal/" + file
  {
    assert Join(["src", "legal"], '/') == "src" + ['/'] + "legal";
  }

  /** The legal directory's path has neither a `y` nor an `f`. */
  lemma LegalDirectoryLetters()
    ensures 'y' !in "/src/legal/" && 'f' !in "/src/legal/"
  {
  }

  /** The document files are one plain segment that is not an `index.html` file. */
  lemma DocFileWellNamed(d: LegalDoc)
    requires d != UnknownDoc
    ensures WellNamed(LegalPage(DocFile(d)))
  {
    var name := DocFile(d);
    assert HomeFile[4] == 'x';
    MissingCharNotContained(name, HomeFile, 4);
  }

  /** A document's file is one plain segment. */
  lemma DocFilePlain(d: LegalDoc)
    requires d != UnknownDoc
    ensures PlainReference(DocFile(d))
  {
    var f := DocFile(d);
    assert |f| > 2 && '/' !in f by {
      match d
      case PrivacyPolicy => assert f == PrivacyFile;
      case TermsFuture => assert f == FutureFile;
      case TermsMvp => assert f == MvpFile;
    }
    SplitNone(f, '/');
  }

  /**
   * From any document's page, the Home link leads to the home page and
   * each document link leads to that document's page, where the footer
   * recognises it as the current document.
   */
  lemma LinksLeadToDocuments(from: LegalDoc, to: LegalDoc)
    requires from != UnknownDoc && to != UnknownDoc
    ensures Resolve(DocPath(from), HomeLink.href) == "/" + HomeFile
    ensures Resolve(DocPath(from), DocLink(to).href) == DocPath(to)
    ensures CurrentLegalPage(DocPath(to)) == to
  {
    HomeLinkLeadsHome(from);
    DocLinkLeads(from, to);
    LegalDirectoryLetters();
    RecognisedBelow("/src/legal/", to);
  }

  /** The directory of every document's page is `src/legal`. */
  lemma DocDirectory(d: LegalDoc)
    requires d != UnknownDoc
    ensures PageDirectory(DocPath(d)) == ["src", "legal"]
  {
    DocFileWellNamed(d);
    DirectoryOf(LegalPage(DocFile(d)));
    assert PathOf(LegalPage(DocFile(d))) == DocPath(d);
  }

  /** `../../index.html` climbs from `src/legal` to the root. */
  lemma HomeLinkLeadsHome(from: LegalDoc)
    requires from != UnknownDoc
    ensures Resolve(DocPath(from), HomeLink.href) == "/" + HomeFile
  {
    DocDirectory(from);
    SplitNone(HomeFile, '/');
    SegmentFromLegal(DocPath(from), HomeFile);
  }

  /** A document's file, from a page of the same directory, is that document's page. */
  lemma DocLinkLeads(from: LegalDoc, to: LegalDoc)
    requires from != UnknownDoc && to != UnknownDoc
    ensures Resolve(DocPath(from), DocLink(to).href) == DocPath(to)
  {
    DocDirectory(from);
    DocFilePlain(to);
    FileInLegalDirectory(DocPath(from), DocFile(to));
    assert DocLink(to).href == DocFile(to);
  }

  /** On a page of `src/legal`, a plain reference leads below `/src/legal/`. */
  lemma FileInLegalDirectory(path: string, file: string)
    requires PageDirectory(path) == ["src", "legal"] && PlainReference(file)
    ensures Resolve(path, file) == "/src/legal/" + file
  {
    ResolvePlain(path, file);
    LegalDirectoryPath(file);
  }
}
