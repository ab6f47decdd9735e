/**
 * The build script that writes `sitemap.xml` and `robots.txt`: the XML is
 * assembled as text, one `<url>` block per listed page, all dated with the
 * day of the build. The site URL (read from the SEO configuration) and the
 * build time (as an ISO-8601 string) are parameters; writing the files is
 * not modelled.
 */
module Sitemap {
  import opened Text

  datatype Page = Page(url: string, priority: string, changefreq: string)

  /** The pages listed, in order. */
  const Pages: seq<Page> := [
    Page("/", "1.0", "weekly"),
    Page("/member/sai-sandeep", "0.8", "monthly"),
    Page("/member/jai-ganesh", "0.8", "monthly"),
    Page("/member/jayram-reddy", "0.8", "monthly"),
    Page("/dashboard", "0.6", "weekly")
  ]

  /** The build day: the part of the ISO time before its first `T`. */
  function CurrentDate(iso: string): string
  {
    Split(iso, 'T')[0]
  }

  /** For `YYYY-MM-DDThh:mm:ss.sssZ` the build day is `YYYY-MM-DD`. */
  lemma CurrentDateOfIso(day: string, time: string)
    requires 'T' !in day
    ensures CurrentDate(day + "T" + time) == day
  {
    SplitConcat(day, time, 'T');
  }

  const Header := "<?xml version=\"1.0\" encoding=\"UTF-8\"?>\n<urlset xmlns=\"http://www.sitemaps.org/schemas/sitemap/0.9\">"
  const Footer := "\n</urlset>"
  const UrlOpen := "\n  <url>\n    "

  /** The `<loc>` element of a page. */
  function Loc(site: string, p: Page): string
  {
    "<loc>" + site + p.url + "</loc>"
  }

  /** The rest of a page's block: the build day, the change frequency and the priority. */
  function Details(date: string, p: Page): string
  {
    "\n    <lastmod>" + date + "</lastmod>\n    <changefreq>" + p.changefreq
      + "</changefreq>\n    <priority>" + p.priority + "</priority>\n  </url>"
  }

  /** One page's `<url>` block. */
  function Block(site: string, date: string, p: Page): string
  {
    UrlOpen + Loc(site, p) + Details(date, p)
  }

  /** The blocks of several pages, in order. */
  function Blocks(site: string, date: string, pages: seq<Page>): string
  {
    if pages == [] then "" else Blocks(site, date, pages[..|pages| - 1]) + Block(site, date, pages[|pages| - 1])
  }

  /** The whole document: the XML declaration and `<urlset>`, the blocks, and the closing tag. */
  function Document(site: string, date: string, pages: seq<Page>): string
  {
    Header + Blocks(site, date, pages) + Footer
  }

  lemma AppendAssoc(a: string, b: string, c: string)
    ensures (a + b) + c == a + (b + c)
  {
  }

  /** The blocks of the first `i + 1` pages extend those of the first `i` by page `i`'s block. */
  lemma BlocksPrefix(site: string, date: string, pages: seq<Page>, i: nat)
    requires i < |pages|
    ensures Blocks(site, date, pages[..i + 1]) == Blocks(site, date, pages[..i]) + Block(site, date, pages[i])
  {
    assert pages[..i + 1][..i] == pages[..i];
  }

  /** The `forEach` that appends one block per page to the document begun so far. */
  method AppendBlocks(start: string, site: string, date: string, pages: seq<Page>) returns (sitemap: string)
    ensures sitemap == start + Blocks(site, date, pages)
  {
    sitemap := start;
    ghost var blocks := "";
    for i := 0 to |pages|
      invariant blocks == Blocks(site, date, pages[..i])
      invariant sitemap == start + blocks
    {
      var block := Block(site, date, pages[i]);
      BlocksPrefix(site, date, pages, i);
      AppendAssoc(start, blocks, block);
      sitemap := sitemap + block;
      blocks := blocks + block;
    }
    assert pages[..|pages|] == pages;
  }

  /** `generateSitemap`: the document for the listed pages, dated with the build day. */
  method GenerateSitemap(site: string, iso: string) returns (sitemap: string)
    ensures sitemap == Document(site, CurrentDate(iso), Pages)
  {
    sitemap := AppendBlocks(Header, site, CurrentDate(iso), Pages);
    sitemap := sitemap + Footer;
  }

  /** The blocks of two runs of pages are the blocks of the first followed by those of the second. */
  lemma {:induction false} BlocksAppend(site: string, date: string, a: seq<Page>, b: seq<Page>)
    ensures Blocks(site, date, a + b) == Blocks(site, date, a) + Blocks(site, date, b)
    decreases |b|
  {
    if b != [] {
      var b' := b[..|b| - 1];
      assert (a + b)[..|a + b| - 1] == a + b';
      assert (a + b)[|a + b| - 1] == b[|b| - 1];
      BlocksAppend(site, date, a, b');
    } else {
      assert a + b == a;
    }
  }

  /** A text is found where it is placed. */
  lemma ContainsInfix(a: string, pat: string, b: string)
    ensures Contains(a + pat + b, pat)
  {
    var s := a + pat + b;
    assert s[|a|..][..|pat|] == pat;
    ContainsAt(s, pat, |a|);
  }

  /** Text around a text keeps what it contains. */
  lemma {:induction false} ContainsWithin(a: string, s: string, c: string, pat: string)
    requires Contains(s, pat)
    ensures Contains(a + s + c, pat)
    decreases |s|
  {
    if StartsWith(s, pat) {
      assert s == pat + s[|pat|..];
      assert a + s + c == a + pat + (s[|pat|..] + c);
      ContainsInfix(a, pat, s[|pat|..] + c);
    } else {
      ContainsWithin(a + [s[0]], s[1..], c, pat);
      assert a + [s[0]] + s[1..] + c == a + s + c;
    }
  }

  /** A framed text starts with its opening and ends with its closing. */
  lemma Framed(h: string, x: string, f: string)
    ensures StartsWith(h + x + f, h) && EndsWith(h + x + f, f)
  {
    var s := h + x + f;
    assert s[..|h|] == h;
    assert s[|s| - |f|..] == f;
  }

  /** The blocks hold every page's location. */
  lemma BlocksListEveryPage(site: string, date: string, pages: seq<Page>, k: nat)
    requires k < |pages|
    ensures Contains(Blocks(site, date, pages), Loc(site, pages[k]))
  {
    var before := pages[..k];
    var after := pages[k + 1..];
    assert pages == before + [pages[k]] + after;
    BlocksAppend(site, date, before + [pages[k]], after);
    BlocksAppend(site, date, before, [pages[k]]);
    assert Blocks(site, date, [pages[k]]) == Block(site, date, pages[k]) by {
      assert [pages[k]][..0] == [];
    }
    ContainsInfix(UrlOpen, Loc(site, pages[k]), Details(date, pages[k]));
    ContainsWithin(Blocks(site, date, before), Block(site, date, pages[k]), Blocks(site, date, after), Loc(site, pages[k]));
  }

  /**
   * The document begins with the XML declaration, ends with `</urlset>`, and
   * holds every page's location (the site URL followed by the page's path).
   */
  lemma DocumentListsEveryPage(site: string, date: string, pages: seq<Page>, k: nat)
    requires k < |pages|
    ensures StartsWith(Document(site, date, pages), Header)
    ensures EndsWith(Document(site, date, pages), Footer)
    ensures Contains(Document(site, date, pages), Loc(site, pages[k]))
  {
    Framed(Header, Blocks(site, date, pages), Footer);
    BlocksListEveryPage(site, date, pages, k);
    ContainsWithin(Header, Blocks(site, date, pages), Footer, Loc(site, pages[k]));
  }

  /** The generated sitemap lists every one of the five pages, dated with the build day. */
  lemma SitemapListsPages(site: string, iso: string, k: nat)
    requires k < |Pages|
    ensures Contains(Document(site, CurrentDate(iso), Pages), "<loc>" + site + Pages[k].url + "</loc>")
  {
    DocumentListsEveryPage(site, CurrentDate(iso), Pages, k);
  }

  /** The `Sitemap:` line of `robots.txt`. */
  function SitemapLine(site: string): string
  {
    "Sitemap: " + site + "/sitemap.xml"
  }

  const RobotsHead := "User-agent: *\nAllow: /\n\n# Sitemap\n"
  const AdminRule := "\n\n# Disallow admin areas\nDisallow: /admin/\n"
  const ApiRule := "Disallow: /api/"
  const RobotsTail := "\nDisallow: /*.json$\nDisallow: /src/\nDisallow: /node_modules/\n\n# Allow common crawlers\nUser-agent: Googlebot\nAllow: /\n\nUser-agent: Bingbot\nAllow: /\n\n# Crawl delay\nCrawl-delay: 1"

  /** `generateRobotsTxt`. */
  function RobotsTxt(site: string): string
  {
    RobotsHead + SitemapLine(site) + AdminRule + ApiRule + RobotsTail
  }

  /** Five pieces in a row: the text starts with the first and holds the second and the fourth. */
  lemma FivePieces(a: string, b: string, c: string, d: string, e: string)
    ensures StartsWith(a + b + c + d + e, a)
    ensures Contains(a + b + c + d + e, b)
    ensures Contains(a + b + c + d + e, d)
  {
    var s := a + b + c + d + e;
    assert s == a + b + (c + d + e);
    ContainsInfix(a, b, c + d + e);
    Framed(a, b, c + d + e);
    ContainsInfix(a + b + c, d, e);
  }

  /** A prefix of a prefix is a prefix. */
  lemma StartsWithTrans(s: string, p: string, q: string)
    requires StartsWith(s, p) && StartsWith(p, q)
    ensures StartsWith(s, q)
  {
    assert s[..|q|] == p[..|q|];
  }

  /** `robots.txt` allows every crawler, points to the site's sitemap and keeps crawlers off `/api/`. */
  lemma RobotsFacts(site: string)
    ensures StartsWith(RobotsTxt(site), "User-agent: *\nAllow: /\n")
    ensures Contains(RobotsTxt(site), "Sitemap: " + site + "/sitemap.xml")
    ensures Contains(RobotsTxt(site), "Disallow: /api/")
  {
    FivePieces(RobotsHead, SitemapLine(site), AdminRule, ApiRule, RobotsTail);
    assert StartsWith(RobotsHead, "User-agent: *\nAllow: /\n");
    StartsWithTrans(RobotsTxt(site), RobotsHead, "User-agent: *\nAllow: /\n");
  }
}
