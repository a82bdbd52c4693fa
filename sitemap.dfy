/** The two derived text artifacts of app/Http/Controllers/SitemapController.php:
    `sitemap.xml` in the Sitemaps XML format, protocol 0.9 (sitemaps.org), and
    `robots.txt` as User-agent/Allow/Disallow records (section 2.2 of RFC 9309).
    The application URL, the current time (already formatted as ISO 8601) and
    `htmlspecialchars` are parameters; `PHP_EOL` is a line feed. */
module Sitemap {
  import opened Common
  import opened SeoSettings

  // ---- Lines and line terminators ----

  /** Every line followed by a line feed. */
  function Terminated(lines: seq<string>): (s: string)
    ensures |lines| > 0 ==> |s| > 0 && s[|s| - 1] == '\n'
  {
    if lines == [] then "" else lines[0] + "\n" + Terminated(lines[1..])
  }

  /** Terminating two blocks of lines one after the other is terminating
      them together. */
  lemma {:induction false} TerminatedAppend(a: seq<string>, b: seq<string>)
    ensures Terminated(a + b) == Terminated(a) + Terminated(b)
  {
    if a == [] {
      assert a + b == b;
    } else {
      assert (a + b)[0] == a[0];
      assert (a + b)[1..] == a[1..] + b;
      TerminatedAppend(a[1..], b);
    }
  }

  lemma TerminatedSingle(l: string)
    ensures Terminated([l]) == l + "\n"
  {
    assert [l][1..] == [];
  }

  lemma TerminatedCons(l: string, rest: seq<string>)
    ensures Terminated([l] + rest) == l + "\n" + Terminated(rest)
  {
    assert ([l] + rest)[1..] == rest;
  }

  // ---- sitemap.xml ----

  /** One `<url>` element of the sitemap. */
  datatype UrlEntry = UrlEntry(loc: string, lastmod: string, changefreq: string, priority: string)

  /** The five entries: the home page and its four sections, each stamped
      with the current time. */
  function SitemapUrls(appUrl: string, now: string): seq<UrlEntry>
  {
    [
      UrlEntry(appUrl, now, "weekly", "1.0"),
      UrlEntry(appUrl + "/#about", now, "monthly", "0.8"),
      UrlEntry(appUrl + "/#products", now, "weekly", "0.9"),
      UrlEntry(appUrl + "/#gallery", now, "weekly", "0.7"),
      UrlEntry(appUrl + "/#contact", now, "monthly", "0.8")
    ]
  }

  const XmlDeclaration := "<?xml version=\"1.0\" encoding=\"UTF-8\"?>"
  const UrlsetOpen := "<urlset xmlns=\"http://www.sitemaps.org/schemas/sitemap/0.9\">"
  const UrlsetClose := "</urlset>"

  /** The six lines of one entry; only `loc` goes through the escape. */
  function EntryLines(u: UrlEntry, escape: string -> string): (ls: seq<string>)
    ensures |ls| == 6
  {
    [
      "  <url>",
      "    <loc>" + escape(u.loc) + "</loc>",
      "    <lastmod>" + u.lastmod + "</lastmod>",
      "    <changefreq>" + u.changefreq + "</changefreq>",
      "    <priority>" + u.priority + "</priority>",
      "  </url>"
    ]
  }

  /** The lines of all entries, in order. */
  function AllEntryLines(us: seq<UrlEntry>, escape: string -> string): (ls: seq<string>)
    ensures |ls| == 6 * |us|
  {
    if us == [] then [] else EntryLines(us[0], escape) + AllEntryLines(us[1..], escape)
  }

  /** Line `k` of entry `i` sits at position `6 * i + k`. */
  lemma {:induction false} AllEntryLinesAt(us: seq<UrlEntry>, escape: string -> string, i: nat, k: nat)
    requires i < |us| && k < 6
    ensures AllEntryLines(us, escape)[6 * i + k] == EntryLines(us[i], escape)[k]
  {
    if i > 0 {
      AllEntryLinesAt(us[1..], escape, i - 1, k);
    }
  }

  lemma AllEntryLinesSnoc(us: seq<UrlEntry>, u: UrlEntry, escape: string -> string)
    ensures AllEntryLines(us + [u], escape) == AllEntryLines(us, escape) + EntryLines(u, escape)
    decreases |us|
  {
    if us != [] {
      assert (us + [u])[1..] == us[1..] + [u];
      AllEntryLinesSnoc(us[1..], u, escape);
    }
  }

  /** Every line of the document; all but the last end with a line feed. */
  function SitemapLines(us: seq<UrlEntry>, escape: string -> string): seq<string>
  {
    [XmlDeclaration, UrlsetOpen] + AllEntryLines(us, escape) + [UrlsetClose]
  }

  /** The document: the terminated head and entry lines, then the closing
      tag with no line feed after it. */
  function SitemapXml(us: seq<UrlEntry>, escape: string -> string): string
  {
    Terminated(SitemapHeadLines + AllEntryLines(us, escape)) + UrlsetClose
  }

  /** `sitemap()`: appends the head, six lines per entry and the closing tag. */
  method BuildSitemap(appUrl: string, now: string, escape: string -> string) returns (xml: string)
    ensures xml == SitemapXml(SitemapUrls(appUrl, now), escape)
  {
    var urls := SitemapUrls(appUrl, now);
    xml := XmlDeclaration + "\n";
    xml := xml + (UrlsetOpen + "\n");
    SitemapHead(urls, escape);
    var i := 0;
    while i < |urls|
      invariant 0 <= i <= |urls|
      invariant xml == Terminated(SitemapHeadLines + AllEntryLines(urls[..i], escape))
    {
      var u := urls[i];
      SitemapStep(urls, i, escape);
      EntryAppended(xml, u, escape);
      xml := xml + ("  <url>" + "\n");
      xml := xml + ("    <loc>" + escape(u.loc) + "</loc>" + "\n");
      xml := xml + ("    <lastmod>" + u.lastmod + "</lastmod>" + "\n");
      xml := xml + ("    <changefreq>" + u.changefreq + "</changefreq>" + "\n");
      xml := xml + ("    <priority>" + u.priority + "</priority>" + "\n");
      xml := xml + ("  </url>" + "\n");
      i := i + 1;
    }
    assert urls[..i] == urls;
    xml := xml + UrlsetClose;
  }

  const SitemapHeadLines := [XmlDeclaration, UrlsetOpen]

  lemma SitemapHead(us: seq<UrlEntry>, escape: string -> string)
    ensures Terminated(SitemapHeadLines + AllEntryLines(us[..0], escape)) == XmlDeclaration + "\n" + UrlsetOpen + "\n"
  {
    assert us[..0] == [];
    assert SitemapHeadLines + AllEntryLines(us[..0], escape) == [XmlDeclaration] + [UrlsetOpen];
    TerminatedCons(XmlDeclaration, [UrlsetOpen]);
    TerminatedSingle(UrlsetOpen);
  }

  /** Appending entry `i`'s terminated lines extends the document by one entry. */
  lemma SitemapStep(us: seq<UrlEntry>, i: nat, escape: string -> string)
    requires i < |us|
    ensures Terminated(SitemapHeadLines + AllEntryLines(us[..i + 1], escape)) ==
      Terminated(SitemapHeadLines + AllEntryLines(us[..i], escape)) + Terminated(EntryLines(us[i], escape))
  {
    assert us[..i + 1] == us[..i] + [us[i]];
    AllEntryLinesSnoc(us[..i], us[i], escape);
    assert SitemapHeadLines + AllEntryLines(us[..i + 1], escape)
        == (SitemapHeadLines + AllEntryLines(us[..i], escape)) + EntryLines(us[i], escape);
    TerminatedAppend(SitemapHeadLines + AllEntryLines(us[..i], escape), EntryLines(us[i], escape));
  }

  /** Appending the six lines of an entry one at a time appends the
      entry's terminated lines. */
  lemma EntryAppended(before: string, u: UrlEntry, escape: string -> string)
    ensures before + ("  <url>" + "\n")
      + ("    <loc>" + escape(u.loc) + "</loc>" + "\n")
      + ("    <lastmod>" + u.lastmod + "</lastmod>" + "\n")
      + ("    <changefreq>" + u.changefreq + "</changefreq>" + "\n")
      + ("    <priority>" + u.priority + "</priority>" + "\n")
      + ("  </url>" + "\n")
      == before + Terminated(EntryLines(u, escape))
  {
    var ls := EntryLines(u, escape);
    var s1 := before + (ls[0] + "\n");
    var s2 := s1 + (ls[1] + "\n");
    var s3 := s2 + (ls[2] + "\n");
    var s4 := s3 + (ls[3] + "\n");
    var s5 := s4 + (ls[4] + "\n");
    TerminatedSuffix(ls, 5);
    TerminatedSuffix(ls, 4);
    TerminatedSuffix(ls, 3);
    TerminatedSuffix(ls, 2);
    TerminatedSuffix(ls, 1);
    TerminatedSuffix(ls, 0);
    assert ls[6..] == [] && ls[0..] == ls;
    Regroup(s5, ls[5] + "\n", Terminated(ls[6..]));
    Regroup(s4, ls[4] + "\n", Terminated(ls[5..]));
    Regroup(s3, ls[3] + "\n", Terminated(ls[4..]));
    Regroup(s2, ls[2] + "\n", Terminated(ls[3..]));
    Regroup(s1, ls[1] + "\n", Terminated(ls[2..]));
    Regroup(before, ls[0] + "\n", Terminated(ls[1..]));
  }

  lemma Regroup(s: string, l: string, t: string)
    ensures s + l + t == s + (l + t)
  {
  }

  /** Peeling the first of the remaining lines. */
  lemma TerminatedSuffix(ls: seq<string>, k: nat)
    requires k < |ls|
    ensures Terminated(ls[k..]) == ls[k] + "\n" + Terminated(ls[k + 1..])
  {
    assert ls[k..][1..] == ls[k + 1..];
  }

  /** The document is exactly its lines joined by line feeds, with none
      after the closing tag. */
  lemma SitemapXmlIsLines(us: seq<UrlEntry>, escape: string -> string)
    ensures SitemapXml(us, escape) + "\n" == Terminated(SitemapLines(us, escape))
  {
    TerminatedAppend([XmlDeclaration, UrlsetOpen] + AllEntryLines(us, escape), [UrlsetClose]);
    TerminatedSingle(UrlsetClose);
  }

  /** The sitemap's shape: 33 lines, the declaration and `urlset` opening
      first, `</urlset>` last, and entry `i`'s lines in lines `2 + 6i` to
      `7 + 6i`, with the five locations, frequencies and priorities in
      order and every `lastmod` the current time. */
  lemma SitemapShape(appUrl: string, now: string, escape: string -> string, i: nat, k: nat)
    requires i < 5 && k < 6
    ensures var ls := SitemapLines(SitemapUrls(appUrl, now), escape);
      |ls| == 33 && ls[0] == XmlDeclaration && ls[1] == UrlsetOpen && ls[32] == UrlsetClose &&
      ls[2 + 6 * i + k] == EntryLines(SitemapUrls(appUrl, now)[i], escape)[k]
    ensures SitemapUrls(appUrl, now)[i].lastmod == now
    ensures [SitemapUrls(appUrl, now)[0].loc, SitemapUrls(appUrl, now)[1].loc, SitemapUrls(appUrl, now)[2].loc,
             SitemapUrls(appUrl, now)[3].loc, SitemapUrls(appUrl, now)[4].loc] ==
            [appUrl, appUrl + "/#about", appUrl + "/#products", appUrl + "/#gallery", appUrl + "/#contact"]
    ensures [SitemapUrls(appUrl, now)[0].priority, SitemapUrls(appUrl, now)[1].priority, SitemapUrls(appUrl, now)[2].priority,
             SitemapUrls(appUrl, now)[3].priority, SitemapUrls(appUrl, now)[4].priority] ==
            ["1.0", "0.8", "0.9", "0.7", "0.8"]
    ensures [SitemapUrls(appUrl, now)[0].changefreq, SitemapUrls(appUrl, now)[1].changefreq, SitemapUrls(appUrl, now)[2].changefreq,
             SitemapUrls(appUrl, now)[3].changefreq, SitemapUrls(appUrl, now)[4].changefreq] ==
            ["weekly", "monthly", "weekly", "weekly", "monthly"]
  {
    var us := SitemapUrls(appUrl, now);
    AllEntryLinesAt(us, escape, i, k);
  }

  /** The document starts with the declaration line and the `urlset` line,
      and ends with `</urlset>`. */
  lemma SitemapFrame(us: seq<UrlEntry>, escape: string -> string)
    ensures var x := SitemapXml(us, escape);
      StartsWith(x, XmlDeclaration + "\n" + UrlsetOpen + "\n") &&
      |x| >= |UrlsetClose| && x[|x| - |UrlsetClose|..] == UrlsetClose
  {
    var p := XmlDeclaration + "\n" + UrlsetOpen + "\n";
    var body := Terminated(AllEntryLines(us, escape));
    TerminatedAppend(SitemapHeadLines, AllEntryLines(us, escape));
    HeadTerminated();
    assert SitemapXml(us, escape) == p + body + UrlsetClose;
    Regroup(p, body, UrlsetClose);
    PrefixOf(p, body + UrlsetClose);
    SuffixOf(p + body, UrlsetClose);
  }

  lemma HeadTerminated()
    ensures Terminated(SitemapHeadLines) == XmlDeclaration + "\n" + UrlsetOpen + "\n"
  {
    assert SitemapHeadLines == [XmlDeclaration] + [UrlsetOpen];
    TerminatedCons(XmlDeclaration, [UrlsetOpen]);
    TerminatedSingle(UrlsetOpen);
    Regroup(XmlDeclaration + "\n", UrlsetOpen, "\n");
  }

  lemma PrefixOf(p: string, r: string)
    ensures StartsWith(p + r, p)
  {
    assert (p + r)[..|p|] == p;
  }

  lemma SuffixOf(a: string, c: string)
    ensures (a + c)[|a + c| - |c|..] == c
  {
  }

  // ---- robots.txt ----

  /** The default robots records, one per line: allow everything but the
      admin panel and the API, then a blank line and the sitemap's URL. */
  function DefaultRobots(appUrl: string): string
  {
    "User-agent: *\n" + "Allow: /\n" + "Disallow: /admin/\n" + "Disallow: /api/\n" + "\n" +
    ("Sitemap: " + appUrl + "/sitemap.xml\n")
  }

  /** What `robots()` serves for a given active SEO row. */
  function RobotsText(active: Option<SeoRow>, appUrl: string): string
  {
    if active.Some? && Truthy(active.value.robotsTxt) then active.value.robotsTxt.value
    else DefaultRobots(appUrl)
  }

  /** The custom text is served verbatim exactly when an active row has a
      truthy `robots_txt`; otherwise the default records are served. */
  lemma RobotsOverride(active: Option<SeoRow>, appUrl: string)
    ensures active.Some? && Truthy(active.value.robotsTxt) ==>
      RobotsText(active, appUrl) == active.value.robotsTxt.value
    ensures !(active.Some? && Truthy(active.value.robotsTxt)) ==>
      RobotsText(active, appUrl) == DefaultRobots(appUrl)
  {
  }

  /** The default text starts with the catch-all user agent, ends in a line
      feed, and names `<app url>/sitemap.xml` on a line of its own. */
  lemma DefaultRobotsShape(appUrl: string)
    ensures var d := DefaultRobots(appUrl);
      StartsWith(d, "User-agent: *\n") && d[|d| - 1] == '\n' &&
      Contains(d, "\nSitemap: " + appUrl + "/sitemap.xml\n")
  {
    var d := DefaultRobots(appUrl);
    var p := "User-agent: *\n" + "Allow: /\n" + "Disallow: /admin/\n" + "Disallow: /api/\n";
    var t := "Sitemap: " + appUrl + "/sitemap.xml\n";
    assert d == p + "\n" + t;
    assert d[..|"User-agent: *\n"|] == "User-agent: *\n";
    assert d[|d| - 1] == t[|t| - 1];
    Regroup(p, "\n", t);
    assert d[|p|..|p| + 1 + |t|] == "\n" + t;
    assert "\n" + t == "\nSitemap: " + appUrl + "/sitemap.xml\n";
    ContainsAt(d, "\nSitemap: " + appUrl + "/sitemap.xml\n", |p|);
  }

  /** `robots()`: reads the active row through the cache and builds the
      default text line by line when there is no custom text. */
  method Robots(store: SeoStore, appUrl: string) returns (content: string)
    requires store.Valid()
    modifies store`cache
    ensures store.Valid() && store.rows == old(store.rows)
    ensures content == RobotsText(FirstActive(store.rows), appUrl)
  {
    var seo := store.GetActive();
    if seo.Some? && Truthy(seo.value.robotsTxt) {
      content := seo.value.robotsTxt.value;
    } else {
      content := "User-agent: *\n";
      content := content + "Allow: /\n";
      content := content + "Disallow: /admin/\n";
      content := content + "Disallow: /api/\n";
      content := content + "\n";
      content := content + ("Sitemap: " + appUrl + "/sitemap.xml\n");
    }
  }
}
