/**
 * `UniversalScraper`: find the notifications page of a domain (a stored
 * mapping, else a web search), fetch it with the first fetch tool that
 * works (remembering that tool per URL), and look for a notification by
 * name in the page text and then, within a 30-second budget, in the PDFs
 * the page links to. The fetchers, the search, the PDF downloads and the
 * clock are oracles given as function values.
 */
module Scraper {
  import opened Options
  import opened Text
  import opened Urls
  import opened GoogleSearch
  import opened PdfHandler
  import opened Stores

  /** The three fetch tools, tried in this order. */
  datatype Tool = Requests | Playwright | Scrapy

  /** The name stored for a tool in `ScraperChoice.tool`. */
  function ToolName(t: Tool): string {
    match t
    case Requests => "requests"
    case Playwright => "playwright"
    case Scrapy => "scrapy"
  }

  /** What a fetcher that succeeded leaves behind: the page text and its PDF links. */
  datatype Page = Page(text: string, pdfs: seq<string>)

  /**
   * What a fetcher that failed had already assigned when its exception
   * came: nothing, the text only (the links expression raised), or both
   * (closing the browser raised).
   */
  datatype Leftover = Untouched | TextOnly(text: string) | TextAndLinks(page: Page)

  /**
   * The world the scraper consults: the search API, each fetch tool on a
   * URL (`None` when it reports failure) and what it assigned before
   * failing, the PDF behind each URL, and the clock (reading 0 before the
   * PDF scan, reading i + 1 before document i).
   */
  datatype Web = Web(
    search: string -> SearchReply,
    fetch: (Tool, string) -> Option<Page>,
    leftover: (Tool, string) -> Leftover,
    pdf: string -> PdfSource,
    clock: nat -> real)

  /**
   * The outcome of `find_notification`: a text snippet, the URL of the PDF
   * that mentions the name, nothing, or the PDF download's exception.
   */
  datatype Located = Snippet(snippet: string) | InPdf(url: string) | NotFound | PdfError

  // ---------------------------------------------------------------------
  // Choosing the page
  // ---------------------------------------------------------------------

  /**
   * The key `detect_notification_page` looks the mapping up by: the URL's
   * host, or, when it has none, the input with every "https://" and then
   * every "http://" removed.
   */
  function MappingKey(domainOrUrl: string): string {
    var host := Netloc(domainOrUrl);
    if host != "" then host else RemoveAll(RemoveAll(domainOrUrl, "https://"), "http://")
  }

  /** The mapped notifications page for the input, if there is one. */
  function MappedPage(domainOrUrl: string, pages: map<string, string>): (r: Option<string>)
    ensures r.Some? <==> MappingKey(domainOrUrl) in pages
    ensures r.Some? ==> r.value == pages[MappingKey(domainOrUrl)]
  {
    var key := MappingKey(domainOrUrl);
    if key in pages then Some(pages[key]) else None
  }

  /** A non-empty mapped page is used; an empty one is falsy and sends the scraper to the search. */
  predicate UsesMapping(domainOrUrl: string, pages: map<string, string>) {
    var m := MappedPage(domainOrUrl, pages);
    m.Some? && m.value != ""
  }

  /** A URL without a scheme gets "https://" in front; the result always has a scheme. */
  function WithScheme(u: string): (r: string)
    ensures Scheme(r) != ""
    ensures Scheme(u) != "" ==> r == u
    ensures Scheme(u) == "" ==> r == "https://" + u
  {
    if Scheme(u) != "" then u
    else
      HttpsPrefix(u);
      "https://" + u
  }

  /** The URL `run_scraper` loads. */
  function ResolveTarget(domainOrUrl: string, pages: map<string, string>, search: string -> SearchReply): (r: string)
    ensures Scheme(r) != ""
  {
    if UsesMapping(domainOrUrl, pages) then WithScheme(MappedPage(domainOrUrl, pages).value)
    else WithScheme(TopUrlFor(domainOrUrl, search))
  }

  /** A full URL is looked up by its host. */
  lemma MappingKeyOfUrl(h: string, rest: string)
    requires IsHost(h) && h != ""
    requires rest == [] || IsNetlocDelimiter(rest[0])
    ensures MappingKey("https://" + h + rest) == h
  {
    NetlocOfHttps(h, rest);
  }

  /** A bare domain (no ':' and no leading "//") is looked up as it is. */
  lemma MappingKeyOfBareDomain(d: string)
    requires forall i :: 0 <= i < |d| ==> d[i] != ':'
    requires !StartsWith(d, "//")
    ensures MappingKey(d) == d
  {
    forall i: nat | i <= |d| ensures !OccursAt(d, ":", i) {
      if i + 1 <= |d| {
        assert d[i..i + 1][0] == d[i];
      }
    }
    assert Find(d, ":").None?;
    assert Netloc(d) == "";
    forall i: nat | i <= |d| ensures !OccursAt(d, "https://", i) {
      if i + 8 <= |d| {
        assert d[i..i + 8][5] == d[i + 5];
      }
    }
    RemoveAllAbsent(d, "https://");
    forall i: nat | i <= |d| ensures !OccursAt(d, "http://", i) {
      if i + 7 <= |d| {
        assert d[i..i + 7][4] == d[i + 4];
      }
    }
    RemoveAllAbsent(d, "http://");
  }

  /** With a usable mapping the search is never consulted. */
  lemma MappingSkipsSearch(domainOrUrl: string, pages: map<string, string>, s1: string -> SearchReply, s2: string -> SearchReply)
    requires UsesMapping(domainOrUrl, pages)
    ensures ResolveTarget(domainOrUrl, pages, s1) == ResolveTarget(domainOrUrl, pages, s2) == WithScheme(pages[MappingKey(domainOrUrl)])
  {
  }

  // ---------------------------------------------------------------------
  // Choosing the fetch tool
  // ---------------------------------------------------------------------

  /** The tool remembered for a URL, if any. */
  function Remembered(tools: map<string, string>, url: string): Option<string> {
    if url in tools then Some(tools[url]) else None
  }

  /**
   * The tools `run_scraper` may try: all three in order for a URL without a
   * record, only the remembered one otherwise, and none for a record naming
   * no known tool.
   */
  function Eligible(stored: Option<string>): (r: seq<Tool>)
    ensures stored.None? ==> r == [Requests, Playwright, Scrapy]
    ensures stored.Some? ==> |r| <= 1 && forall t :: t in r ==> ToolName(t) == stored.value
    ensures forall t :: stored == Some(ToolName(t)) ==> r == [t]
  {
    match stored
    case None => [Requests, Playwright, Scrapy]
    case Some(name) =>
      if name == "requests" then [Requests]
      else if name == "playwright" then [Playwright]
      else if name == "scrapy" then [Scrapy]
      else []
  }

  /**
   * The tools actually run, in order: a prefix of `order` that stops at the
   * first tool reporting success; every tool run before the last failed.
   */
  function Attempted(order: seq<Tool>, url: string, fetch: (Tool, string) -> Option<Page>): (r: seq<Tool>)
    ensures |r| <= |order| && r == order[..|r|]
    ensures forall i :: 0 <= i < |r| - 1 ==> fetch(r[i], url).None?
    ensures |r| < |order| ==> r != [] && fetch(r[|r| - 1], url).Some?
  {
    if order == [] then []
    else if fetch(order[0], url).Some? then [order[0]]
    else [order[0]] + Attempted(order[1..], url, fetch)
  }

  /** The tool that worked and its page: the last tool run, when it succeeded. */
  function FirstSuccess(order: seq<Tool>, url: string, fetch: (Tool, string) -> Option<Page>): (r: Option<(Tool, Page)>)
    ensures r.None? <==> forall i :: 0 <= i < |order| ==> fetch(order[i], url).None?
    ensures r.Some? ==> r.value.0 in order && fetch(r.value.0, url) == Some(r.value.1)
  {
    var a := Attempted(order, url, fetch);
    if a != [] && fetch(a[|a| - 1], url).Some? then
      assert order[|a| - 1] == a[|a| - 1];
      Some((a[|a| - 1], fetch(a[|a| - 1], url).value))
    else
      assert |a| == |order|;
      None
  }

  /** A run over all three tools: requests alone when it works, else requests and then the other two. */
  lemma RunOfAllTools(url: string, fetch: (Tool, string) -> Option<Page>, leftover: (Tool, string) -> Leftover, p: Page)
    ensures StateAfter([Requests, Playwright, Scrapy], url, fetch, leftover, p) ==
      (if fetch(Requests, url).Some? then fetch(Requests, url).value
       else StateAfter([Playwright, Scrapy], url, fetch, leftover, AfterFailure(p, leftover(Requests, url))))
    ensures Attempted([Requests, Playwright, Scrapy], url, fetch) ==
      (if fetch(Requests, url).Some? then [Requests] else [Requests] + Attempted([Playwright, Scrapy], url, fetch))
    ensures FirstSuccess([Requests, Playwright, Scrapy], url, fetch) ==
      (if fetch(Requests, url).Some? then Some((Requests, fetch(Requests, url).value))
       else FirstSuccess([Playwright, Scrapy], url, fetch))
  {
    assert [Requests, Playwright, Scrapy][1..] == [Playwright, Scrapy];
    RunOfLaterTools(url, fetch, leftover, AfterFailure(p, leftover(Requests, url)));
  }

  /** A run over Playwright and then Scrapy: the first that works stops it. */
  lemma RunOfLaterTools(url: string, fetch: (Tool, string) -> Option<Page>, leftover: (Tool, string) -> Leftover, p: Page)
    ensures StateAfter([Playwright, Scrapy], url, fetch, leftover, p) ==
      (if fetch(Playwright, url).Some? then fetch(Playwright, url).value
       else if fetch(Scrapy, url).Some? then fetch(Scrapy, url).value
       else AfterFailure(AfterFailure(p, leftover(Playwright, url)), leftover(Scrapy, url)))
    ensures Attempted([Playwright, Scrapy], url, fetch) ==
      (if fetch(Playwright, url).Some? then [Playwright] else [Playwright, Scrapy])
    ensures FirstSuccess([Playwright, Scrapy], url, fetch) ==
      (if fetch(Playwright, url).Some? then Some((Playwright, fetch(Playwright, url).value))
       else if fetch(Scrapy, url).Some? then Some((Scrapy, fetch(Scrapy, url).value))
       else None)
  {
    assert [Playwright, Scrapy][1..] == [Scrapy];
    assert [Scrapy][1..] == [];
  }

  /** The run over the one remembered tool. */
  lemma RunOfOneTool(t: Tool, url: string, fetch: (Tool, string) -> Option<Page>, leftover: (Tool, string) -> Leftover, p: Page)
    ensures StateAfter([t], url, fetch, leftover, p) ==
      (if fetch(t, url).Some? then fetch(t, url).value else AfterFailure(p, leftover(t, url)))
    ensures Attempted([t], url, fetch) == [t]
    ensures FirstSuccess([t], url, fetch) == if fetch(t, url).Some? then Some((t, fetch(t, url).value)) else None
  {
    assert [t][1..] == [];
  }

  /** The page a run returns: the working tool's page, else empty text and no links. */
  function PageOf(hit: Option<(Tool, Page)>): Page {
    match hit
    case Some(h) => h.1
    case None => Page("", [])
  }

  /** The `ScraperChoice` table after a run: the working tool is recorded for the URL. */
  function Recorded(tools: map<string, string>, url: string, hit: Option<(Tool, Page)>): map<string, string> {
    match hit
    case Some(h) => tools[url := ToolName(h.0)]
    case None => tools
  }

  /** The page `run_scraper` returns. */
  function Scraped(tools: map<string, string>, url: string, fetch: (Tool, string) -> Option<Page>): Page {
    PageOf(FirstSuccess(Eligible(Remembered(tools, url)), url, fetch))
  }

  /** The `ScraperChoice` table after `run_scraper`. */
  function NextTools(tools: map<string, string>, url: string, fetch: (Tool, string) -> Option<Page>): map<string, string> {
    Recorded(tools, url, FirstSuccess(Eligible(Remembered(tools, url)), url, fetch))
  }

  /** The scraper's text and links once a failed fetcher's assignments are made. */
  function AfterFailure(p: Page, l: Leftover): Page {
    match l
    case Untouched => p
    case TextOnly(t) => Page(t, p.pdfs)
    case TextAndLinks(q) => q
  }

  /**
   * The scraper's text and links after running `order` from `p`: each tool
   * that fails leaves what it assigned, the first that works its page.
   */
  function StateAfter(order: seq<Tool>, url: string, fetch: (Tool, string) -> Option<Page>,
                      leftover: (Tool, string) -> Leftover, p: Page): Page
    decreases |order|
  {
    if order == [] then p
    else match fetch(order[0], url)
      case Some(q) => q
      case None => StateAfter(order[1..], url, fetch, leftover, AfterFailure(p, leftover(order[0], url)))
  }

  /** After a run in which a tool works, the scraper holds exactly the page the run returns. */
  lemma {:induction false} StateAfterSuccess(order: seq<Tool>, url: string, fetch: (Tool, string) -> Option<Page>,
                                            leftover: (Tool, string) -> Leftover, p: Page)
    requires FirstSuccess(order, url, fetch).Some?
    ensures StateAfter(order, url, fetch, leftover, p) == PageOf(FirstSuccess(order, url, fetch))
    decreases |order|
  {
    if fetch(order[0], url).None? {
      var rest := order[1..];
      assert Attempted(order, url, fetch) == [order[0]] + Attempted(rest, url, fetch);
      var i :| 0 <= i < |order| && fetch(order[i], url).Some?;
      assert i > 0 && fetch(rest[i - 1], url).Some?;
      StateAfterSuccess(rest, url, fetch, leftover, AfterFailure(p, leftover(order[0], url)));
      var a, b := Attempted(order, url, fetch), Attempted(rest, url, fetch);
      assert b != [] && a[|a| - 1] == b[|b| - 1];
    }
  }

  /** When every tool fails without assigning anything, the scraper keeps what it had. */
  lemma {:induction false} StateAfterCleanFailures(order: seq<Tool>, url: string, fetch: (Tool, string) -> Option<Page>,
                                                  leftover: (Tool, string) -> Leftover, p: Page)
    requires forall i :: 0 <= i < |order| ==> fetch(order[i], url).None? && leftover(order[i], url).Untouched?
    ensures StateAfter(order, url, fetch, leftover, p) == p
    decreases |order|
  {
    if order != [] {
      StateAfterCleanFailures(order[1..], url, fetch, leftover, p);
    }
  }

  /**
   * A failed fetcher's text is what is searched when no later tool works
   * or writes: `run_scraper` returns an empty page, yet the scraper keeps
   * the text that Playwright assigned before it raised.
   */
  lemma PartialTextOutlivesFailedRun(url: string, fetch: (Tool, string) -> Option<Page>,
                                     leftover: (Tool, string) -> Leftover, p: Page, t: string)
    requires fetch(Requests, url).None? && fetch(Playwright, url).None? && fetch(Scrapy, url).None?
    requires leftover(Requests, url).Untouched? && leftover(Playwright, url) == TextOnly(t)
    requires leftover(Scrapy, url).Untouched?
    ensures StateAfter([Requests, Playwright, Scrapy], url, fetch, leftover, p) == Page(t, p.pdfs)
    ensures PageOf(FirstSuccess([Requests, Playwright, Scrapy], url, fetch)) == Page("", [])
  {
    RunOfAllTools(url, fetch, leftover, p);
    RunOfLaterTools(url, fetch, leftover, AfterFailure(p, leftover(Requests, url)));
  }

  /** A remembered tool is never replaced: the table is the same after the run. */
  lemma RememberedToolIsKept(tools: map<string, string>, url: string, fetch: (Tool, string) -> Option<Page>)
    requires url in tools
    ensures NextTools(tools, url, fetch) == tools
  {
    var order := Eligible(Remembered(tools, url));
    match FirstSuccess(order, url, fetch)
    case Some(hit) =>
      assert ToolName(hit.0) == tools[url];
      assert tools[url := tools[url]] == tools;
    case None =>
  }

  /**
   * On a URL without a record, the first tool that works is recorded, and
   * every later run on that URL tries that tool alone.
   */
  lemma LaterRunsUseWinner(tools: map<string, string>, url: string, fetch: (Tool, string) -> Option<Page>, later: (Tool, string) -> Option<Page>)
    requires url !in tools
    requires FirstSuccess([Requests, Playwright, Scrapy], url, fetch).Some?
    ensures var t := FirstSuccess([Requests, Playwright, Scrapy], url, fetch).value.0;
      var next := NextTools(tools, url, fetch);
      url in next && next[url] == ToolName(t) &&
      Attempted(Eligible(Remembered(next, url)), url, later) == [t]
  {
    var t := FirstSuccess([Requests, Playwright, Scrapy], url, fetch).value.0;
    var next := NextTools(tools, url, fetch);
    assert Remembered(next, url) == Some(ToolName(t));
    assert Eligible(Remembered(next, url)) == [t];
  }

  /** A record naming no known tool makes every run fetch nothing and record nothing. */
  lemma UnknownToolFetchesNothing(tools: map<string, string>, url: string, fetch: (Tool, string) -> Option<Page>)
    requires url in tools
    requires tools[url] != "requests" && tools[url] != "playwright" && tools[url] != "scrapy"
    ensures Attempted(Eligible(Remembered(tools, url)), url, fetch) == []
    ensures Scraped(tools, url, fetch) == Page("", [])
    ensures NextTools(tools, url, fetch) == tools
  {
  }

  // ---------------------------------------------------------------------
  // Locating the notification
  // ---------------------------------------------------------------------

  function Min(a: int, b: int): int {
    if a <= b then a else b
  }

  /**
   * The text snippet for the first case-insensitive occurrence of `name`:
   * there is one exactly when the lowered text contains the lowered name.
   * It is the slice of `text` starting up to 300 characters before the first
   * occurrence (fewer only at the start of the text), holding the
   * occurrence, and running 300 characters past it unless the text ends
   * first.
   */
  function TextSnippet(text: string, name: string): (r: Option<string>)
    ensures r.Some? <==> Contains(Lower(text), Lower(name))
    ensures r.Some? ==>
      var s := Find(Lower(text), Lower(name)).value;
      var before := Min(s, 300);
      s - before + |r.value| <= |text| &&
      r.value == text[s - before..s - before + |r.value|] &&
      OccursAt(Lower(r.value), Lower(name), before) &&
      s - before + |r.value| == Min(s + |name| + 300, |text|)
  {
    match Find(Lower(text), Lower(name))
    case None => None
    case Some(s) =>
      var start := s - Min(s, 300);
      var end := Min(s + |name| + 300, |text|);
      LowerWindow(text, name, s, start, end);
      Some(text[start..end])
  }

  /** The snippet for a match at `m`, with the window bounds `find_notification` computes. */
  lemma SnippetOfMatch(text: string, name: string, m: nat)
    requires Find(Lower(text), Lower(name)) == Some(m)
    ensures m + |name| <= |text|
    ensures var start := if m >= 300 then m - 300 else 0;
      var end := if m + |name| + 300 <= |text| then m + |name| + 300 else |text|;
      TextSnippet(text, name) == Some(text[start..end])
  {
  }

  /** Lowering a slice lowers the characters it holds, so a match survives slicing around it. */
  lemma LowerWindow(text: string, name: string, s: nat, start: nat, end: nat)
    requires start <= s && s + |name| <= end <= |text|
    requires OccursAt(Lower(text), Lower(name), s)
    ensures OccursAt(Lower(text[start..end]), Lower(name), s - start)
  {
    var w := text[start..end];
    forall k | s <= k < s + |name| ensures Lower(w)[k - start] == Lower(text)[k] {
      assert w[k - start] == text[k];
    }
    assert Lower(w)[s - start..s - start + |name|] == Lower(text)[s..s + |name|];
  }

  /**
   * The absolute URL of a PDF link: links starting with "http" are kept;
   * any other link is put under the loaded page's host, without its
   * leading slashes.
   */
  function PdfUrl(loadUrl: string, link: string): (r: string)
    ensures StartsWith(link, "http") ==> r == link
  {
    if StartsWith(link, "http") then link
    else "https://" + Netloc(loadUrl) + "/" + LStripChar(link, '/')
  }

  /** A relative link is resolved on the host of the page it was found on. */
  lemma RelativeLinkSameHost(loadUrl: string, link: string)
    requires !StartsWith(link, "http")
    ensures Netloc(PdfUrl(loadUrl, link)) == Netloc(loadUrl)
    ensures EndsWith(PdfUrl(loadUrl, link), "/" + LStripChar(link, '/'))
  {
    HostThenPath(Netloc(loadUrl), LStripChar(link, '/'));
  }

  /** "https://" + h + "/" + x has the host h and ends with "/" + x. */
  lemma HostThenPath(h: string, x: string)
    requires IsHost(h)
    ensures Netloc("https://" + h + "/" + x) == h
    ensures EndsWith("https://" + h + "/" + x, "/" + x)
  {
    var u := "https://" + h + "/" + x;
    assert u == "https://" + h + ("/" + x);
    NetlocOfHttps(h, "/" + x);
    assert u[|u| - |"/" + x|..] == "/" + x;
  }

  /** A document mentions the name: its text is non-empty and contains the name, case-insensitively. */
  predicate Hit(e: Extracted, name: string) {
    e.Text? && e.text != "" && Contains(Lower(e.text), Lower(name))
  }

  /** The extraction outcome of the i-th PDF link. */
  function Outcome(pdfs: seq<string>, i: nat, loadUrl: string, source: string -> PdfSource): Extracted
    requires i < |pdfs|
  {
    ExtractText(source(PdfUrl(loadUrl, pdfs[i])))
  }

  /** Document i is examined only if reading i + 1 of the clock is within 30 seconds of reading 0. */
  predicate WithinBudget(clock: nat -> real, i: nat) {
    clock(i + 1) - clock(0) <= 30.0
  }

  /** What reading one link tells the PDF phase: the download raised, the document mentions the name, or it does not. */
  datatype Verdict = DownloadRaises | Mentions | Silent

  /** The verdict on the i-th link. */
  function LinkVerdict(pdfs: seq<string>, i: nat, loadUrl: string, name: string, source: string -> PdfSource): (r: Verdict)
    requires i < |pdfs|
    ensures r == DownloadRaises <==> Outcome(pdfs, i, loadUrl, source).TransportError?
    ensures r == Mentions <==> Hit(Outcome(pdfs, i, loadUrl, source), name)
  {
    var e := Outcome(pdfs, i, loadUrl, source);
    if e.TransportError? then DownloadRaises else if Hit(e, name) then Mentions else Silent
  }

  /** The verdicts on the page's links, in order. */
  function Verdicts(pdfs: seq<string>, loadUrl: string, name: string, source: string -> PdfSource): (r: seq<Verdict>)
    ensures |r| == |pdfs|
    ensures forall i :: 0 <= i < |pdfs| ==> r[i] == LinkVerdict(pdfs, i, loadUrl, name, source)
  {
    seq(|pdfs|, i requires 0 <= i < |pdfs| => LinkVerdict(pdfs, i, loadUrl, name, source))
  }

  /** Where the PDF phase stops: a download raised, the k-th document mentions the name, or nothing was found. */
  datatype Stop = StopRaised | StopAt(k: nat) | StopNone

  /**
   * The PDF phase over the verdicts from link i on: stop at the end of the
   * list or when the budget is spent, on a download that raises, or on the
   * first document that mentions the name.
   */
  function FirstMention(vs: seq<Verdict>, i: nat, clock: nat -> real): (r: Stop)
    requires i <= |vs|
    decreases |vs| - i
    ensures r.StopAt? ==> i <= r.k < |vs| && vs[r.k] == Mentions
  {
    if i == |vs| || !WithinBudget(clock, i) then StopNone
    else if vs[i] == DownloadRaises then StopRaised
    else if vs[i] == Mentions then StopAt(i)
    else FirstMention(vs, i + 1, clock)
  }

  /** The PDF phase of `find_notification` from link i on. */
  function ScanPdfs(pdfs: seq<string>, i: nat, loadUrl: string, name: string, source: string -> PdfSource, clock: nat -> real): (r: Located)
    requires i <= |pdfs|
    ensures !r.Snippet?
  {
    match FirstMention(Verdicts(pdfs, loadUrl, name, source), i, clock)
    case StopRaised => PdfError
    case StopAt(k) => InPdf(PdfUrl(loadUrl, pdfs[k]))
    case StopNone => NotFound
  }

  /** A reported PDF is one of the page's links, resolved, and its text mentions the name. */
  lemma ScanReportsHit(pdfs: seq<string>, i: nat, loadUrl: string, name: string,
                       source: string -> PdfSource, clock: nat -> real)
    requires i <= |pdfs|
    requires ScanPdfs(pdfs, i, loadUrl, name, source, clock).InPdf?
    ensures exists k :: i <= k < |pdfs| && ScanPdfs(pdfs, i, loadUrl, name, source, clock).url == PdfUrl(loadUrl, pdfs[k])
                        && Hit(Outcome(pdfs, k, loadUrl, source), name)
  {
    var k := FirstMention(Verdicts(pdfs, loadUrl, name, source), i, clock).k;
    assert LinkVerdict(pdfs, k, loadUrl, name, source) == Mentions;
  }

  /** The phase stops at the first mention when every earlier link, within the budget, was read without one. */
  lemma {:induction false} FirstMentionAt(vs: seq<Verdict>, i: nat, k: nat, clock: nat -> real)
    requires i <= k < |vs|
    requires forall j :: i <= j <= k ==> WithinBudget(clock, j)
    requires forall j :: i <= j < k ==> vs[j] == Silent
    requires vs[k] == Mentions
    ensures FirstMention(vs, i, clock) == StopAt(k)
    decreases k - i
  {
    if i < k {
      FirstMentionAt(vs, i + 1, k, clock);
    }
  }

  /** With no mention and no download that raises, the phase finds nothing, whatever the clock. */
  lemma {:induction false} FirstMentionNone(vs: seq<Verdict>, i: nat, clock: nat -> real)
    requires i <= |vs|
    requires forall j :: i <= j < |vs| ==> vs[j] == Silent
    ensures FirstMention(vs, i, clock) == StopNone
    decreases |vs| - i
  {
    if i < |vs| {
      FirstMentionNone(vs, i + 1, clock);
    }
  }

  /** Once the budget is spent before link k, the verdicts from k on play no part. */
  lemma {:induction false} FirstMentionCut(vs: seq<Verdict>, i: nat, k: nat, clock: nat -> real)
    requires i <= k < |vs|
    requires !WithinBudget(clock, k)
    ensures FirstMention(vs, i, clock) == FirstMention(vs[..k], i, clock)
    decreases k - i
  {
    if i < k {
      assert vs[..k][i] == vs[i];
      FirstMentionCut(vs, i + 1, k, clock);
    }
  }

  /** One step of the PDF phase: the budget is checked, then the i-th link is read. */
  lemma ScanStep(pdfs: seq<string>, i: nat, loadUrl: string, name: string, source: string -> PdfSource, clock: nat -> real)
    requires i < |pdfs|
    ensures var e := Outcome(pdfs, i, loadUrl, source);
      ScanPdfs(pdfs, i, loadUrl, name, source, clock) ==
        if !WithinBudget(clock, i) then NotFound
        else if e.TransportError? then PdfError
        else if Hit(e, name) then InPdf(PdfUrl(loadUrl, pdfs[i]))
        else ScanPdfs(pdfs, i + 1, loadUrl, name, source, clock)
  {
    var vs := Verdicts(pdfs, loadUrl, name, source);
    assert vs[i] == LinkVerdict(pdfs, i, loadUrl, name, source);
  }

  /** `find_notification` on a scraped page: the text first, the PDFs only when the text has no match. */
  function Locate(text: string, pdfs: seq<string>, loadUrl: string, name: string, source: string -> PdfSource, clock: nat -> real): Located {
    match TextSnippet(text, name)
    case Some(s) => Snippet(s)
    case None => ScanPdfs(pdfs, 0, loadUrl, name, source, clock)
  }

  /** A match in the page text is reported without reading any PDF or the clock. */
  lemma TextMatchSkipsPdfs(text: string, name: string, p1: seq<string>, p2: seq<string>, u1: string, u2: string,
                           s1: string -> PdfSource, s2: string -> PdfSource, c1: nat -> real, c2: nat -> real)
    requires Contains(Lower(text), Lower(name))
    ensures Locate(text, p1, u1, name, s1, c1) == Locate(text, p2, u2, name, s2, c2) == Snippet(TextSnippet(text, name).value)
  {
  }

  /**
   * The first document, within the budget, that mentions the name is the
   * one reported, provided every document before it was read without
   * mentioning it.
   */
  lemma ScanFindsFirstHit(pdfs: seq<string>, i: nat, k: nat, loadUrl: string, name: string,
                          source: string -> PdfSource, clock: nat -> real)
    requires i <= k < |pdfs|
    requires forall j :: i <= j <= k ==> WithinBudget(clock, j)
    requires forall j :: i <= j < k ==> Outcome(pdfs, j, loadUrl, source).Text? && !Hit(Outcome(pdfs, j, loadUrl, source), name)
    requires Hit(Outcome(pdfs, k, loadUrl, source), name)
    ensures ScanPdfs(pdfs, i, loadUrl, name, source, clock) == InPdf(PdfUrl(loadUrl, pdfs[k]))
  {
    var vs := Verdicts(pdfs, loadUrl, name, source);
    forall j | i <= j < k
      ensures vs[j] == Silent
    {
      assert vs[j] == LinkVerdict(pdfs, j, loadUrl, name, source);
    }
    assert vs[k] == LinkVerdict(pdfs, k, loadUrl, name, source);
    FirstMentionAt(vs, i, k, clock);
  }

  /** When no document mentions the name and none fails to download, nothing is found, whatever the clock. */
  lemma ScanWithoutHit(pdfs: seq<string>, i: nat, loadUrl: string, name: string,
                       source: string -> PdfSource, clock: nat -> real)
    requires i <= |pdfs|
    requires forall j :: i <= j < |pdfs| ==> Outcome(pdfs, j, loadUrl, source).Text? && !Hit(Outcome(pdfs, j, loadUrl, source), name)
    ensures ScanPdfs(pdfs, i, loadUrl, name, source, clock) == NotFound
  {
    var vs := Verdicts(pdfs, loadUrl, name, source);
    forall j | i <= j < |pdfs|
      ensures vs[j] == Silent
    {
      assert vs[j] == LinkVerdict(pdfs, j, loadUrl, name, source);
    }
    FirstMentionNone(vs, i, clock);
  }

  /**
   * Once the budget is spent before document k, documents from k on have
   * no influence: the scan gives what it gives on the first k links alone.
   */
  lemma BudgetCutsScan(pdfs: seq<string>, i: nat, k: nat, loadUrl: string, name: string,
                       source: string -> PdfSource, clock: nat -> real)
    requires i <= k < |pdfs|
    requires !WithinBudget(clock, k)
    ensures ScanPdfs(pdfs, i, loadUrl, name, source, clock) == ScanPdfs(pdfs[..k], i, loadUrl, name, source, clock)
  {
    var vs, ws := Verdicts(pdfs, loadUrl, name, source), Verdicts(pdfs[..k], loadUrl, name, source);
    forall j | 0 <= j < k
      ensures ws[j] == vs[..k][j]
    {
      assert ws[j] == LinkVerdict(pdfs[..k], j, loadUrl, name, source);
      assert vs[j] == LinkVerdict(pdfs, j, loadUrl, name, source);
      assert Outcome(pdfs[..k], j, loadUrl, source) == Outcome(pdfs, j, loadUrl, source);
    }
    assert ws == vs[..k];
    FirstMentionCut(vs, i, k, clock);
  }

  /**
   * The download-failure message is searched like document text: a name
   * such as "PDF" matches it, so a PDF that could not be downloaded is
   * reported as the one holding the notification.
   */
  lemma FailedDownloadMatchesPdf(reply: HttpReply, a: Reading, b: Reading)
    requires reply.status != 200
    ensures Hit(ExtractText(PdfSource(Some(reply), a, b)), "PDF")
  {
    var l := Lower(DownloadFailed);
    assert l[19..22] == "pdf";
    assert OccursAt(l, Lower("PDF"), 19);
  }

  /**
   * `run_scraper` followed by `find_notification` on a fresh scraper. The
   * search reads the scraper's own text and links, which are the working
   * tool's page or, when every tool failed, whatever the failed tools
   * assigned before raising (not the empty page `run_scraper` returns).
   */
  function ScrapeOutcome(tools: map<string, string>, pages: map<string, string>, domainOrUrl: string, name: string, web: Web): Located {
    var url := ResolveTarget(domainOrUrl, pages, web.search);
    var page := StateAfter(Eligible(Remembered(tools, url)), url, web.fetch, web.leftover, Page("", []));
    Locate(page.text, page.pdfs, url, name, web.pdf, web.clock)
  }

  // ---------------------------------------------------------------------
  // The scraper object
  // ---------------------------------------------------------------------

  class UniversalScraper {
    const domainOrUrl: string
    const notificationName: Option<string>
    var text: string
    var pdfs: seq<string>
    var loadUrl: string
    /** The fetch tools run so far, in order. */
    ghost var tried: seq<Tool>
    /** The inputs the web search was asked about so far, in order. */
    ghost var searches: seq<string>

    constructor (domainOrUrl: string, notificationName: Option<string>)
      ensures this.domainOrUrl == domainOrUrl && this.notificationName == notificationName
      ensures text == "" && pdfs == [] && loadUrl == ""
      ensures tried == [] && searches == []
    {
      this.domainOrUrl := domainOrUrl;
      this.notificationName := notificationName;
      text := "";
      pdfs := [];
      loadUrl := "";
      tried := [];
      searches := [];
    }

    /** `detect_notification_page`: the mapped page for the input's lookup key. */
    method DetectNotificationPage(mappings: PageMappings) returns (page: Option<string>)
      ensures page.Some? <==> MappingKey(domainOrUrl) in mappings.pages
      ensures page.Some? ==> page.value == mappings.pages[MappingKey(domainOrUrl)]
    {
      var host := Netloc(domainOrUrl);
      var key := if host != "" then host else RemoveAll(RemoveAll(domainOrUrl, "https://"), "http://");
      if key in mappings.pages {
        page := Some(mappings.pages[key]);
      } else {
        page := None;
      }
    }

    /**
     * `fast_scrape`, `playwright_scrape` or `scrapy_scrape`: run one tool;
     * on success its text and PDF links replace the scraper's, on failure
     * whatever it assigned before raising stays assigned.
     */
    method TryFetcher(tool: Tool, url: string, fetch: (Tool, string) -> Option<Page>,
                      leftover: (Tool, string) -> Leftover) returns (ok: bool)
      modifies this`text, this`pdfs, this`tried
      ensures ok <==> fetch(tool, url).Some?
      ensures tried == old(tried) + [tool]
      ensures ok ==> text == fetch(tool, url).value.text && pdfs == fetch(tool, url).value.pdfs
      ensures !ok ==> Page(text, pdfs) == AfterFailure(Page(old(text), old(pdfs)), leftover(tool, url))
    {
      tried := tried + [tool];
      match fetch(tool, url)
      case Some(page) =>
        text := page.text;
        pdfs := page.pdfs;
        ok := true;
      case None =>
        match leftover(tool, url) {
          case Untouched =>
          case TextOnly(t) =>
            text := t;
          case TextAndLinks(q) =>
            text := q.text;
            pdfs := q.pdfs;
        }
        ok := false;
    }

    /**
     * The first half of `run_scraper`: the mapped page when there is a
     * non-empty one, else the search's pick, given "https://" when it has no
     * scheme, becomes the URL to load.
     */
    method ChooseLoadUrl(mappings: PageMappings, search: string -> SearchReply)
      modifies this`loadUrl, this`searches
      ensures loadUrl == ResolveTarget(domainOrUrl, mappings.pages, search)
      ensures searches == old(searches) + (if UsesMapping(domainOrUrl, mappings.pages) then [] else [domainOrUrl])
    {
      var mapped := DetectNotificationPage(mappings);
      var target: string;
      if mapped.Some? && mapped.value != "" {
        target := mapped.value;
      } else {
        target := TopUrlFor(domainOrUrl, search);
        searches := searches + [domainOrUrl];
      }
      if Scheme(target) == "" {
        target := "https://" + target;
      }
      loadUrl := target;
    }

    /**
     * The second half of `run_scraper`: run the tools the record allows, in
     * order, until one works; a URL without a record gets the working tool
     * recorded, a record that names it is saved unchanged.
     */
    method RunTools(store: ScraperChoices, fetch: (Tool, string) -> Option<Page>,
                    leftover: (Tool, string) -> Leftover) returns (pageText: string, pagePdfs: seq<string>)
      modifies this`text, this`pdfs, this`tried, store
      ensures tried == old(tried) + Attempted(Eligible(Remembered(old(store.tools), loadUrl)), loadUrl, fetch)
      ensures store.tools == NextTools(old(store.tools), loadUrl, fetch)
      ensures Page(pageText, pagePdfs) == Scraped(old(store.tools), loadUrl, fetch)
      ensures (FirstSuccess(Eligible(Remembered(old(store.tools), loadUrl)), loadUrl, fetch).Some?) ==>
                text == pageText && pdfs == pagePdfs
      ensures Page(text, pdfs) ==
                StateAfter(Eligible(Remembered(old(store.tools), loadUrl)), loadUrl, fetch, leftover, Page(old(text), old(pdfs)))
    {
      var target := loadUrl;
      var record := store.Lookup(target);
      if record == None {
        pageText, pagePdfs := RunAllTools(store, target, fetch, leftover);
      } else if record.value == "requests" {
        pageText, pagePdfs := RunRememberedTool(store, Requests, target, fetch, leftover);
      } else if record.value == "playwright" {
        pageText, pagePdfs := RunRememberedTool(store, Playwright, target, fetch, leftover);
      } else if record.value == "scrapy" {
        pageText, pagePdfs := RunRememberedTool(store, Scrapy, target, fetch, leftover);
      } else {
        return "", [];
      }
    }

    /** A URL without a record: requests, then Playwright, then Scrapy, and the first that works is recorded. */
    method RunAllTools(store: ScraperChoices, url: string, fetch: (Tool, string) -> Option<Page>,
                        leftover: (Tool, string) -> Leftover)
      returns (pageText: string, pagePdfs: seq<string>)
      modifies this`text, this`pdfs, this`tried, store
      ensures tried == old(tried) + Attempted([Requests, Playwright, Scrapy], url, fetch)
      ensures store.tools == Recorded(old(store.tools), url, FirstSuccess([Requests, Playwright, Scrapy], url, fetch))
      ensures Page(pageText, pagePdfs) == PageOf(FirstSuccess([Requests, Playwright, Scrapy], url, fetch))
      ensures FirstSuccess([Requests, Playwright, Scrapy], url, fetch).Some? ==> text == pageText && pdfs == pagePdfs
      ensures Page(text, pdfs) == StateAfter([Requests, Playwright, Scrapy], url, fetch, leftover, Page(old(text), old(pdfs)))
    {
      RunOfAllTools(url, fetch, leftover, Page(text, pdfs));
      var ok := TryFetcher(Requests, url, fetch, leftover);
      if ok {
        store.Save(url, "requests");
        return text, pdfs;
      }
      pageText, pagePdfs := RunLaterTools(store, url, fetch, leftover);
    }

    /** The rest of a run without a record, once requests has failed: Playwright, then Scrapy. */
    method RunLaterTools(store: ScraperChoices, url: string, fetch: (Tool, string) -> Option<Page>,
                        leftover: (Tool, string) -> Leftover)
      returns (pageText: string, pagePdfs: seq<string>)
      modifies this`text, this`pdfs, this`tried, store
      ensures tried == old(tried) + Attempted([Playwright, Scrapy], url, fetch)
      ensures store.tools == Recorded(old(store.tools), url, FirstSuccess([Playwright, Scrapy], url, fetch))
      ensures Page(pageText, pagePdfs) == PageOf(FirstSuccess([Playwright, Scrapy], url, fetch))
      ensures FirstSuccess([Playwright, Scrapy], url, fetch).Some? ==> text == pageText && pdfs == pagePdfs
      ensures Page(text, pdfs) == StateAfter([Playwright, Scrapy], url, fetch, leftover, Page(old(text), old(pdfs)))
    {
      RunOfLaterTools(url, fetch, leftover, Page(text, pdfs));
      var ok := TryFetcher(Playwright, url, fetch, leftover);
      if ok {
        store.Save(url, "playwright");
        return text, pdfs;
      }
      ok := TryFetcher(Scrapy, url, fetch, leftover);
      if ok {
        store.Save(url, "scrapy");
        return text, pdfs;
      }
      return "", [];
    }

    /**
     * A URL whose record names tool `t`: only `t` runs; on success the
     * record is saved again with the same tool.
     */
    method RunRememberedTool(store: ScraperChoices, t: Tool, url: string, fetch: (Tool, string) -> Option<Page>,
                        leftover: (Tool, string) -> Leftover)
      returns (pageText: string, pagePdfs: seq<string>)
      requires url in store.tools && store.tools[url] == ToolName(t)
      modifies this`text, this`pdfs, this`tried, store
      ensures tried == old(tried) + [t]
      ensures store.tools == old(store.tools)
      ensures Page(pageText, pagePdfs) == PageOf(FirstSuccess([t], url, fetch))
      ensures fetch(t, url).Some? ==> text == pageText && pdfs == pagePdfs
      ensures Page(text, pdfs) == StateAfter([t], url, fetch, leftover, Page(old(text), old(pdfs)))
    {
      RunOfOneTool(t, url, fetch, leftover, Page(text, pdfs));
      var ok := TryFetcher(t, url, fetch, leftover);
      if ok {
        if t != Requests {
          store.Save(url, ToolName(t));
          assert store.tools == old(store.tools)[url := old(store.tools)[url]];
        }
        return text, pdfs;
      }
      return "", [];
    }

    /**
     * `run_scraper`: resolve the page, run the eligible tools in order until
     * one works, record that tool when the URL had no record, and return
     * the page (empty text and no links when every tool failed).
     */
    method RunScraper(store: ScraperChoices, mappings: PageMappings, web: Web) returns (pageText: string, pagePdfs: seq<string>)
      modifies this, store
      ensures loadUrl == ResolveTarget(domainOrUrl, mappings.pages, web.search)
      ensures searches == old(searches) + (if UsesMapping(domainOrUrl, mappings.pages) then [] else [domainOrUrl])
      ensures tried == old(tried) + Attempted(Eligible(Remembered(old(store.tools), loadUrl)), loadUrl, web.fetch)
      ensures store.tools == NextTools(old(store.tools), loadUrl, web.fetch)
      ensures Page(pageText, pagePdfs) == Scraped(old(store.tools), loadUrl, web.fetch)
      ensures (FirstSuccess(Eligible(Remembered(old(store.tools), loadUrl)), loadUrl, web.fetch).Some?) ==>
                text == pageText && pdfs == pagePdfs
      ensures Page(text, pdfs) ==
                StateAfter(Eligible(Remembered(old(store.tools), loadUrl)), loadUrl, web.fetch, web.leftover, Page(old(text), old(pdfs)))
    {
      ChooseLoadUrl(mappings, web.search);
      pageText, pagePdfs := RunTools(store, web.fetch, web.leftover);
    }

    /**
     * `find_notification`: the snippet around the first match in the page
     * text; failing that, the links in order, each checked against the
     * 30-second budget before it is downloaded, until a document mentions
     * the name.
     */
    method FindNotification(name: string, source: string -> PdfSource, clock: nat -> real) returns (r: Located)
      ensures r == Locate(text, pdfs, loadUrl, name, source, clock)
    {
      var lowerText := Lower(text);
      var m := Find(lowerText, Lower(name));
      if m.Some? {
        var start := if m.value >= 300 then m.value - 300 else 0;
        var end := if m.value + |name| + 300 <= |text| then m.value + |name| + 300 else |text|;
        SnippetOfMatch(text, name, m.value);
        return Snippet(text[start..end]);
      }
      r := ScanLinks(name, source, clock);
    }

    /**
     * The second half of `find_notification`: the links in order, each
     * checked against the 30-second budget before it is downloaded, until
     * a document mentions the name.
     */
    method ScanLinks(name: string, source: string -> PdfSource, clock: nat -> real) returns (r: Located)
      ensures r == ScanPdfs(pdfs, 0, loadUrl, name, source, clock)
    {
      var startTime := clock(0);
      var i := 0;
      while i < |pdfs|
        invariant 0 <= i <= |pdfs|
        invariant ScanPdfs(pdfs, 0, loadUrl, name, source, clock) == ScanPdfs(pdfs, i, loadUrl, name, source, clock)
      {
        ScanStep(pdfs, i, loadUrl, name, source, clock);
        if clock(i + 1) - startTime > 30.0 {
          return NotFound;
        }
        var url := PdfUrl(loadUrl, pdfs[i]);
        var pdfText := ExtractText(source(url));
        if pdfText.TransportError? {
          return PdfError;
        }
        if pdfText.text != "" && Contains(Lower(pdfText.text), Lower(name)) {
          return InPdf(url);
        }
        i := i + 1;
      }
      return NotFound;
    }
  }
}
