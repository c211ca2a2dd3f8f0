/**
 * `scrap` in `notproj/scraper1.py`: the Cluster University branch is taken
 * only for a URL missing the last letter of the real page's name and
 * builds each link by plain concatenation; the NTA branch saves the first
 * twenty title elements with the `href` of their first anchor; any other
 * URL saves nothing and still reports "0 notifications". The HTTP
 * requests and the HTML parsing are replaced by the parsed page;
 * `urljoin` is an oracle.
 */
module LegacyScraper1 {
  import opened Options
  import opened Text
  import opened LegacyRecords

  /** The URL the Cluster University branch compares against: the real one without its final 'l'. */
  const TruncatedCusUrl := "https://www.cusrinagar.edu.in/Notification/" + "NotificationListPartia"

  /** The real Cluster University URL is not the one the branch expects. */
  lemma RealCusUrlMissesBranch()
    ensures CusUrl == TruncatedCusUrl + "l"
    ensures CusUrl != TruncatedCusUrl && CusUrl != NtaUrl
  {
    assert |CusUrl| != |TruncatedCusUrl|;
    assert CusUrl[12] == 'c' && NtaUrl[12] == 'n';
  }

  /** One titled anchor: its title and the base URL followed by its `href`; no `href` raises. */
  function CusRecord(a: TitledAnchor): (r: Option<Record>)
    ensures r.None? <==> a.href.None?
    ensures r.Some? ==> r.value == Record(a.title, CusBase + a.href.value, None)
  {
    match a.href
    case None => None
    case Some(href) => Some(Record(a.title, CusBase + href, None))
  }

  /** One title element: its text, and the joined `href` of its first anchor or "" when it has none. */
  function NtaRecord(c: Content, join: UrlJoin): (r: Record)
    ensures r.title == c.text && r.publishedAt.None?
    ensures r.url == "" <== c.firstAnchor.None? || c.firstAnchor.value.None?
    ensures c.firstAnchor.Some? && c.firstAnchor.value.Some? ==> r.url == join(NtaBase, c.firstAnchor.value.value)
  {
    match c.firstAnchor
    case Some(Some(href)) => Record(c.text, join(NtaBase, href), None)
    case _ => Record(c.text, "", None)
  }

  function CusMaker(): TitledAnchor -> Option<Record> {
    a => CusRecord(a)
  }

  function NtaMaker(join: UrlJoin): Content -> Option<Record> {
    c => Some(NtaRecord(c, join))
  }

  /**
   * `scrap(url)`: the truncated Cluster University URL saves a row per
   * titled anchor (raising at one without `href`, after saving those before
   * it); the NTA URL saves a row per title element among the first twenty;
   * any other URL, the real Cluster University one included, saves nothing
   * and reports zero. The message reports the number of rows saved.
   */
  method Scrap(url: string, page: Soup, table: NotificationTable, join: UrlJoin) returns (outcome: ScrapOutcome)
    modifies table
    ensures url == TruncatedCusUrl ==>
      table.rows == old(table.rows) + Saved(page.titledAnchors, 0, CusMaker()) &&
      outcome == if RaisesFrom(page.titledAnchors, 0, CusMaker()) then Raised
                 else Returned(SavedMessage(|page.titledAnchors|, url))
    ensures url == NtaUrl ==>
      table.rows == old(table.rows) + Saved(Take(page.contents, 20), 0, NtaMaker(join)) &&
      outcome == Returned(SavedMessage(|Take(page.contents, 20)|, url))
    ensures url != TruncatedCusUrl && url != NtaUrl ==>
      outcome == Returned(SavedMessage(0, url)) && table.rows == old(table.rows)
    ensures !outcome.Raised? ==> outcome == Returned(SavedMessage(|table.rows| - |old(table.rows)|, url))
  {
    if url == TruncatedCusUrl {
      var make := CusMaker();
      var count, raised := SaveAll(table, page.titledAnchors, make);
      if raised {
        return Raised;
      }
      SavedEach(page.titledAnchors, 0, make);
      return Returned(SavedMessage(count, url));
    }
    var notifications: seq<Content> := [];
    if url == NtaUrl {
      notifications := Take(page.contents, 20);
    }
    var make := NtaMaker(join);
    var count, raised := SaveAll(table, notifications, make);
    SavedEach(notifications, 0, make);
    return Returned(SavedMessage(count, url));
  }
}
