/**
 * `scrap` in `notproj/scraper2.py`: the Cluster University branch saves a
 * row per titled anchor with its `data-published` stamp; the NTA branch
 * keeps the links whose `href` names a PDF (all links when none does),
 * saves the first twenty and names an untitled link after its file. The
 * HTTP requests and the HTML parsing are replaced by the parsed page;
 * `urljoin` and the `'%Y-%m-%d %H:%M:%S'` parsing are oracles.
 */
module LegacyScraper2 {
  import opened Options
  import opened Text
  import opened Urls
  import opened LegacyRecords

  /**
   * One titled anchor: its title and joined `href`, and the stamp read
   * from `data-published` when that is present and not empty. An anchor
   * without an `href` makes the loop raise (`None`).
   */
  function CusRecord(a: TitledAnchor, join: UrlJoin, stamp: DateParser): (r: Option<Record>)
    ensures r.None? <==> a.href.None?
    ensures r.Some? ==> r.value.title == a.title && r.value.url == join(CusBase, a.href.value)
    ensures r.Some? ==> (r.value.publishedAt.Some? ==> a.published.Some? && a.published.value != "")
    ensures r.Some? && a.published.Some? && a.published.value != "" ==> r.value.publishedAt == stamp(a.published.value)
  {
    match a.href
    case None => None
    case Some(href) =>
      var published := if a.published.Some? && a.published.value != "" then stamp(a.published.value) else None;
      Some(Record(a.title, join(CusBase, href), published))
  }

  /** The links the NTA branch works through: those naming a PDF, or every link when none does. */
  function ChosenLinks(anchors: seq<Anchor>): seq<Anchor> {
    var pdfs := Filter(anchors, IsPdfHref);
    if pdfs != [] then pdfs else anchors
  }

  /**
   * When some link names a PDF, exactly the links naming a PDF are chosen,
   * in document order; when none does, every link is.
   */
  lemma ChosenLinksArePdfsOrAll(anchors: seq<Anchor>)
    ensures (exists k :: 0 <= k < |anchors| && IsPdfHref(anchors[k])) ==>
      ChosenLinks(anchors) == Filter(anchors, IsPdfHref) &&
      forall k :: 0 <= k < |ChosenLinks(anchors)| ==> IsPdfHref(ChosenLinks(anchors)[k])
    ensures (forall k :: 0 <= k < |anchors| ==> !IsPdfHref(anchors[k])) ==> ChosenLinks(anchors) == anchors
  {
  }

  /** Every link naming a PDF is among the chosen ones. */
  lemma PdfLinksAreChosen(anchors: seq<Anchor>, k: nat)
    requires k < |anchors| && IsPdfHref(anchors[k])
    ensures anchors[k] in ChosenLinks(anchors)
  {
    FilterComplete(anchors, IsPdfHref, k);
  }

  /**
   * One NTA link: its joined URL ("" for a blank `href`), titled with its
   * text or, when that is empty, with the URL's last path segment.
   */
  function NtaRecord(a: Anchor, join: UrlJoin): (r: Record)
    ensures r.url == NtaUrlOf(a, join) && r.publishedAt.None?
    ensures a.text != "" ==> r.title == a.text
    ensures a.text == "" ==> '/' !in r.title && EndsWith(r.url, r.title)
    ensures a.text == "" ==> r.title == Basename(r.url)
  {
    var url := NtaUrlOf(a, join);
    Record(if a.text != "" then a.text else Basename(url), url, None)
  }

  /** An untitled link with a blank `href` gets an empty title and an empty URL. */
  lemma BlankLinkIsEmpty(a: Anchor, join: UrlJoin)
    requires a.text == "" && Strip(a.href) == ""
    ensures NtaRecord(a, join) == Record("", "", None)
  {
  }

  function CusMaker(join: UrlJoin, stamp: DateParser): TitledAnchor -> Option<Record> {
    a => CusRecord(a, join, stamp)
  }

  function NtaMaker(join: UrlJoin): Anchor -> Option<Record> {
    a => Some(NtaRecord(a, join))
  }

  /** The NTA links saved: the first twenty chosen, in document order. */
  function NtaItems(page: Soup): seq<Anchor> {
    Take(ChosenLinks(page.hrefAnchors), 20)
  }

  /**
   * `scrap(url)`: the Cluster University URL saves a row per titled anchor
   * (raising at an anchor without `href`, after saving those before it);
   * the NTA URL saves a row per link kept; any other URL saves nothing and
   * returns `None`. A returned message reports the number of rows saved.
   */
  method Scrap(url: string, page: Soup, table: NotificationTable, join: UrlJoin, stamp: DateParser)
    returns (outcome: ScrapOutcome)
    modifies table
    ensures url == CusUrl ==>
      table.rows == old(table.rows) + Saved(page.titledAnchors, 0, CusMaker(join, stamp)) &&
      outcome == if RaisesFrom(page.titledAnchors, 0, CusMaker(join, stamp)) then Raised
                 else Returned(SavedMessage(|page.titledAnchors|, url))
    ensures url == NtaUrl ==>
      table.rows == old(table.rows) + Saved(NtaItems(page), 0, NtaMaker(join)) &&
      outcome == Returned(SavedMessage(|NtaItems(page)|, url))
    ensures url != CusUrl && url != NtaUrl ==> outcome == ReturnedNone && table.rows == old(table.rows)
    ensures outcome.Returned? ==> outcome == Returned(SavedMessage(|table.rows| - |old(table.rows)|, url))
  {
    if url == CusUrl {
      var make := CusMaker(join, stamp);
      var count, raised := SaveAll(table, page.titledAnchors, make);
      if raised {
        return Raised;
      }
      SavedEach(page.titledAnchors, 0, make);
      return Returned(SavedMessage(count, url));
    } else if url == NtaUrl {
      var pdfLinks := Filter(page.hrefAnchors, IsPdfHref);
      if pdfLinks == [] {
        pdfLinks := page.hrefAnchors;
      }
      var items := Take(pdfLinks, 20);
      assert items == NtaItems(page);
      var make := NtaMaker(join);
      var count, raised := SaveAll(table, items, make);
      SavedEach(items, 0, make);
      return Returned(SavedMessage(count, url));
    }
    return ReturnedNone;
  }
}
