/**
 * `scrap` in `notproj/scraper.py`: two site-specific branches chosen by the
 * exact URL. The Cluster University notice table yields one row per table
 * row; the NTA archive pairs title elements with PDF links, skips the first
 * two pairs and keeps twenty, and reads a `YYYYMMDD` date out of each PDF's
 * file name. The HTTP requests and the HTML parsing are replaced by the
 * parsed page; `urljoin` and the `'%d-%B-%Y'` date parsing are oracles.
 */
module LegacyScraper {
  import opened Options
  import opened Text
  import opened LegacyRecords

  /**
   * One Cluster University row: the posting date is read from the second
   * cell; a titled link in the third cell gives the title and the joined
   * href, otherwise the first cell's text and the site's base URL are used.
   * A row with fewer than three cells, or a titled link without an `href`,
   * makes the loop raise (`None`).
   */
  function CusRecord(row: Row, join: UrlJoin, dayMonthYear: DateParser): (r: Option<Record>)
    ensures r.None? <==> |row.cells| < 3 || (row.cells[2].titledLink.Some? && row.cells[2].titledLink.value.href.None?)
    ensures r.Some? ==> r.value.publishedAt == dayMonthYear(row.cells[1].text)
    ensures r.Some? && row.cells[2].titledLink.Some? ==>
      r.value.title == row.cells[2].titledLink.value.title &&
      r.value.url == join(CusBase, row.cells[2].titledLink.value.href.value)
    ensures r.Some? && row.cells[2].titledLink.None? ==> r.value.title == row.cells[0].text && r.value.url == CusBase
  {
    if |row.cells| < 3 then None
    else
      var date := dayMonthYear(row.cells[1].text);
      match row.cells[2].titledLink
      case Some(link) =>
        if link.href.None? then None else Some(Record(link.title, join(CusBase, link.href.value), date))
      case None => Some(Record(row.cells[0].text, CusBase, date))
  }

  /** `list(zip(titles, links))[2:22]`: the pairs after the first two, at most twenty. */
  function NtaPairs(titles: seq<string>, links: seq<Anchor>): (r: seq<(string, Anchor)>)
    ensures var n := if |titles| < |links| then |titles| else |links|;
      |r| == (if n <= 2 then 0 else if n < 22 then n - 2 else 20)
    ensures forall k :: 0 <= k < |r| ==> r[k] == (titles[k + 2], links[k + 2])
  {
    var n := if |titles| < |links| then |titles| else |links|;
    var pairs := seq(n, k requires 0 <= k < n => (titles[k], links[k]));
    if n <= 2 then [] else pairs[2..if n < 22 then n else 22]
  }

  /**
   * The text between the last '_' of the URL and its last ".pdf" (found
   * case-insensitively), cut to eight characters; nothing unless both are
   * present with the ".pdf" after the '_'.
   */
  function FilenameDateText(url: string): (r: Option<string>)
    ensures r.Some? <==> (RFind(url, "_").Some? && RFind(Lower(url), ".pdf").Some? &&
                          RFind(Lower(url), ".pdf").value > RFind(url, "_").value)
    ensures r.Some? ==>
      var u, d := RFind(url, "_").value, RFind(Lower(url), ".pdf").value;
      r.value == Take(url[u + 1..d], 8)
  {
    var u, d := RFind(url, "_"), RFind(Lower(url), ".pdf");
    if u.Some? && d.Some? && d.value > u.value then
      assert d.value + 4 <= |Lower(url)|;
      Some(Take(url[u.value + 1..d.value], 8))
    else None
  }

  /** The date of a PDF URL: its file-name text read as `'%Y%m%d'`, nothing when that fails. */
  function FilenameDate(url: string, other: DateParser): Option<DateTime> {
    match FilenameDateText(url)
    case None => None
    case Some(t) => ParseYmd(t, other)
  }

  /** One NTA pair: the title's text, the link's URL and the date in its file name (none for a blank URL). */
  function NtaRecord(pair: (string, Anchor), join: UrlJoin, other: DateParser): Record {
    var url := NtaUrlOf(pair.1, join);
    Record(pair.0, url, if url != "" then FilenameDate(url, other) else None)
  }

  /** A blank `href` gives an empty URL and no date. */
  lemma BlankHrefHasNoDate(title: string, a: Anchor, join: UrlJoin, other: DateParser)
    requires Strip(a.href) == ""
    ensures NtaRecord((title, a), join, other) == Record(title, "", None)
  {
  }

  /** A date is read only from an eight-digit text that names a real day, and it is written back the same. */
  lemma FilenameDateIsExact(url: string, other: DateParser)
    requires FilenameDateText(url).Some?
    requires |FilenameDateText(url).value| == 8 && AllDigits(FilenameDateText(url).value)
    requires FilenameDate(url, other).Some?
    ensures ValidYmd(FilenameDate(url, other).value)
    ensures FormatYmd(FilenameDate(url, other).value) == FilenameDateText(url).value
  {
    YmdParsedFormats(FilenameDateText(url).value, other);
  }

  /** The NTA branch saves one row per kept pair, in order, each built from its pair. */
  lemma NtaSavedRows(pairs: seq<(string, Anchor)>, join: UrlJoin, other: DateParser)
    ensures var saved := Saved(pairs, 0, NtaMaker(join, other));
      |saved| == |pairs| && forall k :: 0 <= k < |pairs| ==> saved[k] == NtaRecord(pairs[k], join, other)
  {
    SavedEach(pairs, 0, NtaMaker(join, other));
  }

  /** The row builder of the Cluster University loop. */
  function CusMaker(join: UrlJoin, dayMonthYear: DateParser): Row -> Option<Record> {
    row => CusRecord(row, join, dayMonthYear)
  }

  /** The row builder of the NTA loop, which never raises. */
  function NtaMaker(join: UrlJoin, other: DateParser): ((string, Anchor)) -> Option<Record> {
    pair => Some(NtaRecord(pair, join, other))
  }

  /** The texts of the title elements. */
  function Texts(contents: seq<Content>): (r: seq<string>)
    ensures |r| == |contents| && forall k :: 0 <= k < |r| ==> r[k] == contents[k].text
  {
    seq(|contents|, k requires 0 <= k < |contents| => contents[k].text)
  }

  /** The NTA pairs of a page: title elements against the links whose `href` names a PDF. */
  function PagePairs(page: Soup): seq<(string, Anchor)> {
    NtaPairs(Texts(page.contents), Filter(page.hrefAnchors, IsPdfHref))
  }

  /**
   * `scrap(url)`: the Cluster University URL saves a row per table row
   * (raising on a malformed row, after saving the rows before it); the NTA
   * URL saves a row per kept pair; any other URL saves nothing and returns
   * `None`. A returned message reports the number of rows saved.
   */
  method Scrap(url: string, page: Soup, table: NotificationTable, join: UrlJoin, dayMonthYear: DateParser,
               other: DateParser)
    returns (outcome: ScrapOutcome)
    modifies table
    ensures url == CusUrl ==>
      table.rows == old(table.rows) + Saved(page.rows, 0, CusMaker(join, dayMonthYear)) &&
      outcome == if RaisesFrom(page.rows, 0, CusMaker(join, dayMonthYear)) then Raised
                 else Returned(SavedMessage(|page.rows|, url))
    ensures url == NtaUrl ==>
      table.rows == old(table.rows) + Saved(PagePairs(page), 0, NtaMaker(join, other)) &&
      outcome == Returned(SavedMessage(|PagePairs(page)|, url))
    ensures url != CusUrl && url != NtaUrl ==> outcome == ReturnedNone && table.rows == old(table.rows)
    ensures outcome.Returned? ==> outcome == Returned(SavedMessage(|table.rows| - |old(table.rows)|, url))
  {
    if url == CusUrl {
      var make := CusMaker(join, dayMonthYear);
      var count, raised := SaveAll(table, page.rows, make);
      if raised {
        return Raised;
      }
      SavedEach(page.rows, 0, make);
      return Returned(SavedMessage(count, url));
    } else if url == NtaUrl {
      var pairs := NtaPairs(Texts(page.contents), Filter(page.hrefAnchors, IsPdfHref));
      var make := NtaMaker(join, other);
      var count, raised := SaveAll(table, pairs, make);
      SavedEach(pairs, 0, make);
      return Returned(SavedMessage(count, url));
    }
    return ReturnedNone;
  }
}
