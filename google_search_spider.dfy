/**
 * The older Scrapy-based Google search: `GoogleSearchSpider` builds its
 * search URL from the query, keeps the organic results of a results page
 * and drops ads and Google's own redirects; `get_google_search_results`
 * reports the spider's results, or nothing when the crawl raised. The
 * crawl itself is an oracle: what each result block holds, and which
 * crawlers the runner lists afterwards, are given as values.
 */
module GoogleSearchSpider {
  import opened Options
  import opened Text

  const SearchPrefix := "https://www.google.com/search?q="
  const QuerySuffix := " notification"

  /** `f"{query}"`: a missing query is written as `None`. */
  function QueryText(query: Option<string>): string {
    match query
    case None => "None"
    case Some(q) => q
  }

  /**
   * The spider's only start URL: the search prefix followed by the query
   * and " notification", every space turned into '+'.
   */
  function StartUrl(query: Option<string>): (r: string)
    ensures |r| == |SearchPrefix| + |QueryText(query)| + |QuerySuffix|
    ensures r[..|SearchPrefix|] == SearchPrefix
    ensures forall k :: 0 <= k < |QueryText(query)| ==>
      r[|SearchPrefix| + k] == if QueryText(query)[k] == ' ' then '+' else QueryText(query)[k]
  {
    SearchPrefix + ReplaceChar(QueryText(query) + QuerySuffix, ' ', '+')
  }

  /** Replacing a character distributes over concatenation. */
  lemma ReplaceCharAppend(a: string, b: string, x: char, y: char)
    ensures ReplaceChar(a + b, x, y) == ReplaceChar(a, x, y) + ReplaceChar(b, x, y)
  {
    var l, r := ReplaceChar(a + b, x, y), ReplaceChar(a, x, y) + ReplaceChar(b, x, y);
    forall k | 0 <= k < |l|
      ensures l[k] == r[k]
    {
      if k >= |a| {
        assert (a + b)[k] == b[k - |a|];
      }
    }
  }

  /** The start URL holds no space and ends with "+notification". */
  lemma StartUrlShape(query: Option<string>)
    ensures ' ' !in StartUrl(query)
    ensures EndsWith(StartUrl(query), "+notification")
  {
    var q := ReplaceChar(QueryText(query), ' ', '+');
    var suffix := ReplaceChar(QuerySuffix, ' ', '+');
    ReplaceCharAppend(QueryText(query), QuerySuffix, ' ', '+');
    assert suffix[0] == '+' && suffix[1..] == QuerySuffix[1..];
    assert suffix == "+notification";
    var r := StartUrl(query);
    assert r == (SearchPrefix + q) + suffix;
    assert ' ' !in SearchPrefix && ' ' !in q;
  }

  /** One `div.tF2Cxc` block: the text of its first `h3` and the href of its first anchor, when present. */
  datatype ResultBlock = ResultBlock(title: Option<string>, link: Option<string>)

  /** A result the spider keeps. */
  datatype Found = Found(title: string, link: string)

  /** A link to an ad or back into Google. */
  predicate IsAdLink(link: string) {
    Contains(link, "google.com") || Contains(link, "/aclk?") || Contains(link, "adurl=")
  }

  /** A block is kept when it has a non-empty title and a non-empty link that is not an ad. */
  predicate Keeps(b: ResultBlock) {
    b.title.Some? && b.title.value != "" && b.link.Some? && b.link.value != "" && !IsAdLink(b.link.value)
  }

  /** The results `parse` keeps from a page's blocks, in page order. */
  function Kept(blocks: seq<ResultBlock>): seq<Found> {
    if blocks == [] then []
    else
      var last := blocks[|blocks| - 1];
      Kept(blocks[..|blocks| - 1]) + (if Keeps(last) then [Found(last.title.value, last.link.value)] else [])
  }

  /** Keeping commutes with concatenating pages: the results stay in page order. */
  lemma {:induction false} KeptAppend(a: seq<ResultBlock>, b: seq<ResultBlock>)
    ensures Kept(a + b) == Kept(a) + Kept(b)
    decreases |b|
  {
    if b == [] {
      assert a + b == a;
    } else {
      var n := |b| - 1;
      assert (a + b)[..|a + b| - 1] == a + b[..n];
      KeptAppend(a, b[..n]);
    }
  }

  /** Every result kept comes from a block that passes the filter. */
  lemma {:induction false} KeptSound(blocks: seq<ResultBlock>, f: Found)
    requires f in Kept(blocks)
    ensures exists i :: 0 <= i < |blocks| && Keeps(blocks[i]) && f == Found(blocks[i].title.value, blocks[i].link.value)
    decreases |blocks|
  {
    var n := |blocks| - 1;
    if f in Kept(blocks[..n]) {
      KeptSound(blocks[..n], f);
      var i :| 0 <= i < n && Keeps(blocks[..n][i]) &&
               f == Found(blocks[..n][i].title.value, blocks[..n][i].link.value);
      assert blocks[..n][i] == blocks[i];
    } else {
      assert Keeps(blocks[n]);
    }
  }

  /** Every block that passes the filter is kept. */
  lemma {:induction false} KeptComplete(blocks: seq<ResultBlock>, i: nat)
    requires i < |blocks| && Keeps(blocks[i])
    ensures Found(blocks[i].title.value, blocks[i].link.value) in Kept(blocks)
    decreases |blocks|
  {
    var n := |blocks| - 1;
    if i < n {
      KeptComplete(blocks[..n], i);
      assert blocks[..n][i] == blocks[i];
    }
  }

  /** Every result kept has a title and a link, and the link is no ad. */
  lemma KeptAreGenuine(blocks: seq<ResultBlock>, f: Found)
    requires f in Kept(blocks)
    ensures f.title != "" && f.link != "" && !IsAdLink(f.link)
  {
    KeptSound(blocks, f);
  }

  /** `GoogleSearchSpider`: its start URL, and the results its `parse` callbacks collect. */
  class Spider {
    const startUrls: seq<string>
    var results: seq<Found>

    /** A new spider starts from the search URL with an empty result list. */
    constructor (query: Option<string>)
      ensures startUrls == [StartUrl(query)]
      ensures results == []
    {
      startUrls := [StartUrl(query)];
      results := [];
    }

    /** `parse`: the page's kept results are appended, in page order. */
    method Parse(blocks: seq<ResultBlock>)
      modifies this
      ensures results == old(results) + Kept(blocks)
    {
      var i := 0;
      while i < |blocks|
        invariant 0 <= i <= |blocks|
        invariant results == old(results) + Kept(blocks[..i])
      {
        var b := blocks[i];
        assert blocks[..i + 1][..i] == blocks[..i];
        if b.title.Some? && b.title.value != "" && b.link.Some? && b.link.value != "" {
          var link := b.link.value;
          if !Contains(link, "google.com") && !Contains(link, "/aclk?") && !Contains(link, "adurl=") {
            results := results + [Found(b.title.value, link)];
          }
        }
        i := i + 1;
      }
      assert blocks[..|blocks|] == blocks;
    }
  }

  /** A crawler the runner lists after the crawl: a search spider with its results, or another spider. */
  datatype Crawler = SearchCrawler(results: seq<Found>) | OtherCrawler

  /** The crawl: it raised (a timeout, say), or it finished and the runner lists these crawlers. */
  datatype Crawl = CrawlRaised | Finished(crawlers: seq<Crawler>)

  /**
   * `get_google_search_results`: nothing when the crawl raised; otherwise
   * the results of the first search spider the runner lists, or nothing
   * when it lists none.
   */
  function SearchResults(crawl: Crawl): (r: seq<Found>)
    ensures crawl.CrawlRaised? ==> r == []
    ensures crawl.Finished? && (forall i :: 0 <= i < |crawl.crawlers| ==> crawl.crawlers[i].OtherCrawler?) ==> r == []
  {
    match crawl
    case CrawlRaised => []
    case Finished(cs) => FirstSearchResults(cs)
  }

  /** The results of the first search spider in `cs`; nothing when there is none. */
  function FirstSearchResults(cs: seq<Crawler>): (r: seq<Found>)
    ensures (forall i :: 0 <= i < |cs| ==> cs[i].OtherCrawler?) ==> r == []
    ensures forall i :: 0 <= i < |cs| && cs[i].SearchCrawler? && (forall j :: 0 <= j < i ==> cs[j].OtherCrawler?) ==>
      r == cs[i].results
  {
    if cs == [] then []
    else if cs[0].SearchCrawler? then cs[0].results
    else FirstSearchResults(cs[1..])
  }
}
