/**
 * `google_search_top_url`: ask the Custom Search API for a domain's
 * notification pages and pick one result, falling back to the domain.
 * The HTTP call is an oracle: the reply is given as a value.
 */
module GoogleSearch {
  import opened Options
  import opened Text

  /** One entry of the reply's "items" list; `link` is `None` when the key is missing. */
  datatype Item = Item(link: Option<string>)

  /** The decoded body: not JSON at all, or a JSON object that may carry "items". */
  datatype Body = NotJson | Json(items: Option<seq<Item>>)

  /** What the HTTP call produced: an exception, or a status code and a body. */
  datatype SearchReply = Raised | Response(status: int, body: Body)

  /** The search query sent for a domain. */
  function Query(domain: string): (q: string)
    ensures StartsWith(q, "site:") && EndsWith(q, " notifications")
    ensures |q| == |domain| + 19 && q[5..5 + |domain|] == domain
  {
    "site:" + domain + " notifications"
  }

  /** A link that looks like a notifications page. */
  predicate HasKeyword(link: string) {
    var l := Lower(link);
    Contains(l, "notification") || Contains(l, "notice") || Contains(l, "news") || Contains(l, "updates")
  }

  /** `item.get("link", "")`. */
  function LinkOf(item: Item): string {
    item.link.GetOr("")
  }

  /** The index of the first item whose link carries a keyword. */
  function FirstKeywordItem(items: seq<Item>): (r: Option<nat>)
    ensures r.Some? ==> r.value < |items| && HasKeyword(LinkOf(items[r.value]))
    ensures r.Some? ==> forall j :: 0 <= j < r.value ==> !HasKeyword(LinkOf(items[j]))
    ensures r.None? ==> forall j :: 0 <= j < |items| ==> !HasKeyword(LinkOf(items[j]))
  {
    if items == [] then None
    else if HasKeyword(LinkOf(items[0])) then Some(0)
    else match FirstKeywordItem(items[1..])
      case Some(k) => Some(k + 1)
      case None => None
  }

  /** The results list the scan runs over: only a 200 reply whose body is JSON has one. */
  function Results(reply: SearchReply): Option<seq<Item>> {
    if reply.Response? && reply.status == 200 && reply.body.Json? then Some(reply.body.items.GetOr([]))
    else None
  }

  /** The last resort: the domain itself, given an https scheme unless it starts with "http". */
  function DomainFallback(domain: string): (r: string)
    ensures StartsWith(r, "http")
    ensures StartsWith(domain, "http") ==> r == domain
    ensures !StartsWith(domain, "http") ==> r == "https://" + domain
  {
    if StartsWith(domain, "http") then domain
    else
      assert ("https://" + domain)[..4] == "http";
      "https://" + domain
  }

  /**
   * The page chosen from a search reply: the first result whose link
   * carries a keyword; else the first result's link; and whenever there
   * are no results, the reply failed, or the first result has no "link"
   * key (a KeyError the handler swallows), the domain fallback.
   */
  function TopUrl(domain: string, reply: SearchReply): (r: string)
    ensures Results(reply).None? ==> r == DomainFallback(domain)
    ensures Results(reply).Some? ==>
      var items := Results(reply).value;
      match FirstKeywordItem(items)
      case Some(k) => r == LinkOf(items[k])
      case None =>
        if items != [] && items[0].link.Some? then r == items[0].link.value
        else r == DomainFallback(domain)
  {
    match Results(reply)
    case None => DomainFallback(domain)
    case Some(items) =>
      match FirstKeywordItem(items)
      case Some(k) => LinkOf(items[k])
      case None =>
        if items != [] && items[0].link.Some? then items[0].link.value
        else DomainFallback(domain)
  }

  /**
   * `google_search_top_url(domain)` against a search oracle: the oracle is
   * asked exactly `Query(domain)`.
   */
  function TopUrlFor(domain: string, search: string -> SearchReply): string {
    TopUrl(domain, search(Query(domain)))
  }

  /**
   * The chosen page is always either a link the search returned or the
   * domain fallback.
   */
  lemma TopUrlOrigin(domain: string, reply: SearchReply)
    ensures var r := TopUrl(domain, reply);
      r == DomainFallback(domain) ||
      (Results(reply).Some? && exists i :: 0 <= i < |Results(reply).value| && LinkOf(Results(reply).value[i]) == r)
  {
  }

  /**
   * A keyword link beats the first result: once some link carries a
   * keyword, no link before it is chosen, and that link is.
   */
  lemma KeywordBeatsFirstResult(domain: string, items: seq<Item>, k: nat)
    requires k < |items| && HasKeyword(LinkOf(items[k]))
    requires forall j :: 0 <= j < k ==> !HasKeyword(LinkOf(items[j]))
    ensures TopUrl(domain, Response(200, Json(Some(items)))) == LinkOf(items[k])
  {
  }
}
