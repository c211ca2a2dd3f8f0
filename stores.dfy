/**
 * The two persistent tables the scraper consults, modelled as objects
 * holding a map: `ScraperChoice` (URL to the fetch tool that worked) and
 * `NotificationPageMapping` (domain to its notifications page).
 */
module Stores {
  import opened Options

  /** `ScraperChoice`: the tool name remembered per URL. */
  class ScraperChoices {
    var tools: map<string, string>

    constructor (initial: map<string, string>)
      ensures tools == initial
    {
      tools := initial;
    }

    /** `ScraperChoice.objects.filter(url=url).first()`, reduced to its tool. */
    function Lookup(url: string): (r: Option<string>)
      reads this
      ensures r.Some? <==> url in tools
      ensures r.Some? ==> r.value == tools[url]
    {
      if url in tools then Some(tools[url]) else None
    }

    /** Create the record for `url`, or overwrite its tool and save. */
    method Save(url: string, tool: string)
      modifies this
      ensures tools == old(tools)[url := tool]
    {
      tools := tools[url := tool];
    }
  }

  /** `NotificationPageMapping`: the notifications page known for a domain. */
  class PageMappings {
    var pages: map<string, string>

    constructor (initial: map<string, string>)
      ensures pages == initial
    {
      pages := initial;
    }

    /**
     * `get_or_create(domain=..., defaults={...})`: a missing domain gets
     * `url`; an existing mapping is left exactly as it was.
     */
    method GetOrCreate(domain: string, url: string) returns (created: bool)
      modifies this
      ensures created <==> domain !in old(pages)
      ensures pages == if created then old(pages)[domain := url] else old(pages)
    {
      created := domain !in pages;
      if created {
        pages := pages[domain := url];
      }
    }
  }
}
