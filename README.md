# Intellinotify notification locator, modelled in Dafny

Intellinotify watches institutional web sites for a named notification (an
admit card, a circular, an exam date). This project models the core of it,
with every network, browser, PDF library, database and AI call replaced by an
oracle given as a parameter.

- **The universal scraper** (`data_engine/scraper.py`) finds the page to
  load. It uses the domain-to-page mapping table first, falls back to the web
  search's pick, and prefixes "https://" when the URL has no scheme. It then
  runs the fetch tools (requests, Playwright, Scrapy) that the
  `ScraperChoice` record allows, in order, and records the tool that worked.
  Finally it locates the notification: a ±300-character window around the
  first case-insensitive match in the page text, or else the first linked PDF
  that mentions the name, checked against a 30-second budget.
- **The helpers it calls**:
  - the search-result choice, with its domain fallback
    (`data_engine/google_search.py`);
  - the PDF download and two-method text extraction, with its sentinel
    messages (`data_engine/pdf_handler.py`);
  - the AI reply handling and `<…>` clean-up (`data_engine/ai_query.py` and
    its copy `notproj/new3.py`).
- **The periodic task** (`data_engine/tasks.py`) turns a scrape into a
  message. It runs every active scheduled request and mails the user. It
  switches a request off unless the message says the notification is not yet
  available, and a crash rolls the whole transaction back.
- **The older code**:
  - the Scrapy Google spider's query building and ad filter
    (`notproj/google_search1.py`);
  - the three site-specific `scrap` functions (`notproj/scraper.py`,
    `scraper1.py`, `scraper2.py`);
  - the idempotent seeding of the mapping table
    (`populate_notification_pages.py`);
  - the view that groups notifications by host and sorts the groups
    (`pages/views.py`).

## How the model is organised

There is one module per source file, plus three shared modules:

- `Options` holds `Option`.
- `Text` holds Python's `lower`, `strip`, `find` and `rfind`, and related string helpers.
- `Urls` holds the scheme and netloc parts of `urlparse`.

State the source updates in place is modelled as classes:

- the scraper's `text`, `pdfs` and `load_url`;
- the `ScraperChoice` and `NotificationPageMapping` tables;
- the `Notification` rows;
- the scheduled-request rows;
- the spider's result list.

Each method is proved against a specification function. The lemmas beside it
state what the source promises about that function.

The oracles are:

- the search reply per query;
- one fetch per (tool, URL), and what a failed fetch had assigned to the scraper before it raised;
- one PDF source per URL (the GET, the PyMuPDF reading and the pdfplumber reading);
- the clock readings (reading 0 at the start of the PDF phase, reading i + 1 before link i);
- the AI reply per (domain, name, snippet);
- `urljoin`;
- every `strptime` format except the eight-digit `'%Y%m%d'`, which is modelled exactly.

Three behaviours one might expect of such a scraper are not what the code does, and the model follows the code:

- A remembered tool that fails is not followed by the other tools. The call returns empty text and no links, and the record is unchanged.
- A `ScraperChoice` holds only the URL and the tool name. There is no failure count and no timestamps.
- When every tool fails, `run_scraper` returns empty text and no links, but `find_notification` searches the scraper's own `text` and `pdfs`. A tool that raised after assigning them (Playwright's text before its link list or `browser.close()`) leaves that partial page to be searched. Scrapy can only fail before it assigns anything, since its spider starts with empty text and no links; the model's failure input allows more than that for every tool.
- An exception raised by the PDF download's GET is not caught. It ends `find_notification` and the scrape task, and `check_scheduled_requests` then rolls back every request it had switched off.

## Model

| member | source | states |
|---|---|---|
| Scraper.MappedPage | data_engine/scraper.py:38-47 | the mapping is found exactly when the lookup key is in the table, and gives the stored page |
| Scraper.MappingKeyOfUrl | data_engine/scraper.py:39 | for "https://" + host + path the lookup key is the host |
| Scraper.MappingKeyOfBareDomain | data_engine/scraper.py:39 | a bare domain (no ':' and no leading "//") is its own lookup key |
| Scraper.UniversalScraper.DetectNotificationPage | data_engine/scraper.py:38-47 | returns the mapped page exactly when the lookup key (netloc, else the input without "https://" and "http://") is mapped |
| Scraper.WithScheme | data_engine/scraper.py:105-107 | "https://" is prefixed exactly when the URL has no scheme; the result always has a scheme |
| Scraper.ResolveTarget | data_engine/scraper.py:98-107 | the URL to load always has a scheme |
| Scraper.MappingSkipsSearch | data_engine/scraper.py:98-103 | with a non-empty mapped page the search is never consulted: any two search oracles give the same target, the mapped page with a scheme |
| Scraper.UniversalScraper.ChooseLoadUrl | data_engine/scraper.py:98-109 | `load_url` becomes the resolved target; the search is asked about the original input exactly when no non-empty mapping exists |
| Scraper.Eligible | data_engine/scraper.py:112-135 | no record allows all three tools in the order requests, Playwright, Scrapy; a record naming a tool allows only that tool; any other record allows none |
| Scraper.Attempted | data_engine/scraper.py:121-143 | the tools run are a prefix of the allowed order; every tool before the last failed; the run stops early only at a success |
| Scraper.FirstSuccess | data_engine/scraper.py:121-143 | there is no success exactly when every allowed tool fails; a success names an allowed tool and its page |
| Scraper.RunOfAllTools | data_engine/scraper.py:121-140 | without a record, requests alone runs when it works; otherwise it is followed by the Playwright-then-Scrapy run, starting from what requests left assigned |
| Scraper.RunOfLaterTools | data_engine/scraper.py:127-140 | Playwright alone runs when it works; otherwise Scrapy follows; the success is the first tool that worked; with no success the scraper holds what the two failures assigned, in order |
| Scraper.RunOfOneTool | data_engine/scraper.py:121-140 | a remembered tool runs alone; its page is the success and the scraper's page when it worked, else the scraper keeps what the failure assigned |
| Scraper.StateAfterSuccess | data_engine/scraper.py:121-143 | when some allowed tool works, the scraper's text and links afterwards are exactly the page `run_scraper` returns, whatever the failed tools assigned |
| Scraper.StateAfterCleanFailures | data_engine/scraper.py:49-95 | when every tool fails before assigning anything, the scraper's text and links are unchanged |
| Scraper.PartialTextOutlivesFailedRun | data_engine/scraper.py:61-71 | when all three tools fail and Playwright had assigned its text, that text stays on the scraper although `run_scraper` returns an empty page |
| Scraper.RememberedToolIsKept | data_engine/scraper.py:121-140 | once a URL has a record, a run never changes the table |
| Scraper.LaterRunsUseWinner | data_engine/scraper.py:121-140 | on a URL without a record the first working tool is recorded, and every later run tries that tool alone |
| Scraper.UnknownToolFetchesNothing | data_engine/scraper.py:112-143 | a record naming no known tool runs no fetcher, returns empty text and no links, and records nothing |
| Stores.ScraperChoices.Lookup | data_engine/scraper.py:110 | the record is found exactly when the URL has one, and gives its tool |
| Stores.ScraperChoices.Save | data_engine/scraper.py:122-140 | creating or updating a record sets the URL's tool and changes nothing else |
| Scraper.UniversalScraper.constructor | data_engine/scraper.py:30-36 | a new scraper has empty text, no links and an empty load URL |
| Scraper.UniversalScraper.TryFetcher | data_engine/scraper.py:49-95 | a fetcher succeeds exactly when its oracle gives a page, which then replaces text and links; a failure leaves the text, or the text and links, it assigned before raising, and otherwise the old ones |
| Scraper.UniversalScraper.RunTools | data_engine/scraper.py:110-143 | the tools run, the new table and the returned page are those of the allowed order's first success; the scraper's text and links are the success's page, or what the failed tools assigned in turn |
| Scraper.UniversalScraper.RunAllTools | data_engine/scraper.py:121-143 | without a record: the three tools run in order up to the first success, whose tool is recorded and whose page is returned; the scraper holds the state those runs leave |
| Scraper.UniversalScraper.RunLaterTools | data_engine/scraper.py:127-143 | after requests failed: Playwright then Scrapy up to the first success, whose tool is recorded; the scraper holds the state those runs leave |
| Scraper.UniversalScraper.RunRememberedTool | data_engine/scraper.py:121-143 | with a record naming tool t: only t runs, the table is unchanged, and a failure returns empty text and no links while the scraper keeps what t assigned |
| Scraper.UniversalScraper.RunScraper | data_engine/scraper.py:97-143 | `run_scraper`: resolve the page, then run the allowed tools; states the load URL, the searches made, the tools run, the new table, the page returned and the text and links left on the scraper |
| Scraper.TextSnippet | data_engine/scraper.py:148-156 | a snippet exists exactly when the lowered text contains the lowered name; it is the original-case slice from up to 300 characters before the first match to 300 after it, clamped to the text, and holds the match |
| Scraper.TextMatchSkipsPdfs | data_engine/scraper.py:151-156 | a text match is returned as the snippet whatever the links, the clock and the PDFs are |
| Scraper.PdfUrl | data_engine/scraper.py:166 | a link starting with "http" is used as is |
| Scraper.RelativeLinkSameHost | data_engine/scraper.py:166 | any other link is put on the loaded page's host, followed by "/" and the link without its leading slashes |
| Scraper.LinkVerdict | data_engine/scraper.py:167-168 | a link's verdict is "raises" exactly when its download raises, and "mentions" exactly when its text is non-empty and contains the name case-insensitively |
| Scraper.Verdicts | data_engine/scraper.py:161-168 | one verdict per link, in link order |
| Scraper.FirstMention | data_engine/scraper.py:160-173 | a stop at k names a link that mentions the name, at or after the start |
| Scraper.FirstMentionAt | data_engine/scraper.py:160-170 | with the budget kept up to k, silent links before k and a mention at k, the scan stops at k |
| Scraper.FirstMentionNone | data_engine/scraper.py:160-173 | with only silent links left, the scan ends with nothing found |
| Scraper.FirstMentionCut | data_engine/scraper.py:162-164 | a reading over budget before link k makes the scan the same as the scan of the links before k |
| Scraper.ScanPdfs | data_engine/scraper.py:160-173 | the PDF phase never returns a text snippet |
| Scraper.ScanReportsHit | data_engine/scraper.py:166-170 | a PDF hit is the resolved URL of one of the links scanned |
| Scraper.ScanStep | data_engine/scraper.py:161-170 | one loop step: over budget stops with nothing, a raising download raises, a mention returns that PDF, anything else moves to the next link |
| Scraper.ScanFindsFirstHit | data_engine/scraper.py:161-170 | within budget, the first mentioning PDF after readable non-mentioning ones is the one returned |
| Scraper.ScanWithoutHit | data_engine/scraper.py:161-173 | when no document mentions the name, nothing is found |
| Scraper.BudgetCutsScan | data_engine/scraper.py:162-164 | links after the first over-budget reading are never examined |
| Scraper.FailedDownloadMatchesPdf | data_engine/scraper.py:167-170 | a non-200 download yields "Failed to download PDF.", which matches a search for "PDF", so that link is reported as the hit |
| Scraper.SnippetOfMatch | data_engine/scraper.py:151-156 | for the first match the snippet is the slice from max(start - 300, 0) to min(end + 300, len(text)) |
| Scraper.UniversalScraper.FindNotification | data_engine/scraper.py:145-173 | returns the snippet of the first text match, else the result of the PDF scan |
| Scraper.UniversalScraper.ScanLinks | data_engine/scraper.py:158-173 | the loop over the links returns the PDF scan's result: the first mentioning PDF within budget, nothing past the budget or at the end, and a raising download as an error |
| GoogleSearch.Query | data_engine/google_search.py:7 | the query is "site:" + domain + " notifications" |
| GoogleSearch.FirstKeywordItem | data_engine/google_search.py:14-18 | the first item, in result order, whose lowered link holds "notification", "notice", "news" or "updates"; none when no link does |
| GoogleSearch.DomainFallback | data_engine/google_search.py:26 | the domain itself when it starts with "http", else "https://" + domain; always starts with "http" |
| GoogleSearch.TopUrl | data_engine/google_search.py:10-26 | a failed or non-200 reply falls back to the domain; else the first keyword link, else the first item's link, else (no items, or the first has no link) the domain fallback |
| GoogleSearch.TopUrlOrigin | data_engine/google_search.py:10-26 | the chosen URL is a link the search returned or the domain fallback |
| GoogleSearch.KeywordBeatsFirstResult | data_engine/google_search.py:14-21 | a keyword link wins over the first-result fallback |
| PdfHandler.DownloadPdf | data_engine/pdf_handler.py:5-10 | the body is returned exactly when the status is 200 |
| PdfHandler.NonEmptyPages | data_engine/pdf_handler.py:29 | pdfplumber keeps exactly the pages with non-empty text: a page text is kept if and only if some page has it and it is not empty |
| PdfHandler.NonEmptyPagesAppend | data_engine/pdf_handler.py:29 | the filter keeps document order and multiplicity: it distributes over concatenation |
| PdfHandler.ExtractText | data_engine/pdf_handler.py:12-33 | a raising GET propagates; the text is never empty; a failed download gives "Failed to download PDF."; non-empty PyMuPDF text is returned as is; the fallback is that of a pdfplumber given a file object (see Findings) |
| PdfHandler.FallbackRaiseIsReported | data_engine/pdf_handler.py:26-31 | when PyMuPDF gave nothing and pdfplumber raises, the result is "Failed to extract text from PDF." |
| PdfHandler.FallbackJoinsPages | data_engine/pdf_handler.py:26-29 | when PyMuPDF gave nothing and pdfplumber reads a page with text, the result is the non-empty pages joined by newlines |
| PdfHandler.ExtractTextAsWritten | data_engine/pdf_handler.py:26-31 | with the raw bytes handed to pdfplumber, every download PyMuPDF cannot read ends in "Failed to extract text from PDF."; otherwise the result is PyMuPDF's |
| PdfHandler.FallbackOnRawBytesFails | data_engine/pdf_handler.py:26-31 | a PDF only pdfplumber can read gives the failure message as written, and its text with a file object |
| PdfHandler.DownloadFailureSkipsExtraction | data_engine/pdf_handler.py:14-16 | a missing or empty download gives the failure message whatever the two extractors would do |
| PdfHandler.SecondMethodOnlyOnEmpty | data_engine/pdf_handler.py:20-29 | pdfplumber is consulted only when PyMuPDF gave empty text or raised |
| PdfHandler.BlankPagesSkipFallback | data_engine/pdf_handler.py:22-26 | two or more blank PyMuPDF pages join to non-empty text, so the fallback is skipped |
| PdfHandler.BlankPagesAllDropped | data_engine/pdf_handler.py:29 | pdfplumber drops every blank page |
| PdfHandler.BlankFallbackIsUnreadable | data_engine/pdf_handler.py:26-33 | when the fallback finds only blank pages the result is "No readable text found in PDF." |
| AiQuery.LineLength | data_engine/ai_query.py:25 | the length of the first line: no '\n' before it, and a '\n' at it when the text goes on |
| AiQuery.CloseOnLine | data_engine/ai_query.py:25 | the nearest '>' before the end of the line, as the lazy `.*?` finds it; none exactly when the line holds no '>' |
| AiQuery.QueryAi | data_engine/ai_query.py:17-31 | an "error" key gives "❌ Error: " + value; otherwise the result is the cleaned "response" ("" when missing), which has no same-line tag, is a subsequence of the raw reply and is stripped; non-JSON and request errors give their fixed messages; the copy in notproj/new3.py:31-49 is the same |
| AiQuery.OpenLineStaysOpen | data_engine/ai_query.py:25 | removing tags from a line without '>' leaves a line without '>' |
| AiQuery.StripTagsIsTagFree | data_engine/ai_query.py:25 | after the substitution no '<' has a '>' later on its line |
| AiQuery.StripTagsOfTagFree | data_engine/ai_query.py:25 | the substitution leaves tag-free text unchanged |
| AiQuery.CleanIsTagFree | data_engine/ai_query.py:24-25 | the cleaned answer holds no same-line `<…>` span |
| AiQuery.CleanIdempotent | data_engine/ai_query.py:24-25 | cleaning a cleaned answer changes nothing (likewise in notproj/new3.py:38-41) |
| AiQuery.StripIsSubsequence | data_engine/ai_query.py:24 | `strip()` only deletes characters |
| AiQuery.StripTagsIsSubsequence | data_engine/ai_query.py:25 | the substitution only deletes characters |
| AiQuery.CleanIsSubsequence | data_engine/ai_query.py:24-25 | the cleaned answer is a subsequence of the raw reply |
| AiQuery.StripTagsKeepsLineBreaks | data_engine/ai_query.py:25 | the substitution keeps every newline, so the text between tags on different lines survives |
| Tasks.TaskMessage | data_engine/tasks.py:19-46 | only a PDF download error crashes; a finished message is never empty; a non-empty snippet gives the stripped AI summary, or the "no specific update" message when that is blank; no match, an empty snippet or an empty PDF URL gives the "not fully available" message; a PDF gives the found-in-PDF message with its link |
| Tasks.NotAvailableKeepsActive | data_engine/tasks.py:46-53 | the "not fully available" message leaves the request active |
| Tasks.ConclusiveMessagesDeactivate | data_engine/tasks.py:41-53 | the "no specific update" and found-in-PDF messages switch the request off |
| Tasks.AiErrorDeactivates | data_engine/tasks.py:38-53 | an AI error message switches the request off too |
| Tasks.StaysActiveOnlyWhenInconclusive | data_engine/tasks.py:21-53 | a request stays active only when nothing was found, the snippet or PDF link was empty, or the AI summary itself starts with the "not fully available" text |
| Tasks.ScrapeNotification | data_engine/tasks.py:11-46 | the scrape task's result is the message for what the scraper located, and the table is that of the scraper's run |
| Tasks.RequestTable.Deactivate | data_engine/tasks.py:62-63 | switching a request off changes only its `active` flag |
| Tasks.MailFor | data_engine/tasks.py:54-61 | mail is sent exactly when the request has a user with an e-mail address, with the subject "Notification Found: " + name and the message as body |
| Tasks.MailOf | data_engine/tasks.py:53-61 | at most one mail per request, and one exactly when the result switches it off and the user has an address |
| Tasks.MailsAreForClosedRequests | data_engine/tasks.py:53-61 | every mail sent belongs to a request that was switched off, to its user's address |
| Tasks.HandleRequest | data_engine/tasks.py:52-63 | an active request is scraped, switched off when the result is conclusive and mailed; an inactive one is skipped and unchanged |
| Tasks.StepIsActiveOnly | data_engine/tasks.py:51-52 | only active requests are scraped |
| Tasks.RunLength | data_engine/tasks.py:50-63 | the run visits at most every request, and stops early only at a crash |
| Tasks.RunAt | data_engine/tasks.py:51-63 | the k-th request is scraped exactly when active, and no request before the last one crashed |
| Tasks.RunShapeOf | data_engine/tasks.py:51-63 | the shape of a run over any active-only step: length, which requests are scraped, where a crash may sit |
| Tasks.RunShape | data_engine/tasks.py:51-63 | the same for the scrape task's own step |
| Tasks.HandledStep | data_engine/tasks.py:51-63 | one loop step keeps the loop invariant, or completes a crashed run |
| Tasks.HandledFinish | data_engine/tasks.py:51-63 | the invariant at the end of the loop is the result of the run |
| Tasks.HandleNext | data_engine/tasks.py:52-63 | handling the next request keeps the loop invariant, or ends the run at a crash |
| Tasks.HandleAll | data_engine/tasks.py:51-63 | the loop's rows, table, results and mails are those of the run |
| Tasks.CheckScheduledRequests | data_engine/tasks.py:48-63 | without a crash every row is its handled self and the table has advanced through the run; a crash rolls rows and table back; the mails are those of the requests handled |
| GoogleSearchSpider.StartUrl | notproj/google_search1.py:15-16 | the search prefix, then the query and " notification" with every space turned into '+' |
| GoogleSearchSpider.StartUrlShape | notproj/google_search1.py:15-16 | the start URL has no space and ends with "+notification" |
| GoogleSearchSpider.Spider.constructor | notproj/google_search1.py:12-17 | a new spider has the one start URL and no results |
| GoogleSearchSpider.Spider.Parse | notproj/google_search1.py:19-27 | the page's kept results are appended in page order |
| GoogleSearchSpider.KeptAppend | notproj/google_search1.py:21-27 | keeping results commutes with concatenating pages, so page order is kept |
| GoogleSearchSpider.KeptSound | notproj/google_search1.py:21-27 | every kept result comes from a block that passes the filter |
| GoogleSearchSpider.KeptComplete | notproj/google_search1.py:21-27 | every block that passes the filter is kept |
| GoogleSearchSpider.KeptAreGenuine | notproj/google_search1.py:22-26 | a kept result has a title and a link, and the link is not an ad or a Google redirect |
| GoogleSearchSpider.SearchResults | notproj/google_search1.py:42-56 | a crawl that raised gives no results, and so does a crawl with no search spider |
| GoogleSearchSpider.FirstSearchResults | notproj/google_search1.py:52-56 | the results of the first search spider listed |
| LegacyRecords.NotificationTable.Create | notproj/scraper.py:44 | creating a notification appends exactly that row |
| LegacyRecords.Filter | notproj/scraper.py:55 | the kept elements satisfy the predicate and come from the input; nothing is kept exactly when no element satisfies it |
| LegacyRecords.FilterComplete | notproj/scraper.py:55 | every element satisfying the predicate is kept |
| LegacyRecords.FilterAppend | notproj/scraper.py:55-56 | filtering keeps order and multiplicity: it distributes over concatenation, so the zip pairs by the links' original order |
| LegacyRecords.Take | notproj/scraper2.py:58 | `s[:n]` is the first min(n, len) elements |
| LegacyRecords.SaveAll | notproj/scraper.py:26-45 | the loop appends the rows of the items in order up to a raise, counts them, and reports whether it raised |
| LegacyRecords.SavedEach | notproj/scraper.py:27-45 | without a raise one row per item, each the item's row |
| LegacyRecords.SavedUpToRaise | notproj/scraper.py:27-45 | a raise at item j leaves exactly the rows of the items before it |
| LegacyRecords.SavedMessageCount | notproj/scraper.py:47 | the count message determines the count |
| LegacyRecords.DaysIn | notproj/scraper.py:72 | a month has 28 to 31 days |
| LegacyRecords.DigitsValueOfDigits | notproj/scraper.py:72 | reading `n` written with w digits gives n modulo 10^w |
| LegacyRecords.DigitsOfValue | notproj/scraper.py:72 | writing a digit string's value back with its width gives the string |
| LegacyRecords.ParseYmd8 | notproj/scraper.py:72 | an eight-digit date that parses is a real calendar day |
| LegacyRecords.YmdRoundTrip | notproj/scraper.py:72 | parsing the `'%Y%m%d'` form of a real day gives that day |
| LegacyRecords.YmdParsedFormats | notproj/scraper.py:72 | a parsed eight-digit date formats back to the same digits |
| LegacyScraper.CusRecord | notproj/scraper.py:28-41 | a row raises without three cells or with a titled link lacking an href; the date is read from the second cell; a titled link gives its title and joined href, else the first cell and the base URL |
| LegacyScraper.NtaPairs | notproj/scraper.py:54-56 | the zipped pairs after the first two, at most twenty, in order |
| LegacyScraper.FilenameDateText | notproj/scraper.py:67-71 | date text exists exactly when a '_' and a case-insensitive ".pdf" exist with ".pdf" after the '_'; it is the first eight characters between them |
| LegacyScraper.BlankHrefHasNoDate | notproj/scraper.py:61-65 | a blank href gives an empty URL and no date |
| LegacyScraper.FilenameDateIsExact | notproj/scraper.py:64-74 | a date read from a file name is a real day written there exactly |
| LegacyScraper.NtaSavedRows | notproj/scraper.py:58-81 | the NTA loop saves one row per kept pair, in order |
| LegacyScraper.Texts | notproj/scraper.py:60 | the titles' texts, in order |
| LegacyScraper.Scrap | notproj/scraper.py:8-83 | the Cluster University URL saves a row per table row (raising on a bad row), the NTA URL a row per kept pair; other URLs save nothing and return None; the message reports the rows saved |
| LegacyScraper1.RealCusUrlMissesBranch | notproj/scraper1.py:12 | the branch's URL lacks the final 'l', so the real Cluster University URL takes neither branch |
| LegacyScraper1.CusRecord | notproj/scraper1.py:34-36 | a titled anchor without an href raises; else the href is appended to the base URL by plain concatenation |
| LegacyScraper1.NtaRecord | notproj/scraper1.py:54-61 | the title is the item's text; the URL is the first anchor's href joined to the base, or empty when the item has no anchor with an href |
| LegacyScraper1.Scrap | notproj/scraper1.py:6-69 | the truncated URL saves a row per titled anchor, the NTA URL one per element of the first twenty; any other URL saves nothing and reports 0 |
| LegacyScraper2.CusRecord | notproj/scraper2.py:27-37 | the title and joined href of the anchor; a date only from a non-empty `data-published` value |
| LegacyScraper2.ChosenLinksArePdfsOrAll | notproj/scraper2.py:51-56 | when any href ends in ".pdf" only those links are used, otherwise all links |
| LegacyScraper2.PdfLinksAreChosen | notproj/scraper2.py:51 | every PDF link is used |
| LegacyScraper2.NtaRecord | notproj/scraper2.py:61-72 | the URL is the joined href (empty for a blank href); an empty text falls back to `Basename` of the URL, the part after its last '/' |
| LegacyScraper2.BlankLinkIsEmpty | notproj/scraper2.py:63-72 | a link with no text and a blank href gives an empty title and URL |
| LegacyScraper2.Scrap | notproj/scraper2.py:8-80 | the Cluster University URL saves a row per titled anchor, the NTA URL one per link of the first twenty chosen; other URLs return None |
| PopulatePages.SeedsAreDistinct | populate_notification_pages.py:13-19 | the seeded domains are pairwise different |
| Stores.PageMappings.GetOrCreate | populate_notification_pages.py:23-26 | a mapping is created exactly when the domain is absent, and an existing one is kept |
| PopulatePages.PopulateMappings | populate_notification_pages.py:21-30 | the table after the loop is the seeded table, and "created" holds exactly for the domains absent before |
| PopulatePages.SeededKeys | populate_notification_pages.py:21-26 | the keys after seeding are the old keys plus the seeded domains; an existing mapping keeps its page |
| PopulatePages.SeedingCoversAndKeeps | populate_notification_pages.py:21-26 | every seeded domain is mapped afterwards and no existing mapping is overwritten |
| PopulatePages.SeedingLeavesOthers | populate_notification_pages.py:21-26 | a domain outside the list is untouched |
| PopulatePages.SeededOfCovered | populate_notification_pages.py:21-26 | once every seeded domain is mapped, seeding changes nothing |
| PopulatePages.SeedingIsIdempotent | populate_notification_pages.py:21-30 | a second run leaves the table as the first left it |
| Views.BaseUrl | notproj/modelsd_e1.py:11-14 | the host of the URL, or "Unknown"; never empty |
| Views.OfKey | pages/views.py:11-13 | a group holds at most the notifications queried |
| Views.OfKeyMembers | pages/views.py:12-13 | a notification is in a group exactly when it was queried and its host is the group's key |
| Views.OfKeyNonEmpty | pages/views.py:11-13 | a key's group is non-empty exactly when some notification has that host |
| Views.OfKeyNewestFirst | pages/views.py:10-13 | each group keeps the query's newest-first order |
| Views.LexIrreflexive | pages/views.py:15 | no key sorts before itself |
| Views.LexTransitive | pages/views.py:15 | the key order is transitive |
| Views.LexTotal | pages/views.py:15 | of two different keys one sorts first |
| Views.OfKeySnoc | pages/views.py:12-13 | appending a notification extends only its host's group |
| Views.GroupedStep | pages/views.py:12-13 | one append keeps every group equal to its key's notifications |
| Views.GroupByHost | pages/views.py:11-13 | the groups are exactly the hosts present, each holding that host's notifications in query order |
| Views.Insert | pages/views.py:15 | inserting a new key keeps the groups strictly sorted and adds exactly that group |
| Views.SortGroups | pages/views.py:15 | the groups as a strictly sorted sequence, with nothing lost or added |
| Views.Notifications | pages/views.py:9-18 | the view's groups are strictly sorted by key, each non-empty and holding its host's notifications, and every notification's host has a group |
| Views.SizeSumSnoc | pages/views.py:11-13 | appending a notification grows the total by the number of groups with its host |
| Views.OccursOnce | pages/views.py:15 | in strictly sorted groups a key occurs at most once |
| Views.SizesAddUp | pages/views.py:11-15 | sorted groups covering every host have sizes summing to the number of notifications |
| Views.ZeroSizes | pages/views.py:11-15 | with no notifications every group is empty |
| Views.GroupSizesSum | pages/views.py:11-15 | the group sizes of the view sum to the number of notifications, so each appears in exactly one group |

## Left out

- Fetcher internals (requests, Playwright, Scrapy `CrawlerProcess`, lines 49-95 of data_engine/scraper.py) are two oracles per (tool, URL): success with a page, and what a failure had assigned before raising. Only their effect on `text` and `pdfs` is modelled.
- HTML parsing (BeautifulSoup selectors) is replaced by the parsed page: rows, anchors, title elements and result blocks are given as values.
- `str.lower()` is ASCII-only and keeps the length, so offsets found in the lowered text apply to the original. Unicode case mapping is not modelled.
- `urlparse` is modelled as the scheme rule plus the netloc up to the first '/', '?' or '#'. The stripping of control characters and the IPv6 bracket check are not modelled. `urljoin` is an oracle.
- `strptime` with `'%d-%B-%Y'` and `'%Y-%m-%d %H:%M:%S'` is an oracle. Only `'%Y%m%d'` on eight ASCII digits is modelled exactly; any other input to it goes to the oracle.
- `time.time()` is a sequence of clock readings given as a parameter.
- The AI call is an oracle from (domain, name, snippet) to the reply. The prompt's wording is not modelled.
- `send_mail` is modelled as a returned list of mails. Mail delivery failures (`fail_silently=True`) are not modelled.
- `transaction.atomic` is modelled as the rollback of every row and of the tool table on a crash. `select_for_update` and the concurrency of Celery workers are not modelled.
- The Scrapy reactor and crochet's timeout in notproj/google_search1.py are modelled as a crawl that raised, or that finished with a given crawler list.
- Network exceptions of the older `scrap` functions' own requests are not modelled. Their loops raise only on a missing cell, title or href.
- Python's `sorted` is modelled by insertion into a strictly sorted sequence. Only the result (sorted, same groups) is claimed.
- notproj/models.py is not part of this model. `base_url` is taken from notproj/modelsd_e1.py.
- notproj/cron.py, notproj/new.py, notproj/new2.py and notproj/new4.py are left out. They are scratch scripts and a superseded scheduler.
- The management commands and `scrape_data` are left out; they are plumbing around `scrap`.
- The Django model, admin, form and URL declarations are left out; they hold no logic.
- Tasks.CheckScheduledRequests: one world (`Web`) serves the whole batch, so two requests for the same URL see the same fetch outcome, PDFs and clock readings; in the source each `scrape_notification` call goes to the network afresh.

## Findings

| source | as written | input that shows it | evidently intended | confidence | as-written member | corrected member |
|---|---|---|---|---|---|---|
| data_engine/pdf_handler.py:28 | `pdfplumber.open(pdf_data)` is given the downloaded `bytes`; pdfplumber opens a path or a file object, and its parser seeks in the stream, so opening raises and the fallback always reports "Failed to extract text from PDF." | a 200 reply whose PDF PyMuPDF cannot read but pdfplumber can, with the page text "Admit card released" | open the bytes through a file object (`io.BytesIO(pdf_data)`), so the fallback returns the readable pages joined by newlines | medium; not executed | PdfHandler.ExtractTextAsWritten, PdfHandler.FallbackOnRawBytesFails | PdfHandler.ExtractText, PdfHandler.FallbackJoinsPages |
