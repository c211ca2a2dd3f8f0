/**
 * The two background jobs: `scrape_notification` (scrape, locate, and turn
 * the outcome into a message, summarised by the AI when a text snippet was
 * found) and `check_scheduled_requests` (run every active request in one
 * database transaction, mail the user and deactivate the request once a
 * conclusive message comes back).
 */
module Tasks {
  import opened Options
  import opened Text
  import opened Stores
  import opened Scraper
  import AiQuery

  /** The AI's reply to the prompt built from the input, the notification name and the snippet. */
  type AiOracle = (string, string, string) -> AiQuery.AiReply

  /** What `scrape_notification` gives back: a message, or the PDF download's exception. */
  datatype TaskResult = Done(message: string) | Crashed

  const NoUpdateMessage := "\U{1F4E2} No specific update found yet, " + "but our system is monitoring it for you!"
  const PdfFoundPrefix := "\U{2705} Notification found inside PDF.\n\n" + "\U{1F517} PDF Link: "
  /** The start of the message that leaves a request active. */
  const NotAvailablePrefix := "\U{1F4E2} Notification not fully available yet"
  const NotAvailableMessage := NotAvailablePrefix + ", but monitoring has started."

  /** The AI's summary of a snippet: the reply as `query_ai` reports it, stripped. */
  function Summary(domainOrUrl: string, name: string, snippet: string, ai: AiOracle): string {
    Strip(AiQuery.QueryAi(ai(domainOrUrl, name, snippet)))
  }

  /**
   * The message for a located outcome: a non-empty snippet is summarised
   * (a blank summary becomes the no-update message); a PDF URL is reported
   * with its link; anything else is "not fully available". The result is
   * never an empty message.
   */
  function TaskMessage(domainOrUrl: string, name: string, located: Located, ai: AiOracle): (r: TaskResult)
    ensures r.Crashed? <==> located.PdfError?
    ensures r.Done? ==> r.message != ""
    ensures located.NotFound? || located == Snippet("") || located == InPdf("") ==> r == Done(NotAvailableMessage)
    ensures located.Snippet? && located.snippet != "" && Summary(domainOrUrl, name, located.snippet, ai) != "" ==>
      r == Done(Summary(domainOrUrl, name, located.snippet, ai))
    ensures located.Snippet? && located.snippet != "" && Summary(domainOrUrl, name, located.snippet, ai) == "" ==>
      r == Done(NoUpdateMessage)
    ensures located.InPdf? && located.url != "" ==> r == Done(PdfFoundPrefix + located.url)
  {
    match located
    case PdfError => Crashed
    case Snippet(s) =>
      if s != "" then
        var summary := Summary(domainOrUrl, name, s, ai);
        Done(if summary != "" then summary else NoUpdateMessage)
      else Done(NotAvailableMessage)
    case InPdf(u) => Done(if u != "" then PdfFoundPrefix + u else NotAvailableMessage)
    case NotFound => Done(NotAvailableMessage)
  }

  /** `scrape_notification` on a store and a world: scrape with a fresh scraper, then report. */
  function TaskOutcome(tools: map<string, string>, pages: map<string, string>, domainOrUrl: string, name: string,
                       web: Web, ai: AiOracle): TaskResult {
    TaskMessage(domainOrUrl, name, ScrapeOutcome(tools, pages, domainOrUrl, name, web), ai)
  }

  /** A message that ends monitoring: non-empty and not the "not fully available" one. */
  predicate Deactivates(res: string) {
    res != "" && !StartsWith(res, NotAvailablePrefix)
  }

  /** The "not fully available" message keeps a request active. */
  lemma NotAvailableKeepsActive()
    ensures !Deactivates(NotAvailableMessage)
  {
    assert NotAvailableMessage[..|NotAvailablePrefix|] == NotAvailablePrefix;
  }

  /** The no-update message and every PDF report end monitoring. */
  lemma ConclusiveMessagesDeactivate(url: string)
    ensures Deactivates(NoUpdateMessage)
    ensures Deactivates(PdfFoundPrefix + url)
  {
    assert NoUpdateMessage[4] == ' ' && NotAvailablePrefix[4] == 't';
    assert (PdfFoundPrefix + url)[0] == '\U{2705}' && NotAvailablePrefix[0] == '\U{1F4E2}';
  }

  /**
   * An error reported by the AI service is taken as a summary: it starts
   * with the error mark, so the request is deactivated and the error is
   * what the user is mailed.
   */
  lemma AiErrorDeactivates(domainOrUrl: string, name: string, snippet: string, ai: AiOracle, e: string)
    requires snippet != ""
    requires ai(domainOrUrl, name, snippet) == AiQuery.Json(Some(e), None)
    ensures var r := TaskMessage(domainOrUrl, name, Snippet(snippet), ai);
      r.Done? && Deactivates(r.message) && r.message[0] == '\U{274C}'
  {
    var raw := AiQuery.ErrorPrefix + e;
    assert AiQuery.QueryAi(ai(domainOrUrl, name, snippet)) == raw;
    assert !IsSpace(raw[0]);
    assert TrimLeft(raw) == raw;
    assert LeadingSpaces(raw) == 0;
    var s := Strip(raw);
    assert s != [];
    assert s[0] == raw[0] == '\U{274C}';
    assert NotAvailablePrefix[0] == '\U{1F4E2}';
  }

  /**
   * A request stays active only when nothing was found, when the snippet
   * or PDF URL is empty, or when the AI's own summary happens to start with
   * the "not fully available" words.
   */
  lemma StaysActiveOnlyWhenInconclusive(domainOrUrl: string, name: string, located: Located, ai: AiOracle)
    requires TaskMessage(domainOrUrl, name, located, ai).Done?
    requires !Deactivates(TaskMessage(domainOrUrl, name, located, ai).message)
    ensures located == NotFound || located == Snippet("") || located == InPdf("") ||
            (located.Snippet? && StartsWith(Summary(domainOrUrl, name, located.snippet, ai), NotAvailablePrefix))
  {
    match located
    case Snippet(s) =>
      if s != "" && Summary(domainOrUrl, name, s, ai) == "" {
        ConclusiveMessagesDeactivate("");
      }
    case InPdf(u) =>
      ConclusiveMessagesDeactivate(u);
    case NotFound =>
    case PdfError =>
  }

  /**
   * `scrape_notification`: a fresh scraper runs, looks for the name, and
   * the outcome becomes the message; the only lasting effect is on the
   * `ScraperChoice` table.
   */
  method ScrapeNotification(domainOrUrl: string, name: string, store: ScraperChoices, mappings: PageMappings,
                            web: Web, ai: AiOracle) returns (res: TaskResult)
    modifies store
    ensures res == TaskOutcome(old(store.tools), mappings.pages, domainOrUrl, name, web, ai)
    ensures store.tools == NextTools(old(store.tools), ResolveTarget(domainOrUrl, mappings.pages, web.search), web.fetch)
  {
    var scraper := new UniversalScraper(domainOrUrl, Some(name));
    var _, _ := scraper.RunScraper(store, mappings, web);
    var located := scraper.FindNotification(name, web.pdf, web.clock);
    res := TaskMessage(domainOrUrl, name, located, ai);
  }

  /** A user account; only the e-mail address matters here. */
  datatype User = User(email: string)

  /** A `ScheduledNotificationRequest` row: what to watch, for whom, and whether it is still watched. */
  datatype Request = Request(domainOrUrl: string, notificationName: string, user: Option<User>, active: bool)

  /** The `ScheduledNotificationRequest` table, its rows in the order the query returns them. */
  class RequestTable {
    var rows: seq<Request>

    constructor (initial: seq<Request>)
      ensures rows == initial
    {
      rows := initial;
    }

    /** `req.active = False; req.save()` on the `i`-th row. */
    method Deactivate(i: nat)
      requires i < |rows|
      modifies this
      ensures rows == old(rows)[i := old(rows)[i].(active := false)]
    {
      rows := rows[i := rows[i].(active := false)];
    }
  }

  /** A mail handed to `send_mail`. */
  datatype Mail = Mail(subject: string, body: string, recipient: string)

  /** The mail for a conclusive message: sent only to a user with a non-empty address. */
  function MailFor(req: Request, message: string): (r: Option<Mail>)
    ensures r.Some? <==> req.user.Some? && req.user.value.email != ""
    ensures r.Some? ==> r.value.body == message && r.value.recipient == req.user.value.email
    ensures r.Some? ==> r.value.subject == "Notification Found: " + req.notificationName
  {
    if req.user.Some? && req.user.value.email != "" then
      Some(Mail("Notification Found: " + req.notificationName, message, req.user.value.email))
    else None
  }

  /** A request's result ends its monitoring. */
  predicate Closes(r: Option<TaskResult>) {
    r.Some? && r.value.Done? && Deactivates(r.value.message)
  }

  /** The run ended with a scrape that raised. */
  predicate CrashedRun(results: seq<Option<TaskResult>>) {
    results != [] && results[|results| - 1] == Some(Crashed)
  }

  /** The mail sent for one request's result: one when it closes the request and the user has an address. */
  function MailOf(req: Request, r: Option<TaskResult>): (m: seq<Mail>)
    ensures |m| <= 1
    ensures m != [] <==> Closes(r) && MailFor(req, r.value.message).Some?
  {
    if Closes(r) then
      match MailFor(req, r.value.message)
      case Some(mail) => [mail]
      case None => []
    else []
  }

  /** The mails sent for the requests handled, in order. */
  function MailsFor(reqs: seq<Request>, results: seq<Option<TaskResult>>): seq<Mail>
    requires |reqs| == |results|
  {
    if reqs == [] then []
    else
      var n := |reqs| - 1;
      MailsFor(reqs[..n], results[..n]) + MailOf(reqs[n], results[n])
  }

  /**
   * Every mail sent goes to the user of a request whose result closed it,
   * with that result as its body and the request's name in its subject.
   */
  lemma {:induction false} MailsAreForClosedRequests(reqs: seq<Request>, results: seq<Option<TaskResult>>, m: Mail)
    requires |reqs| == |results|
    requires m in MailsFor(reqs, results)
    ensures exists k :: 0 <= k < |reqs| && Closes(results[k]) && reqs[k].user.Some? &&
                        m == Mail("Notification Found: " + reqs[k].notificationName, results[k].value.message, reqs[k].user.value.email)
    decreases |reqs|
  {
    var n := |reqs| - 1;
    if m in MailsFor(reqs[..n], results[..n]) {
      MailsAreForClosedRequests(reqs[..n], results[..n], m);
      var k :| 0 <= k < n && Closes(results[..n][k]) && reqs[..n][k].user.Some? &&
               m == Mail("Notification Found: " + reqs[..n][k].notificationName, results[..n][k].value.message,
                  reqs[..n][k].user.value.email);
      assert reqs[..n][k] == reqs[k] && results[..n][k] == results[k];
    } else {
      assert m in MailOf(reqs[n], results[n]);
    }
  }

  /** The row once its result is known: a closing result deactivates it. */
  function Handled(req: Request, r: Option<TaskResult>): Request {
    req.(active := req.active && !Closes(r))
  }

  /** What one request yields: the scrape task's result when it is active, nothing otherwise. */
  function RequestResult(tools: map<string, string>, req: Request, pages: map<string, string>,
                         web: Web, ai: AiOracle): Option<TaskResult> {
    if req.active then Some(TaskOutcome(tools, pages, req.domainOrUrl, req.notificationName, web, ai)) else None
  }

  /** The `ScraperChoice` table after one request. */
  function ToolsAfter(tools: map<string, string>, req: Request, pages: map<string, string>, web: Web): map<string, string> {
    if req.active then NextTools(tools, ResolveTarget(req.domainOrUrl, pages, web.search), web.fetch) else tools
  }

  /**
   * One pass of the loop in `check_scheduled_requests` on the `i`-th row:
   * an active request is scraped; a conclusive message is mailed to its
   * user and deactivates the row.
   */
  method HandleRequest(table: RequestTable, i: nat, store: ScraperChoices, mappings: PageMappings, web: Web, ai: AiOracle)
    returns (result: Option<TaskResult>, sent: seq<Mail>)
    requires i < |table.rows|
    modifies table, store
    ensures result == RequestResult(old(store.tools), old(table.rows[i]), mappings.pages, web, ai)
    ensures store.tools == ToolsAfter(old(store.tools), old(table.rows[i]), mappings.pages, web)
    ensures table.rows == old(table.rows)[i := Handled(old(table.rows[i]), result)]
    ensures sent == MailOf(old(table.rows[i]), result)
  {
    var req := table.rows[i];
    if !req.active {
      return None, [];
    }
    var res := ScrapeNotification(req.domainOrUrl, req.notificationName, store, mappings, web, ai);
    result, sent := Some(res), [];
    if res.Done? && Deactivates(res.message) {
      var mail := MailFor(req, res.message);
      if mail.Some? {
        sent := [mail.value];
      }
      table.Deactivate(i);
    }
  }

  /** What handling a request yields, as a function of the `ScraperChoice` table and the request. */
  type Step = (map<string, string>, Request) -> Option<TaskResult>

  /** The `ScraperChoice` table after handling a request, as a function of the table before and the request. */
  type Advance = (map<string, string>, Request) -> map<string, string>

  /** The step of `check_scheduled_requests` in a given world. */
  function StepOf(pages: map<string, string>, web: Web, ai: AiOracle): Step {
    (tools: map<string, string>, req: Request) => RequestResult(tools, req, pages, web, ai)
  }

  /** How the `ScraperChoice` table evolves in a given world. */
  function AdvanceOf(pages: map<string, string>, web: Web): Advance {
    (tools: map<string, string>, req: Request) => ToolsAfter(tools, req, pages, web)
  }

  /** A step yields a result exactly for an active request. */
  ghost predicate ActiveOnly(step: Step) {
    forall tools, req :: step(tools, req).Some? <==> req.active
  }

  lemma StepIsActiveOnly(pages: map<string, string>, web: Web, ai: AiOracle)
    ensures ActiveOnly(StepOf(pages, web, ai))
  {
  }

  /** Applying the world's step and advance is handling the request there. */
  lemma StepOfApplied(pages: map<string, string>, web: Web, ai: AiOracle, tools: map<string, string>, req: Request)
    ensures StepOf(pages, web, ai)(tools, req) == RequestResult(tools, req, pages, web, ai)
    ensures AdvanceOf(pages, web)(tools, req) == ToolsAfter(tools, req, pages, web)
  {
  }

  /**
   * The results of handling the requests from the `i`-th on, in order, from
   * the table `tools`, up to and including the first scrape that raises.
   */
  function Run(reqs: seq<Request>, i: nat, tools: map<string, string>, step: Step, advance: Advance)
    : seq<Option<TaskResult>>
    requires i <= |reqs|
    decreases |reqs| - i
  {
    if i == |reqs| then []
    else
      var first := step(tools, reqs[i]);
      if first == Some(Crashed) then [first]
      else [first] + Run(reqs, i + 1, advance(tools, reqs[i]), step, advance)
  }

  /** A run yields at most one result per request, and stops early only on a crash. */
  lemma {:induction false} RunLength(reqs: seq<Request>, i: nat, tools: map<string, string>, step: Step, advance: Advance)
    requires i <= |reqs|
    ensures var r := Run(reqs, i, tools, step, advance);
      |r| <= |reqs| - i && (|r| < |reqs| - i ==> r != [] && r[|r| - 1] == Some(Crashed))
    decreases |reqs| - i
  {
    if i < |reqs| {
      var first := step(tools, reqs[i]);
      if first != Some(Crashed) {
        var next := advance(tools, reqs[i]);
        RunLength(reqs, i + 1, next, step, advance);
        var rest := Run(reqs, i + 1, next, step, advance);
        assert Run(reqs, i, tools, step, advance) == [first] + rest;
        if rest != [] {
          assert ([first] + rest)[|rest|] == rest[|rest| - 1];
        }
      }
    }
  }

  /** The `k`-th result of a run is present exactly when the `k`-th request is active, and no crash unless it is the last. */
  lemma {:induction false} RunAt(reqs: seq<Request>, i: nat, tools: map<string, string>, step: Step, advance: Advance,
                                 k: nat)
    requires ActiveOnly(step)
    requires i <= |reqs| && k < |Run(reqs, i, tools, step, advance)|
    ensures i + k < |reqs|
    ensures Run(reqs, i, tools, step, advance)[k].Some? <==> reqs[i + k].active
    ensures k < |Run(reqs, i, tools, step, advance)| - 1 ==> Run(reqs, i, tools, step, advance)[k] != Some(Crashed)
    decreases k
  {
    var first := step(tools, reqs[i]);
    if k > 0 {
      var next := advance(tools, reqs[i]);
      var rest := Run(reqs, i + 1, next, step, advance);
      assert Run(reqs, i, tools, step, advance) == [first] + rest;
      RunAt(reqs, i + 1, next, step, advance, k - 1);
    }
  }

  /**
   * The shape of a run: at most one result per request, in order; only
   * the last result can be a crash, and the run ends early only on one;
   * with a step that yields a result exactly for an active request, the
   * results present are those of the active requests.
   */
  lemma RunShapeOf(reqs: seq<Request>, i: nat, tools: map<string, string>, step: Step, advance: Advance)
    requires i <= |reqs| && ActiveOnly(step)
    ensures var r := Run(reqs, i, tools, step, advance);
      |r| <= |reqs| - i &&
      (forall k :: 0 <= k < |r| ==> (r[k].Some? <==> reqs[i + k].active)) &&
      (forall k :: 0 <= k < |r| - 1 ==> r[k] != Some(Crashed)) &&
      (|r| < |reqs| - i ==> r != [] && r[|r| - 1] == Some(Crashed))
  {
    var r := Run(reqs, i, tools, step, advance);
    RunLength(reqs, i, tools, step, advance);
    forall k | 0 <= k < |r|
      ensures i + k < |reqs| && (r[k].Some? <==> reqs[i + k].active) && (k < |r| - 1 ==> r[k] != Some(Crashed))
    {
      RunAt(reqs, i, tools, step, advance, k);
    }
  }

  /**
   * The shape of a run of `check_scheduled_requests`: an inactive request
   * yields nothing and an active one a result, in order, and the run stops
   * early only on a scrape that raises.
   */
  lemma RunShape(reqs: seq<Request>, i: nat, tools: map<string, string>,
                 pages: map<string, string>, web: Web, ai: AiOracle)
    requires i <= |reqs|
    ensures var r := Run(reqs, i, tools, StepOf(pages, web, ai), AdvanceOf(pages, web));
      |r| <= |reqs| - i &&
      (forall k :: 0 <= k < |r| ==> (r[k].Some? <==> reqs[i + k].active)) &&
      (forall k :: 0 <= k < |r| - 1 ==> r[k] != Some(Crashed)) &&
      (|r| < |reqs| - i ==> r != [] && r[|r| - 1] == Some(Crashed))
  {
    StepIsActiveOnly(pages, web, ai);
    RunShapeOf(reqs, i, tools, StepOf(pages, web, ai), AdvanceOf(pages, web));
  }

  /** The `ScraperChoice` table once the requests from the `i`-th on have been handled from `tools`. */
  function FinalTools(reqs: seq<Request>, i: nat, tools: map<string, string>, advance: Advance): map<string, string>
    requires i <= |reqs|
    decreases |reqs| - i
  {
    if i == |reqs| then tools
    else FinalTools(reqs, i + 1, advance(tools, reqs[i]), advance)
  }

  /** Sequence concatenation is associative. */
  lemma AppendAssoc<T>(a: seq<T>, b: seq<T>, c: seq<T>)
    ensures (a + b) + c == a + (b + c)
  {
  }

  /** The mails for one more handled request follow those before it. */
  lemma MailsForSnoc(reqs: seq<Request>, results: seq<Option<TaskResult>>, req: Request, r: Option<TaskResult>)
    requires |reqs| == |results|
    ensures MailsFor(reqs + [req], results + [r]) == MailsFor(reqs, results) + MailOf(req, r)
  {
    assert (reqs + [req])[..|reqs|] == reqs;
    assert (results + [r])[..|results|] == results;
  }

  /**
   * Where the loop of `check_scheduled_requests` stands after the first `i`
   * requests of `rows0`, started from the table `tools0`: `rows` and
   * `tools` are the two tables now, `results` and `mails` what was
   * produced so far, and no scrape has raised yet.
   */
  ghost predicate HandledUpTo(rows0: seq<Request>, tools0: map<string, string>, step: Step, advance: Advance, i: nat,
                              rows: seq<Request>, tools: map<string, string>,
                              results: seq<Option<TaskResult>>, mails: seq<Mail>)
  {
    |rows| == |rows0| && i <= |rows0| && |results| == i &&
    results + Run(rows0, i, tools, step, advance) == Run(rows0, 0, tools0, step, advance) &&
    FinalTools(rows0, i, tools, advance) == FinalTools(rows0, 0, tools0, advance) &&
    (forall k :: 0 <= k < i ==> results[k] != Some(Crashed)) &&
    (forall k :: 0 <= k < i ==> rows[k] == Handled(rows0[k], results[k])) &&
    (forall k :: i <= k < |rows0| ==> rows[k] == rows0[k]) &&
    mails == MailsFor(rows0[..i], results)
  }

  /**
   * What the loop of `check_scheduled_requests` has done once it stops,
   * from the rows `rows0` and the table `tools0`: its results are the run's;
   * unless the run crashed, every request was handled and the
   * `ScraperChoice` table is the run's final one.
   */
  ghost predicate RunResult(rows0: seq<Request>, tools0: map<string, string>, step: Step, advance: Advance,
                            rows: seq<Request>, tools: map<string, string>,
                            results: seq<Option<TaskResult>>, mails: seq<Mail>)
  {
    results == Run(rows0, 0, tools0, step, advance) && |rows| == |rows0| && |results| <= |rows| &&
    (!CrashedRun(results) ==>
      |results| == |rows| && tools == FinalTools(rows0, 0, tools0, advance) &&
      forall k :: 0 <= k < |rows| ==> rows[k] == Handled(rows0[k], results[k])) &&
    mails == MailsFor(rows0[..|results|], results)
  }

  /** Handling the next request either ends the run with a crash or moves the loop one request on. */
  lemma HandledStep(rows0: seq<Request>, tools0: map<string, string>, step: Step, advance: Advance, i: nat,
                    rows: seq<Request>, tools: map<string, string>, results: seq<Option<TaskResult>>, mails: seq<Mail>,
                    result: Option<TaskResult>, rows': seq<Request>, tools': map<string, string>, sent: seq<Mail>)
    requires HandledUpTo(rows0, tools0, step, advance, i, rows, tools, results, mails) && i < |rows0|
    requires result == step(tools, rows[i]) && sent == MailOf(rows[i], result)
    requires rows' == rows[i := Handled(rows[i], result)] && tools' == advance(tools, rows[i])
    ensures result == Some(Crashed) ==> RunResult(rows0, tools0, step, advance, rows', tools', results + [result], mails + sent)
    ensures result != Some(Crashed) ==>
      HandledUpTo(rows0, tools0, step, advance, i + 1, rows', tools', results + [result], mails + sent)
  {
    var req := rows[i];
    assert rows0[..i + 1] == rows0[..i] + [req];
    MailsForSnoc(rows0[..i], results, req, result);
    if result == Some(Crashed) {
      assert Run(rows0, i, tools, step, advance) == [result];
    } else {
      var rest := Run(rows0, i + 1, tools', step, advance);
      assert Run(rows0, i, tools, step, advance) == [result] + rest;
      AppendAssoc(results, [result], rest);
    }
  }

  /** A loop that went through every request has completed the run. */
  lemma HandledFinish(rows0: seq<Request>, tools0: map<string, string>, step: Step, advance: Advance,
                      rows: seq<Request>, tools: map<string, string>, results: seq<Option<TaskResult>>, mails: seq<Mail>)
    requires HandledUpTo(rows0, tools0, step, advance, |rows0|, rows, tools, results, mails)
    ensures RunResult(rows0, tools0, step, advance, rows, tools, results, mails)
  {
    assert rows0[..|rows0|] == rows0;
    assert results + [] == results;
  }

  /** One pass of the loop, and what it does to the progress of the run. */
  method HandleNext(table: RequestTable, i: nat, store: ScraperChoices, mappings: PageMappings, web: Web, ai: AiOracle,
                    ghost rows0: seq<Request>, ghost tools0: map<string, string>,
                    ghost results: seq<Option<TaskResult>>, ghost mails: seq<Mail>)
    returns (result: Option<TaskResult>, sent: seq<Mail>)
    requires i < |rows0|
    requires HandledUpTo(rows0, tools0, StepOf(mappings.pages, web, ai), AdvanceOf(mappings.pages, web), i,
                         table.rows, store.tools, results, mails)
    modifies table, store
    ensures result == Some(Crashed) ==>
      RunResult(rows0, tools0, StepOf(mappings.pages, web, ai), AdvanceOf(mappings.pages, web),
                table.rows, store.tools, results + [result], mails + sent)
    ensures result != Some(Crashed) ==>
      HandledUpTo(rows0, tools0, StepOf(mappings.pages, web, ai), AdvanceOf(mappings.pages, web), i + 1,
                  table.rows, store.tools, results + [result], mails + sent)
  {
    ghost var rows, tools := table.rows, store.tools;
    result, sent := HandleRequest(table, i, store, mappings, web, ai);
    StepOfApplied(mappings.pages, web, ai, tools, rows[i]);
    HandledStep(rows0, tools0, StepOf(mappings.pages, web, ai), AdvanceOf(mappings.pages, web), i,
                rows, tools, results, mails, result, table.rows, store.tools, sent);
  }

  /**
   * The loop of `check_scheduled_requests`, before any rollback: requests
   * are handled in order until the end or until a scrape raises.
   */
  method HandleAll(table: RequestTable, store: ScraperChoices, mappings: PageMappings, web: Web, ai: AiOracle)
    returns (results: seq<Option<TaskResult>>, mails: seq<Mail>)
    modifies table, store
    ensures RunResult(old(table.rows), old(store.tools), StepOf(mappings.pages, web, ai), AdvanceOf(mappings.pages, web),
                      table.rows, store.tools, results, mails)
  {
    ghost var rows0, tools0 := table.rows, store.tools;
    results, mails := [], [];
    var i := 0;
    while i < |table.rows|
      invariant HandledUpTo(rows0, tools0, StepOf(mappings.pages, web, ai), AdvanceOf(mappings.pages, web), i,
                            table.rows, store.tools, results, mails)
    {
      var result, sent := HandleNext(table, i, store, mappings, web, ai, rows0, tools0, results, mails);
      results, mails := results + [result], mails + sent;
      if result == Some(Crashed) {
        return;
      }
      i := i + 1;
    }
    HandledFinish(rows0, tools0, StepOf(mappings.pages, web, ai), AdvanceOf(mappings.pages, web),
                  table.rows, store.tools, results, mails);
  }

  /**
   * `check_scheduled_requests`: the requests are taken in order and each
   * active one is scraped, the `ScraperChoice` table evolving from one to
   * the next; a conclusive message is mailed and deactivates its request.
   * Everything runs in one transaction: when a scrape raises, the run
   * stops and both tables are rolled back, while the mails already sent
   * stay sent.
   */
  method CheckScheduledRequests(table: RequestTable, store: ScraperChoices, mappings: PageMappings,
                                web: Web, ai: AiOracle)
    returns (results: seq<Option<TaskResult>>, mails: seq<Mail>)
    modifies table, store
    ensures results == Run(old(table.rows), 0, old(store.tools), StepOf(mappings.pages, web, ai), AdvanceOf(mappings.pages, web))
    ensures |table.rows| == |old(table.rows)| && |results| <= |table.rows|
    ensures !CrashedRun(results) ==> |results| == |table.rows|
    ensures !CrashedRun(results) ==> store.tools == FinalTools(old(table.rows), 0, old(store.tools), AdvanceOf(mappings.pages, web))
    ensures !CrashedRun(results) ==>
      forall k :: 0 <= k < |table.rows| ==> table.rows[k] == Handled(old(table.rows[k]), results[k])
    ensures CrashedRun(results) ==> table.rows == old(table.rows) && store.tools == old(store.tools)
    ensures mails == MailsFor(old(table.rows)[..|results|], results)
  {
    var snapshot, tools0 := table.rows, store.tools;
    results, mails := HandleAll(table, store, mappings, web, ai);
    if CrashedRun(results) {
      // The transaction is rolled back; the mails already sent stay sent.
      table.rows := snapshot;
      store.tools := tools0;
    }
  }
}
