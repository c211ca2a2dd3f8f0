/**
 * `download_pdf` and `extract_text_from_pdf`: fetch a PDF, read its text
 * with PyMuPDF and, when that gives nothing, with pdfplumber. The HTTP call
 * and the two PDF libraries are oracles whose outcomes are given as values.
 */
module PdfHandler {
  import opened Options
  import opened Text

  type Byte = bv8

  /** The HTTP reply to the PDF's GET request. */
  datatype HttpReply = HttpReply(status: int, body: seq<Byte>)

  /** What one PDF library did with the downloaded bytes: raised, or gave each page's text. */
  datatype Reading = Raises | Pages(texts: seq<string>)

  /**
   * Everything the extraction of one URL depends on: the GET request
   * (`None` when it raised), and how each library reads the body.
   */
  datatype PdfSource = PdfSource(get: Option<HttpReply>, pymupdf: Reading, pdfplumber: Reading)

  /** The outcome of `extract_text_from_pdf`: a string, or the GET's exception propagating. */
  datatype Extracted = Text(text: string) | TransportError

  const DownloadFailed := "Failed to download PDF."
  const ExtractionFailed := "Failed to extract text from PDF."
  const NoReadableText := "No readable text found in PDF."

  /** `download_pdf`: the body on status 200, nothing otherwise. */
  function DownloadPdf(reply: HttpReply): (r: Option<seq<Byte>>)
    ensures r.Some? <==> reply.status == 200
    ensures r.Some? ==> r.value == reply.body
  {
    if reply.status == 200 then Some(reply.body) else None
  }

  /** PyMuPDF's text: every page's text joined by newlines; "" when it raised. */
  function FirstMethodText(a: Reading): string {
    match a
    case Raises => ""
    case Pages(ps) => Join("\n", ps)
  }

  /** The pages pdfplumber keeps: those whose extracted text is not empty. */
  function NonEmptyPages(ps: seq<string>): (r: seq<string>)
    ensures forall i :: 0 <= i < |r| ==> r[i] != ""
    ensures forall x :: x in r <==> x in ps && x != ""
    ensures |r| <= |ps|
  {
    if ps == [] then []
    else (if ps[0] != "" then [ps[0]] else []) + NonEmptyPages(ps[1..])
  }

  /** The filter keeps the pages in document order: it distributes over concatenation. */
  lemma {:induction false} NonEmptyPagesAppend(a: seq<string>, b: seq<string>)
    ensures NonEmptyPages(a + b) == NonEmptyPages(a) + NonEmptyPages(b)
    decreases |a|
  {
    if a != [] {
      assert (a + b)[1..] == a[1..] + b;
      NonEmptyPagesAppend(a[1..], b);
    } else {
      assert a + b == b;
    }
  }

  /** pdfplumber is consulted only when PyMuPDF gave no text. */
  predicate NeedsSecondMethod(a: Reading) {
    FirstMethodText(a) == ""
  }

  /**
   * `extract_text_from_pdf` on given oracle outcomes. A GET that raises
   * propagates; a missing or empty download is reported without any
   * extraction; PyMuPDF's text is kept unless empty, in which case
   * pdfplumber's non-empty pages are joined (a pdfplumber exception is
   * reported); empty text is reported as unreadable. The result is never
   * the empty string.
   */
  function ExtractText(src: PdfSource): (r: Extracted)
    ensures r.TransportError? <==> src.get.None?
    ensures r.Text? ==> r.text != ""
    ensures src.get.Some? && DownloadPdf(src.get.value).None? ==> r == Text(DownloadFailed)
    ensures (src.get.Some? && DownloadPdf(src.get.value).Some? && DownloadPdf(src.get.value).value != []
             && !NeedsSecondMethod(src.pymupdf)) ==> r == Text(FirstMethodText(src.pymupdf))
  {
    match src.get
    case None => TransportError
    case Some(reply) =>
      var data := DownloadPdf(reply);
      if data.None? || data.value == [] then Text(DownloadFailed)
      else
        var first := FirstMethodText(src.pymupdf);
        if first != "" then Text(first)
        else match src.pdfplumber
          case Raises => Text(ExtractionFailed)
          case Pages(ps) =>
            var second := Join("\n", NonEmptyPages(ps));
            Text(if second != "" then second else NoReadableText)
  }

  /**
   * A download that fails (non-200 status or empty body) never reaches the
   * PDF libraries: the result is the same whatever they would do.
   */
  lemma DownloadFailureSkipsExtraction(reply: HttpReply, a1: Reading, b1: Reading, a2: Reading, b2: Reading)
    requires reply.status != 200 || reply.body == []
    ensures ExtractText(PdfSource(Some(reply), a1, b1)) == ExtractText(PdfSource(Some(reply), a2, b2)) == Text(DownloadFailed)
  {
  }

  /**
   * pdfplumber is attempted only when PyMuPDF gave nothing: otherwise the
   * result does not depend on it.
   */
  lemma SecondMethodOnlyOnEmpty(get: Option<HttpReply>, a: Reading, b1: Reading, b2: Reading)
    requires !NeedsSecondMethod(a)
    ensures ExtractText(PdfSource(get, a, b1)) == ExtractText(PdfSource(get, a, b2))
  {
  }

  /**
   * PyMuPDF joins every page, empty or not: a document of two or more
   * pages, all without text, still yields newlines, so pdfplumber is
   * never tried and those newlines are the result.
   */
  lemma {:induction false} BlankPagesSkipFallback(ps: seq<string>)
    requires |ps| >= 2 && forall i :: 0 <= i < |ps| ==> ps[i] == ""
    ensures !NeedsSecondMethod(Pages(ps))
  {
    JoinEmpty("\n", ps);
    assert ps != [""];
  }

  /** pdfplumber's page filter keeps nothing of pages that are all blank. */
  lemma {:induction false} BlankPagesAllDropped(ps: seq<string>)
    requires forall i :: 0 <= i < |ps| ==> ps[i] == ""
    ensures NonEmptyPages(ps) == []
    decreases |ps|
  {
    if ps != [] {
      BlankPagesAllDropped(ps[1..]);
    }
  }

  /** When PyMuPDF gave nothing and pdfplumber raises, the extraction failure is reported. */
  lemma FallbackRaiseIsReported(reply: HttpReply, a: Reading)
    requires reply.status == 200 && reply.body != []
    requires NeedsSecondMethod(a)
    ensures ExtractText(PdfSource(Some(reply), a, Raises)) == Text(ExtractionFailed)
  {
  }

  /**
   * When PyMuPDF gave nothing and pdfplumber reads at least one page with
   * text, the result is pdfplumber's non-empty pages joined by newlines.
   */
  lemma FallbackJoinsPages(reply: HttpReply, a: Reading, ps: seq<string>, k: nat)
    requires reply.status == 200 && reply.body != []
    requires NeedsSecondMethod(a)
    requires k < |ps| && ps[k] != ""
    ensures ExtractText(PdfSource(Some(reply), a, Pages(ps))) == Text(Join("\n", NonEmptyPages(ps)))
  {
    var kept := NonEmptyPages(ps);
    assert ps[k] in kept;
    JoinEmpty("\n", kept);
  }

  /**
   * When the fallback runs on pages that are all blank, the result is the
   * "no readable text" report, not an empty string.
   */
  lemma BlankFallbackIsUnreadable(reply: HttpReply, a: Reading, ps: seq<string>)
    requires reply.status == 200 && reply.body != []
    requires NeedsSecondMethod(a)
    requires forall i :: 0 <= i < |ps| ==> ps[i] == ""
    ensures ExtractText(PdfSource(Some(reply), a, Pages(ps))) == Text(NoReadableText)
  {
    BlankPagesAllDropped(ps);
  }

  /**
   * `extract_text_from_pdf` as written hands pdfplumber the downloaded
   * bytes themselves, not a file object; pdfplumber's parser needs a
   * seekable stream, so opening them raises and the fallback can only
   * report the extraction failure.
   */
  function ExtractTextAsWritten(src: PdfSource): (r: Extracted)
    ensures NeedsSecondMethod(src.pymupdf) && src.get.Some? && src.get.value.status == 200 && src.get.value.body != [] ==>
      r == Text(ExtractionFailed)
    ensures !NeedsSecondMethod(src.pymupdf) ==> r == ExtractText(src)
  {
    ExtractText(src.(pdfplumber := Raises))
  }

  /**
   * A PDF that PyMuPDF cannot read but pdfplumber can: as written the
   * fallback reports a failure, while the fallback given a file object
   * returns the page's text.
   */
  lemma FallbackOnRawBytesFails()
    ensures var src := PdfSource(Some(HttpReply(200, [0x25])), Raises, Pages(["Admit card released"]));
      ExtractTextAsWritten(src) == Text(ExtractionFailed) &&
      ExtractText(src) == Text("Admit card released")
  {
    var src := PdfSource(Some(HttpReply(200, [0x25])), Raises, Pages(["Admit card released"]));
    FallbackJoinsPages(src.get.value, Raises, ["Admit card released"], 0);
    assert NonEmptyPages(["Admit card released"]) == ["Admit card released"];
  }
}
