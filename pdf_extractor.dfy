/**
 * PDF text extraction. The PDF parser is a parameter that turns bytes into the
 * pages and the document information it found, or into the error it raised.
 * Each page yields its text, yields nothing, or raises; a page that raises or
 * yields nothing contributes the empty string.
 */
module PdfExtractor {
  import opened Text

  type Byte = bv8

  /** What `page.extract_text()` did. */
  datatype PageOutcome = PageText(text: string) | NoText | PageRaised

  /** A parsed PDF: its pages, and its document information (attribute name to
      value, already rendered with `str`) when it has any. */
  datatype ParsedPdf = ParsedPdf(pages: seq<PageOutcome>, info: Option<map<string, string>>)

  /** The returned dict. */
  datatype Extraction = Extraction(text: string, pageCount: nat, metadata: map<string, string>)

  /** `PDFExtractionError` and its message. */
  datatype ExtractionError = PdfExtractionError(message: string)

  /** The document information attributes copied into the metadata. */
  const MetadataKeys: seq<string> := ["title", "author", "subject", "creator"]

  /** The text a page contributes. */
  function PageContribution(p: PageOutcome): string {
    match p
      case PageText(t) => t
      case NoText => ""
      case PageRaised => ""
  }

  /** The contributions of all pages, in page order. */
  function PagesText(pages: seq<PageOutcome>): (r: seq<string>)
    ensures |r| == |pages|
    ensures forall k :: 0 <= k < |pages| ==> r[k] == PageContribution(pages[k])
  {
    seq(|pages|, k requires 0 <= k < |pages| => PageContribution(pages[k]))
  }

  /** The metadata: each listed attribute whose value is a non-empty string. */
  function Metadata(info: Option<map<string, string>>): (m: map<string, string>)
    ensures forall k :: k in m <==> k in MetadataKeys && info.Some? && k in info.value && info.value[k] != ""
    ensures forall k :: k in m ==> m[k] == info.value[k]
  {
    match info
      case None => map[]
      case Some(attrs) => map k | k in MetadataKeys && k in attrs && attrs[k] != "" :: attrs[k]
  }

  /** `extract_text_from_bytes`: the stripped text of the pages joined by blank
      lines, the page count and the metadata; or the parser's error. */
  method ExtractTextFromBytes(pdfBytes: seq<Byte>, parse: seq<Byte> -> Result<ParsedPdf, string>)
    returns (r: Result<Extraction, ExtractionError>)
    ensures parse(pdfBytes).Err? ==> r == Err(PdfExtractionError("Invalid PDF: " + parse(pdfBytes).error))
    ensures parse(pdfBytes).Ok? ==> r == Ok(Extracted(parse(pdfBytes).value))
  {
    var parsed := parse(pdfBytes);
    if parsed.Err? {
      return Err(PdfExtractionError("Invalid PDF: " + parsed.error));
    }
    var reader := parsed.value;
    var pagesText: seq<string> := [];
    for i := 0 to |reader.pages|
      invariant pagesText == PagesText(reader.pages[..i])
    {
      var text: string;
      match reader.pages[i] {
        case PageText(t) => text := t;
        case NoText => text := "";
        case PageRaised => text := "";
      }
      pagesText := pagesText + [text];
    }
    assert reader.pages[..|reader.pages|] == reader.pages;
    var fullText := Strip(Join("\n\n", pagesText));
    var pdfMetadata: map<string, string> := map[];
    if reader.info.Some? {
      var attrs := reader.info.value;
      for i := 0 to |MetadataKeys|
        invariant pdfMetadata == map k | k in MetadataKeys[..i] && k in attrs && attrs[k] != "" :: attrs[k]
      {
        var key := MetadataKeys[i];
        if key in attrs && attrs[key] != "" {
          pdfMetadata := pdfMetadata[key := attrs[key]];
        }
        assert MetadataKeys[..i + 1] == MetadataKeys[..i] + [key];
      }
      assert MetadataKeys[..|MetadataKeys|] == MetadataKeys;
    }
    r := Ok(Extraction(fullText, |reader.pages|, pdfMetadata));
  }

  /** The extraction of a parsed PDF. */
  function Extracted(pdf: ParsedPdf): Extraction {
    Extraction(Strip(Join("\n\n", PagesText(pdf.pages))), |pdf.pages|, Metadata(pdf.info))
  }

  /** `extract_text_from_file`: read the whole file, then extract; a read that
      raises becomes an extraction error. */
  method ExtractTextFromFile(content: Result<seq<Byte>, string>, parse: seq<Byte> -> Result<ParsedPdf, string>)
    returns (r: Result<Extraction, ExtractionError>)
    ensures content.Err? ==> r == Err(PdfExtractionError("Cannot read file: " + content.error))
    ensures content.Ok? && parse(content.value).Err? ==>
      r == Err(PdfExtractionError("Invalid PDF: " + parse(content.value).error))
    ensures content.Ok? && parse(content.value).Ok? ==> r == Ok(Extracted(parse(content.value).value))
    ensures r == FileExtraction(content, parse)
  {
    if content.Err? {
      return Err(PdfExtractionError("Cannot read file: " + content.error));
    }
    r := ExtractTextFromBytes(content.value, parse);
  }

  /** What `extract_text_from_file` returns for a read outcome. */
  function FileExtraction(content: Result<seq<Byte>, string>, parse: seq<Byte> -> Result<ParsedPdf, string>)
    : Result<Extraction, ExtractionError>
  {
    if content.Err? then Err(PdfExtractionError("Cannot read file: " + content.error))
    else if parse(content.value).Err? then Err(PdfExtractionError("Invalid PDF: " + parse(content.value).error))
    else Ok(Extracted(parse(content.value).value))
  }

  /** What an extraction promises: one page count per reader page, including
      pages that failed; text with no whitespace at either end, empty exactly
      when every page contributed only whitespace; a single page's text is that
      page's stripped text; and metadata holding only the four attributes with
      non-empty values. */
  lemma ExtractedSpec(pdf: ParsedPdf)
    ensures Extracted(pdf).pageCount == |pdf.pages|
    ensures var t := Extracted(pdf).text;
      t != [] ==> !IsSpace(t[0]) && !IsSpace(t[|t| - 1])
    ensures Extracted(pdf).text == [] <==> forall k :: 0 <= k < |pdf.pages| ==> IsBlank(PageContribution(pdf.pages[k]))
    ensures |pdf.pages| == 1 ==> Extracted(pdf).text == Strip(PageContribution(pdf.pages[0]))
    ensures forall k :: k in Extracted(pdf).metadata ==> k in MetadataKeys && Extracted(pdf).metadata[k] != ""
  {
    var parts := PagesText(pdf.pages);
    StripSpec(Join("\n\n", parts));
    JoinBlank(parts);
  }

  /** Text joined by blank lines is blank exactly when every part is. */
  lemma {:induction false} JoinBlank(parts: seq<string>)
    ensures IsBlank(Join("\n\n", parts)) <==> forall k :: 0 <= k < |parts| ==> IsBlank(parts[k])
  {
    if |parts| > 1 {
      JoinBlank(parts[1..]);
      var rest := Join("\n\n", parts[1..]);
      var whole := parts[0] + "\n\n" + rest;
      assert IsBlank(whole) <==> IsBlank(parts[0]) && IsBlank(rest) by {
        assert forall i :: 0 <= i < |parts[0]| ==> whole[i] == parts[0][i];
        assert forall i :: 0 <= i < |rest| ==> whole[|parts[0]| + 2 + i] == rest[i];
        assert whole[|parts[0]|] == '\n' && whole[|parts[0]| + 1] == '\n';
      }
      assert forall k :: 1 <= k < |parts| ==> parts[k] == parts[1..][k - 1];
    }
  }
}
