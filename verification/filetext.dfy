/**
 Document text extraction of app/api/filetext/route.ts: routing on the
 file name's extension, assembly of a PDF's page texts, and the reply fields.
 */
module FileText {
  import opened Options
  import opened Strings

  const PreviewLength: nat := 200

  /** An uploaded file: its name, byte size and decoded text content. */
  datatype Upload = Upload(name: string, size: nat, content: string)

  /** What `form.get("file")` yields: nothing, a plain string field, or a file. */
  datatype FormValue = NoEntry | TextField(s: string) | FileField(file: Upload)

  /** The multipart body, or the message of the error thrown while parsing it. */
  datatype Form = Parsed(file: FormValue) | ParseError(message: Option<string>)

  /** What the PDF library yields for the file: each page's text items, or a thrown error's message. */
  datatype PdfOutcome = Pages(pages: seq<seq<string>>) | PdfError(message: Option<string>)

  datatype Reply =
    | Extracted(fileName: string, fileSize: nat, text: string, textLen: nat, preview: string)
    | MissingFile
    | Unsupported
    | Failed(message: string)

  function Status(r: Reply): int
  {
    match r
    case Extracted(_, _, _, _, _) => 200
    case MissingFile => 400
    case Unsupported => 400
    case Failed(_) => 500
  }

  /** The kinds of file the route accepts, decided on the lower-cased name. */
  datatype Kind = PlainText | Pdf | Other

  function KindOf(name: string): (k: Kind)
    ensures k == PlainText <==> EndsWith(ToLower(name), ".txt") || EndsWith(ToLower(name), ".md")
    ensures k == Pdf <==> !EndsWith(ToLower(name), ".txt") && !EndsWith(ToLower(name), ".md")
                          && EndsWith(ToLower(name), ".pdf")
  {
    var lower := ToLower(name);
    if EndsWith(lower, ".txt") || EndsWith(lower, ".md") then PlainText
    else if EndsWith(lower, ".pdf") then Pdf
    else Other
  }

  /** `items.map(it => it.str).filter(Boolean)`: the non-empty strings, in order. */
  function NonEmpty(items: seq<string>): (r: seq<string>)
    ensures forall i :: 0 <= i < |r| ==> r[i] != ""
    ensures |r| <= |items|
  {
    if |items| == 0 then []
    else if items[|items| - 1] == "" then NonEmpty(items[..|items| - 1])
    else NonEmpty(items[..|items| - 1]) + [items[|items| - 1]]
  }

  /** One page's contribution: its non-empty strings joined by spaces, then a blank line. */
  function PageText(items: seq<string>): string
  {
    Join(NonEmpty(items), " ") + "\n\n"
  }

  /** The page contributions of pages 1..n, concatenated in page order. */
  function PagesText(pages: seq<seq<string>>): string
  {
    if |pages| == 0 then "" else PagesText(pages[..|pages| - 1]) + PageText(pages[|pages| - 1])
  }

  /** Assembly distributes over splitting the document. */
  lemma {:induction false} PagesTextAppend(a: seq<seq<string>>, b: seq<seq<string>>)
    ensures PagesText(a + b) == PagesText(a) + PagesText(b)
    decreases |b|
  {
    if |b| == 0 {
      assert a + b == a;
    } else {
      var b', last := b[..|b| - 1], b[|b| - 1];
      assert (a + b)[..|a + b| - 1] == a + b';
      assert (a + b)[|a + b| - 1] == last;
      PagesTextAppend(a, b');
      ConcatAssoc(PagesText(a), PagesText(b'), PageText(last));
    }
  }

  lemma ConcatAssoc(x: string, y: string, z: string)
    ensures x + (y + z) == (x + y) + z
  {
  }

  /** Every page adds at least its blank line, even a page without text. */
  lemma {:induction false} PagesTextLength(pages: seq<seq<string>>)
    ensures |PagesText(pages)| >= 2 * |pages|
    decreases |pages|
  {
    if |pages| > 0 {
      PagesTextLength(pages[..|pages| - 1]);
    }
  }

  /** The loop of `extractPdfText`: visit pages 1..numPages, appending each page's contribution. */
  method AssemblePages(pages: seq<seq<string>>) returns (out: string)
    ensures out == PagesText(pages)
  {
    out := "";
    var i := 0;
    while i < |pages|
      invariant 0 <= i <= |pages|
      invariant out == PagesText(pages[..i])
    {
      out := out + Join(NonEmpty(pages[i]), " ") + "\n\n";
      assert pages[..i + 1][..i] == pages[..i];
      i := i + 1;
    }
    assert pages[..i] == pages;
  }

  /** `extractPdfText` once the document is loaded: the assembled pages, trimmed. */
  method ExtractPdfText(pages: seq<seq<string>>) returns (text: string)
    ensures text == Trim(PagesText(pages))
  {
    var out := AssemblePages(pages);
    text := Trim(out);
  }

  /** The success reply for an extracted text. */
  function ExtractedReply(file: Upload, text: string): (r: Reply)
    ensures r.Extracted? && r.text == text && r.fileName == file.name && r.fileSize == file.size
    ensures r.textLen == |r.text|
    ensures |r.preview| == (if |text| < PreviewLength then |text| else PreviewLength)
    ensures r.preview == text[..|r.preview|]
  {
    Extracted(file.name, file.size, text, |text|, SliceHead(text, PreviewLength))
  }

  /** `err?.message || "File parsing failed."`. */
  function ErrorMessage(message: Option<string>): (m: string)
    ensures m != ""
    ensures Present(message) ==> m == message.value
    ensures !Present(message) ==> m == "File parsing failed."
  {
    OrElse(message, "File parsing failed.")
  }

  /** `POST /api/filetext`. `pdf` is what the PDF library makes of the file, consulted only for a PDF. */
  function Post(form: Form, pdf: PdfOutcome): (r: Reply)
    ensures form.ParseError? ==> r == Failed(ErrorMessage(form.message))
    ensures form.Parsed? && !form.file.FileField? ==> r == MissingFile
    ensures form.Parsed? && form.file.FileField? ==>
              var f := form.file.file;
              && (KindOf(f.name) == PlainText ==> r == ExtractedReply(f, Trim(f.content)))
              && (KindOf(f.name) == Other ==> r == Unsupported)
              && (KindOf(f.name) == Pdf && pdf.Pages? ==> r == ExtractedReply(f, Trim(PagesText(pdf.pages))))
              && (KindOf(f.name) == Pdf && pdf.PdfError? ==> r == Failed(ErrorMessage(pdf.message)))
    ensures r.Extracted? ==> Trimmed(r.text) && r.textLen == |r.text| && r.preview == r.text[..|r.preview|]
  {
    match form
    case ParseError(msg) => Failed(ErrorMessage(msg))
    case Parsed(value) =>
      match value
      case NoEntry => MissingFile
      case TextField(_) => MissingFile
      case FileField(f) =>
        match KindOf(f.name)
        case PlainText =>
          var text := Trim(f.content);
          ExtractedReply(f, text)
        case Other => Unsupported
        case Pdf =>
          match pdf
          case Pages(pages) =>
            var text := Trim(PagesText(pages));
            ExtractedReply(f, text)
          case PdfError(msg) => Failed(ErrorMessage(msg))
  }

  /** Filtering keeps every non-empty string, as often as it occurs. */
  lemma {:induction false} NonEmptyKeepsAll(items: seq<string>)
    ensures forall s :: s != "" ==> multiset(NonEmpty(items))[s] == multiset(items)[s]
    decreases |items|
  {
    if |items| > 0 {
      var init := items[..|items| - 1];
      assert items == init + [items[|items| - 1]];
      NonEmptyKeepsAll(init);
    }
  }

  /** Filtering keeps the order of the strings: it distributes over concatenation. */
  lemma {:induction false} NonEmptyAppend(a: seq<string>, b: seq<string>)
    ensures NonEmpty(a + b) == NonEmpty(a) + NonEmpty(b)
    decreases |b|
  {
    if |b| == 0 {
      assert a + b == a;
    } else {
      var b' := b[..|b| - 1];
      assert (a + b)[..|a + b| - 1] == a + b';
      NonEmptyAppend(a, b');
    }
  }
}
