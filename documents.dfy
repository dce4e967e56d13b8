/**
 * `process_document` (utils.py): route an uploaded file by its lower-cased
 * extension to text decoding, PDF page concatenation or DOCX paragraph
 * concatenation.  The byte decoder and the PDF and DOCX parsers are foreign;
 * what they yield for the uploaded bytes is given as `FileParsers`.
 */
module Documents {
  import opened Wrappers
  import opened Text

  /** What a foreign parser produced, or the message of the exception it raised. */
  datatype Parsed<+T> = Parsed(value: T) | ParseFailed(message: string)

  /** `page.extract_text()`: some text, `None`, or an exception. */
  datatype PageText = Extracted(text: string) | NoText | ExtractFailed(message: string)

  /**
   * The foreign views of one file's bytes: `file_bytes.decode()`, the pages of
   * `PdfReader(...)` and the paragraph texts of `Document(...)`.
   */
  datatype FileParsers = FileParsers(utf8: Parsed<string>,
                                     pdfPages: Parsed<seq<PageText>>,
                                     docxParagraphs: Parsed<seq<string>>)

  datatype DocKind = PlainText | Pdf | Docx | Unsupported

  /** The index of the last `c` in `s`, or -1. */
  function LastIndexOf(s: string, c: char): (r: int)
    ensures -1 <= r < |s|
    ensures r >= 0 ==> s[r] == c
    ensures forall k :: r < k < |s| ==> s[k] != c
  {
    if s == [] then -1
    else if s[|s| - 1] == c then |s| - 1
    else LastIndexOf(s[..|s| - 1], c)
  }

  /**
   * `os.path.splitext(name)[1]` with `/` as the separator: from the last dot of
   * the base name on, unless every character before that dot in the base name
   * is itself a dot (so ".md" has no extension).
   */
  function Extension(name: string): (ext: string)
    ensures ext == "" || (ext[0] == '.' && |ext| <= |name| && ext == name[|name| - |ext|..])
    ensures forall k :: 0 < k < |ext| ==> ext[k] != '.' && ext[k] != '/'
  {
    var sep := LastIndexOf(name, '/');
    var dot := LastIndexOf(name, '.');
    if dot > sep && exists k :: sep < k < dot && name[k] != '.' then name[dot..] else ""
  }

  /** The `if file_extension == ...` dispatch on the lower-cased extension. */
  function KindOf(ext: string): (r: DocKind)
    ensures r != Unsupported <==> ext in {".txt", ".md", ".pdf", ".docx"}
  {
    if ext == ".txt" || ext == ".md" then PlainText
    else if ext == ".pdf" then Pdf
    else if ext == ".docx" then Docx
    else Unsupported
  }

  /** `page.extract_text() or ""`: a page without text contributes the empty string. */
  function PageContribution(page: PageText): (r: Parsed<string>)
    ensures r.ParseFailed? <==> page.ExtractFailed?
    ensures page.NoText? ==> r == Parsed("")
  {
    match page
    case Extracted(text) => Parsed(text)
    case NoText => Parsed("")
    case ExtractFailed(m) => ParseFailed(m)
  }

  /** Page texts concatenated in order; the first page that raises aborts the file. */
  function PagesText(pages: seq<PageText>): Parsed<string> {
    if pages == [] then Parsed("")
    else
      match PagesText(pages[..|pages| - 1])
      case ParseFailed(m) => ParseFailed(m)
      case Parsed(before) =>
        match PageContribution(pages[|pages| - 1])
        case ParseFailed(m) => ParseFailed(m)
        case Parsed(text) => Parsed(before + text)
  }

  /** Each paragraph followed by a newline, in order. */
  function DocxText(paragraphs: seq<string>): string {
    if paragraphs == [] then ""
    else DocxText(paragraphs[..|paragraphs| - 1]) + paragraphs[|paragraphs| - 1] + "\n"
  }

  /** Joining two runs of paragraphs: the DOCX text is built piece by piece. */
  lemma {:induction false} DocxTextAppend(a: seq<string>, b: seq<string>)
    ensures DocxText(a + b) == DocxText(a) + DocxText(b)
  {
    if b == [] {
      assert a + b == a;
    } else {
      var last := |b| - 1;
      assert (a + b)[..|a + b| - 1] == a + b[..last];
      DocxTextAppend(a, b[..last]);
    }
  }

  /** The DOCX text of one paragraph is that paragraph and a newline. */
  lemma DocxTextSingle(p: string)
    ensures DocxText([p]) == p + "\n"
  {
  }

  /** Success of concatenated parts: both parts succeed, and the texts are joined. */
  function Join(x: Parsed<string>, y: Parsed<string>): Parsed<string> {
    match x
    case ParseFailed(m) => ParseFailed(m)
    case Parsed(s) =>
      match y
      case ParseFailed(m) => ParseFailed(m)
      case Parsed(t) => Parsed(s + t)
  }

  /** PDF text is built page run by page run; the earlier failure wins. */
  lemma {:induction false} PagesTextAppend(a: seq<PageText>, b: seq<PageText>)
    ensures PagesText(a + b) == Join(PagesText(a), PagesText(b))
  {
    if b == [] {
      assert a + b == a;
      match PagesText(a) {
        case Parsed(s) => assert s + "" == s;
        case ParseFailed(m) =>
      }
    } else {
      var last := |b| - 1;
      assert (a + b)[..|a + b| - 1] == a + b[..last];
      assert (a + b)[|a + b| - 1] == b[last];
      PagesTextAppend(a, b[..last]);
      match PagesText(a) {
        case Parsed(s) =>
          match PagesText(b[..last]) {
            case Parsed(t) =>
              match PageContribution(b[last]) {
                case Parsed(u) => assert s + t + u == s + (t + u);
                case ParseFailed(m) =>
              }
            case ParseFailed(m) =>
          }
        case ParseFailed(m) =>
      }
    }
  }

  /** A page without text, wherever it stands, changes nothing. */
  lemma BlankPageContributesNothing(a: seq<PageText>, b: seq<PageText>)
    ensures PagesText(a + [NoText] + b) == PagesText(a + b)
  {
    PagesTextAppend(a + [NoText], b);
    PagesTextAppend(a, [NoText]);
    PagesTextAppend(a, b);
    assert [NoText][..0] == [];
    match PagesText(a) {
      case Parsed(s) => assert s + "" == s;
      case ParseFailed(m) =>
    }
  }

  /** PDF extraction fails exactly when some page raises. */
  lemma {:induction false} PagesTextFailsIff(pages: seq<PageText>)
    ensures PagesText(pages).ParseFailed? <==> exists i :: 0 <= i < |pages| && pages[i].ExtractFailed?
  {
    if pages != [] {
      var init := pages[..|pages| - 1];
      PagesTextFailsIff(init);
      assert forall i :: 0 <= i < |init| ==> init[i] == pages[i];
      if exists i :: 0 <= i < |pages| && pages[i].ExtractFailed? {
        var i :| 0 <= i < |pages| && pages[i].ExtractFailed?;
        if i < |init| {
          assert init[i].ExtractFailed?;
        }
      }
    }
  }

  /** What the chosen branch of `process_document` computes, if nothing raises. */
  function ExtractText(kind: DocKind, parsers: FileParsers): Parsed<string> {
    match kind
    case PlainText => parsers.utf8
    case Pdf =>
      (match parsers.pdfPages
       case ParseFailed(m) => ParseFailed(m)
       case Parsed(pages) => PagesText(pages))
    case Docx =>
      (match parsers.docxParagraphs
       case ParseFailed(m) => ParseFailed(m)
       case Parsed(paragraphs) => Parsed(DocxText(paragraphs)))
    case Unsupported => ParseFailed("")
  }

  /** The `st.error` text for an unsupported extension; it echoes the extension. */
  function UnsupportedNotice(ext: string): (r: string)
    ensures Contains(r, ext)
  {
    ContainsMiddle("Unsupported file type: ", ext, ". Please upload TXT, MD, PDF, or DOCX.");
    "Unsupported file type: " + ext + ". Please upload TXT, MD, PDF, or DOCX."
  }

  /** The `st.error` text when a parser raises; it names the file and ends with the message. */
  function FailureNotice(fileName: string, message: string): (r: string)
    ensures Contains(r, fileName)
    ensures |message| <= |r| && r[|r| - |message|..] == message
  {
    ContainsMiddle("Error processing file ", fileName, ": " + message);
    assert "Error processing file " + fileName + (": " + message) ==
           "Error processing file " + fileName + ": " + message;
    "Error processing file " + fileName + ": " + message
  }

  /**
   * `process_document`.  `text` is the extracted text or `None`; `notice` is the
   * message shown with `st.error`, present exactly when `text` is `None`.
   */
  method ProcessDocument(fileName: string, parsers: FileParsers)
    returns (text: Option<string>, notice: Option<string>)
    ensures text.None? <==> notice.Some?
    ensures var ext := Lower(Extension(fileName));
            KindOf(ext) == Unsupported ==> text == None && notice == Some(UnsupportedNotice(ext))
    ensures var kind := KindOf(Lower(Extension(fileName)));
            kind != Unsupported ==>
              match ExtractText(kind, parsers)
              case Parsed(t) => text == Some(t)
              case ParseFailed(m) => notice == Some(FailureNotice(fileName, m))
  {
    var ext := Lower(Extension(fileName));
    var rawText := "";
    if ext == ".txt" || ext == ".md" {
      match parsers.utf8 {
        case ParseFailed(m) => return None, Some(FailureNotice(fileName, m));
        case Parsed(decoded) => rawText := decoded;
      }
    } else if ext == ".pdf" {
      match parsers.pdfPages {
        case ParseFailed(m) => return None, Some(FailureNotice(fileName, m));
        case Parsed(pages) =>
          for i := 0 to |pages|
            invariant PagesText(pages[..i]) == Parsed(rawText)
          {
            assert pages[..i + 1][..i] == pages[..i];
            match pages[i] {
              case ExtractFailed(m) =>
                assert PagesText(pages[..i + 1]) == ParseFailed(m);
                PagesTextAppend(pages[..i + 1], pages[i + 1..]);
                assert pages[..i + 1] + pages[i + 1..] == pages;
                return None, Some(FailureNotice(fileName, m));
              case Extracted(t) => rawText := rawText + t;
              case NoText => rawText := rawText + "";
            }
          }
          assert pages[..|pages|] == pages;
      }
    } else if ext == ".docx" {
      match parsers.docxParagraphs {
        case ParseFailed(m) => return None, Some(FailureNotice(fileName, m));
        case Parsed(paragraphs) =>
          for i := 0 to |paragraphs|
            invariant rawText == DocxText(paragraphs[..i])
          {
            assert paragraphs[..i + 1][..i] == paragraphs[..i];
            rawText := rawText + paragraphs[i] + "\n";
          }
          assert paragraphs[..|paragraphs|] == paragraphs;
      }
    } else {
      return None, Some(UnsupportedNotice(ext));
    }
    return Some(rawText), None;
  }

  /**
   * The extension of `dir + stem + "." + e`, for a directory part ending in a
   * separator, a stem holding some non-dot character, and no dot in `e`, is
   * `"." + e`.
   */
  lemma ExtensionOfName(dir: string, stem: string, e: string)
    requires dir == "" || dir[|dir| - 1] == '/'
    requires '/' !in stem && '/' !in e && '.' !in e
    requires exists k :: 0 <= k < |stem| && stem[k] != '.'
    ensures Extension(dir + stem + "." + e) == "." + e
  {
    var name := dir + stem + "." + e;
    var dot := |dir| + |stem|;
    assert name[dot] == '.';
    assert forall k :: dot < k < |name| ==> name[k] == e[k - dot - 1];
    assert LastIndexOf(name, '.') == dot;
    assert forall k :: |dir| <= k < |name| ==> name[k] != '/' by {
      forall k | |dir| <= k < |name| ensures name[k] != '/' {
        if k < dot { assert name[k] == stem[k - |dir|]; }
      }
    }
    if dir == "" {
      assert LastIndexOf(name, '/') == -1;
    } else {
      assert name[|dir| - 1] == '/';
      assert LastIndexOf(name, '/') == |dir| - 1;
    }
    var k :| 0 <= k < |stem| && stem[k] != '.';
    assert name[|dir| + k] == stem[k];
    assert name[dot..] == "." + e;
  }

  /** A hidden file such as ".md" has no extension at all. */
  lemma HiddenFileHasNoExtension(e: string)
    requires '/' !in e && '.' !in e
    ensures Extension("." + e) == ""
  {
  }

  /** "resume.txt" is plain text. */
  lemma TxtExample()
    ensures KindOf(Lower(Extension("resume.txt"))) == PlainText
  {
    var stem, e := "resume", "txt";
    assert stem[0] != '.';
    ExtensionOfName("", stem, e);
    assert "" + stem + "." + e == "resume.txt";
    var ext := Extension("resume.txt");
    assert ext == ".txt";
    assert Lower(ext) == ".txt";
  }

  /** The extension is matched without regard to case: "CV.PDF" is a PDF. */
  lemma UpperCasePdfExample()
    ensures KindOf(Lower(Extension("CV.PDF"))) == Pdf
  {
    var stem, e := "CV", "PDF";
    assert stem[0] != '.';
    ExtensionOfName("", stem, e);
    assert "" + stem + "." + e == "CV.PDF";
    var ext := Extension("CV.PDF");
    assert ext == ".PDF";
    assert Lower(ext) == ".pdf";
  }

  /** Only the last dot of the base name counts: "docs/cv.v2.Docx" is a DOCX file. */
  lemma MixedCaseDocxExample()
    ensures KindOf(Lower(Extension("docs/cv.v2.Docx"))) == Docx
  {
    assert "cv.v2"[0] != '.';
    ExtensionOfName("docs/", "cv.v2", "Docx");
    assert "docs/" + "cv.v2" + "." + "Docx" == "docs/cv.v2.Docx";
    assert Lower(".Docx") == ".docx";
  }

  /** "r.xyz" is unsupported, and so is a file named ".md", which has no extension. */
  lemma UnsupportedExamples()
    ensures KindOf(Lower(Extension("r.xyz"))) == Unsupported
    ensures KindOf(Lower(Extension(".md"))) == Unsupported
  {
  }
}
