/** The file processing service (modules/file_processing.py): the extension
    gate, text assembly from parsed PDF pages, DOCX paragraphs and tables and
    PPTX slides, text decoding, and metadata. What the parsing libraries and
    codecs make of the bytes arrives as input. */
module FileProcessing {
  import opened Outcomes
  import opened Text
  import opened JsonValue

  /** What a parsing library makes of the bytes: a document, or the message
      of the exception it raised. */
  datatype Parsed<+T> = Parsed(doc: T) | Unreadable(reason: string)

  /** `PdfReader.metadata`: absent (`None`), its items with values already
      passed through `str()`, or an exception while it is read. */
  datatype PdfInfo = NoInfo | Info(entries: seq<(string, string)>) | InfoRaises

  /** A PDF: per page the text `extract_text()` returns, or `None` where it
      raised; the encryption flag; the document information. */
  datatype PdfDocument = PdfDocument(pages: seq<Option<string>>, encrypted: bool, info: PdfInfo)

  /** `core_properties` of a DOCX: title and author (`None` or text), and the
      creation and modification dates as `str()` renders them. */
  datatype CoreProperties = CoreProperties(title: Json, author: Json, created: string, modified: string)

  /** A DOCX: paragraph texts, tables as rows of cell texts, and the core
      properties or an exception while they are read. */
  datatype DocxDocument = DocxDocument(
    paragraphs: seq<string>,
    tables: seq<seq<seq<string>>>,
    core: Option<CoreProperties>)

  /** A PPTX: per slide, per shape, its text, or `None` for a shape without a
      `text` attribute. */
  datatype PptxDocument = PptxDocument(slides: seq<seq<Option<string>>>)

  /** Everything the libraries make of one file's bytes. `utf8` and `cp1252`
      are the decodings, `None` where the codec raises `UnicodeDecodeError`. */
  datatype Libraries = Libraries(
    pdf: Parsed<PdfDocument>,
    docx: Parsed<DocxDocument>,
    pptx: Parsed<PptxDocument>,
    utf8: Option<string>,
    cp1252: Option<string>)

  /** The dataclass `ProcessedDocument`; `processedAt` is the timestamp as text. */
  datatype ProcessedDocument = ProcessedDocument(
    content: string,
    metadata: Dict,
    fileName: string,
    fileSize: nat,
    fileType: string,
    processedAt: string)

  const SupportedExtensions: set<string> := {".pdf", ".txt", ".docx", ".doc", ".pptx", ".ppt"}

  /** `"." + name.split(".")[-1].lower()`. */
  function Extension(name: string): string
  {
    "." + Lower(AfterLast(name, '.'))
  }

  /** The extension is a dot followed by the lower-cased text after the last
      dot of the name, which is preceded by a dot unless it is the whole name;
      a name without a dot gives the whole lower-cased name. */
  lemma ExtensionParts(name: string)
    ensures var ext := Extension(name);
      |ext| >= 1 && ext[0] == '.' && '.' !in ext[1..]
    ensures var ext := Extension(name);
      |ext| - 1 <= |name| && ext[1..] == Lower(name[|name| - (|ext| - 1)..])
    ensures var ext := Extension(name);
      |ext| - 1 < |name| ==> name[|name| - |ext|] == '.'
    ensures '.' !in name ==> Extension(name) == "." + Lower(name)
  {
    var last := AfterLast(name, '.');
    AfterLastSegment(name, '.');
    DotLower(last);
    AfterLastDotless(name);
    AfterLastDotSuffix(name);
  }

  /** A dot followed by a lower-cased dotless text has no dot after the first. */
  lemma DotLower(last: string)
    requires '.' !in last
    ensures var ext := "." + Lower(last);
      |ext| == |last| + 1 && ext[1..] == Lower(last) && '.' !in ext[1..]
  {
    LowerKeepsDotless(last);
    var ext := "." + Lower(last);
    assert ext[1..] == Lower(last);
  }

  /** The text after the last dot is the name's suffix of that length. */
  lemma AfterLastDotSuffix(name: string)
    ensures var last := AfterLast(name, '.');
      |last| <= |name| && Lower(name[|name| - |last|..]) == Lower(last)
  {
    var last := AfterLast(name, '.');
    AfterLastSegment(name, '.');
    assert name[|name| - |last|..] == last;
  }

  /** A name without a dot is its own text after the last dot. */
  lemma AfterLastDotless(name: string)
    ensures '.' !in name ==> AfterLast(name, '.') == name
  {
    if '.' !in name { AfterLastNone(name, '.'); }
  }

  /** Lower-casing introduces no dot. */
  lemma LowerKeepsDotless(s: string)
    requires '.' !in s
    ensures '.' !in Lower(s)
  {
    forall i | 0 <= i < |s| ensures Lower(s)[i] != '.' {
      assert s[i] in s;
    }
  }

  /** A name `stem.suffix` whose suffix has no dot has extension "." + lower(suffix). */
  lemma ExtensionOfSuffix(stem: string, suffix: string)
    requires '.' !in suffix
    ensures Extension(stem + "." + suffix) == "." + Lower(suffix)
  {
    AfterLastSuffix(stem, '.', suffix);
  }

  function PageHeader(n: nat): string
  {
    "--- Página " + NatToString(n) + " ---\n"
  }

  function SlideHeader(n: nat): string
  {
    "--- Slide " + NatToString(n) + " ---"
  }

  /** What page `n` (1-based) adds: its header and text when the text is not blank. */
  function PagePart(n: nat, page: Option<string>): seq<string>
  {
    match page
    case Some(t) => if Strip(t) != "" then [PageHeader(n) + t] else []
    case None => []
  }

  /** The parts the PDF extractor collects for `pages`, in page order. */
  function PdfParts(pages: seq<Option<string>>): seq<string>
  {
    if pages == [] then []
    else PdfParts(pages[..|pages| - 1]) + PagePart(|pages|, pages[|pages| - 1])
  }

  /** Every PDF part is the header and text of a non-blank page, and every
      non-blank page has its part. */
  lemma {:induction false} PdfPartsPages(pages: seq<Option<string>>)
    ensures |PdfParts(pages)| <= |pages|
    ensures forall part :: part in PdfParts(pages) ==>
      exists n :: 1 <= n <= |pages| && pages[n - 1].Some? && !IsBlank(pages[n - 1].value) &&
        part == PageHeader(n) + pages[n - 1].value
    ensures forall n :: 1 <= n <= |pages| && pages[n - 1].Some? && !IsBlank(pages[n - 1].value) ==>
      PageHeader(n) + pages[n - 1].value in PdfParts(pages)
  {
    if pages != [] {
      var init := pages[..|pages| - 1];
      var k := |pages|;
      PdfPartsPages(init);
      match pages[k - 1] {
        case Some(t) => StripEmptyIffBlank(t);
        case None =>
      }
      forall part | part in PdfParts(pages)
        ensures exists n :: (1 <= n <= |pages| && pages[n - 1].Some? && !IsBlank(pages[n - 1].value) &&
          part == PageHeader(n) + pages[n - 1].value)
      {
        if part in PdfParts(init) {
          var n :| 1 <= n <= |init| && init[n - 1].Some? && !IsBlank(init[n - 1].value) &&
            part == PageHeader(n) + init[n - 1].value;
          assert pages[n - 1] == init[n - 1];
        } else {
          assert pages[k - 1].Some? && !IsBlank(pages[k - 1].value);
        }
      }
      forall n | 1 <= n <= |pages| && pages[n - 1].Some? && !IsBlank(pages[n - 1].value)
        ensures PageHeader(n) + pages[n - 1].value in PdfParts(pages)
      {
        if n < k {
          assert init[n - 1] == pages[n - 1];
        }
      }
    }
  }

  /** One more page adds its own part at the end. */
  lemma PdfPartsSnoc(pages: seq<Option<string>>, i: nat)
    requires i < |pages|
    ensures PdfParts(pages[..i + 1]) == PdfParts(pages[..i]) + PagePart(i + 1, pages[i])
  {
    assert pages[..i + 1][..i] == pages[..i];
  }

  /** `_extract_from_pdf`. */
  method ExtractFromPdf(pdf: Parsed<PdfDocument>) returns (r: Result<string>)
    ensures r == PdfText(pdf)
  {
    match pdf
    case Unreadable(reason) =>
      r := Err(ValueError("Erro ao processar PDF: " + reason));
    case Parsed(doc) =>
      var pages := doc.pages;
      var parts: seq<string> := [];
      var i := 0;
      while i < |pages|
        invariant 0 <= i <= |pages|
        invariant parts == PdfParts(pages[..i])
      {
        PdfPartsSnoc(pages, i);
        match pages[i] {
          case Some(text) =>
            if Strip(text) != "" {
              parts := parts + [PageHeader(i + 1) + text];
            }
          case None =>
        }
        i := i + 1;
      }
      assert pages[..i] == pages;
      r := Ok(Join("\n\n", parts));
  }

  /** The non-blank paragraphs, in order. */
  function KeptParagraphs(ps: seq<string>): seq<string>
  {
    if ps == [] then []
    else KeptParagraphs(ps[..|ps| - 1]) + KeepIfNotBlank(ps[|ps| - 1])
  }

  /** `[p]` when `p.strip()` is non-empty, otherwise nothing. */
  function KeepIfNotBlank(p: string): seq<string>
  {
    if Strip(p) != "" then [p] else []
  }

  /** Exactly the paragraphs whose stripped text is non-empty are kept. */
  lemma {:induction false} KeptParagraphsStrip(ps: seq<string>)
    ensures |KeptParagraphs(ps)| <= |ps|
    ensures forall p :: p in KeptParagraphs(ps) <==> p in ps && Strip(p) != ""
  {
    if ps != [] {
      var init := ps[..|ps| - 1];
      var last := ps[|ps| - 1];
      KeptParagraphsStrip(init);
      assert ps == init + [last];
    }
  }

  /** Exactly the non-blank paragraphs are kept, verbatim. */
  lemma KeptParagraphsExact(ps: seq<string>)
    ensures |KeptParagraphs(ps)| <= |ps|
    ensures forall p :: p in KeptParagraphs(ps) <==> p in ps && !IsBlank(p)
  {
    KeptParagraphsStrip(ps);
    forall p ensures Strip(p) == [] <==> IsBlank(p) {
      StripEmptyIffBlank(p);
    }
  }

  /** Keeping the paragraphs of one more paragraph adds that one when it is not blank. */
  lemma KeptParagraphsSnoc(ps: seq<string>, i: nat)
    requires i < |ps|
    ensures KeptParagraphs(ps[..i + 1]) == KeptParagraphs(ps[..i]) + KeepIfNotBlank(ps[i])
  {
    assert ps[..i + 1][..i] == ps[..i];
  }

  /** One table row: the stripped cell texts joined by " | ". */
  function RowText(row: seq<string>): string
  {
    Join(" | ", seq(|row|, i requires 0 <= i < |row| => Strip(row[i])))
  }

  function TableLines(rows: seq<seq<string>>): (lines: seq<string>)
    ensures |lines| == |rows|
    ensures forall i :: 0 <= i < |rows| ==> lines[i] == RowText(rows[i])
  {
    seq(|rows|, i requires 0 <= i < |rows| => RowText(rows[i]))
  }

  /** What one table adds: its row lines joined by "\n", when it has rows. */
  function TablePart(rows: seq<seq<string>>): seq<string>
  {
    if rows == [] then [] else [Join("\n", TableLines(rows))]
  }

  function TableParts(tables: seq<seq<seq<string>>>): seq<string>
  {
    if tables == [] then []
    else TableParts(tables[..|tables| - 1]) + TablePart(tables[|tables| - 1])
  }

  /** One more table adds its own part at the end. */
  lemma TablePartsSnoc(tables: seq<seq<seq<string>>>, t: nat)
    requires t < |tables|
    ensures TableParts(tables[..t + 1]) == TableParts(tables[..t]) + TablePart(tables[t])
  {
    assert tables[..t + 1][..t] == tables[..t];
  }

  /** Tables come after all paragraphs; there is one part per table with rows. */
  function DocxParts(doc: DocxDocument): seq<string>
  {
    KeptParagraphs(doc.paragraphs) + TableParts(doc.tables)
  }

  /** The number of tables that have at least one row. */
  function TablesWithRows(tables: seq<seq<seq<string>>>): nat
  {
    if tables == [] then 0
    else TablesWithRows(tables[..|tables| - 1]) + (if tables[|tables| - 1] == [] then 0 else 1)
  }

  /** A DOCX has one part per non-blank paragraph and one per table with rows,
      and the table part of a table is its row lines joined by "\n". */
  lemma {:induction false} TablePartsCount(tables: seq<seq<seq<string>>>)
    ensures |TableParts(tables)| == TablesWithRows(tables)
    ensures forall part :: part in TableParts(tables) ==>
      exists t :: 0 <= t < |tables| && tables[t] != [] && part == Join("\n", TableLines(tables[t]))
  {
    if tables != [] {
      var init := tables[..|tables| - 1];
      TablePartsCount(init);
      forall part | part in TableParts(tables)
        ensures exists t :: 0 <= t < |tables| && tables[t] != [] && part == Join("\n", TableLines(tables[t]))
      {
        if part in TableParts(init) {
          var t :| 0 <= t < |init| && init[t] != [] && part == Join("\n", TableLines(init[t]));
          assert tables[t] == init[t];
        } else {
          assert part == Join("\n", TableLines(tables[|tables| - 1]));
        }
      }
    }
  }

  /** The paragraph loop of `_extract_from_docx`. */
  method CollectParagraphs(ps: seq<string>) returns (parts: seq<string>)
    ensures parts == KeptParagraphs(ps)
  {
    parts := [];
    var i := 0;
    while i < |ps|
      invariant 0 <= i <= |ps|
      invariant parts == KeptParagraphs(ps[..i])
    {
      KeptParagraphsSnoc(ps, i);
      var p := ps[i];
      if Strip(p) != "" {
        parts := parts + [p];
      }
      i := i + 1;
    }
    assert ps[..i] == ps;
  }

  /** The row loop of `_extract_from_docx` for one table. */
  method CollectRows(rows: seq<seq<string>>) returns (tableText: seq<string>)
    ensures tableText == TableLines(rows)
  {
    tableText := [];
    var j := 0;
    while j < |rows|
      invariant 0 <= j <= |rows|
      invariant tableText == TableLines(rows[..j])
    {
      var rowText := seq(|rows[j]|, k requires 0 <= k < |rows[j]| => Strip(rows[j][k]));
      tableText := tableText + [Join(" | ", rowText)];
      j := j + 1;
    }
    assert rows[..j] == rows;
  }

  /** The table loop of `_extract_from_docx`, appending to the paragraph parts. */
  method CollectTables(prefix: seq<string>, tables: seq<seq<seq<string>>>) returns (parts: seq<string>)
    ensures parts == prefix + TableParts(tables)
  {
    parts := prefix;
    var t := 0;
    while t < |tables|
      invariant 0 <= t <= |tables|
      invariant parts == prefix + TableParts(tables[..t])
    {
      var tableText := CollectRows(tables[t]);
      TablePartsSnoc(tables, t);
      if tableText != [] {
        parts := parts + [Join("\n", tableText)];
      }
      t := t + 1;
    }
    assert tables[..t] == tables;
  }

  /** `_extract_from_docx`. */
  method ExtractFromDocx(docx: Parsed<DocxDocument>) returns (r: Result<string>)
    ensures r == DocxText(docx)
  {
    match docx
    case Unreadable(reason) =>
      r := Err(ValueError("Erro ao processar DOCX: " + reason));
    case Parsed(doc) =>
      var parts := CollectParagraphs(doc.paragraphs);
      parts := CollectTables(parts, doc.tables);
      r := Ok(Join("\n\n", parts));
  }

  /** The texts of the shapes that have a non-blank `text`, in order. */
  function KeptShapes(shapes: seq<Option<string>>): seq<string>
  {
    if shapes == [] then []
    else
      var last := shapes[|shapes| - 1];
      KeptShapes(shapes[..|shapes| - 1]) + (if last.Some? && Strip(last.value) != "" then [last.value] else [])
  }

  /** Exactly the shape texts whose stripped text is non-empty are kept. */
  lemma {:induction false} KeptShapesStrip(shapes: seq<Option<string>>)
    ensures forall t :: t in KeptShapes(shapes) <==> Some(t) in shapes && Strip(t) != ""
  {
    if shapes != [] {
      var init := shapes[..|shapes| - 1];
      var last := shapes[|shapes| - 1];
      KeptShapesStrip(init);
      assert shapes == init + [last];
    }
  }

  /** Exactly the non-blank shape texts are kept, verbatim. */
  lemma KeptShapesExact(shapes: seq<Option<string>>)
    ensures forall t :: t in KeptShapes(shapes) <==> Some(t) in shapes && !IsBlank(t)
  {
    KeptShapesStrip(shapes);
    forall t ensures Strip(t) == [] <==> IsBlank(t) {
      StripEmptyIffBlank(t);
    }
  }

  /** What slide `n` adds: its header and kept shape texts joined by "\n",
      when it has at least one kept shape. */
  function SlidePart(n: nat, shapes: seq<Option<string>>): seq<string>
  {
    var lines := [SlideHeader(n)] + KeptShapes(shapes);
    if |lines| > 1 then [Join("\n", lines)] else []
  }

  function PptxParts(slides: seq<seq<Option<string>>>): seq<string>
  {
    if slides == [] then []
    else PptxParts(slides[..|slides| - 1]) + SlidePart(|slides|, slides[|slides| - 1])
  }

  /** A slide is omitted exactly when none of its shapes has non-blank text;
      otherwise its part is the header line, then the kept texts. */
  lemma SlidePartShape(n: nat, shapes: seq<Option<string>>)
    ensures SlidePart(n, shapes) == [] <==> forall t :: Some(t) in shapes ==> IsBlank(t)
    ensures SlidePart(n, shapes) != [] ==>
      SlidePart(n, shapes) == [SlideHeader(n) + "\n" + Join("\n", KeptShapes(shapes))]
  {
    KeptShapesExact(shapes);
    var kept := KeptShapes(shapes);
    if kept != [] {
      assert kept[0] in kept;
      assert ([SlideHeader(n)] + kept)[1..] == kept;
    } else {
    }
  }

  /** The shape loop of `_extract_from_pptx` for slide `n`. */
  method CollectSlide(n: nat, shapes: seq<Option<string>>) returns (slideText: seq<string>)
    ensures slideText == [SlideHeader(n)] + KeptShapes(shapes)
  {
    slideText := [SlideHeader(n)];
    var k := 0;
    while k < |shapes|
      invariant 0 <= k <= |shapes|
      invariant slideText == [SlideHeader(n)] + KeptShapes(shapes[..k])
    {
      var shape := shapes[k];
      if shape.Some? && Strip(shape.value) != "" {
        slideText := slideText + [shape.value];
      }
      assert shapes[..k + 1][..k] == shapes[..k];
      k := k + 1;
    }
    assert shapes[..k] == shapes;
  }

  /** `_extract_from_pptx`. */
  method ExtractFromPptx(pptx: Parsed<PptxDocument>) returns (r: Result<string>)
    ensures r == PptxText(pptx)
  {
    match pptx
    case Unreadable(reason) =>
      r := Err(ValueError("Erro ao processar PPTX: " + reason));
    case Parsed(doc) =>
      var slides := doc.slides;
      var parts: seq<string> := [];
      var s := 0;
      while s < |slides|
        invariant 0 <= s <= |slides|
        invariant parts == PptxParts(slides[..s])
      {
        var slideText := CollectSlide(s + 1, slides[s]);
        if |slideText| > 1 {
          parts := parts + [Join("\n", slideText)];
        }
        assert slides[..s + 1][..s] == slides[..s];
        s := s + 1;
      }
      assert slides[..s] == slides;
      r := Ok(Join("\n\n", parts));
  }

  /** `bytes.decode("latin-1")`: byte `b` is the code point `b`; it never fails. */
  function Latin1(bytes: Bytes): (s: string)
    ensures |s| == |bytes|
    ensures forall i :: 0 <= i < |bytes| ==> s[i] as int == bytes[i] as int
  {
    seq(|bytes|, i requires 0 <= i < |bytes| => bytes[i] as int as char)
  }

  datatype Encoding = Utf8 | Latin1Codec | Cp1252

  /** The encodings `_extract_from_txt` tries, in order. */
  const Encodings: seq<Encoding> := [Utf8, Latin1Codec, Cp1252]

  function Decode(e: Encoding, bytes: Bytes, libs: Libraries): Option<string>
  {
    match e
    case Utf8 => libs.utf8
    case Latin1Codec => Some(Latin1(bytes))
    case Cp1252 => libs.cp1252
  }

  /** `_extract_from_txt`: the first encoding that decodes the bytes wins. */
  method ExtractFromTxt(bytes: Bytes, libs: Libraries) returns (r: Result<string>)
    ensures r.Ok? ==> exists j :: (0 <= j < |Encodings| && Decode(Encodings[j], bytes, libs) == Some(r.value) &&
      forall e :: 0 <= e < j ==> Decode(Encodings[e], bytes, libs).None?)
    ensures r.Err? ==> forall e :: 0 <= e < |Encodings| ==> Decode(Encodings[e], bytes, libs).None?
  {
    var j := 0;
    while j < |Encodings|
      invariant 0 <= j <= |Encodings|
      invariant forall e :: 0 <= e < j ==> Decode(Encodings[e], bytes, libs).None?
    {
      var d := Decode(Encodings[j], bytes, libs);
      if d.Some? {
        return Ok(d.value);
      }
      j := j + 1;
    }
    r := Err(ValueError("Erro ao processar TXT: Não foi possível decodificar o arquivo TXT"));
  }

  /** Latin-1 accepts every byte sequence, so the TXT extractor never fails and
      never reaches cp1252: it yields the UTF-8 decoding when there is one, and
      the Latin-1 decoding otherwise. */
  lemma TxtNeverFails(bytes: Bytes, libs: Libraries, r: Result<string>)
    requires r.Ok? ==> exists j :: (0 <= j < |Encodings| && Decode(Encodings[j], bytes, libs) == Some(r.value) &&
      forall e :: 0 <= e < j ==> Decode(Encodings[e], bytes, libs).None?)
    requires r.Err? ==> forall e :: 0 <= e < |Encodings| ==> Decode(Encodings[e], bytes, libs).None?
    ensures r == Ok(if libs.utf8.Some? then libs.utf8.value else Latin1(bytes))
  {
    assert Encodings[0] == Utf8 && Encodings[1] == Latin1Codec;
    assert Decode(Encodings[1], bytes, libs) == Some(Latin1(bytes));
    if r.Ok? {
      var j :| 0 <= j < |Encodings| && Decode(Encodings[j], bytes, libs) == Some(r.value) &&
        forall e :: 0 <= e < j ==> Decode(Encodings[e], bytes, libs).None?;
      assert j <= 1;
    }
  }

  /** The text `_extract_text` yields for an extension. */
  function ExtractedText(bytes: Bytes, ext: string, libs: Libraries): Result<string>
  {
    if ext == ".pdf" then PdfText(libs.pdf)
    else if ext == ".txt" then Ok(if libs.utf8.Some? then libs.utf8.value else Latin1(bytes))
    else if ext in {".docx", ".doc"} then DocxText(libs.docx)
    else if ext in {".pptx", ".ppt"} then PptxText(libs.pptx)
    else Err(ValueError("Extrator não implementado para: " + ext))
  }

  /** Every supported extension reaches an extractor: text files always decode,
      and any other failure is the extractor's own "Erro ao processar" error. */
  lemma SupportedExtensionsDispatch(bytes: Bytes, ext: string, libs: Libraries)
    requires ext in SupportedExtensions
    ensures ext == ".txt" ==> ExtractedText(bytes, ext, libs).Ok?
    ensures ExtractedText(bytes, ext, libs).Err? ==>
      ExtractedText(bytes, ext, libs).error.ValueError? &&
      StartsWith(ExtractedText(bytes, ext, libs).error.msg, "Erro ao processar ")
  {
    var prefix := "Erro ao processar ";
    forall kind: string, reason: string
      ensures StartsWith(prefix + kind + reason, prefix)
    {
      assert (prefix + kind + reason)[..|prefix|] == prefix;
    }
  }

  /** `_extract_text`: `.doc` shares the DOCX extractor and `.ppt` the PPTX one. */
  method ExtractText(bytes: Bytes, ext: string, libs: Libraries) returns (r: Result<string>)
    ensures r == ExtractedText(bytes, ext, libs)
  {
    if ext == ".pdf" {
      r := ExtractFromPdf(libs.pdf);
    } else if ext == ".txt" {
      r := ExtractFromTxt(bytes, libs);
      TxtNeverFails(bytes, libs, r);
    } else if ext in [".docx", ".doc"] {
      r := ExtractFromDocx(libs.docx);
    } else if ext in [".pptx", ".ppt"] {
      r := ExtractFromPptx(libs.pptx);
    } else {
      r := Err(ValueError("Extrator não implementado para: " + ext));
    }
  }

  /** The outcome of the PDF extractor, as a value. */
  function PdfText(pdf: Parsed<PdfDocument>): Result<string>
  {
    match pdf
    case Parsed(doc) => Ok(Join("\n\n", PdfParts(doc.pages)))
    case Unreadable(reason) => Err(ValueError("Erro ao processar PDF: " + reason))
  }

  function DocxText(docx: Parsed<DocxDocument>): Result<string>
  {
    match docx
    case Parsed(doc) => Ok(Join("\n\n", DocxParts(doc)))
    case Unreadable(reason) => Err(ValueError("Erro ao processar DOCX: " + reason))
  }

  function PptxText(pptx: Parsed<PptxDocument>): Result<string>
  {
    match pptx
    case Parsed(doc) => Ok(Join("\n\n", PptxParts(doc.slides)))
    case Unreadable(reason) => Err(ValueError("Erro ao processar PPTX: " + reason))
  }

  /** The four entries every metadata dict starts with. `sizeMb` is the text
      of `round(len / 1048576, 2)`. */
  function BaseMetadata(name: string, ext: string, size: nat, sizeMb: string): Dict
  {
    [("file_name", JStr(name)), ("file_extension", JStr(ext)),
     ("file_size_bytes", JInt(size)), ("file_size_mb", JFloat(sizeMb))]
  }

  function StrDict(entries: seq<(string, string)>): (d: Dict)
    ensures |d| == |entries|
    ensures forall i :: 0 <= i < |d| ==> d[i] == (entries[i].0, JStr(entries[i].1))
  {
    seq(|entries|, i requires 0 <= i < |entries| => (entries[i].0, JStr(entries[i].1)))
  }

  /** The entries `_extract_metadata` adds after the base ones. */
  function FormatMetadata(ext: string, libs: Libraries): Dict
  {
    if ext == ".pdf" then PdfMetadata(libs.pdf)
    else if ext in {".docx", ".doc"} then DocxMetadata(libs.docx)
    else if ext in {".pptx", ".ppt"} then PptxMetadata(libs.pptx)
    else []
  }

  function PdfMetadata(pdf: Parsed<PdfDocument>): Dict
  {
    match pdf
    case Unreadable(_) => []
    case Parsed(doc) =>
      [("num_pages", JInt(|doc.pages|)), ("is_encrypted", JBool(doc.encrypted))] +
      (match doc.info
       case Info(entries) => if entries != [] then [("pdf_metadata", JObj(StrDict(entries)))] else []
       case _ => [])
  }

  function DocxMetadata(docx: Parsed<DocxDocument>): Dict
  {
    match docx
    case Unreadable(_) => []
    case Parsed(doc) =>
      [("num_paragraphs", JInt(|doc.paragraphs|)), ("num_tables", JInt(|doc.tables|))] +
      (match doc.core
       case Some(p) => [("docx_metadata", CorePropertiesJson(p))]
       case None => [])
  }

  function CorePropertiesJson(p: CoreProperties): Json
  {
    JObj([("title", p.title), ("author", p.author), ("created", JStr(p.created)), ("modified", JStr(p.modified))])
  }

  function PptxMetadata(pptx: Parsed<PptxDocument>): Dict
  {
    match pptx
    case Unreadable(_) => []
    case Parsed(doc) => [("num_slides", JInt(|doc.slides|))]
  }

  /** The keys the format branches of `_extract_metadata` write. */
  const FormatKeys: set<string> :=
    {"num_pages", "is_encrypted", "pdf_metadata", "num_paragraphs", "num_tables", "docx_metadata", "num_slides"}

  predicate AvoidsFormatKeys(d: Dict)
  {
    forall i :: 0 <= i < |d| ==> d[i].0 !in FormatKeys
  }

  /** The base entries leave every format key free. */
  lemma BaseAvoidsFormatKeys(name: string, ext: string, size: nat, sizeMb: string)
    ensures AvoidsFormatKeys(BaseMetadata(name, ext, size, sizeMb))
  {
    var d := BaseMetadata(name, ext, size, sizeMb);
    assert d[0].0 == "file_name" && d[1].0 == "file_extension";
    assert d[2].0 == "file_size_bytes" && d[3].0 == "file_size_mb";
  }

  /** `_extract_metadata`: the base entries, then the format's entries; a
      library failure only cuts the format's entries short. */
  method ExtractMetadata(bytes: Bytes, ext: string, name: string, sizeMb: string, libs: Libraries)
    returns (metadata: Dict)
    ensures metadata == BaseMetadata(name, ext, |bytes|, sizeMb) + FormatMetadata(ext, libs)
    ensures metadata[..4] == BaseMetadata(name, ext, |bytes|, sizeMb)
  {
    metadata := BaseMetadata(name, ext, |bytes|, sizeMb);
    BaseAvoidsFormatKeys(name, ext, |bytes|, sizeMb);
    var base := metadata;
    if ext == ".pdf" {
      metadata := AddPdfMetadata(metadata, libs.pdf);
    } else if ext in [".docx", ".doc"] {
      metadata := AddDocxMetadata(metadata, libs.docx);
    } else if ext in [".pptx", ".ppt"] {
      metadata := AddPptxMetadata(metadata, libs.pptx);
    }
    assert metadata[..4] == base;
  }

  /** The PDF branch of `_extract_metadata`. */
  method AddPdfMetadata(d: Dict, pdf: Parsed<PdfDocument>) returns (metadata: Dict)
    requires AvoidsFormatKeys(d)
    ensures metadata == d + PdfMetadata(pdf)
  {
    metadata := d;
    match pdf {
      case Parsed(doc) =>
        metadata := Append(Append(metadata, "num_pages", JInt(|doc.pages|)), "is_encrypted", JBool(doc.encrypted));
        match doc.info {
          case Info(entries) =>
            if entries != [] {
              metadata := Append(metadata, "pdf_metadata", JObj(StrDict(entries)));
            }
          case _ =>
        }
      case Unreadable(_) =>
    }
  }

  /** The DOCX branch of `_extract_metadata`. */
  method AddDocxMetadata(d: Dict, docx: Parsed<DocxDocument>) returns (metadata: Dict)
    requires AvoidsFormatKeys(d)
    ensures metadata == d + DocxMetadata(docx)
  {
    metadata := d;
    match docx {
      case Parsed(doc) =>
        metadata := Append(Append(metadata, "num_paragraphs", JInt(|doc.paragraphs|)), "num_tables", JInt(|doc.tables|));
        match doc.core {
          case Some(p) =>
            metadata := Append(metadata, "docx_metadata", CorePropertiesJson(p));
          case None =>
        }
      case Unreadable(_) =>
    }
  }

  /** The PPTX branch of `_extract_metadata`. */
  method AddPptxMetadata(d: Dict, pptx: Parsed<PptxDocument>) returns (metadata: Dict)
    requires AvoidsFormatKeys(d)
    ensures metadata == d + PptxMetadata(pptx)
  {
    metadata := d;
    match pptx {
      case Parsed(doc) =>
        metadata := Append(metadata, "num_slides", JInt(|doc.slides|));
      case Unreadable(_) =>
    }
  }

  /** `d[k] = v` for a key that `d` does not hold yet: the item goes at the end. */
  function Append(d: Dict, k: string, v: Json): (r: Dict)
    requires forall i :: 0 <= i < |d| ==> d[i].0 != k
    ensures r == d + [(k, v)]
  {
    PutNew(d, k, v);
    Put(d, k, v)
  }

  /** The message for an unsupported extension. Python prints the supported
      set in its own iteration order; the model fixes one order. */
  function UnsupportedMessage(ext: string): string
  {
    "Formato não suportado: " + ext + ". Formatos suportados: .pdf, .txt, .docx, .doc, .pptx, .ppt"
  }

  /** `process_file`. `sizeMb` and `now` are the rendered float and clock values. */
  method ProcessFile(bytes: Bytes, name: string, libs: Libraries, sizeMb: string, now: string)
    returns (r: Result<ProcessedDocument>)
    ensures Extension(name) !in SupportedExtensions ==> r == Err(ValueError(UnsupportedMessage(Extension(name))))
    ensures Extension(name) in SupportedExtensions && ExtractedText(bytes, Extension(name), libs).Err? ==>
      r == Err(ExtractedText(bytes, Extension(name), libs).error)
    ensures Extension(name) in SupportedExtensions && ExtractedText(bytes, Extension(name), libs).Ok? ==>
      var ext := Extension(name);
      r == Ok(ProcessedDocument(ExtractedText(bytes, ext, libs).value,
        BaseMetadata(name, ext, |bytes|, sizeMb) + FormatMetadata(ext, libs), name, |bytes|, ext, now))
  {
    var ext := Extension(name);
    if ext !in SupportedExtensions {
      return Err(ValueError(UnsupportedMessage(ext)));
    }
    var content :- ExtractText(bytes, ext, libs);
    var metadata := ExtractMetadata(bytes, ext, name, sizeMb, libs);
    r := Ok(ProcessedDocument(content, metadata, name, |bytes|, ext, now));
  }
}
