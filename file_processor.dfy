/**
 * Text extraction from uploaded files: the extension table, the dispatch of
 * `extract_text` and its result, the encoding fallback for plain text, and
 * how the PDF, Word, Excel and PowerPoint extractors assemble their parts.
 *
 * The document parsers are parameters: each turns the file's bytes into what
 * the extractor reads (page texts, paragraphs and table cells, sheets and
 * their rows, slides and their shapes), or into the message of the exception
 * it raised, a missing library included.
 */
module FileProcessor {
  import opened Wrappers
  import opened Text
  import opened Codecs

  datatype FileType = PlainText | Pdf | Docx | Excel | Pptx

  /** The name `SUPPORTED_EXTENSIONS` gives each type. */
  function TypeName(t: FileType): string {
    match t
    case PlainText => "text"
    case Pdf => "pdf"
    case Docx => "docx"
    case Excel => "excel"
    case Pptx => "pptx"
  }

  /** The keys of `SUPPORTED_EXTENSIONS`, in declaration order. */
  const SupportedExtensions: seq<string> := [".txt", ".md", ".pdf", ".docx", ".doc", ".xlsx", ".xls", ".pptx", ".ppt"]

  /** `SUPPORTED_EXTENSIONS[ext]`, None for an extension it does not list. */
  function ExtensionType(ext: string): Option<FileType> {
    if ext == ".txt" || ext == ".md" then Some(PlainText)
    else if ext == ".pdf" then Some(Pdf)
    else if ext == ".docx" || ext == ".doc" then Some(Docx)
    else if ext == ".xlsx" || ext == ".xls" then Some(Excel)
    else if ext == ".pptx" || ext == ".ppt" then Some(Pptx)
    else None
  }

  /** An extension has a type exactly when it is one of the nine listed. */
  lemma ExtensionTypeListed(ext: string)
    ensures ExtensionType(ext).Some? <==> ext in SupportedExtensions
  {
  }

  // ---------------------------------------------------------------------------
  // The extension of a file name

  function TrimTrailingSlashes(path: string): string {
    if |path| > 0 && path[|path| - 1] == '/' then TrimTrailingSlashes(path[..|path| - 1]) else path
  }

  /** `Path(path).name`: the last component. */
  function BaseName(path: string): string {
    var p := TrimTrailingSlashes(path);
    p[RFind(p, '/') + 1..]
  }

  /** `PurePath.suffix` of a name: from its last dot, unless that dot starts or ends it. */
  function Suffix(name: string): string {
    var i := RFind(name, '.');
    if 0 < i < |name| - 1 then name[i..] else ""
  }

  /** A suffix is empty, or a dot followed by at least one character none of which is a
      dot, ending the name and not the whole name. */
  lemma SuffixShape(name: string)
    ensures var r := Suffix(name);
            r == "" || (2 <= |r| < |name| && r[0] == '.' && name[|name| - |r|..] == r
                        && forall k :: 1 <= k < |r| ==> r[k] != '.')
    ensures (exists k :: 0 < k < |name| - 1 && name[k] == '.') && name[|name| - 1] != '.' ==> Suffix(name) != ""
  {
    RFindLast(name, '.');
  }

  function LowerChar(c: char): char {
    if 'A' <= c <= 'Z' then (c as int + 32) as char else c
  }

  /** `s.lower()` on ASCII letters. */
  function Lower(s: string): (r: string)
    ensures |r| == |s|
    ensures forall k :: 0 <= k < |s| ==> r[k] == LowerChar(s[k])
  {
    if |s| == 0 then "" else [LowerChar(s[0])] + Lower(s[1..])
  }

  /** `Path(filename).suffix.lower()` */
  function Extension(filename: string): string {
    Lower(Suffix(BaseName(filename)))
  }

  /** The case of the extension does not matter. */
  lemma ExtensionIgnoresCase(filename: string)
    ensures Extension(filename) == Lower(Extension(filename))
  {
    var e := Extension(filename);
    assert forall k :: 0 <= k < |e| ==> Lower(e)[k] == LowerChar(e[k]) == e[k];
  }

  // ---------------------------------------------------------------------------
  // Plain text

  datatype Encoding = Utf8 | Latin1 | Cp1252

  const Encodings: seq<Encoding> := [Utf8, Latin1, Cp1252]

  /** `content.decode(encoding)`, None when it raises; cp1252 is the parameter. */
  function DecodeAs(encoding: Encoding, content: seq<Byte>, cp1252: seq<Byte> -> Option<string>): Option<string> {
    match encoding
    case Utf8 => Utf8Decode(content)
    case Latin1 => Some(Latin1Decode(content))
    case Cp1252 => cp1252(content)
  }

  /** The text of a plain-text file: its UTF-8 reading, else its Latin-1 reading. */
  function PlainTextOf(content: seq<Byte>): string {
    match Utf8Decode(content)
    case Some(s) => s
    case None => Latin1Decode(content)
  }

  /** Valid UTF-8 is read as UTF-8, so any text written as UTF-8 reads back unchanged;
      anything else is read one character per byte. */
  lemma PlainTextReading(content: seq<Byte>, s: string)
    ensures PlainTextOf(Utf8Encode(s)) == s
    ensures Utf8Decode(content).None? ==>
              |PlainTextOf(content)| == |content|
              && forall i :: 0 <= i < |content| ==> PlainTextOf(content)[i] as int == content[i]
  {
    Utf8RoundTrip(s);
  }

  /** `_extract_text_plain`: tries the encodings in order and returns the first reading.
      Latin-1 reads every byte string, so the cp1252 attempt and the final error are
      never reached. */
  method ExtractTextPlain(content: seq<Byte>, cp1252: seq<Byte> -> Option<string>) returns (text: string)
    ensures text == PlainTextOf(content)
  {
    var i := 0;
    while i < |Encodings|
      invariant i <= 1
      invariant i == 1 ==> Utf8Decode(content).None?
    {
      var decoded := DecodeAs(Encodings[i], content, cp1252);
      if decoded.Some? {
        return decoded.value;
      }
      i := i + 1;
    }
    assert false;
  }

  // ---------------------------------------------------------------------------
  // Keeping the non-blank texts

  /** The texts that are not blank, in order. */
  function NonBlank(texts: seq<string>): seq<string> {
    if |texts| == 0 then []
    else
      var last := texts[|texts| - 1];
      NonBlank(texts[..|texts| - 1]) + (if IsBlank(last) then [] else [last])
  }

  lemma NonBlankSnoc(texts: seq<string>, t: string)
    ensures NonBlank(texts + [t]) == NonBlank(texts) + (if IsBlank(t) then [] else [t])
  {
    assert (texts + [t])[..|texts|] == texts;
  }

  /** A text is kept exactly when it is listed and not blank. */
  lemma {:induction false} NonBlankMembers(texts: seq<string>, s: string)
    ensures s in NonBlank(texts) <==> s in texts && !IsBlank(s)
  {
    if |texts| > 0 {
      var front := texts[..|texts| - 1];
      NonBlankMembers(front, s);
      assert texts == front + [texts[|texts| - 1]];
    }
  }

  /** Nothing is dropped from texts none of which is blank. */
  lemma {:induction false} NonBlankKeepsAll(texts: seq<string>)
    requires forall k :: 0 <= k < |texts| ==> !IsBlank(texts[k])
    ensures NonBlank(texts) == texts
  {
    if |texts| > 0 {
      NonBlankKeepsAll(texts[..|texts| - 1]);
    }
  }

  /** Cells joined with ` | ` are never blank once there are two of them. */
  lemma RowOfCellsNotBlank(cells: seq<string>)
    requires |cells| >= 2
    ensures !IsBlank(Join(" | ", cells))
  {
    var front := Join(" | ", cells[..|cells| - 1]);
    var row := Join(" | ", cells);
    assert row == front + " | " + cells[|cells| - 1];
    assert row[|front| + 1] == '|';
    StripEmpty(row);
  }

  // ---------------------------------------------------------------------------
  // PDF

  function PageLabel(n: nat): string {
    "[Page " + Decimal(n) + "]\n"
  }

  /** The parts of a PDF: each non-blank page, labelled with its number from 1. */
  function PdfParts(pages: seq<string>): seq<string> {
    if |pages| == 0 then []
    else
      var last := pages[|pages| - 1];
      PdfParts(pages[..|pages| - 1]) + (if IsBlank(last) then [] else [PageLabel(|pages|) + last])
  }

  /** Every non-blank page is kept under its own number. */
  lemma {:induction false} PdfKeepsPage(pages: seq<string>, k: nat)
    requires k < |pages| && !IsBlank(pages[k])
    ensures PageLabel(k + 1) + pages[k] in PdfParts(pages)
  {
    if k < |pages| - 1 {
      PdfKeepsPage(pages[..|pages| - 1], k);
    }
  }

  /** Every part is a non-blank page under its own number. */
  lemma {:induction false} PdfPartIsPage(pages: seq<string>, p: string)
    requires p in PdfParts(pages)
    ensures exists k :: 0 <= k < |pages| && !IsBlank(pages[k]) && p == PageLabel(k + 1) + pages[k]
  {
    var front := pages[..|pages| - 1];
    if p in PdfParts(front) {
      PdfPartIsPage(front, p);
      var k :| 0 <= k < |front| && !IsBlank(front[k]) && p == PageLabel(k + 1) + front[k];
      assert pages[k] == front[k];
    } else {
      assert pages[|pages| - 1] == pages[|pages| - 1];
    }
  }

  /** `_extract_text_pdf` after parsing. */
  method ExtractTextPdf(pages: seq<string>) returns (text: string)
    ensures text == Join("\n\n", PdfParts(pages))
  {
    var parts := [];
    var i := 0;
    while i < |pages|
      invariant i <= |pages|
      invariant parts == PdfParts(pages[..i])
    {
      assert pages[..i + 1][..i] == pages[..i];
      if !IsBlank(pages[i]) {
        parts := parts + [PageLabel(i + 1) + pages[i]];
      }
      i := i + 1;
    }
    assert pages[..i] == pages;
    text := Join("\n\n", parts);
  }

  // ---------------------------------------------------------------------------
  // Word

  /** A Word document as its parser presents it: paragraph texts, then tables of rows
      of cell texts. */
  datatype WordDocument = WordDocument(paragraphs: seq<string>, tables: seq<seq<seq<string>>>)

  function StripEach(cells: seq<string>): (r: seq<string>)
    ensures |r| == |cells|
  {
    if |cells| == 0 then [] else [Strip(cells[0])] + StripEach(cells[1..])
  }

  /** A table row: its cells stripped and joined with ` | `. */
  function WordRowText(cells: seq<string>): string {
    Join(" | ", StripEach(cells))
  }

  function WordRowTexts(rows: seq<seq<string>>): (r: seq<string>)
    ensures |r| == |rows|
  {
    if |rows| == 0 then [] else WordRowTexts(rows[..|rows| - 1]) + [WordRowText(rows[|rows| - 1])]
  }

  /** The rows of all tables kept: those whose text is not blank. */
  function TableParts(tables: seq<seq<seq<string>>>): seq<string> {
    if |tables| == 0 then []
    else TableParts(tables[..|tables| - 1]) + NonBlank(WordRowTexts(tables[|tables| - 1]))
  }

  /** The parts of a Word document: the non-blank paragraphs, then the kept table rows. */
  function WordParts(doc: WordDocument): seq<string> {
    NonBlank(doc.paragraphs) + TableParts(doc.tables)
  }

  /** No row of two cells or more is dropped. */
  lemma {:induction false} WordRowsKept(rows: seq<seq<string>>)
    requires forall k :: 0 <= k < |rows| ==> |rows[k]| >= 2
    ensures NonBlank(WordRowTexts(rows)) == WordRowTexts(rows)
  {
    forall k | 0 <= k < |rows| ensures !IsBlank(WordRowTexts(rows)[k]) {
      WordRowTextAt(rows, k);
      RowOfCellsNotBlank(StripEach(rows[k]));
    }
    NonBlankKeepsAll(WordRowTexts(rows));
  }

  lemma {:induction false} WordRowTextAt(rows: seq<seq<string>>, k: nat)
    requires k < |rows|
    ensures WordRowTexts(rows)[k] == WordRowText(rows[k])
  {
    if k < |rows| - 1 {
      WordRowTextAt(rows[..|rows| - 1], k);
    }
  }

  /** The paragraphs come first: a paragraph is among the leading parts exactly when it
      is not blank. */
  lemma WordParagraphsFirst(doc: WordDocument, s: string)
    ensures var n := |NonBlank(doc.paragraphs)|;
            n <= |WordParts(doc)|
            && (s in WordParts(doc)[..n] <==> s in doc.paragraphs && !IsBlank(s))
  {
    var n := |NonBlank(doc.paragraphs)|;
    assert WordParts(doc)[..n] == NonBlank(doc.paragraphs);
    NonBlankMembers(doc.paragraphs, s);
  }

  /** The row loop of `_extract_text_docx` for one table. */
  method AppendWordRows(parts: seq<string>, rows: seq<seq<string>>) returns (out: seq<string>)
    ensures out == parts + NonBlank(WordRowTexts(rows))
  {
    out := parts;
    var i := 0;
    while i < |rows|
      invariant i <= |rows|
      invariant out == parts + NonBlank(WordRowTexts(rows[..i]))
    {
      assert rows[..i + 1][..i] == rows[..i];
      var rowText := WordRowText(rows[i]);
      NonBlankSnoc(WordRowTexts(rows[..i]), rowText);
      if !IsBlank(rowText) {
        SnocAssoc(parts, NonBlank(WordRowTexts(rows[..i])), rowText);
        out := out + [rowText];
      }
      i := i + 1;
    }
    assert rows[..i] == rows;
  }

  /** `_extract_text_docx` after parsing. */
  method ExtractTextDocx(doc: WordDocument) returns (text: string)
    ensures text == Join("\n\n", WordParts(doc))
  {
    var parts := [];
    var i := 0;
    while i < |doc.paragraphs|
      invariant i <= |doc.paragraphs|
      invariant parts == NonBlank(doc.paragraphs[..i])
    {
      assert doc.paragraphs[..i + 1][..i] == doc.paragraphs[..i];
      NonBlankSnoc(doc.paragraphs[..i], doc.paragraphs[i]);
      if !IsBlank(doc.paragraphs[i]) {
        parts := parts + [doc.paragraphs[i]];
      }
      i := i + 1;
    }
    assert doc.paragraphs[..i] == doc.paragraphs;
    var t := 0;
    while t < |doc.tables|
      invariant t <= |doc.tables|
      invariant parts == NonBlank(doc.paragraphs) + TableParts(doc.tables[..t])
    {
      assert doc.tables[..t + 1][..t] == doc.tables[..t];
      SeqAssoc(NonBlank(doc.paragraphs), TableParts(doc.tables[..t]), NonBlank(WordRowTexts(doc.tables[t])));
      parts := AppendWordRows(parts, doc.tables[t]);
      t := t + 1;
    }
    assert doc.tables[..t] == doc.tables;
    text := Join("\n\n", parts);
  }

  // ---------------------------------------------------------------------------
  // Excel

  /** A worksheet: its name and its rows of cells, each cell `str(value)` or None. */
  datatype Sheet = Sheet(name: string, rows: seq<seq<Option<string>>>)

  function CellText(cell: Option<string>): string {
    cell.GetOr("")
  }

  function CellTexts(cells: seq<Option<string>>): (r: seq<string>)
    ensures |r| == |cells|
  {
    if |cells| == 0 then [] else [CellText(cells[0])] + CellTexts(cells[1..])
  }

  /** A sheet row: its cells (None as empty) joined with ` | `, not stripped. */
  function SheetRowText(cells: seq<Option<string>>): string {
    Join(" | ", CellTexts(cells))
  }

  function SheetRowTexts(rows: seq<seq<Option<string>>>): (r: seq<string>)
    ensures |r| == |rows|
  {
    if |rows| == 0 then [] else SheetRowTexts(rows[..|rows| - 1]) + [SheetRowText(rows[|rows| - 1])]
  }

  function SheetLabel(name: string): string {
    "[Sheet: " + name + "]"
  }

  /** The parts of a workbook: per sheet its label, then its non-blank rows. */
  function ExcelParts(sheets: seq<Sheet>): seq<string> {
    if |sheets| == 0 then []
    else
      var last := sheets[|sheets| - 1];
      ExcelParts(sheets[..|sheets| - 1]) + [SheetLabel(last.name)] + NonBlank(SheetRowTexts(last.rows))
  }

  /** Every sheet is labelled, even one without a kept row. */
  lemma {:induction false} ExcelLabelsEverySheet(sheets: seq<Sheet>, k: nat)
    requires k < |sheets|
    ensures SheetLabel(sheets[k].name) in ExcelParts(sheets)
  {
    if k < |sheets| - 1 {
      ExcelLabelsEverySheet(sheets[..|sheets| - 1], k);
    }
  }

  /** A row of two cells or more is never dropped, even when its cells are all empty. */
  lemma SheetRowKept(cells: seq<Option<string>>)
    requires |cells| >= 2
    ensures !IsBlank(SheetRowText(cells))
  {
    RowOfCellsNotBlank(CellTexts(cells));
  }

  /** The row loop of `_extract_text_excel` for one sheet. */
  method AppendSheetRows(parts: seq<string>, rows: seq<seq<Option<string>>>) returns (out: seq<string>)
    ensures out == parts + NonBlank(SheetRowTexts(rows))
  {
    out := parts;
    var i := 0;
    while i < |rows|
      invariant i <= |rows|
      invariant out == parts + NonBlank(SheetRowTexts(rows[..i]))
    {
      assert rows[..i + 1][..i] == rows[..i];
      var rowText := SheetRowText(rows[i]);
      NonBlankSnoc(SheetRowTexts(rows[..i]), rowText);
      if !IsBlank(rowText) {
        SnocAssoc(parts, NonBlank(SheetRowTexts(rows[..i])), rowText);
        out := out + [rowText];
      }
      i := i + 1;
    }
    assert rows[..i] == rows;
  }

  /** `_extract_text_excel` after parsing. */
  method ExtractTextExcel(sheets: seq<Sheet>) returns (text: string)
    ensures text == Join("\n\n", ExcelParts(sheets))
  {
    var parts := [];
    var i := 0;
    while i < |sheets|
      invariant i <= |sheets|
      invariant parts == ExcelParts(sheets[..i])
    {
      assert sheets[..i + 1][..i] == sheets[..i];
      parts := parts + [SheetLabel(sheets[i].name)];
      parts := AppendSheetRows(parts, sheets[i].rows);
      i := i + 1;
    }
    assert sheets[..i] == sheets;
    text := Join("\n\n", parts);
  }

  // ---------------------------------------------------------------------------
  // PowerPoint

  /** A slide: the text of each shape, None for a shape without text. */
  type Slide = seq<Option<string>>

  /** The shapes of a slide kept: those with a non-blank text. */
  function ShapeParts(shapes: Slide): seq<string> {
    if |shapes| == 0 then []
    else
      var last := shapes[|shapes| - 1];
      ShapeParts(shapes[..|shapes| - 1]) + (if last.Some? && !IsBlank(last.value) then [last.value] else [])
  }

  /** A text is kept exactly when some shape has it and it is not blank. */
  lemma {:induction false} ShapePartsMembers(shapes: Slide, s: string)
    ensures s in ShapeParts(shapes) <==> Some(s) in shapes && !IsBlank(s)
  {
    if |shapes| > 0 {
      var front := shapes[..|shapes| - 1];
      ShapePartsMembers(front, s);
      assert shapes == front + [shapes[|shapes| - 1]];
    }
  }

  function SlideLabel(n: nat): string {
    "[Slide " + Decimal(n) + "]"
  }

  /** The parts of a presentation: per slide its label (numbered from 1), then its kept
      shape texts. */
  function PptxParts(slides: seq<Slide>): seq<string> {
    if |slides| == 0 then []
    else PptxParts(slides[..|slides| - 1]) + [SlideLabel(|slides|)] + ShapeParts(slides[|slides| - 1])
  }

  /** Every slide is labelled, even one without text. */
  lemma {:induction false} PptxLabelsEverySlide(slides: seq<Slide>, k: nat)
    requires k < |slides|
    ensures SlideLabel(k + 1) in PptxParts(slides)
  {
    if k < |slides| - 1 {
      PptxLabelsEverySlide(slides[..|slides| - 1], k);
    }
  }

  /** The shape loop of `_extract_text_pptx` for one slide. */
  method AppendShapeTexts(parts: seq<string>, shapes: Slide) returns (out: seq<string>)
    ensures out == parts + ShapeParts(shapes)
  {
    out := parts;
    var i := 0;
    while i < |shapes|
      invariant i <= |shapes|
      invariant out == parts + ShapeParts(shapes[..i])
    {
      assert shapes[..i + 1][..i] == shapes[..i];
      if shapes[i].Some? && !IsBlank(shapes[i].value) {
        SnocAssoc(parts, ShapeParts(shapes[..i]), shapes[i].value);
        out := out + [shapes[i].value];
      }
      i := i + 1;
    }
    assert shapes[..i] == shapes;
  }

  /** `_extract_text_pptx` after parsing. */
  method ExtractTextPptx(slides: seq<Slide>) returns (text: string)
    ensures text == Join("\n\n", PptxParts(slides))
  {
    var parts := [];
    var i := 0;
    while i < |slides|
      invariant i <= |slides|
      invariant parts == PptxParts(slides[..i])
    {
      assert slides[..i + 1][..i] == slides[..i];
      parts := parts + [SlideLabel(i + 1)];
      parts := AppendShapeTexts(parts, slides[i]);
      i := i + 1;
    }
    assert slides[..i] == slides;
    text := Join("\n\n", parts);
  }

  // ---------------------------------------------------------------------------
  // Dispatch

  /** The document parsers: each gives what its extractor reads, or the message of the
      exception it raised. */
  datatype Parsers = Parsers(
    cp1252: seq<Byte> -> Option<string>,
    pdf: seq<Byte> -> Result<seq<string>, string>,
    docx: seq<Byte> -> Result<WordDocument, string>,
    excel: seq<Byte> -> Result<seq<Sheet>, string>,
    pptx: seq<Byte> -> Result<seq<Slide>, string>)

  /** The result of `extract_text`. */
  datatype Extraction =
    | Extracted(text: string, filename: string, fileType: string, charCount: nat)
    | Unsupported(error: string, supportedTypes: seq<string>)
    | Failed(error: string)

  /** The text an extractor produces for a file of type `t`. */
  function TextOf(t: FileType, content: seq<Byte>, parsers: Parsers): Result<string, string> {
    match t
    case PlainText => Success(PlainTextOf(content))
    case Pdf =>
      (match parsers.pdf(content)
       case Success(pages) => Success(Join("\n\n", PdfParts(pages)))
       case Failure(e) => Failure(e))
    case Docx =>
      (match parsers.docx(content)
       case Success(doc) => Success(Join("\n\n", WordParts(doc)))
       case Failure(e) => Failure(e))
    case Excel =>
      (match parsers.excel(content)
       case Success(sheets) => Success(Join("\n\n", ExcelParts(sheets)))
       case Failure(e) => Failure(e))
    case Pptx =>
      (match parsers.pptx(content)
       case Success(slides) => Success(Join("\n\n", PptxParts(slides)))
       case Failure(e) => Failure(e))
  }

  function Extract(content: seq<Byte>, filename: string, parsers: Parsers): Extraction {
    var ext := Extension(filename);
    match ExtensionType(ext)
    case None => Unsupported("Unsupported file type: " + ext, SupportedExtensions)
    case Some(t) =>
      match TextOf(t, content, parsers)
      case Success(text) => Extracted(text, filename, TypeName(t), |text|)
      case Failure(e) => Failed("Error processing " + filename + ": " + e)
  }

  /** A file is refused exactly when its extension is not listed, and the refusal lists
      the nine extensions; a listed file's handler either yields its text or its failure
      is reported with the file name; an extracted file reports its own name, the listed type and
      the length of its text; plain-text files are never refused once listed. */
  lemma ExtractOutcome(content: seq<Byte>, filename: string, parsers: Parsers)
    ensures var r := Extract(content, filename, parsers);
            (r.Unsupported? <==> Extension(filename) !in SupportedExtensions)
            && (r.Unsupported? ==> r.error == "Unsupported file type: " + Extension(filename)
                                   && r.supportedTypes == SupportedExtensions && |r.supportedTypes| == 9)
            && (r.Extracted? ==> r.filename == filename && r.charCount == |r.text|
                                 && ExtensionType(Extension(filename)).Some?
                                 && r.fileType == TypeName(ExtensionType(Extension(filename)).value))
            && (r.Failed? ==> StartsWith(r.error, "Error processing " + filename + ": "))
            // the handler's outcome decides: its text is extracted, its failure reported
            && (ExtensionType(Extension(filename)).Some? ==>
                  var out := TextOf(ExtensionType(Extension(filename)).value, content, parsers);
                  && (out.Failure? ==> r == Failed("Error processing " + filename + ": " + out.error))
                  && (out.Success? ==> r == Extracted(out.value, filename,
                                                      TypeName(ExtensionType(Extension(filename)).value),
                                                      |out.value|)))
            && (ExtensionType(Extension(filename)) == Some(PlainText) ==>
                  r == Extracted(PlainTextOf(content), filename, "text", |PlainTextOf(content)|))
  {
    ExtensionTypeListed(Extension(filename));
  }

  /** `extract_text` */
  method ExtractText(content: seq<Byte>, filename: string, parsers: Parsers) returns (r: Extraction)
    ensures r == Extract(content, filename, parsers)
  {
    var ext := Extension(filename);
    var fileType := ExtensionType(ext);
    if fileType.None? {
      return Unsupported("Unsupported file type: " + ext, SupportedExtensions);
    }
    var text: string;
    match fileType.value {
      case PlainText =>
        text := ExtractTextPlain(content, parsers.cp1252);
      case Pdf =>
        match parsers.pdf(content) {
          case Failure(e) => return Failed("Error processing " + filename + ": " + e);
          case Success(pages) => text := ExtractTextPdf(pages);
        }
      case Docx =>
        match parsers.docx(content) {
          case Failure(e) => return Failed("Error processing " + filename + ": " + e);
          case Success(doc) => text := ExtractTextDocx(doc);
        }
      case Excel =>
        match parsers.excel(content) {
          case Failure(e) => return Failed("Error processing " + filename + ": " + e);
          case Success(sheets) => text := ExtractTextExcel(sheets);
        }
      case Pptx =>
        match parsers.pptx(content) {
          case Failure(e) => return Failed("Error processing " + filename + ": " + e);
          case Success(slides) => text := ExtractTextPptx(slides);
        }
    }
    r := Extracted(text, filename, TypeName(fileType.value), |text|);
  }
}
