/** Text extraction: MIME routing, the 1 MiB truncation rule, the encoding
    fallback and the text assembly of PDF, Word, spreadsheet, presentation
    and notebook files. MIME detection, the document parsers, JSON parsing
    and file reading are not part of this model: what they produce for one
    file is a `FileContent` value. */
module Extractor {
  import opened Wrappers
  import opened Text
  import opened Logger

  const PdfMime: string := "application/pdf"
  const ApplicationPrefix: string := "application/"
  const DocxMime: string := ApplicationPrefix + "vnd.openxmlformats-officedocument.wordprocessingml.document"
  const XlsxMime: string := ApplicationPrefix + "vnd.openxmlformats-officedocument.spreadsheetml.sheet"
  const PptxMime: string := ApplicationPrefix + "vnd.openxmlformats-officedocument.presentationml.presentation"
  const JavascriptMime: string := "application/javascript"
  const JsonMime: string := "application/json"

  /** The MIME type reported when extraction raises. */
  const UnknownMime: string := "unknown"

  // ---------------------------------------------------------------- truncation

  const MaxTextChars: nat := 1024 * 1024
  const TruncationMarker: string := "... [truncated]"

  /** Text longer than 1 MiB characters is cut to its first 1 MiB characters
      followed by the truncation marker; shorter text is kept whole. */
  function Truncate(content: string): (r: string)
    ensures |r| == if |content| <= MaxTextChars then |content| else MaxTextChars + |TruncationMarker|
    ensures |content| <= MaxTextChars ==> r == content
    ensures |content| > MaxTextChars ==>
              r[..MaxTextChars] == content[..MaxTextChars] && EndsWith(r, TruncationMarker)
  {
    if |content| > MaxTextChars then content[..MaxTextChars] + TruncationMarker else content
  }

  /** Truncating twice is truncating once. */
  lemma TruncateIdempotent(content: string)
    ensures Truncate(Truncate(content)) == Truncate(content)
  {
    if |content| > MaxTextChars {
      var t := Truncate(content);
      assert t[..MaxTextChars] == content[..MaxTextChars];
    }
  }

  // ---------------------------------------------------------- plain text files

  /** The encodings tried, in order. */
  const Encodings: seq<string> := ["utf-8", "latin-1", "cp1252", "iso-8859-1"]

  /** Opening and reading with one encoding: the text, a decode error (try
      the next encoding), or any other error (extraction gives ""). */
  datatype ReadOutcome = Read(text: string) | DecodeFailure | ReadFailure

  /** The outcome of trying the encodings from index `i` onwards; when all
      fail to decode, the lenient UTF-8 read (`lenient`, None when it
      raises) decides. */
  function TextFromEncoding(decode: string -> ReadOutcome, lenient: Option<string>, i: nat): string
    requires i <= |Encodings|
    decreases |Encodings| - i
  {
    if i == |Encodings| then
      (match lenient case Some(t) => Truncate(t) case None => "")
    else
      match decode(Encodings[i])
      case Read(t) => Truncate(t)
      case ReadFailure => ""
      case DecodeFailure => TextFromEncoding(decode, lenient, i + 1)
  }

  /** `_extract_text_file` as a function of the per-encoding outcomes. */
  function TextFileContent(decode: string -> ReadOutcome, lenient: Option<string>): string {
    TextFromEncoding(decode, lenient, 0)
  }

  lemma {:induction false} EncodingsSkipped(decode: string -> ReadOutcome, lenient: Option<string>, k: nat, i: nat)
    requires k <= i < |Encodings| && decode(Encodings[i]).Read?
    requires forall j :: k <= j < i ==> decode(Encodings[j]).DecodeFailure?
    ensures TextFromEncoding(decode, lenient, k) == Truncate(decode(Encodings[i]).text)
    decreases i - k
  {
    if k < i {
      EncodingsSkipped(decode, lenient, k + 1, i);
    }
  }

  /** The first encoding that decodes wins: earlier encodings that fail to
      decode are skipped and later ones are never tried. */
  lemma FirstDecodingWins(decode: string -> ReadOutcome, lenient: Option<string>, i: nat)
    requires i < |Encodings| && decode(Encodings[i]).Read?
    requires forall j :: 0 <= j < i ==> decode(Encodings[j]).DecodeFailure?
    ensures TextFileContent(decode, lenient) == Truncate(decode(Encodings[i]).text)
  {
    EncodingsSkipped(decode, lenient, 0, i);
  }

  /** `_extract_text_file`: tries the encodings in order. */
  method ExtractTextFile(decode: string -> ReadOutcome, lenient: Option<string>) returns (r: string)
    ensures r == TextFileContent(decode, lenient)
  {
    var i := 0;
    while i < |Encodings|
      invariant 0 <= i <= |Encodings|
      invariant TextFileContent(decode, lenient) == TextFromEncoding(decode, lenient, i)
    {
      match decode(Encodings[i]) {
        case Read(t) => return Truncate(t);
        case ReadFailure => return "";
        case DecodeFailure =>
      }
      i := i + 1;
    }
    match lenient {
      case Some(t) => r := Truncate(t);
      case None => r := "";
    }
  }

  // ------------------------------------------------------------- PDF and Word

  /** Each page's text followed by a newline. */
  function PagesText(pages: seq<string>): string {
    if pages == [] then [] else PagesText(pages[..|pages| - 1]) + pages[|pages| - 1] + "\n"
  }

  /** `_extract_pdf` once the library is present; None when the reader or a
      page raises. */
  function PdfText(pages: Option<seq<string>>): string {
    match pages
    case Some(ps) => Strip(PagesText(ps))
    case None => ""
  }

  /** `_extract_pdf`'s page loop. */
  method ExtractPdf(pages: Option<seq<string>>) returns (r: string)
    ensures r == PdfText(pages)
  {
    if pages.None? {
      return "";
    }
    var ps := pages.value;
    var text := "";
    for i := 0 to |ps|
      invariant text == PagesText(ps[..i])
    {
      assert ps[..i + 1][..i] == ps[..i];
      text := text + ps[i] + "\n";
    }
    assert ps[..|ps|] == ps;
    r := Strip(text);
  }

  lemma {:induction false} LStripAppend(s: string, c: char)
    ensures LStrip(s) != [] ==> LStrip(s + [c]) == LStrip(s) + [c]
    ensures LStrip(s) == [] ==> LStrip(s + [c]) == LStrip([c])
  {
    if |s| > 0 && IsSpace(s[0]) {
      assert (s + [c])[1..] == s[1..] + [c];
      LStripAppend(s[1..], c);
    } else if |s| == 0 {
      assert s + [c] == [c];
    }
  }

  /** A trailing whitespace character never survives stripping. */
  lemma StripDropsTrailingSpace(s: string, c: char)
    requires IsSpace(c)
    ensures Strip(s + [c]) == Strip(s)
  {
    LStripAppend(s, c);
    var l := LStrip(s);
    if l != [] {
      assert (l + [c])[..|l|] == l;
    }
  }

  /** A one-page PDF yields that page's text, stripped: the newline added
      after the page is removed again. */
  lemma PdfSinglePage(page: string)
    ensures PdfText(Some([page])) == Strip(page)
  {
    assert [page][..0] == [];
    assert PagesText([page]) == page + "\n";
    StripDropsTrailingSpace(page, '\n');
  }

  /** `_extract_docx` once the library is present: paragraphs joined by
      newlines, stripped; "" when the parser raises. */
  function DocxText(paragraphs: Option<seq<string>>): (r: string)
    ensures paragraphs.None? ==> r == ""
    ensures paragraphs.Some? && |paragraphs.value| == 1 ==> r == Strip(paragraphs.value[0])
    ensures r != [] ==> !IsSpace(r[0]) && !IsSpace(r[|r| - 1])
  {
    match paragraphs
    case Some(ps) => StripEnds(Join("\n", ps)); Strip(Join("\n", ps))
    case None => ""
  }

  // ------------------------------------------- spreadsheets and presentations

  /** Items grouped as sheets of rows, or slides of shapes: every item whose
      text is not blank contributes its text and a newline, in order. */
  function ItemsText<T>(items: seq<T>, piece: T -> string): string {
    if items == [] then []
    else
      var last := piece(items[|items| - 1]);
      ItemsText(items[..|items| - 1], piece) + (if IsBlank(last) then [] else last + "\n")
  }

  function GroupsText<T>(groups: seq<seq<T>>, piece: T -> string): string {
    if groups == [] then []
    else GroupsText(groups[..|groups| - 1], piece) + ItemsText(groups[|groups| - 1], piece)
  }

  /** The inner loop: appends every non-blank item's text and a newline. */
  method AppendItems<T>(before: string, items: seq<T>, piece: T -> string) returns (text: string)
    ensures text == before + ItemsText(items, piece)
  {
    text := before;
    for j := 0 to |items|
      invariant text == before + ItemsText(items[..j], piece)
    {
      var t := piece(items[j]);
      ghost var done := ItemsText(items[..j], piece);
      ghost var added: string := if IsBlank(t) then [] else t + "\n";
      assert items[..j + 1][..j] == items[..j];
      assert ItemsText(items[..j + 1], piece) == done + added;
      if !IsBlank(t) {
        text := text + (t + "\n");
      }
      assert text == (before + done) + added;
      assert (before + done) + added == before + (done + added);
    }
    assert items[..|items|] == items;
  }

  /** The nested accumulation loop shared by the spreadsheet and the
      presentation extractors. */
  method AssembleLines<T>(groups: seq<seq<T>>, piece: T -> string) returns (text: string)
    ensures text == GroupsText(groups, piece)
  {
    text := "";
    for i := 0 to |groups|
      invariant text == GroupsText(groups[..i], piece)
    {
      assert groups[..i + 1][..i] == groups[..i];
      assert groups[..i + 1][i] == groups[i];
      text := AppendItems(text, groups[i], piece);
    }
    assert groups[..|groups|] == groups;
  }

  lemma {:induction false} BlankItemsContributeNothing<T>(items: seq<T>, piece: T -> string)
    requires forall k :: 0 <= k < |items| ==> IsBlank(piece(items[k]))
    ensures ItemsText(items, piece) == []
  {
    if items != [] {
      BlankItemsContributeNothing(items[..|items| - 1], piece);
    }
  }

  /** When every item is blank, nothing is assembled. */
  lemma {:induction false} BlankGroupsContributeNothing<T>(groups: seq<seq<T>>, piece: T -> string)
    requires forall g, k :: 0 <= g < |groups| && 0 <= k < |groups[g]| ==> IsBlank(piece(groups[g][k]))
    ensures GroupsText(groups, piece) == []
  {
    if groups != [] {
      BlankGroupsContributeNothing(groups[..|groups| - 1], piece);
      BlankItemsContributeNothing(groups[|groups| - 1], piece);
    }
  }

  /** A worksheet cell: no value, or the value's `str`. */
  datatype Cell = NoValue | Value(text: string)

  /** The cells that hold a value, as text, in column order. */
  function PresentCells(row: seq<Cell>): (r: seq<string>)
    ensures |r| <= |row|
  {
    if row == [] then []
    else PresentCells(row[..|row| - 1]) + (match row[|row| - 1] case Value(t) => [t] case NoValue => [])
  }

  /** A row's text: its valued cells joined by single spaces. */
  function RowText(row: seq<Cell>): string {
    Join(" ", PresentCells(row))
  }

  /** A row with no valued cell is blank and is skipped. */
  lemma {:induction false} EmptyRowIsBlank(row: seq<Cell>)
    requires forall k :: 0 <= k < |row| ==> row[k].NoValue?
    ensures RowText(row) == []
  {
    if row != [] {
      EmptyRowIsBlank(row[..|row| - 1]);
    }
  }

  /** `_extract_xlsx` once the library is present: sheets of rows; None
      when the workbook cannot be loaded. */
  function XlsxText(workbook: Option<seq<seq<seq<Cell>>>>): string {
    match workbook
    case Some(sheets) => Strip(GroupsText(sheets, RowText))
    case None => ""
  }

  method ExtractXlsx(workbook: Option<seq<seq<seq<Cell>>>>) returns (r: string)
    ensures r == XlsxText(workbook)
  {
    if workbook.None? {
      return "";
    }
    var text := AssembleLines(workbook.value, RowText);
    r := Strip(text);
  }

  /** A workbook whose cells are all empty yields "". */
  lemma EmptyWorkbookText(sheets: seq<seq<seq<Cell>>>)
    requires forall s, k, c :: 0 <= s < |sheets| && 0 <= k < |sheets[s]| && 0 <= c < |sheets[s][k]| ==>
               sheets[s][k][c].NoValue?
    ensures XlsxText(Some(sheets)) == []
  {
    forall s, k | 0 <= s < |sheets| && 0 <= k < |sheets[s]|
      ensures IsBlank(RowText(sheets[s][k]))
    {
      EmptyRowIsBlank(sheets[s][k]);
    }
    BlankGroupsContributeNothing(sheets, RowText);
  }

  /** A slide shape: None when it has no text attribute. */
  datatype Shape = Shape(text: Option<string>)

  function ShapeText(s: Shape): string {
    s.text.GetOr("")
  }

  /** `_extract_pptx` once the library is present: slides of shapes; None
      when the presentation cannot be loaded. */
  function PptxText(slides: Option<seq<seq<Shape>>>): string {
    match slides
    case Some(ss) => Strip(GroupsText(ss, ShapeText))
    case None => ""
  }

  method ExtractPptx(slides: Option<seq<seq<Shape>>>) returns (r: string)
    ensures r == PptxText(slides)
  {
    if slides.None? {
      return "";
    }
    var text := AssembleLines(slides.value, ShapeText);
    r := Strip(text);
  }

  /** Shapes without text never contribute. */
  lemma TextlessSlidesText(slides: seq<seq<Shape>>)
    requires forall s, k :: 0 <= s < |slides| && 0 <= k < |slides[s]| ==> slides[s][k].text.None?
    ensures PptxText(Some(slides)) == []
  {
    forall s, k | 0 <= s < |slides| && 0 <= k < |slides[s]|
      ensures IsBlank(ShapeText(slides[s][k]))
    {
      StripEmptyIffAllSpace(ShapeText(slides[s][k]));
    }
    BlankGroupsContributeNothing(slides, ShapeText);
  }

  // ---------------------------------------------------------------- notebooks

  /** A notebook text field: a list of strings (joined) or any other value
      (its `str`). A missing field is the empty list. */
  datatype NbText = Lines(parts: seq<string>) | Scalar(repr: string)

  function NbTextOf(t: NbText): string {
    match t
    case Lines(parts) => Concat(parts)
    case Scalar(repr) => repr
  }

  /** An output; `outputType` is None when the key is missing. */
  datatype NbOutput = NbOutput(outputType: Option<string>, text: NbText)

  /** A cell; a missing type is "", missing source and outputs are []. */
  datatype NbCell = NbCell(cellType: string, source: NbText, outputs: seq<NbOutput>)

  /** Stream outputs contribute their text and a newline; others nothing. */
  function OutputsText(outputs: seq<NbOutput>): string {
    if outputs == [] then []
    else
      var o := outputs[|outputs| - 1];
      OutputsText(outputs[..|outputs| - 1]) + (if o.outputType == Some("stream") then NbTextOf(o.text) + "\n" else [])
  }

  predicate Contributes(c: NbCell) {
    c.cellType == "markdown" || c.cellType == "code"
  }

  /** Markdown cells contribute their source; code cells their source and
      their stream outputs; other cells nothing. */
  function CellText(c: NbCell): string {
    if c.cellType == "markdown" then NbTextOf(c.source) + "\n\n"
    else if c.cellType == "code" then NbTextOf(c.source) + "\n\n" + OutputsText(c.outputs)
    else []
  }

  function CellsText(cells: seq<NbCell>): string {
    if cells == [] then [] else CellsText(cells[..|cells| - 1]) + CellText(cells[|cells| - 1])
  }

  /** `_extract_jupyter_notebook`: None when the file cannot be read or
      parsed as a notebook. */
  function NotebookText(cells: Option<seq<NbCell>>): string {
    match cells
    case Some(cs) => Strip(CellsText(cs))
    case None => ""
  }

  /** The output loop of a code cell. */
  method AppendStreamOutputs(before: string, outputs: seq<NbOutput>) returns (text: string)
    ensures text == before + OutputsText(outputs)
  {
    text := before;
    for j := 0 to |outputs|
      invariant text == before + OutputsText(outputs[..j])
    {
      var o := outputs[j];
      ghost var done := OutputsText(outputs[..j]);
      ghost var added: string := if o.outputType == Some("stream") then NbTextOf(o.text) + "\n" else [];
      assert outputs[..j + 1][..j] == outputs[..j];
      assert OutputsText(outputs[..j + 1]) == done + added;
      if o.outputType == Some("stream") {
        text := text + (NbTextOf(o.text) + "\n");
      }
      assert (before + done) + added == before + (done + added);
    }
    assert outputs[..|outputs|] == outputs;
  }

  method ExtractNotebook(cells: Option<seq<NbCell>>) returns (r: string)
    ensures r == NotebookText(cells)
  {
    if cells.None? {
      return "";
    }
    var cs := cells.value;
    var text := "";
    for i := 0 to |cs|
      invariant text == CellsText(cs[..i])
    {
      var cell := cs[i];
      ghost var done := text;
      assert cs[..i + 1][..i] == cs[..i];
      assert CellsText(cs[..i + 1]) == done + CellText(cell);
      if cell.cellType == "markdown" {
        text := text + (NbTextOf(cell.source) + "\n\n");
      } else if cell.cellType == "code" {
        var src := NbTextOf(cell.source) + "\n\n";
        text := AppendStreamOutputs(text + src, cell.outputs);
        assert (done + src) + OutputsText(cell.outputs) == done + (src + OutputsText(cell.outputs));
      }
    }
    assert cs[..|cs|] == cs;
    r := Strip(text);
  }

  /** The cells that contribute, in order. */
  function ContributingCells(cells: seq<NbCell>): (r: seq<NbCell>)
    ensures forall k :: 0 <= k < |r| ==> Contributes(r[k])
  {
    if cells == [] then []
    else
      var c := cells[|cells| - 1];
      ContributingCells(cells[..|cells| - 1]) + (if Contributes(c) then [c] else [])
  }

  /** Only markdown and code cells contribute: dropping every other cell
      leaves the notebook's text unchanged. */
  lemma {:induction false} OnlyMarkdownAndCodeCount(cells: seq<NbCell>)
    ensures CellsText(cells) == CellsText(ContributingCells(cells))
  {
    if cells != [] {
      var n := |cells| - 1;
      var c := cells[n];
      OnlyMarkdownAndCodeCount(cells[..n]);
      var rest := ContributingCells(cells[..n]);
      assert CellsText(cells) == CellsText(cells[..n]) + CellText(c);
      if Contributes(c) {
        assert ContributingCells(cells) == rest + [c];
        assert (rest + [c])[..|rest|] == rest;
        assert CellsText(rest + [c]) == CellsText(rest) + CellText(c);
      } else {
        assert ContributingCells(cells) == rest;
        assert CellText(c) == [];
        assert CellsText(cells) == CellsText(cells[..n]) + [];
      }
    }
  }

  // ------------------------------------------------------------------ routing

  datatype Route = PdfRoute | DocxRoute | XlsxRoute | PptxRoute | TextRoute | NotebookRoute | NoRoute

  /** `extract_text`'s dispatch, branch by branch in the source's order. */
  function RouteFor(mime: string, path: string): Route {
    if mime == PdfMime then PdfRoute
    else if mime == DocxMime then DocxRoute
    else if mime == XlsxMime then XlsxRoute
    else if mime == PptxMime then PptxRoute
    else if StartsWith(mime, "text/") then TextRoute
    else if mime == JavascriptMime || mime == JsonMime then TextRoute
    else if EndsWith(path, ".ipynb") then NotebookRoute
    else NoRoute
  }

  /** A notebook detected as text or JSON takes the plain-text path; the
      notebook path is taken only for other MIME types. */
  lemma NotebookRouteOnlyForOtherMimes(mime: string, path: string)
    ensures StartsWith(mime, "text/") || mime == JsonMime ==> RouteFor(mime, path) == TextRoute
    ensures RouteFor(mime, path) == NotebookRoute <==>
              EndsWith(path, ".ipynb") &&
              mime !in {PdfMime, DocxMime, XlsxMime, PptxMime, JavascriptMime, JsonMime} &&
              !StartsWith(mime, "text/")
  {
    if StartsWith(mime, "text/") {
      assert mime[0] == 't';
      assert PdfMime[0] == 'a' && DocxMime[0] == 'a' && XlsxMime[0] == 'a' && PptxMime[0] == 'a';
    }
  }

  const ExtractableTypes: set<string> := {PdfMime, DocxMime, XlsxMime, PptxMime, JavascriptMime, JsonMime}

  /** `can_extract` */
  predicate CanExtract(mime: string) {
    mime in ExtractableTypes || StartsWith(mime, "text/")
  }

  /** `can_extract` holds exactly for the MIME types `extract_text` routes
      to an extractor by type alone: notebooks are extracted by name but
      not reported as extractable. */
  lemma CanExtractMatchesRouting(mime: string, path: string)
    ensures CanExtract(mime) <==> RouteFor(mime, path) !in {NotebookRoute, NoRoute}
  {
  }

  /** Which optional parser libraries are installed. */
  datatype Libraries = Libraries(pdf: bool, docx: bool, xlsx: bool, pptx: bool)

  const AllLibraries: Libraries := Libraries(true, true, true, true)

  /** What the file system, MIME detection and the parsers produce for one
      file. `mime` is the detected type or the detector's error message. */
  datatype FileContent = FileContent(
    mime: Result<string, string>,
    pages: Option<seq<string>>,
    paragraphs: Option<seq<string>>,
    workbook: Option<seq<seq<seq<Cell>>>>,
    slides: Option<seq<seq<Shape>>>,
    decode: string -> ReadOutcome,
    lenient: Option<string>,
    notebook: Option<seq<NbCell>>)

  const PdfMissing: string := "PyPDF2 not available for PDF extraction"
  const DocxMissing: string := "python-docx not available for Word document extraction"
  const XlsxMissing: string := "openpyxl not available for Excel extraction"
  const PptxMissing: string := "python-pptx not available for PowerPoint extraction"

  /** `extract_text` as a function: the (text, MIME type) pair, or the
      message of the exception that escapes to the outer handler. */
  function Extraction(path: string, f: FileContent, libs: Libraries): Result<(string, string), string> {
    match f.mime
    case Err(e) => Err(e)
    case Ok(m) =>
      match RouteFor(m, path)
      case PdfRoute => if libs.pdf then Ok((PdfText(f.pages), m)) else Err(PdfMissing)
      case DocxRoute => if libs.docx then Ok((DocxText(f.paragraphs), m)) else Err(DocxMissing)
      case XlsxRoute => if libs.xlsx then Ok((XlsxText(f.workbook), m)) else Err(XlsxMissing)
      case PptxRoute => if libs.pptx then Ok((PptxText(f.slides), m)) else Err(PptxMissing)
      case TextRoute => Ok((TextFileContent(f.decode, f.lenient), m))
      case NotebookRoute => Ok((NotebookText(f.notebook), m))
      case NoRoute => Ok(([], m))
  }

  /** Extraction raises only when MIME detection fails or a document type's
      library is missing; otherwise the detected MIME type is reported. */
  lemma ExtractionErrors(path: string, f: FileContent, libs: Libraries)
    ensures Extraction(path, f, libs).Err? <==>
      f.mime.Err? ||
      (var r := RouteFor(f.mime.value, path);
       (r == PdfRoute && !libs.pdf) || (r == DocxRoute && !libs.docx) ||
       (r == XlsxRoute && !libs.xlsx) || (r == PptxRoute && !libs.pptx))
    ensures Extraction(path, f, libs).Ok? ==> Extraction(path, f, libs).value.1 == f.mime.value
    ensures f.mime.Ok? && RouteFor(f.mime.value, path) == NoRoute ==>
              Extraction(path, f, libs) == Ok(([], f.mime.value))
  {
  }

  class TextExtractor {
    /** The logger failures are recorded in (shared with the manager). */
    const logger: IndexingLogger

    constructor (logger: IndexingLogger)
      ensures this.logger == logger
    {
      this.logger := logger;
    }

    /** `extract_text`: routes on the detected MIME type; an escaping
        exception is recorded as a failure and yields ("", "unknown"). */
    method ExtractText(path: string, f: FileContent, libs: Libraries) returns (text: string, mime: string)
      requires logger.Valid()
      modifies logger
      ensures logger.Valid()
      ensures Extraction(path, f, libs).Ok? ==>
                (text, mime) == Extraction(path, f, libs).value && unchanged(logger)
      ensures Extraction(path, f, libs).Err? ==>
                text == [] && mime == UnknownMime &&
                LoggedFailure(logger, path, Extraction(path, f, libs).error)
    {
      if f.mime.Err? {
        logger.LogFileFailed(path, f.mime.error);
        return [], UnknownMime;
      }
      mime := f.mime.value;
      match RouteFor(mime, path) {
        case PdfRoute =>
          if !libs.pdf {
            logger.LogFileFailed(path, PdfMissing);
            return [], UnknownMime;
          }
          text := ExtractPdf(f.pages);
        case DocxRoute =>
          if !libs.docx {
            logger.LogFileFailed(path, DocxMissing);
            return [], UnknownMime;
          }
          text := DocxText(f.paragraphs);
        case XlsxRoute =>
          if !libs.xlsx {
            logger.LogFileFailed(path, XlsxMissing);
            return [], UnknownMime;
          }
          text := ExtractXlsx(f.workbook);
        case PptxRoute =>
          if !libs.pptx {
            logger.LogFileFailed(path, PptxMissing);
            return [], UnknownMime;
          }
          text := ExtractPptx(f.slides);
        case TextRoute =>
          text := ExtractTextFile(f.decode, f.lenient);
        case NotebookRoute =>
          text := ExtractNotebook(f.notebook);
        case NoRoute =>
          text := [];
      }
    }
  }
}
