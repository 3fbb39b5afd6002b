/** The process-pool extraction entry point. It shares every text assembly
    rule with `Extractor`; its routing has no notebook branch, a missing
    parser library yields "" instead of raising, and a failure is printed
    rather than recorded, so it touches no logger. */
module StandaloneExtraction {
  import opened Wrappers
  import opened Text
  import opened Extractor

  /** `extract_text_standalone`'s dispatch. */
  function StandaloneRouteFor(mime: string): Route {
    if mime == PdfMime then PdfRoute
    else if mime == DocxMime then DocxRoute
    else if mime == XlsxMime then XlsxRoute
    else if mime == PptxMime then PptxRoute
    else if StartsWith(mime, "text/") || mime == JavascriptMime || mime == JsonMime then TextRoute
    else NoRoute
  }

  /** The two dispatches agree except that a notebook goes unextracted here. */
  lemma RoutesAgreeExceptNotebooks(mime: string, path: string)
    ensures RouteFor(mime, path) != NotebookRoute ==> StandaloneRouteFor(mime) == RouteFor(mime, path)
    ensures RouteFor(mime, path) == NotebookRoute ==> StandaloneRouteFor(mime) == NoRoute
    ensures StandaloneRouteFor(mime) != NotebookRoute
  {
  }

  /** `extract_text_standalone` as a function: ("", "unknown") when MIME
      detection raises; a missing library gives "" with the detected type. */
  function StandaloneExtraction(f: FileContent, libs: Libraries): (string, string) {
    match f.mime
    case Err(_) => ([], UnknownMime)
    case Ok(m) =>
      match StandaloneRouteFor(m)
      case PdfRoute => (if libs.pdf then PdfText(f.pages) else [], m)
      case DocxRoute => (if libs.docx then DocxText(f.paragraphs) else [], m)
      case XlsxRoute => (if libs.xlsx then XlsxText(f.workbook) else [], m)
      case PptxRoute => (if libs.pptx then PptxText(f.slides) else [], m)
      case TextRoute => (TextFileContent(f.decode, f.lenient), m)
      case NotebookRoute => ([], m)
      case NoRoute => ([], m)
  }

  /** With every library installed, the standalone entry point extracts
      exactly what the logging extractor does, notebooks aside; a missing
      library that makes the logging extractor fail leaves the detected MIME
      type in place here. */
  lemma StandaloneAgreesWithExtractor(path: string, f: FileContent, libs: Libraries)
    ensures f.mime.Err? ==> StandaloneExtraction(f, libs) == ([], UnknownMime)
    ensures f.mime.Ok? && RouteFor(f.mime.value, path) != NotebookRoute && Extraction(path, f, libs).Ok? ==>
              StandaloneExtraction(f, libs) == Extraction(path, f, libs).value
    ensures f.mime.Ok? && Extraction(path, f, libs).Err? ==>
              StandaloneExtraction(f, libs) == ([], f.mime.value)
    ensures f.mime.Ok? && RouteFor(f.mime.value, path) == NotebookRoute ==>
              StandaloneExtraction(f, libs) == ([], f.mime.value)
  {
    if f.mime.Ok? {
      RoutesAgreeExceptNotebooks(f.mime.value, path);
    }
  }

  /** `extract_text_standalone`, calling the shared extraction loops. */
  method ExtractTextStandalone(f: FileContent, libs: Libraries) returns (text: string, mime: string)
    ensures (text, mime) == StandaloneExtraction(f, libs)
  {
    if f.mime.Err? {
      return [], UnknownMime;
    }
    mime := f.mime.value;
    match StandaloneRouteFor(mime) {
      case PdfRoute =>
        text := [];
        if libs.pdf {
          text := ExtractPdf(f.pages);
        }
      case DocxRoute =>
        text := if libs.docx then DocxText(f.paragraphs) else [];
      case XlsxRoute =>
        text := [];
        if libs.xlsx {
          text := ExtractXlsx(f.workbook);
        }
      case PptxRoute =>
        text := [];
        if libs.pptx {
          text := ExtractPptx(f.slides);
        }
      case TextRoute =>
        text := ExtractTextFile(f.decode, f.lenient);
      case NotebookRoute =>
        text := [];
      case NoRoute =>
        text := [];
    }
  }
}
