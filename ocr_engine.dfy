/**
 * The Python OCR engine (ocr.py): the lazily built EasyOCR reader, text
 * extraction from images and from PDFs rendered page by page, dispatch on the
 * file extension, and batch processing.
 *
 * EasyOCR, pdf2image and the file system are the outside world: an `Engine`
 * value says whether a path exists, how many pages a PDF renders to (or the
 * exception raised instead), and which texts the reader recognises in an image
 * or a page, in recognition order (or the exception raised instead).
 */
module OcrEngine {
  import opened Wrappers
  import opened Text

  // ---------------------------------------------------------------------------
  // The outside world
  // ---------------------------------------------------------------------------

  /** What the reader is pointed at: an image file, or page `index` (from 0) of a
      PDF rendered at `dpi`. */
  datatype Image = ImageFile(path: string) | PdfPage(path: string, dpi: int, index: nat)

  /** `fileExists` is `os.path.exists`; `render(path, dpi)` is the number of images
      `convert_from_path` returns, or its exception; `build(languages)` is the
      exception `easyocr.Reader(languages)` raises, if any, taken to be the same
      on every attempt with the same languages; `readtext(languages,
      image)` is the text of each detection that `readtext` of a reader built for
      `languages` returns, in order, or the exception raised instead. */
  datatype Engine = Engine(
    fileExists: string -> bool,
    render: (string, int) -> Result<nat>,
    build: seq<string> -> Option<string>,
    readtext: (seq<string>, Image) -> Result<seq<string>>)

  // ---------------------------------------------------------------------------
  // get_reader
  // ---------------------------------------------------------------------------

  /** An EasyOCR reader, known by the languages it was built for. */
  datatype Reader = Reader(languages: seq<string>)

  /** What `get_reader(languages)` returns when the module-level `_reader`
      holds `cached`: the cached reader whatever languages are asked for, else
      a new reader for `languages`, or the exception building it raised. */
  function GetReaderResult(env: Engine, cached: Option<Reader>, languages: seq<string>): Result<Reader> {
    if cached.Some? then Ok(cached.value)
    else if env.build(languages).Some? then Err(env.build(languages).value)
    else Ok(Reader(languages))
  }

  /** `_reader` after `get_reader(languages)`: set exactly when a reader was
      returned. */
  function CachedAfter(env: Engine, cached: Option<Reader>, languages: seq<string>): Option<Reader> {
    var r := GetReaderResult(env, cached, languages);
    if r.Ok? then Some(r.value) else None
  }

  /** The reader of a process that has not built one yet. */
  function FreshReader(env: Engine, languages: seq<string>): Result<Reader> {
    GetReaderResult(env, None, languages)
  }

  /** Asking again with the same languages gives the same answer, and leaves
      `_reader` as the first call left it. After a success this is `get_reader`'s
      own caching; after a failure it rests on `build` failing alike when
      `get_reader` retries it. */
  lemma ReaderIsStable(env: Engine, cached: Option<Reader>, languages: seq<string>)
    ensures GetReaderResult(env, CachedAfter(env, cached, languages), languages) == GetReaderResult(env, cached, languages)
    ensures CachedAfter(env, CachedAfter(env, cached, languages), languages) == CachedAfter(env, cached, languages)
  {
  }

  /** The module-level `_reader` and `get_reader`. */
  class ReaderCache {
    var reader: Option<Reader>

    constructor()
      ensures reader == None
    {
      reader := None;
    }

    /** `get_reader(languages)`: builds the reader on the first call and returns
        the same one ever after, whatever languages later calls pass; when
        building raises, nothing is cached. */
    method GetReader(env: Engine, languages: seq<string>) returns (r: Result<Reader>)
      modifies this
      ensures old(reader).Some? ==> r == Ok(old(reader).value) && reader == old(reader)
      ensures old(reader).None? && env.build(languages).None? ==>
                r == Ok(Reader(languages)) && reader == Some(Reader(languages))
      ensures old(reader).None? && env.build(languages).Some? ==>
                r == Err(env.build(languages).value) && reader == None
      ensures r == GetReaderResult(env, old(reader), languages) && reader == CachedAfter(env, old(reader), languages)
    {
      if reader.None? {
        var failure := env.build(languages);
        if failure.Some? {
          return Err(failure.value);
        }
        reader := Some(Reader(languages));
      }
      r := Ok(reader.value);
    }
  }

  /** Two calls in one process: the second returns the reader built for the
      first call's languages. */
  method ReaderIsBuiltOnce(env: Engine, first: seq<string>, second: seq<string>) returns (a: Result<Reader>, b: Result<Reader>)
    requires env.build(first).None?
    ensures a == Ok(Reader(first)) && b == a
  {
    var cache := new ReaderCache();
    a := cache.GetReader(env, first);
    b := cache.GetReader(env, second);
  }

  // ---------------------------------------------------------------------------
  // Results
  // ---------------------------------------------------------------------------

  /** One entry of `text_blocks` (its confidence and bounding box are not modelled). */
  datatype TextBlock = TextBlock(text: string)

  /** One entry of a PDF's `pages`. */
  datatype PageData = PageData(page: nat, blocks: seq<TextBlock>, pageText: string)

  /** What the extraction functions return: a plain string, or one of the
      dictionaries `{'status': 'success', ...}` (image or PDF) and
      `{'status': 'error', ...}` (with a `file` key only when an extraction
      function built it). */
  datatype Extraction =
    | PlainText(text: string)
    | ImageDetail(file: string, blocks: seq<TextBlock>, fullText: string)
    | PdfDetail(file: string, totalPages: nat, pages: seq<PageData>, fullText: string)
    | ErrorDetail(errorFile: Option<string>, error: string)

  /** `isinstance(result, dict)`. */
  predicate IsDict(e: Extraction) {
    !e.PlainText?
  }

  /** `isinstance(result, dict) and result.get('status') == 'success'`. */
  predicate IsSuccess(e: Extraction) {
    e.ImageDetail? || e.PdfDetail?
  }

  /** `'\n'.join(texts)`. */
  function JoinLines(texts: seq<string>): string {
    Join('\n', texts)
  }

  /** `os.path.basename`: the part after the last '/'. */
  function Basename(path: string): (name: string)
    ensures '/' !in name
    ensures |name| <= |path| && name == path[|path| - |name|..]
    ensures |name| < |path| ==> path[|path| - |name| - 1] == '/'
  {
    path[LastIndexOf(path, '/') + 1..]
  }

  /** `os.path.splitext(path)[1]`: from the last '.' of the last path component
      on, provided something other than dots precedes that '.' in the
      component; otherwise empty. */
  function Extension(path: string): (ext: string)
    ensures |ext| <= |path| && ext == path[|path| - |ext|..]
    ensures ext == [] || (ext[0] == '.' && '.' !in ext[1..] && '/' !in ext)
  {
    var sep := LastIndexOf(path, '/');
    var dot := LastIndexOf(path, '.');
    if dot > sep && exists k :: sep < k < dot && path[k] != '.' then path[dot..] else ""
  }

  /** A '.' after the last '/' with a character other than '.' between them
      starts the extension. */
  lemma ExtensionAt(path: string, k: int)
    requires LastIndexOf(path, '/') < k < LastIndexOf(path, '.') && path[k] != '.'
    ensures Extension(path) == path[LastIndexOf(path, '.')..]
  {
  }

  function Blocks(texts: seq<string>): seq<TextBlock> {
    seq(|texts|, i requires 0 <= i < |texts| => TextBlock(texts[i]))
  }

  function BlockTexts(blocks: seq<TextBlock>): seq<string> {
    seq(|blocks|, i requires 0 <= i < |blocks| => blocks[i].text)
  }

  lemma BlockTextsOfBlocks(texts: seq<string>)
    ensures BlockTexts(Blocks(texts)) == texts
  {
  }

  // ---------------------------------------------------------------------------
  // extract_text_from_image
  // ---------------------------------------------------------------------------

  /** The error shape of `extract_text_from_image`. */
  function ImageFailure(path: string, detail: bool, message: string): Extraction {
    if detail then ErrorDetail(Some(Basename(path)), message)
    else PlainText("Error processing image: " + message)
  }

  /** What `extract_text_from_image(path, languages, detail)` returns when
      `get_reader(languages)` gives `reader`. */
  function ImageExtraction(env: Engine, reader: Result<Reader>, path: string, detail: bool): Extraction {
    match reader
    case Err(m) => ImageFailure(path, detail, m)
    case Ok(rd) =>
      match env.readtext(rd.languages, ImageFile(path))
      case Ok(texts) =>
        if detail then ImageDetail(Basename(path), Blocks(texts), JoinLines(texts))
        else PlainText(JoinLines(texts))
      case Err(m) => ImageFailure(path, detail, m)
  }

  /** The loop that builds `extracted_data` / `page_data`, one block per detection. */
  method CollectBlocks(texts: seq<string>) returns (blocks: seq<TextBlock>)
    ensures BlockTexts(blocks) == texts
  {
    blocks := [];
    for i := 0 to |texts|
      invariant BlockTexts(blocks) == texts[..i]
    {
      blocks := blocks + [TextBlock(texts[i])];
      assert BlockTexts(blocks) == BlockTexts(blocks[..i]) + [texts[i]];
    }
  }

  /** `extract_text_from_image`: gets the reader, then reads the image. */
  method ExtractTextFromImage(env: Engine, cache: ReaderCache, path: string, languages: seq<string>, detail: bool)
    returns (r: Extraction)
    modifies cache
    ensures r == ImageExtraction(env, GetReaderResult(env, old(cache.reader), languages), path, detail)
    ensures cache.reader == CachedAfter(env, old(cache.reader), languages)
  {
    var reader := cache.GetReader(env, languages);
    if reader.Err? {
      return ImageFailure(path, detail, reader.message);
    }
    var results := env.readtext(reader.value.languages, ImageFile(path));
    if results.Err? {
      return ImageFailure(path, detail, results.message);
    }
    if detail {
      var blocks := CollectBlocks(results.value);
      assert blocks == Blocks(results.value);
      r := ImageDetail(Basename(path), blocks, JoinLines(BlockTexts(blocks)));
    } else {
      r := PlainText(JoinLines(results.value));
    }
  }

  /** In detail mode an image's `full_text` is the newline-join of its blocks'
      texts, in recognition order, `file` is the base name, and the plain mode
      returns that same text. */
  lemma ImageDetailText(env: Engine, rd: Reader, path: string)
    requires env.readtext(rd.languages, ImageFile(path)).Ok?
    ensures var r := ImageExtraction(env, Ok(rd), path, true);
            && r.ImageDetail? && r.file == Basename(path)
            && BlockTexts(r.blocks) == env.readtext(rd.languages, ImageFile(path)).value
            && r.fullText == JoinLines(BlockTexts(r.blocks))
            && ImageExtraction(env, Ok(rd), path, false) == PlainText(r.fullText)
  {
    BlockTextsOfBlocks(env.readtext(rd.languages, ImageFile(path)).value);
  }

  // ---------------------------------------------------------------------------
  // extract_text_from_pdf
  // ---------------------------------------------------------------------------

  /** Reads the first `n` pages in order: their texts, or the exception of the
      first page whose reading raised. */
  function ReadPages(env: Engine, path: string, languages: seq<string>, dpi: int, n: nat): (r: Result<seq<seq<string>>>)
    ensures r.Ok? ==> |r.value| == n
    ensures r.Ok? ==> forall k :: 0 <= k < n ==> env.readtext(languages, PdfPage(path, dpi, k)) == Ok(r.value[k])
    ensures r.Err? ==> exists k :: 0 <= k < n && env.readtext(languages, PdfPage(path, dpi, k)) == Err(r.message)
    decreases n
  {
    if n == 0 then Ok([])
    else
      match ReadPages(env, path, languages, dpi, n - 1)
      case Err(m) => Err(m)
      case Ok(prev) =>
        match env.readtext(languages, PdfPage(path, dpi, n - 1))
        case Err(m) => Err(m)
        case Ok(texts) => Ok(prev + [texts])
  }

  /** Once a page fails, reading any longer prefix fails with its exception. */
  lemma {:induction false} ReadPagesStopsAtFailure(env: Engine, path: string, languages: seq<string>, dpi: int, k: nat, n: nat)
    requires k < n
    requires ReadPages(env, path, languages, dpi, k).Ok?
    requires env.readtext(languages, PdfPage(path, dpi, k)).Err?
    ensures ReadPages(env, path, languages, dpi, n) == Err(env.readtext(languages, PdfPage(path, dpi, k)).message)
    decreases n
  {
    if n - 1 > k {
      ReadPagesStopsAtFailure(env, path, languages, dpi, k, n - 1);
    }
  }

  /** `all_text.extend(...)` over every page: all texts of all pages, in order. */
  function Flatten(pages: seq<seq<string>>): seq<string>
    decreases |pages|
  {
    if pages == [] then [] else Flatten(pages[..|pages| - 1]) + pages[|pages| - 1]
  }

  /** `all_pages_data`: one entry per page, numbered from 1. */
  function PagesOf(pageTexts: seq<seq<string>>): seq<PageData> {
    seq(|pageTexts|, i requires 0 <= i < |pageTexts| =>
      PageData(i + 1, Blocks(pageTexts[i]), JoinLines(pageTexts[i])))
  }

  function PageTexts(pages: seq<PageData>): seq<string> {
    seq(|pages|, i requires 0 <= i < |pages| => pages[i].pageText)
  }

  function PdfFailure(path: string, detail: bool, message: string): Extraction {
    if detail then ErrorDetail(Some(Basename(path)), message)
    else PlainText("Error processing PDF: " + message)
  }

  /** What `extract_text_from_pdf(path, languages, detail, dpi)` returns when
      `get_reader(languages)` gives `reader`: the PDF is rendered first, then the
      reader is fetched, even for a PDF of no pages, then each page is read. */
  function PdfExtraction(env: Engine, reader: Result<Reader>, path: string, detail: bool, dpi: int): Extraction {
    match env.render(path, dpi)
    case Err(m) => PdfFailure(path, detail, m)
    case Ok(n) =>
      match reader
      case Err(m) => PdfFailure(path, detail, m)
      case Ok(rd) =>
        match ReadPages(env, path, rd.languages, dpi, n)
        case Err(m) => PdfFailure(path, detail, m)
        case Ok(pageTexts) =>
          if detail then
            var pages := PagesOf(pageTexts);
            PdfDetail(Basename(path), n, pages, JoinLines(PageTexts(pages)))
          else PlainText(JoinLines(Flatten(pageTexts)))
  }

  /** A PDF that renders to no page still needs the reader: the exception
      building it is the result, and otherwise the result is empty. */
  lemma EmptyPdfNeedsReader(env: Engine, path: string, detail: bool, dpi: int, message: string, rd: Reader)
    requires env.render(path, dpi) == Ok(0)
    ensures PdfExtraction(env, Err(message), path, detail, dpi) == PdfFailure(path, detail, message)
    ensures PdfExtraction(env, Ok(rd), path, true, dpi) == PdfDetail(Basename(path), 0, [], "")
    ensures PdfExtraction(env, Ok(rd), path, false, dpi) == PlainText("")
  {
    assert PagesOf([]) == [];
    assert PageTexts([]) == [];
  }

  /** Reading one more page that succeeds extends the pages read. */
  lemma ReadPagesStep(env: Engine, path: string, languages: seq<string>, dpi: int, read: seq<seq<string>>, texts: seq<string>)
    requires ReadPages(env, path, languages, dpi, |read|) == Ok(read)
    requires env.readtext(languages, PdfPage(path, dpi, |read|)) == Ok(texts)
    ensures ReadPages(env, path, languages, dpi, |read| + 1) == Ok(read + [texts])
  {
  }

  /** The page entry built from a page's blocks is the next numbered page. */
  lemma PagesOfStep(read: seq<seq<string>>, texts: seq<string>, blocks: seq<TextBlock>)
    requires BlockTexts(blocks) == texts
    ensures PagesOf(read + [texts]) == PagesOf(read) + [PageData(|read| + 1, blocks, JoinLines(BlockTexts(blocks)))]
  {
    assert blocks == Blocks(texts);
  }

  /** The result once every rendered page has been read. */
  lemma PdfExtractionRead(env: Engine, rd: Reader, path: string, detail: bool, dpi: int, read: seq<seq<string>>)
    requires env.render(path, dpi) == Ok(|read|)
    requires ReadPages(env, path, rd.languages, dpi, |read|) == Ok(read)
    ensures PdfExtraction(env, Ok(rd), path, detail, dpi) ==
            if detail then PdfDetail(Basename(path), |read|, PagesOf(read), JoinLines(PageTexts(PagesOf(read))))
            else PlainText(JoinLines(Flatten(read)))
  {
  }

  /** The result once a page fails to be read. */
  lemma PdfExtractionFails(env: Engine, rd: Reader, path: string, detail: bool, dpi: int, k: nat, n: nat, message: string)
    requires env.render(path, dpi) == Ok(n) && k < n
    requires ReadPages(env, path, rd.languages, dpi, k).Ok?
    requires env.readtext(rd.languages, PdfPage(path, dpi, k)) == Err(message)
    ensures PdfExtraction(env, Ok(rd), path, detail, dpi) == PdfFailure(path, detail, message)
  {
    ReadPagesStopsAtFailure(env, path, rd.languages, dpi, k, n);
  }

  /** `extract_text_from_pdf`: renders the PDF, gets the reader, then reads
      page after page, collecting either per-page data or all texts. */
  method ExtractTextFromPdf(env: Engine, cache: ReaderCache, path: string, languages: seq<string>, detail: bool, dpi: int)
    returns (r: Extraction)
    modifies cache
    ensures r == PdfExtraction(env, GetReaderResult(env, old(cache.reader), languages), path, detail, dpi)
    ensures cache.reader == if env.render(path, dpi).Ok? then CachedAfter(env, old(cache.reader), languages)
                            else old(cache.reader)
  {
    var images := env.render(path, dpi);
    if images.Err? {
      return PdfFailure(path, detail, images.message);
    }
    var n := images.value;
    var reader := cache.GetReader(env, languages);
    if reader.Err? {
      return PdfFailure(path, detail, reader.message);
    }
    var rd := reader.value;
    var allText: seq<string> := [];
    var allPages: seq<PageData> := [];
    ghost var read: seq<seq<string>> := [];
    var pageNum := 1;
    while pageNum <= n
      invariant 1 <= pageNum <= n + 1
      invariant |read| == pageNum - 1
      invariant ReadPages(env, path, rd.languages, dpi, pageNum - 1) == Ok(read)
      invariant detail ==> allPages == PagesOf(read)
      invariant !detail ==> allText == Flatten(read)
      invariant cache.reader == CachedAfter(env, old(cache.reader), languages)
    {
      var results := env.readtext(rd.languages, PdfPage(path, dpi, pageNum - 1));
      if results.Err? {
        PdfExtractionFails(env, rd, path, detail, dpi, pageNum - 1, n, results.message);
        return PdfFailure(path, detail, results.message);
      }
      ReadPagesStep(env, path, rd.languages, dpi, read, results.value);
      if detail {
        var pageData := CollectBlocks(results.value);
        PagesOfStep(read, results.value, pageData);
        allPages := allPages + [PageData(pageNum, pageData, JoinLines(BlockTexts(pageData)))];
      } else {
        assert Flatten(read + [results.value]) == Flatten(read) + results.value by {
          assert (read + [results.value])[..|read|] == read;
        }
        allText := allText + results.value;
      }
      read := read + [results.value];
      pageNum := pageNum + 1;
    }
    PdfExtractionRead(env, rd, path, detail, dpi, read);
    if detail {
      r := PdfDetail(Basename(path), n, allPages, JoinLines(PageTexts(allPages)));
    } else {
      r := PlainText(JoinLines(allText));
    }
  }

  /** A PDF in detail mode: `total_pages` is the number of rendered pages, pages
      are numbered consecutively from 1, each `page_text` is the newline-join of
      that page's block texts (those the reader recognised on it), and
      `full_text` is the newline-join of the page texts. */
  lemma PdfDetailPages(env: Engine, reader: Result<Reader>, path: string, dpi: int)
    requires PdfExtraction(env, reader, path, true, dpi).PdfDetail?
    ensures var r := PdfExtraction(env, reader, path, true, dpi);
            && reader.Ok?
            && env.render(path, dpi) == Ok(r.totalPages)
            && |r.pages| == r.totalPages
            && r.file == Basename(path)
            && r.fullText == JoinLines(PageTexts(r.pages))
            && forall i :: 0 <= i < |r.pages| ==>
                 && r.pages[i].page == i + 1
                 && env.readtext(reader.value.languages, PdfPage(path, dpi, i)) == Ok(BlockTexts(r.pages[i].blocks))
                 && r.pages[i].pageText == JoinLines(BlockTexts(r.pages[i].blocks))
  {
    var n := env.render(path, dpi).value;
    var pts := ReadPages(env, path, reader.value.languages, dpi, n).value;
    forall i | 0 <= i < |pts| ensures BlockTexts(Blocks(pts[i])) == pts[i] {
      BlockTextsOfBlocks(pts[i]);
    }
  }

  /** `sep.join(a + b)` for non-empty `a` and `b`. */
  lemma {:induction false} JoinAppend(a: seq<string>, b: seq<string>)
    requires |a| >= 1 && |b| >= 1
    ensures JoinLines(a + b) == JoinLines(a) + "\n" + JoinLines(b)
    decreases |a|
  {
    if |a| > 1 {
      assert (a + b)[1..] == a[1..] + b;
      JoinAppend(a[1..], b);
    } else {
      assert (a + b)[1..] == b;
    }
  }

  lemma {:induction false} FlattenNonEmpty(pages: seq<seq<string>>)
    requires |pages| >= 1 && forall i :: 0 <= i < |pages| ==> |pages[i]| >= 1
    ensures |Flatten(pages)| >= 1
  {
  }

  /** When every page yields at least one text, the plain-mode text of a PDF is
      its detail-mode `full_text`. */
  lemma {:induction false} PdfModesAgree(pageTexts: seq<seq<string>>)
    requires forall i :: 0 <= i < |pageTexts| ==> |pageTexts[i]| >= 1
    ensures JoinLines(Flatten(pageTexts)) == JoinLines(PageTexts(PagesOf(pageTexts)))
    decreases |pageTexts|
  {
    if |pageTexts| > 1 {
      var init := pageTexts[..|pageTexts| - 1];
      var last := pageTexts[|pageTexts| - 1];
      PdfModesAgree(init);
      FlattenNonEmpty(init);
      JoinAppend(Flatten(init), last);
      assert PageTexts(PagesOf(pageTexts)) == PageTexts(PagesOf(init)) + [JoinLines(last)];
      JoinAppend(PageTexts(PagesOf(init)), [JoinLines(last)]);
    } else if |pageTexts| == 1 {
      assert Flatten(pageTexts) == pageTexts[0] by {
        assert pageTexts[..0] == [];
      }
    }
  }

  /** A page with no text adds an empty line to the detail-mode `full_text` but
      nothing to the plain-mode text. */
  lemma EmptyPageModesDiffer()
    ensures JoinLines(Flatten([[], ["a"]])) == "a"
    ensures JoinLines(PageTexts(PagesOf([[], ["a"]]))) == "\na"
  {
    var pts: seq<seq<string>> := [[], ["a"]];
    var first: seq<seq<string>> := [[]];
    assert pts[..1] == first;
    assert first[..0] == [];
    assert Flatten(pts) == ["a"];
    assert PageTexts(PagesOf(pts)) == ["", "a"];
  }

  // ---------------------------------------------------------------------------
  // process_file and batch_process
  // ---------------------------------------------------------------------------

  /** The extensions handed to image extraction. */
  const ImageExtensions: seq<string> := [".jpg", ".jpeg", ".png", ".bmp", ".tiff", ".gif", ".webp"]

  /** The error shape of `process_file`: a dict without `file` in detail mode,
      the bare message otherwise. */
  function Problem(detail: bool, message: string): Extraction {
    if detail then ErrorDetail(None, message) else PlainText(message)
  }

  /** `process_file` when `get_reader(languages)` gives `reader`: a missing
      file and an unsupported extension are reported in the error shape;
      otherwise the lower-cased extension picks image or PDF extraction. The
      result is a dict exactly when detail is asked for. */
  function ProcessFile(env: Engine, reader: Result<Reader>, path: string, detail: bool, dpi: int): (r: Extraction)
    ensures IsDict(r) <==> detail
    ensures !env.fileExists(path) ==> r == Problem(detail, "File does not exist: " + path)
  {
    if !env.fileExists(path) then Problem(detail, "File does not exist: " + path)
    else
      var ext := Lower(Extension(path));
      if ext in ImageExtensions then ImageExtraction(env, reader, path, detail)
      else if ext == ".pdf" then PdfExtraction(env, reader, path, detail, dpi)
      else Problem(detail, "Unsupported file type: " + ext)
  }

  /** Dispatch of an existing file on its lower-cased extension. */
  lemma ProcessFileDispatch(env: Engine, reader: Result<Reader>, path: string, detail: bool, dpi: int)
    requires env.fileExists(path)
    ensures var ext := Lower(Extension(path));
            var r := ProcessFile(env, reader, path, detail, dpi);
            && (ext in ImageExtensions ==> r == ImageExtraction(env, reader, path, detail))
            && (ext == ".pdf" ==> r == PdfExtraction(env, reader, path, detail, dpi))
            && (ext !in ImageExtensions && ext != ".pdf" ==> r == Problem(detail, "Unsupported file type: " + ext))
  {
  }

  /** A success result needs an existing file with a supported extension, a
      reader, and a reading that did not raise. */
  lemma ProcessFileSuccess(env: Engine, reader: Result<Reader>, path: string, detail: bool, dpi: int)
    requires IsSuccess(ProcessFile(env, reader, path, detail, dpi))
    ensures detail && env.fileExists(path) && reader.Ok?
    ensures var ext := Lower(Extension(path));
            (ext in ImageExtensions && env.readtext(reader.value.languages, ImageFile(path)).Ok?) ||
            (ext == ".pdf" && env.render(path, dpi).Ok?)
  {
  }

  /** Whether `process_file(path, ...)` calls `get_reader`: for an existing
      image, and for an existing PDF once it has rendered. */
  predicate UsesReader(env: Engine, path: string, dpi: int) {
    env.fileExists(path) &&
    var ext := Lower(Extension(path));
    ext in ImageExtensions || (ext == ".pdf" && env.render(path, dpi).Ok?)
  }

  /** `process_file`: dispatches on the existence and the extension of the
      file, the extraction fetching the reader from the cache. */
  method ProcessOneFile(env: Engine, cache: ReaderCache, path: string, languages: seq<string>, detail: bool, dpi: int)
    returns (r: Extraction)
    modifies cache
    ensures r == ProcessFile(env, GetReaderResult(env, old(cache.reader), languages), path, detail, dpi)
    ensures cache.reader == if UsesReader(env, path, dpi) then CachedAfter(env, old(cache.reader), languages)
                            else old(cache.reader)
  {
    if !env.fileExists(path) {
      return Problem(detail, "File does not exist: " + path);
    }
    var ext := Lower(Extension(path));
    if ext in ImageExtensions {
      r := ExtractTextFromImage(env, cache, path, languages, detail);
    } else if ext == ".pdf" {
      r := ExtractTextFromPdf(env, cache, path, languages, detail, dpi);
    } else {
      r := Problem(detail, "Unsupported file type: " + ext);
    }
  }

  /** The dict `batch_process` returns. */
  datatype BatchReport = BatchReport(totalFiles: nat, processed: nat, failed: nat, files: seq<Extraction>)

  /** Number of success dicts among `files`. */
  function SuccessCount(files: seq<Extraction>): (n: nat)
    ensures n <= |files|
    decreases |files|
  {
    if files == [] then 0
    else SuccessCount(files[..|files| - 1]) + (if IsSuccess(files[|files| - 1]) then 1 else 0)
  }

  /** The detail-mode result of each path, in order. */
  function BatchFiles(env: Engine, reader: Result<Reader>, paths: seq<string>, dpi: int): (files: seq<Extraction>)
    ensures |files| == |paths|
    ensures forall k :: 0 <= k < |paths| ==> files[k] == ProcessFile(env, reader, paths[k], true, dpi)
    decreases |paths|
  {
    if paths == [] then []
    else
      var init := paths[..|paths| - 1];
      var files := BatchFiles(env, reader, init, dpi);
      assert forall k :: 0 <= k < |init| ==> init[k] == paths[k];
      files + [ProcessFile(env, reader, paths[|paths| - 1], true, dpi)]
  }

  /** Processing one more path appends its result. */
  lemma BatchFilesStep(env: Engine, reader: Result<Reader>, paths: seq<string>, dpi: int, i: nat)
    requires i < |paths|
    ensures BatchFiles(env, reader, paths[..i + 1], dpi) ==
            BatchFiles(env, reader, paths[..i], dpi) + [ProcessFile(env, reader, paths[i], true, dpi)]
  {
    assert paths[..i + 1][..i] == paths[..i];
  }

  /** Appending one result adds one to the count exactly when it is a success. */
  lemma SuccessCountStep(files: seq<Extraction>, e: Extraction)
    ensures SuccessCount(files + [e]) == SuccessCount(files) + (if IsSuccess(e) then 1 else 0)
  {
    assert (files + [e])[..|files|] == files;
  }

  /** Whether processing `paths` calls `get_reader` at all. */
  predicate AnyUsesReader(env: Engine, paths: seq<string>, dpi: int)
    decreases |paths|
  {
    paths != [] && (AnyUsesReader(env, paths[..|paths| - 1], dpi) || UsesReader(env, paths[|paths| - 1], dpi))
  }

  /** A batch in which some path is an existing image or a PDF that renders
      calls `get_reader`. */
  lemma {:induction false} AnyUsesReaderAt(env: Engine, paths: seq<string>, dpi: int, k: nat)
    requires k < |paths| && UsesReader(env, paths[k], dpi)
    ensures AnyUsesReader(env, paths, dpi)
    decreases |paths|
  {
    if k < |paths| - 1 {
      var init := paths[..|paths| - 1];
      assert init[k] == paths[k];
      AnyUsesReaderAt(env, init, dpi, k);
    }
  }

  /** A batch that calls `get_reader` has a path that is an existing image or
      a PDF that renders. */
  lemma {:induction false} ReaderUserOf(env: Engine, paths: seq<string>, dpi: int) returns (k: nat)
    requires AnyUsesReader(env, paths, dpi)
    ensures k < |paths| && UsesReader(env, paths[k], dpi)
    decreases |paths|
  {
    var init := paths[..|paths| - 1];
    if AnyUsesReader(env, init, dpi) {
      k := ReaderUserOf(env, init, dpi);
      assert init[k] == paths[k];
    } else {
      k := |paths| - 1;
    }
  }

  /** A batch calls `get_reader` exactly when a shorter batch does or the one
      more path does. */
  lemma AnyUsesReaderStep(env: Engine, paths: seq<string>, dpi: int, i: nat)
    requires i < |paths|
    ensures AnyUsesReader(env, paths[..i + 1], dpi) <==>
            AnyUsesReader(env, paths[..i], dpi) || UsesReader(env, paths[i], dpi)
  {
    assert paths[..i + 1][..i] == paths[..i];
  }

  /** A batch of one path calls `get_reader` exactly when that path does. */
  lemma AnyUsesReaderOne(env: Engine, path: string, dpi: int)
    ensures AnyUsesReader(env, [path], dpi) <==> UsesReader(env, path, dpi)
  {
    if UsesReader(env, path, dpi) {
      assert [path][0] == path;
    }
  }

  /** `_reader` after processing `paths` with `languages`. */
  function CacheAfterFiles(env: Engine, cached: Option<Reader>, paths: seq<string>, languages: seq<string>, dpi: int): Option<Reader> {
    if AnyUsesReader(env, paths, dpi) then CachedAfter(env, cached, languages) else cached
  }

  /** Processing one more path updates `_reader` as that path's processing does. */
  lemma CacheAfterFilesStep(env: Engine, cached: Option<Reader>, paths: seq<string>, languages: seq<string>, dpi: int, i: nat)
    requires i < |paths|
    ensures var before := CacheAfterFiles(env, cached, paths[..i], languages, dpi);
            CacheAfterFiles(env, cached, paths[..i + 1], languages, dpi) ==
              if UsesReader(env, paths[i], dpi) then CachedAfter(env, before, languages) else before
    ensures GetReaderResult(env, CacheAfterFiles(env, cached, paths[..i], languages, dpi), languages) ==
            GetReaderResult(env, cached, languages)
  {
    AnyUsesReaderStep(env, paths, dpi, i);
    ReaderIsStable(env, cached, languages);
  }

  /** In a long-lived process (the API server), once a file has been read the
      reader built for that request's languages serves every later request,
      whatever languages the later request asks for. */
  lemma LaterRequestsReuseReader(env: Engine, cached: Option<Reader>, paths: seq<string>, first: seq<string>, second: seq<string>, dpi: int)
    requires AnyUsesReader(env, paths, dpi) && GetReaderResult(env, cached, first).Ok?
    ensures GetReaderResult(env, CacheAfterFiles(env, cached, paths, first, dpi), second) == GetReaderResult(env, cached, first)
  {
  }

  /** The report of a batch over `paths`: each path processed in detail mode, in
      order; `processed` counts the success dicts and `failed` the rest. */
  function BatchReportOf(env: Engine, reader: Result<Reader>, paths: seq<string>, dpi: int): BatchReport {
    var files := BatchFiles(env, reader, paths, dpi);
    BatchReport(|paths|, SuccessCount(files), |paths| - SuccessCount(files), files)
  }

  /** `batch_process`: every path is processed in detail mode, whatever `detail`
      says; one result per path, in order, all read by the reader the first
      call to `get_reader` yields; `processed` counts the success dicts and
      `failed` the rest. */
  method BatchProcess(env: Engine, cache: ReaderCache, paths: seq<string>, languages: seq<string>, detail: bool, dpi: int)
    returns (report: BatchReport)
    modifies cache
    ensures report == BatchReportOf(env, GetReaderResult(env, old(cache.reader), languages), paths, dpi)
    ensures report.totalFiles == |paths|
    ensures report.processed + report.failed == report.totalFiles
    ensures |report.files| == |paths|
    ensures forall i :: 0 <= i < |paths| ==>
              report.files[i] == ProcessFile(env, GetReaderResult(env, old(cache.reader), languages), paths[i], true, dpi)
    ensures forall i :: 0 <= i < |paths| ==> IsDict(report.files[i])
    ensures report.processed == SuccessCount(report.files)
    ensures cache.reader == CacheAfterFiles(env, old(cache.reader), paths, languages, dpi)
  {
    ghost var reader := GetReaderResult(env, cache.reader, languages);
    var processed, failed := 0, 0;
    var files: seq<Extraction> := [];
    for i := 0 to |paths|
      invariant files == BatchFiles(env, reader, paths[..i], dpi)
      invariant processed == SuccessCount(files)
      invariant processed + failed == i
      invariant cache.reader == CacheAfterFiles(env, old(cache.reader), paths[..i], languages, dpi)
    {
      CacheAfterFilesStep(env, old(cache.reader), paths, languages, dpi, i);
      var result := ProcessOneFile(env, cache, paths[i], languages, true, dpi);
      if IsDict(result) && IsSuccess(result) {
        processed := processed + 1;
      } else {
        failed := failed + 1;
      }
      SuccessCountStep(files, result);
      BatchFilesStep(env, reader, paths, dpi, i);
      files := files + [result];
    }
    assert paths[..|paths|] == paths;
    report := BatchReport(|paths|, processed, failed, files);
  }
}
