/**
 * The Flask API in front of the engine (app.py): which upload names are
 * accepted, how `/api/process` validates a request, saves the accepted
 * uploads to temporary files, hands them to `process_file` or
 * `batch_process` and maps the result onto the `{success, data | error}`
 * envelope, and how `/api/quick` does the same for one file.
 *
 * JSON decoding of the `languages` form field, werkzeug's `secure_filename`
 * and the random part of a temporary file's name are collaborators given as
 * functions.
 */
module OcrApi {
  import opened Wrappers
  import opened Text
  import opened OcrEngine

  // ---------------------------------------------------------------------------
  // allowed_file
  // ---------------------------------------------------------------------------

  /** `ALLOWED_EXTENSIONS`. */
  const AllowedExtensions: set<string> := {"png", "jpg", "jpeg", "gif", "bmp", "tiff", "webp", "pdf"}

  /** `allowed_file`: the name holds a '.', and the text after its last '.',
      lower-cased, is an allowed extension. */
  function AllowedFile(filename: string): bool {
    var i := LastIndexOf(filename, '.');
    i >= 0 && Lower(filename[i + 1..]) in AllowedExtensions
  }

  /** A name without a '.' is never allowed. */
  lemma NoDotNotAllowed(filename: string)
    requires '.' !in filename
    ensures !AllowedFile(filename)
  {
  }

  /** A name ending in '.' and a dot-free extension is allowed exactly when
      that extension, lower-cased, is in the allowed set: only the text after
      the last '.' counts, whatever precedes it. */
  lemma AllowedFileByExtension(stem: string, ext: string)
    requires '.' !in ext
    ensures AllowedFile(stem + "." + ext) <==> Lower(ext) in AllowedExtensions
  {
    var name := stem + "." + ext;
    LastIndexOfIs(name, '.', |stem|);
    assert name[|stem| + 1..] == ext;
  }

  /** Every allowed extension, with its '.', is one `process_file` extracts. */
  lemma AllowedExtensionSupported(ext: string)
    requires Lower(ext) in AllowedExtensions
    ensures Lower("." + ext) in ImageExtensions || Lower("." + ext) == ".pdf"
  {
    var e := Lower(ext);
    assert Lower("." + ext) == "." + e;
    if e == "png" {
      assert "." + e == ".png";
    } else if e == "jpg" {
      assert "." + e == ".jpg";
    } else if e == "jpeg" {
      assert "." + e == ".jpeg";
    } else if e == "gif" {
      assert "." + e == ".gif";
    } else if e == "bmp" {
      assert "." + e == ".bmp";
    } else if e == "tiff" {
      assert "." + e == ".tiff";
    } else if e == "webp" {
      assert "." + e == ".webp";
    } else if e == "pdf" {
      assert "." + e == ".pdf";
    }
  }

  // ---------------------------------------------------------------------------
  // Requests, collaborators and responses
  // ---------------------------------------------------------------------------

  /** An uploaded file, known by its client-side name. */
  datatype Upload = Upload(filename: string)

  /** `decodeLanguages` is `json.loads` on the `languages` form field (a list
      of codes, or the exception raised); `secureFilename` is werkzeug's
      `secure_filename`; `tempPrefix(n)` is the directory and random part of
      the name of the n-th temporary file a request creates. */
  datatype Host = Host(
    engine: Engine,
    decodeLanguages: string -> Result<seq<string>>,
    secureFilename: string -> string,
    tempPrefix: nat -> string)

  /** The name of the n-th temporary file: its random part, '_', and the
      secured upload name. */
  function TempPath(host: Host, n: nat, filename: string): string {
    host.tempPrefix(n) + "_" + host.secureFilename(filename)
  }

  /** Whether securing the upload name keeps its extension: the secured name
      holds no '/', and its text from its last '.' on is the upload's. */
  predicate KeepsExtension(filename: string, secured: string) {
    '/' !in secured && LastIndexOf(secured, '.') >= 0 && LastIndexOf(filename, '.') >= 0 &&
    secured[LastIndexOf(secured, '.')..] == filename[LastIndexOf(filename, '.')..]
  }

  /** The extension of `prefix_name` for a name without '/' holding a '.': the
      name's text from its last '.' on, whatever the prefix. */
  lemma SuffixedExtension(prefix: string, name: string)
    requires '/' !in name && LastIndexOf(name, '.') >= 0
    ensures Extension(prefix + "_" + name) == name[LastIndexOf(name, '.')..]
  {
    var pre := prefix + "_";
    var path := pre + name;
    var i := LastIndexOf(name, '.');
    LastIndexOfInSuffix(pre, name, '.');
    LastIndexOfBeforeSuffix(pre, name, '/');
    assert pre[|prefix|] == '_' && path[|prefix|] == '_';
    ExtensionAt(path, |prefix|);
    assert path[|pre| + i..] == name[i..];
  }

  /** The extension `process_file` sees on a temporary file: the upload's text
      from its last '.' on, when securing the name keeps it. */
  lemma TempPathExtension(host: Host, n: nat, filename: string)
    requires KeepsExtension(filename, host.secureFilename(filename))
    ensures Extension(TempPath(host, n, filename)) == filename[LastIndexOf(filename, '.')..]
  {
    SuffixedExtension(host.tempPrefix(n), host.secureFilename(filename));
  }

  /** An allowed upload whose secured name keeps its extension is dispatched by
      `process_file` to image or PDF extraction, never to the unsupported-type
      error. */
  lemma AllowedUploadIsExtracted(host: Host, n: nat, filename: string, reader: Result<Reader>, detail: bool, dpi: int)
    requires AllowedFile(filename) && KeepsExtension(filename, host.secureFilename(filename))
    requires host.engine.fileExists(TempPath(host, n, filename))
    ensures var path := TempPath(host, n, filename);
            var r := ProcessFile(host.engine, reader, path, detail, dpi);
            r == ImageExtraction(host.engine, reader, path, detail) ||
            r == PdfExtraction(host.engine, reader, path, detail, dpi)
  {
    var path := TempPath(host, n, filename);
    var i := LastIndexOf(filename, '.');
    var ext := filename[i + 1..];
    TempPathExtension(host, n, filename);
    assert Extension(path) == "." + ext by {
      assert filename[i..] == "." + ext;
    }
    AllowedExtensionSupported(ext);
    ProcessFileDispatch(host.engine, reader, path, detail, dpi);
  }

  /** The `data` object of a successful response; `details` is the result
      dictionary when there is one. */
  datatype Data = Data(extractedText: string, engineName: string, fallbackUsed: bool, details: Option<Extraction>)

  /** `{success: true, data}`, `{success: false, error}`, and the quick
      endpoint's `{success: true, text}`. */
  datatype Body = Success(data: Data) | Failure(error: string) | QuickText(text: string)

  datatype Response = Response(status: nat, body: Body)

  /** What the engine handed back: one file's result, or a batch report. */
  datatype EngineResult = FileResult(result: Extraction) | BatchResult(report: BatchReport)

  /** The envelope for an engine result: a success dictionary becomes a
      success with its `full_text` (it has no `text` key) and method
      `easyocr`; any other dictionary, the batch report included, a 500
      failure carrying its `error`, or `Processing failed` when it has none;
      a plain string a success with that text. */
  function Envelope(r: EngineResult): (resp: Response)
    ensures resp.status == 200 <==> resp.body.Success?
    ensures resp.body.Success? <==> r.FileResult? && (IsSuccess(r.result) || !IsDict(r.result))
    ensures resp.body.Success? ==> resp.body.data.engineName == "easyocr" && !resp.body.data.fallbackUsed
    ensures resp.body.Failure? ==> resp.status == 500
    ensures r.BatchResult? ==> resp.body == Failure("Processing failed")
  {
    match r
    case BatchResult(_) => Response(500, Failure("Processing failed"))
    case FileResult(e) =>
      match e
      case ImageDetail(_, _, fullText) => Response(200, Success(Data(fullText, "easyocr", false, Some(e))))
      case PdfDetail(_, _, _, fullText) => Response(200, Success(Data(fullText, "easyocr", false, Some(e))))
      case ErrorDetail(_, error) => Response(500, Failure(error))
      case PlainText(text) => Response(200, Success(Data(text, "easyocr", false, None)))
  }

  // ---------------------------------------------------------------------------
  // Temporary files
  // ---------------------------------------------------------------------------

  /** The temporary files on disk. */
  class TempStore {
    var files: set<string>

    constructor()
      ensures files == {}
    {
      files := {};
    }

    /** Creates the file `path` and writes the upload into it. */
    method Save(path: string)
      modifies this
      ensures files == old(files) + {path}
    {
      files := files + {path};
    }

    /** `os.unlink(path)`, a missing file being ignored. */
    method Unlink(path: string)
      modifies this
      ensures files == old(files) - {path}
    {
      files := files - {path};
    }
  }

  // ---------------------------------------------------------------------------
  // /api/process
  // ---------------------------------------------------------------------------

  /** The uploads `allowed_file` accepts, in upload order. */
  function Kept(uploads: seq<Upload>): seq<Upload>
    decreases |uploads|
  {
    if uploads == [] then []
    else
      var last := uploads[|uploads| - 1];
      Kept(uploads[..|uploads| - 1]) + (if AllowedFile(last.filename) then [last] else [])
  }

  /** The kept uploads are exactly the allowed ones: each kept upload is an
      allowed upload of the request, and each allowed upload is kept. */
  lemma {:induction false} KeptIsAllowedUploads(uploads: seq<Upload>)
    ensures |Kept(uploads)| <= |uploads|
    ensures forall k :: 0 <= k < |Kept(uploads)| ==> AllowedFile(Kept(uploads)[k].filename) && Kept(uploads)[k] in uploads
    ensures forall u :: u in uploads && AllowedFile(u.filename) ==> u in Kept(uploads)
    decreases |uploads|
  {
    if uploads != [] {
      var prefix := uploads[..|uploads| - 1];
      assert uploads == prefix + [uploads[|uploads| - 1]];
      KeptIsAllowedUploads(prefix);
    }
  }

  /** Uploads none of which is allowed keep nothing. */
  lemma {:induction false} NoneKept(uploads: seq<Upload>)
    requires forall k :: 0 <= k < |uploads| ==> !AllowedFile(uploads[k].filename)
    ensures Kept(uploads) == []
    decreases |uploads|
  {
    if uploads != [] {
      var init := uploads[..|uploads| - 1];
      assert forall k :: 0 <= k < |init| ==> init[k] == uploads[k];
      NoneKept(init);
    }
  }

  /** Looking at one more upload keeps it exactly when it is allowed. */
  lemma KeptStep(uploads: seq<Upload>, i: nat)
    requires i < |uploads|
    ensures Kept(uploads[..i + 1]) ==
            Kept(uploads[..i]) + (if AllowedFile(uploads[i].filename) then [uploads[i]] else [])
  {
    assert uploads[..i + 1][..i] == uploads[..i];
  }

  /** The temporary files the kept uploads are saved to, in order. */
  function SavedPaths(host: Host, kept: seq<Upload>): seq<string> {
    seq(|kept|, i requires 0 <= i < |kept| => TempPath(host, i, kept[i].filename))
  }

  /** The languages of a request: the decoded `languages` field, `["en"]` as
      JSON when it is missing. */
  function RequestLanguages(host: Host, languagesField: Option<string>): Result<seq<string>> {
    host.decodeLanguages(languagesField.GetOr("[\"en\"]"))
  }

  /** Whether the request gets as far as saving its uploads. */
  predicate ReachesSaving(host: Host, files: Option<seq<Upload>>, languagesField: Option<string>) {
    files.Some? && files.value != [] && files.value[0].filename != "" &&
    RequestLanguages(host, languagesField).Ok?
  }

  /** What `process_files` answers when the server's `_reader` holds `cached`.
      The first upload's name alone decides `No files selected`; a failure to
      decode the languages is an exception, answered with 500; one kept upload
      is processed on its own with detail, several as a batch; the resolution
      is the engine's default. */
  function ProcessFilesResponse(host: Host, cached: Option<Reader>, files: Option<seq<Upload>>, languagesField: Option<string>): Response {
    if files.None? then Response(400, Failure("No files uploaded"))
    else if files.value == [] || files.value[0].filename == "" then Response(400, Failure("No files selected"))
    else
      match RequestLanguages(host, languagesField)
      case Err(m) => Response(500, Failure("Processing failed: " + m))
      case Ok(languages) =>
        var paths := SavedPaths(host, Kept(files.value));
        var reader := GetReaderResult(host.engine, cached, languages);
        if paths == [] then Response(400, Failure("No valid files to process"))
        else if |paths| == 1 then Envelope(FileResult(ProcessFile(host.engine, reader, paths[0], true, 300)))
        else Envelope(BatchResult(BatchReportOf(host.engine, reader, paths, 300)))
  }

  /** The server's `_reader` after `process_files`: as processing the saved
      files leaves it, and unchanged when the request stops before saving. */
  function ProcessFilesCache(host: Host, cached: Option<Reader>, files: Option<seq<Upload>>, languagesField: Option<string>): Option<Reader> {
    if ReachesSaving(host, files, languagesField) then
      CacheAfterFiles(host.engine, cached, SavedPaths(host, Kept(files.value)), RequestLanguages(host, languagesField).value, 300)
    else cached
  }

  /** One more kept upload is saved to the next temporary path. */
  lemma SavedPathsAppend(host: Host, kept: seq<Upload>, u: Upload)
    ensures SavedPaths(host, kept + [u]) == SavedPaths(host, kept) + [TempPath(host, |kept|, u.filename)]
  {
  }

  /** Listing one more path adds it to the set of paths. */
  lemma ElementsStep(paths: seq<string>, p: string)
    ensures Elements(paths + [p]) == Elements(paths) + {p}
  {
  }

  /** The set of paths listed in `paths`. */
  function Elements(paths: seq<string>): set<string> {
    set p | p in paths
  }

  /** The saving loop of `process_files`: each allowed upload, in order, is
      saved to a fresh temporary file whose name is recorded. */
  method SaveUploads(host: Host, uploads: seq<Upload>, store: TempStore) returns (tempFiles: seq<string>)
    modifies store
    ensures tempFiles == SavedPaths(host, Kept(uploads))
    ensures store.files == old(store.files) + Elements(tempFiles)
  {
    tempFiles := [];
    for i := 0 to |uploads|
      invariant tempFiles == SavedPaths(host, Kept(uploads[..i]))
      invariant store.files == old(store.files) + Elements(tempFiles)
    {
      KeptStep(uploads, i);
      var upload := uploads[i];
      if AllowedFile(upload.filename) {
        SavedPathsAppend(host, Kept(uploads[..i]), upload);
        var path := TempPath(host, |tempFiles|, upload.filename);
        store.Save(path);
        ElementsStep(tempFiles, path);
        tempFiles := tempFiles + [path];
      }
    }
    assert uploads[..|uploads|] == uploads;
  }

  /** The `finally` loop of `process_files`: every recorded temporary file is
      deleted. */
  method RemoveAll(tempFiles: seq<string>, store: TempStore)
    modifies store
    ensures store.files == old(store.files) - Elements(tempFiles)
  {
    for i := 0 to |tempFiles|
      invariant store.files == old(store.files) - Elements(tempFiles[..i])
    {
      assert Elements(tempFiles[..i + 1]) == Elements(tempFiles[..i]) + {tempFiles[i]} by {
        assert tempFiles[..i + 1] == tempFiles[..i] + [tempFiles[i]];
      }
      store.Unlink(tempFiles[i]);
    }
    assert tempFiles[..|tempFiles|] == tempFiles;
  }

  /** `process_files`: validates the request, saves every allowed upload to a
      temporary file, processes them, and deletes every temporary file it
      saved, whatever the outcome. */
  method ProcessFiles(host: Host, cache: ReaderCache, files: Option<seq<Upload>>, languagesField: Option<string>, store: TempStore)
    returns (resp: Response)
    modifies store, cache
    ensures resp == ProcessFilesResponse(host, old(cache.reader), files, languagesField)
    ensures cache.reader == ProcessFilesCache(host, old(cache.reader), files, languagesField)
    ensures ReachesSaving(host, files, languagesField) ==>
              store.files == old(store.files) - Elements(SavedPaths(host, Kept(files.value)))
    ensures !ReachesSaving(host, files, languagesField) ==> store.files == old(store.files)
  {
    if files.None? {
      return Response(400, Failure("No files uploaded"));
    }
    var uploads := files.value;
    if uploads == [] || uploads[0].filename == "" {
      return Response(400, Failure("No files selected"));
    }
    var decoded := RequestLanguages(host, languagesField);
    if decoded.Err? {
      return Response(500, Failure("Processing failed: " + decoded.message));
    }
    var languages := decoded.value;
    var tempFiles := SaveUploads(host, uploads, store);
    if tempFiles == [] {
      resp := Response(400, Failure("No valid files to process"));
    } else if |tempFiles| == 1 {
      var result := ProcessOneFile(host.engine, cache, tempFiles[0], languages, true, 300);
      assert [tempFiles[0]] == tempFiles;
      AnyUsesReaderOne(host.engine, tempFiles[0], 300);
      resp := Envelope(FileResult(result));
    } else {
      var report := BatchProcess(host.engine, cache, tempFiles, languages, true, 300);
      resp := Envelope(BatchResult(report));
    }
    RemoveAll(tempFiles, store);
  }

  /** A request whose uploads are kept two or more answers 500 `Processing
      failed`, whatever the files hold: the batch report has no `status`. */
  lemma BatchRequestsFail(host: Host, cached: Option<Reader>, files: seq<Upload>, languagesField: Option<string>)
    requires files != [] && files[0].filename != ""
    requires RequestLanguages(host, languagesField).Ok?
    requires |Kept(files)| >= 2
    ensures ProcessFilesResponse(host, cached, Some(files), languagesField) == Response(500, Failure("Processing failed"))
  {
  }

  /** A request with exactly one kept upload succeeds exactly when the engine
      returns a success dictionary for its temporary file, and then carries
      that dictionary's `full_text`. */
  lemma SingleRequestOutcome(host: Host, cached: Option<Reader>, files: seq<Upload>, languagesField: Option<string>)
    requires files != [] && files[0].filename != ""
    requires RequestLanguages(host, languagesField).Ok?
    requires |Kept(files)| == 1
    ensures var reader := GetReaderResult(host.engine, cached, RequestLanguages(host, languagesField).value);
            var result := ProcessFile(host.engine, reader, TempPath(host, 0, Kept(files)[0].filename), true, 300);
            var resp := ProcessFilesResponse(host, cached, Some(files), languagesField);
            && (resp.body.Success? <==> IsSuccess(result))
            && (resp.body.Success? ==> resp.body.data.extractedText == result.fullText && resp.body.data.details == Some(result))
            && (!resp.body.Success? ==> resp == Response(500, Failure(result.error)))
  {
  }

  /** A request whose first upload is named but none of whose uploads is
      allowed answers 400 `No valid files to process`. */
  lemma NothingKeptRejected(host: Host, cached: Option<Reader>, files: seq<Upload>, languagesField: Option<string>)
    requires files != [] && files[0].filename != ""
    requires RequestLanguages(host, languagesField).Ok?
    requires forall k :: 0 <= k < |files| ==> !AllowedFile(files[k].filename)
    ensures ProcessFilesResponse(host, cached, Some(files), languagesField) == Response(400, Failure("No valid files to process"))
  {
    NoneKept(files);
  }

  /** `allowed_file` looks at the upload's own name, while the file is saved
      under its secured name: `..png`, which `secure_filename` turns into
      `png`, passes the check and is then refused by `process_file`, its
      temporary file having no extension. */
  lemma SecuredNameLosesExtension(host: Host, cached: Option<Reader>, languagesField: Option<string>)
    requires host.secureFilename("..png") == "png"
    requires '.' !in TempPath(host, 0, "..png")
    requires host.engine.fileExists(TempPath(host, 0, "..png"))
    requires RequestLanguages(host, languagesField).Ok?
    ensures AllowedFile("..png")
    ensures ProcessFilesResponse(host, cached, Some([Upload("..png")]), languagesField) ==
            Response(500, Failure("Unsupported file type: "))
  {
    var name := "..png";
    DotDotPngAllowed();
    var uploads := [Upload(name)];
    KeptOne(uploads[0]);
    var path := TempPath(host, 0, name);
    DotlessNoExtension(path);
    var reader := GetReaderResult(host.engine, cached, RequestLanguages(host, languagesField).value);
    ProcessFileDispatch(host.engine, reader, path, true, 300);
    assert Lower("") == "";
    SingleRequestOutcome(host, cached, uploads, languagesField);
  }

  lemma DotDotPngAllowed()
    ensures AllowedFile("..png")
  {
    var name := "..png";
    LastIndexOfIs(name, '.', 1);
    assert name[2..] == "png";
    assert Lower("png") == "png";
  }

  /** An allowed upload on its own is kept. */
  lemma KeptOne(u: Upload)
    requires AllowedFile(u.filename)
    ensures Kept([u]) == [u]
  {
    assert [u][..0] == [];
  }

  /** A path without a '.' has no extension. */
  lemma DotlessNoExtension(path: string)
    requires '.' !in path
    ensures Extension(path) == ""
  {
  }

  // ---------------------------------------------------------------------------
  // /api/quick
  // ---------------------------------------------------------------------------

  /** The languages of a quick request: the `languages` field (`en` when
      missing) split on ','. */
  function QuickLanguages(languagesField: Option<string>): (languages: seq<string>)
    ensures |languages| >= 1
    ensures Join(',', languages) == languagesField.GetOr("en")
  {
    JoinSplit(',', languagesField.GetOr("en"));
    Split(',', languagesField.GetOr("en"))
  }

  /** Whether a quick request gets as far as saving its upload. */
  predicate QuickAccepted(file: Option<Upload>) {
    file.Some? && file.value.filename != "" && AllowedFile(file.value.filename)
  }

  /** What `quick_extract` answers: a missing upload, an empty name and a
      disallowed name are rejected with 400 before anything is saved;
      otherwise the plain text of `process_file` on the saved file. */
  function QuickResponse(host: Host, cached: Option<Reader>, file: Option<Upload>, languagesField: Option<string>): Response {
    if file.None? then Response(400, Failure("No file uploaded"))
    else if file.value.filename == "" then Response(400, Failure("No file selected"))
    else if !AllowedFile(file.value.filename) then Response(400, Failure("Invalid file type"))
    else
      var reader := GetReaderResult(host.engine, cached, QuickLanguages(languagesField));
      var result := ProcessFile(host.engine, reader, TempPath(host, 0, file.value.filename), false, 300);
      Response(200, QuickText(result.text))
  }

  /** The server's `_reader` after `quick_extract`. */
  function QuickCache(host: Host, cached: Option<Reader>, file: Option<Upload>, languagesField: Option<string>): Option<Reader> {
    if QuickAccepted(file) then
      CacheAfterFiles(host.engine, cached, [TempPath(host, 0, file.value.filename)], QuickLanguages(languagesField), 300)
    else cached
  }

  /** `quick_extract`: validates, saves the upload to one temporary file,
      processes it in plain mode and deletes it. */
  method QuickExtract(host: Host, cache: ReaderCache, file: Option<Upload>, languagesField: Option<string>, store: TempStore)
    returns (resp: Response)
    modifies store, cache
    ensures resp == QuickResponse(host, old(cache.reader), file, languagesField)
    ensures cache.reader == QuickCache(host, old(cache.reader), file, languagesField)
    ensures QuickAccepted(file) ==> store.files == old(store.files) - {TempPath(host, 0, file.value.filename)}
    ensures !QuickAccepted(file) ==> store.files == old(store.files)
  {
    if file.None? {
      return Response(400, Failure("No file uploaded"));
    }
    if file.value.filename == "" {
      return Response(400, Failure("No file selected"));
    }
    if !AllowedFile(file.value.filename) {
      return Response(400, Failure("Invalid file type"));
    }
    var languages := QuickLanguages(languagesField);
    var path := TempPath(host, 0, file.value.filename);
    store.Save(path);
    var result := ProcessOneFile(host.engine, cache, path, languages, false, 300);
    AnyUsesReaderOne(host.engine, path, 300);
    resp := Response(200, QuickText(result.text));
    store.Unlink(path);
  }

  /** Every accepted quick request succeeds, with exactly the plain-mode text
      of `process_file`, error strings included. */
  lemma QuickAcceptedSucceeds(host: Host, cached: Option<Reader>, file: Option<Upload>, languagesField: Option<string>)
    requires QuickAccepted(file)
    ensures var resp := QuickResponse(host, cached, file, languagesField);
            var reader := GetReaderResult(host.engine, cached, QuickLanguages(languagesField));
            var result := ProcessFile(host.engine, reader, TempPath(host, 0, file.value.filename), false, 300);
            resp.status == 200 && result.PlainText? && resp.body == QuickText(result.text)
  {
  }
}
