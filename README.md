# OCR service core, modelled in Dafny

This project models the text-extraction pipeline of the OCR repository and the
route guards of its web client:

- **The Node wrapper** (`server-ai/ocr-service.js`), module `OcrService`:
  - the argument lists that `extractText` and `extractTextBatch` pass to the
    Python engine;
  - how a finished child process settles the promise;
  - the `quickExtract`, `detailedExtract` and `extractFromPDF` shortcuts.
- **The Python engine** (`server-ai/ocr.py`), modules `OcrEngine` and `OcrCli`:
  - image and PDF extraction, with the result shaped as plain text or as a
    detail dictionary;
  - dispatch on the file extension in `process_file`;
  - the `batch_process` report;
  - the lazily built reader `_reader`, kept for the life of the process, so
    that the API server reads every request with the reader built for its
    first request's languages;
  - the command line of `main`: its options, the choice between single and
    batch mode, and the rendering of the output.
- **The Flask API** (`server-ai/app.py`), module `OcrApi`:
  - the upload filter `allowed_file`;
  - the validation, saving, dispatch, response envelope and clean-up of
    `/api/process` and `/api/quick`.
- **The client route guards** (`client-web/src/loaders/verify.loader.js`),
  module `VerifyLoader`:
  - `loginLoader`'s role-to-dashboard table;
  - `verifyLoader`'s decision. `localStorage` is an object that the guard
    clears whenever it refuses.

Module `EngineProtocol` connects the two ends of the Node–Python boundary. It
proves that the Python parser reads an argument list the Node wrapper builds
back as the options that built it, and that the engine then chooses the mode
the wrapper expects. This holds under two hypotheses:

- every path and language code is one the parser reads as a value: it does
  not start with `-l`, `-o`, `-v` or `-h`, and if it starts with `-` at all it
  holds a space somewhere or is a negative number;
- the DPI is printed in plain digits, that is, it lies strictly between
  -10^21 and 10^21 (JavaScript prints larger magnitudes in exponent form).

Supporting modules:

- `Wrappers` holds `Option` and `Result`.
- `Text` holds the string helpers:
  - JavaScript `trim`;
  - `join` and `split`, proved inverse;
  - ASCII lower-casing;
  - decimal printing and parsing, proved inverse;
  - `rfind`.

Everything outside the program is an input:

- the file system's `exists`;
- the PDF renderer's page count;
- building the OCR reader (the exception it may raise) and its text lines;
- `JSON.parse` and `json.loads`;
- `secure_filename` and the temporary-file names;
- the server's verification answer.

Each is a function-valued parameter or field (`Engine`, `Host`, the `parse`
argument, `VerifyReply`). The OCR reader itself is a value computed from those
inputs.

Imperative code stays imperative:

- the argument pushes, the stream accumulators, the extraction loops, the batch
  loop, the reader cache, the temporary-file store and `localStorage` are
  methods and classes;
- each is proved against a function that states what the source computes;
- the lemmas are stated about those functions.

## Model

| member | source | states |
|---|---|---|
| OcrService.BuildSingleArgs | server-ai/ocr-service.js:27-44 | the pushed list is script, file, `--languages` with the codes when an array is given, `--detail` when asked, `--json` when JSON or detail is asked, and `--dpi` with the printed value when the DPI is truthy |
| OcrService.BuildBatchArgs | server-ai/ocr-service.js:92-105 | the pushed list is script, the files, `--batch --json`, then languages, detail and DPI as for a single file |
| EngineProtocol.SingleArgsTail | server-ai/ocr-service.js:27-44 | what the engine receives from a single-file call is the file followed by the option words and values |
| EngineProtocol.BatchArgsTail | server-ai/ocr-service.js:92-104 | what the engine receives from a batch call is the files, then `--batch` and `--json`, then the option words and values |
| OcrService.SingleArgsFlagCount | server-ai/ocr-service.js:27-44 | each option word occurs exactly once when its condition holds and not at all otherwise, apart from occurrences inside the caller's path and language codes |
| OcrService.SingleArgsLayout | server-ai/ocr-service.js:27-44 | the script and file come first, and without a DPI a structured request ends in `--json` |
| OcrService.BatchArgsLayout | server-ai/ocr-service.js:92 | the files sit at positions 1..n in order, followed by `--batch` and `--json` |
| OcrService.NumeralIsNotOptionWord | server-ai/ocr-service.js:43 | a printed integer DPI can never be mistaken for an option word |
| OcrService.CountConcat | server-ai/ocr-service.js:27-44 | occurrences in a concatenated argument list add up |
| OcrService.SettleSingle | server-ai/ocr-service.js:58-80 | the promise resolves exactly on exit code 0; it resolves to the parsed document only when JSON was requested and parsing succeeded, and otherwise to the standard output with whitespace trimmed from both ends, as `String.prototype.trim` does (line 70) |
| OcrService.SettleBatch | server-ai/ocr-service.js:119-135 | the promise resolves exactly on exit code 0 with parseable output, and then to the parsed document |
| OcrService.RejectionMessages | server-ai/ocr-service.js:58-62 | a failed run is rejected in the same way by both calls: a spawn failure with `Failed to start OCR process: `, otherwise the standard error output, or `OCR process exited with code N` when that is empty |
| OcrService.FallbackVersusStrictness | server-ai/ocr-service.js:72-75 | unparseable output on a clean exit resolves to the trimmed text for a single file but rejects with `Failed to parse batch results` for a batch |
| OcrService.ParsedOutputAgrees | server-ai/ocr-service.js:64-68 | with parseable output, a structured single call and a batch call settle alike |
| OcrService.PlainRunIsTrimmed | server-ai/ocr-service.js:70 | a plain run printing `Hello World\n` resolves to `Hello World` |
| OcrService.FailedRunReportsStderr | server-ai/ocr-service.js:59-60 | a non-zero exit with standard error output is rejected with that output |
| OcrService.OcrCall.constructor | server-ai/ocr-service.js:46-48 | both buffers start empty and nothing is settled |
| OcrService.OcrCall.OnStdout | server-ai/ocr-service.js:50-52 | a chunk is appended to the output buffer, and nothing else changes |
| OcrService.OcrCall.OnStderr | server-ai/ocr-service.js:54-56 | a chunk is appended to the error buffer, and nothing else changes |
| OcrService.OcrCall.OnClose | server-ai/ocr-service.js:58-76 | settles by the close rule on the accumulated buffers, unless already settled |
| OcrService.OcrCall.OnError | server-ai/ocr-service.js:78-80 | settles with the spawn-failure rejection, unless already settled |
| OcrService.SpawnErrorThenClose | server-ai/ocr-service.js:58-80 | after a spawn error, a later close event no longer changes the outcome |
| OcrService.QuickExtractOptions | server-ai/ocr-service.js:145-147 | quick extraction passes the languages and neither JSON, detail nor DPI |
| OcrService.DetailedExtractOptions | server-ai/ocr-service.js:155-157 | detailed extraction passes the languages and asks for detail, hence JSON |
| OcrService.PdfExtractOptions | server-ai/ocr-service.js:166-168 | PDF extraction passes the languages and the DPI; the DPI is emitted exactly when it is not zero |
| OcrService.DetailedExtractArgs | server-ai/ocr-service.js:155-157 | the argument list is script, file, `--languages` and the codes, `--detail`, `--json` |
| OcrService.PdfDefaultArgs | server-ai/ocr-service.js:166-168 | with the defaults, the argument list is script, file, `--languages en --dpi 300` |
| OcrEngine.Basename | server-ai/ocr.py:62 | the base name is the slash-free suffix after the last `/` |
| OcrEngine.Extension | server-ai/ocr.py:170 | the extension is a suffix that is empty or starts with its only `.`, and holds no `/` |
| OcrEngine.BlockTextsOfBlocks | server-ai/ocr.py:53-59 | the texts of the blocks built from the reader's lines are those lines |
| OcrEngine.CollectBlocks | server-ai/ocr.py:53-59 | the loop builds one block per line, keeping the lines in order |
| OcrEngine.ReaderIsStable | server-ai/ocr.py:22-31 | asking again with the same languages gives the same reader, or, when building is assumed to fail alike on a retry, the same exception, and leaves `_reader` as it was |
| OcrEngine.ReaderCache.constructor | server-ai/ocr.py:20 | no reader exists yet |
| OcrEngine.ReaderCache.GetReader | server-ai/ocr.py:22-31 | a cached reader is returned unchanged whatever languages are asked for; otherwise one is built for the requested languages and cached, unless building raises, in which case the exception is returned and nothing is cached |
| OcrEngine.ReaderIsBuiltOnce | server-ai/ocr.py:27-31 | a second request with other languages gets the first request's reader |
| OcrEngine.ExtractTextFromImage | server-ai/ocr.py:47-78 | the result is the image extraction function of the reader `get_reader` yields from the cache: a detail dictionary, the newline-joined text, or the error forms; the cache is left as `get_reader` leaves it |
| OcrEngine.ImageDetailText | server-ai/ocr.py:48-68 | with a reader, a successful detail result carries the base name, the reader's lines as blocks and their newline join, and plain mode returns that same join |
| OcrEngine.ReadPages | server-ai/ocr.py:105-107 | on success there is one line list per rendered page, each the reader's answer for that page; on failure some page failed with that message |
| OcrEngine.ReadPagesStopsAtFailure | server-ai/ocr.py:105-107 | the first failing page fails the whole document with its message |
| OcrEngine.PdfExtractionFails | server-ai/ocr.py:96-144 | once a page fails to read, the whole PDF extraction is the error result carrying that page's message, whatever the later pages hold |
| OcrEngine.EmptyPdfNeedsReader | server-ai/ocr.py:96-107 | a PDF of no pages still calls `get_reader`: its exception is the result, and otherwise the result is empty |
| OcrEngine.ExtractTextFromPdf | server-ai/ocr.py:96-144 | the loop computes the PDF extraction function: the reader fetched once the PDF has rendered, pages numbered from 1, the joined page texts, or the error forms; the cache changes only when the PDF rendered |
| OcrEngine.PdfDetailPages | server-ai/ocr.py:101-132 | a detail result implies a reader and has as many pages as were rendered; page i+1 holds that reader's lines for page i, and the full text joins the page texts |
| OcrEngine.JoinAppend | server-ai/ocr.py:131-134 | joining the lines of two non-empty lists inserts one newline between the parts |
| OcrEngine.FlattenNonEmpty | server-ai/ocr.py:123 | non-empty pages flatten to a non-empty list |
| OcrEngine.PdfModesAgree | server-ai/ocr.py:123-134 | when every page has text, plain mode and detail mode yield the same full text |
| OcrEngine.EmptyPageModesDiffer | server-ai/ocr.py:123-134 | a blank first page makes the detail full text start with a newline that plain mode omits |
| OcrEngine.ProcessFile | server-ai/ocr.py:163-181 | the result is a dictionary exactly in detail mode; a missing file gives `File does not exist: ` |
| OcrEngine.ProcessFileSuccess | server-ai/ocr.py:163-181 | success implies detail mode, an existing file, a reader, and either an image that reader reads or a rendered PDF |
| OcrEngine.ProcessOneFile | server-ai/ocr.py:163-181 | the result is `process_file` with the reader the cache yields; the cache changes exactly as `get_reader` changes it when the file is an existing image or a rendered PDF, and not otherwise |
| OcrEngine.SuccessCount | server-ai/ocr.py:210-211 | the number of successes is at most the number of files |
| OcrEngine.BatchFiles | server-ai/ocr.py:206-215 | the batch's results are one per path, in order, each `process_file` of that path in detail mode with the one reader |
| OcrEngine.AnyUsesReaderAt | server-ai/ocr.py:206-208 | a batch with an existing image or a rendered PDF among its paths calls `get_reader` |
| OcrEngine.ReaderUserOf | server-ai/ocr.py:206-208 | a batch that calls `get_reader` has an existing image or a rendered PDF among its paths |
| OcrEngine.CacheAfterFilesStep | server-ai/ocr.py:206-215 | one more path changes the cache as that path's processing does, and every path of a batch gets the reader the first call yields |
| OcrEngine.BatchProcess | server-ai/ocr.py:199-217 | one detail result per path in order, all with the one reader the cache yields; processed counts the successes; processed plus failed is the number of files; the cache is left as the batch's calls to `get_reader` leave it |
| OcrEngine.LaterRequestsReuseReader | server-ai/ocr.py:20-31 | once a request has built the reader, every later request in the same process gets that reader, whatever languages it asks for |
| OcrCli.DashWordIsOptionLike | server-ai/ocr.py:293 | a dash followed by a non-digit is read as an option |
| OcrCli.AttachedShortOption | server-ai/ocr.py:244-249 | a token starting with a declared short option, such as `-l a.png`, is read as that option even with a space in it |
| OcrCli.AttachedStep | server-ai/ocr.py:244-279 | `-l` or `-o` with its value attached consumes its one token and takes the rest of it, less a leading `=`, as the only value |
| OcrCli.OptionStringsAreOptionLike | server-ai/ocr.py:238-291 | every declared option string is read as an option |
| OcrCli.ValueRun | server-ai/ocr.py:238-249 | a `nargs='+'` run is the longest prefix of non-option tokens |
| OcrCli.ValueRunOf | server-ai/ocr.py:238-249 | values followed by an option form exactly one run |
| OcrCli.OneValue | server-ai/ocr.py:263-279 | a one-value option takes the next token exactly when it is not an option |
| OcrCli.LanguagesStep | server-ai/ocr.py:244-249 | `--languages` consumes at least its own token and leaves the files unchanged |
| OcrCli.DpiStep | server-ai/ocr.py:263-268 | `--dpi` consumes at least its own token and leaves the files unchanged |
| OcrCli.OutputStep | server-ai/ocr.py:276-279 | `--output` consumes at least its own token and leaves the files unchanged |
| OcrCli.OptionStep | server-ai/ocr.py:238-291 | every option step consumes at least its own token and leaves the files unchanged |
| OcrCli.Step | server-ai/ocr.py:238-293 | a step consumes at least one token, and positional files, once set, are never replaced |
| OcrCli.Scan | server-ai/ocr.py:293 | scanning keeps the namespace well formed and never replaces the files once set |
| OcrCli.SetFlag | server-ai/ocr.py:251-291 | a recognised on/off flag never changes the files or the languages already parsed |
| EngineProtocol.ParseCliOfScan | server-ai/ocr.py:238-268 | a scan that set the files yields the parse with English and 300 DPI filling in what was not given |
| OcrCli.ParseCli | server-ai/ocr.py:238-293 | a successful parse has at least one file and at least one language; an empty command line is rejected |
| OcrCli.ParseCliDefaults | server-ai/ocr.py:244-291 | a lone file gets languages `en`, DPI 300, and every flag off |
| OcrCli.MissingOptionValueRejected | server-ai/ocr.py:244-279 | a value-taking option at the end of the command line is an error |
| OcrCli.ScanFlagsThenOption | server-ai/ocr.py:244-279 | flags followed by a trailing value-taking option fail to scan |
| OcrCli.SelectMode | server-ai/ocr.py:302-307 | batch mode exactly when `--batch` is given or there are several files; detail when `--detail` or `--json` is given |
| OcrCli.RunCli | server-ai/ocr.py:293-312 | the output is the parse error, the rendering of `process_file` on the one file, or the rendering of the batch report |
| OcrCli.JsonSingleModeNeverWraps | server-ai/ocr.py:307-310 | in JSON single mode the result is always a dictionary, so the `{'text': …}` wrapper is never used |
| OcrCli.PlainSingleModePrintsText | server-ai/ocr.py:307-312 | in plain single mode the printed output is the extracted text itself |
| EngineProtocol.NumeralIsValue | server-ai/ocr-service.js:43 | a printed DPI is read back as a value, not an option |
| EngineProtocol.OptionArgsStartWithOption | server-ai/ocr-service.js:30-44 | the options the wrapper appends start with an option word, so they end the file run |
| EngineProtocol.ScanFlag | server-ai/ocr.py:251-274 | a flag sets its field and scanning continues |
| EngineProtocol.ScanDpi | server-ai/ocr.py:263-268 | `--dpi` with a printed integer sets the DPI to that integer |
| EngineProtocol.ScanLanguages | server-ai/ocr.py:244-249 | `--languages` with a run of codes sets exactly those codes |
| EngineProtocol.ScanFiles | server-ai/ocr.py:238-242 | a leading run of non-option tokens becomes the files |
| EngineProtocol.ScanFlagsAndDpi | server-ai/ocr-service.js:34-44 | the wrapper's flag and DPI tail sets detail, JSON and the DPI it encodes |
| EngineProtocol.ScanOptionArgs | server-ai/ocr-service.js:30-44 | the wrapper's whole option tail is read back as the options that built it |
| EngineProtocol.SingleInvocationParses | server-ai/ocr-service.js:27-44 | the engine parses `extractText`'s list as that file with the requested languages (default `en`), detail, JSON for JSON or detail, and the truthy DPI (default 300), and picks single mode |
| EngineProtocol.BatchInvocationParses | server-ai/ocr-service.js:92-105 | the engine parses `extractTextBatch`'s list as those files with JSON and batch on, and picks batch mode with detail |
| EngineProtocol.EmptyLanguageListRejected | server-ai/ocr-service.js:30-31 | an empty language array yields a bare `--languages`, which the engine rejects |
| EngineProtocol.EmptyBatchRejected | server-ai/ocr-service.js:92 | a batch of no files is rejected by the engine |
| EngineProtocol.SingleInvocationOutput | server-ai/ocr.py:307-312 | a structured single call receives the JSON dump of `process_file`'s dictionary; a plain call receives the extracted text |
| OcrApi.NoDotNotAllowed | server-ai/app.py:26-27 | a name without a dot is refused |
| OcrApi.AllowedFileByExtension | server-ai/app.py:24-27 | a name is allowed exactly when the text after its last dot, lower-cased, is one of the eight extensions |
| OcrApi.TempPathExtension | server-ai/app.py:89-90 | when `secure_filename` keeps the text from the last dot on, the temporary file's extension is the upload's |
| OcrApi.AllowedExtensionSupported | server-ai/app.py:24 | every allowed extension is one the engine extracts |
| OcrApi.AllowedUploadIsExtracted | server-ai/app.py:88-108 | an allowed upload whose secured name keeps its extension is never answered `Unsupported file type`; it reaches image or PDF extraction |
| OcrApi.Envelope | server-ai/app.py:119-146 | status 200 exactly on success; success exactly for a successful single dictionary or a plain result; method `easyocr` with no fallback; a batch report is always answered 500 `Processing failed` |
| OcrApi.TempStore.constructor | server-ai/app.py:84 | no temporary files exist |
| OcrApi.TempStore.Save | server-ai/app.py:90-91 | the saved path is added to the temporary files |
| OcrApi.TempStore.Unlink | server-ai/app.py:150-154 | the path is removed from the temporary files |
| OcrApi.KeptIsAllowedUploads | server-ai/app.py:87-88 | the kept uploads are exactly the allowed ones among those uploaded, and no more of them than were uploaded |
| OcrApi.SaveUploads | server-ai/app.py:87-92 | one temporary path per kept upload, in order, each added to the store |
| OcrApi.RemoveAll | server-ai/app.py:148-154 | every saved temporary file is removed |
| OcrApi.ProcessFiles | server-ai/app.py:65-161 | the response follows the validation, dispatch and envelope rules with the reader the server's cache yields; every file saved is removed again, nothing is touched before saving, and the cache is left as processing the saved files leaves it |
| OcrApi.BatchRequestsFail | server-ai/app.py:109-136 | a request with two or more allowed uploads is answered 500 `Processing failed` |
| OcrApi.SingleRequestOutcome | server-ai/app.py:101-136 | one allowed upload succeeds exactly when the engine succeeds, carrying its full text and the dictionary, and otherwise fails with the engine's error |
| OcrApi.NothingKeptRejected | server-ai/app.py:94-98 | a request with no allowed upload is answered 400 `No valid files to process` |
| OcrApi.SecuredNameLosesExtension | server-ai/app.py:88-108 | `..png` passes `allowed_file`, but once `secure_filename` has made it `png` the temporary file has no extension and the request is answered 500 `Unsupported file type: ` |
| OcrApi.QuickLanguages | server-ai/app.py:187 | the languages are the comma-separated parts of the field, `en` by default; they are never empty and join back to the field |
| OcrApi.QuickExtract | server-ai/app.py:167-213 | the response follows the three rejections or the plain result; the one temporary file is removed, nothing is saved on rejection, and the cache is left as processing the file leaves it |
| OcrApi.QuickAcceptedSucceeds | server-ai/app.py:194-206 | an accepted upload is answered 200 with the plain text of `process_file`, read with the reader the server's cache yields |
| VerifyLoader.DashboardOf | client-web/src/loaders/verify.loader.js:8-21 | a role leads away from `/login` exactly when it is one of the five known roles |
| VerifyLoader.LoginRedirect | client-web/src/loaders/verify.loader.js:3-25 | the page renders exactly when the token or the role is missing or empty; otherwise it redirects to the role's dashboard |
| VerifyLoader.FirstSegmentOf | client-web/src/loaders/verify.loader.js:10-18 | the guard name of a dashboard path is its first segment |
| VerifyLoader.AdminDashboardAdmits | client-web/src/loaders/verify.loader.js:9-10 | `ADMIN`'s dashboard guard admits `ADMIN` |
| VerifyLoader.FacultyDashboardAdmits | client-web/src/loaders/verify.loader.js:11-12 | `FACULTY`'s dashboard guard admits `FACULTY` |
| VerifyLoader.StudentDashboardAdmits | client-web/src/loaders/verify.loader.js:13-14 | `STUDENT`'s dashboard guard admits `STUDENT` |
| VerifyLoader.DashboardAdmitsItsRole | client-web/src/loaders/verify.loader.js:8-56 | every known role is sent to a dashboard whose guard admits it |
| VerifyLoader.UnknownGuardAdmitsNobody | client-web/src/loaders/verify.loader.js:45-58 | a guard other than the five names admits no role |
| VerifyLoader.LowercaseAdminAsymmetry | client-web/src/loaders/verify.loader.js:19-20 | a lower-case `admin` role passes the admin guard but is sent to `/login` by the login page |
| VerifyLoader.VerifyDecision | client-web/src/loaders/verify.loader.js:28-68 | the page renders exactly with a token, a role, a successful verification and an admitting guard; every refusal clears storage and redirects to `/login`; logout with the stored `_id` is sent exactly on a falsy or unsuccessful verification |
| VerifyLoader.LocalStorage.constructor | client-web/src/loaders/verify.loader.js:4-5 | the storage holds the given items |
| VerifyLoader.LocalStorage.Clear | client-web/src/loaders/verify.loader.js:32 | the storage becomes empty |
| VerifyLoader.VerifyLoaderRun | client-web/src/loaders/verify.loader.js:26-69 | the result and the logout call are the decision's, and the storage is cleared exactly when the decision clears it |
| VerifyLoader.LoginThenVerify | client-web/src/loaders/verify.loader.js:3-63 | a user sent to a dashboard and then verified by the server is admitted there and keeps their storage |
| Text.JoinSplit | server-ai/app.py:187 | splitting and re-joining on a separator gives back the string |
| Text.SplitJoin | server-ai/app.py:187 | joining separator-free parts and splitting again gives back the parts |
| Text.IntToStringRoundTrip | server-ai/ocr-service.js:43 | a printed integer parses back to itself |
| Text.LastIndexOf | server-ai/app.py:27 | the index is that of the last occurrence, or -1 when there is none |

## Left out

- Process spawning and the byte streams: `spawn`, the `data` events and
  `toString` are modelled as string chunks. Event order is the caller's
  sequence of method calls.
- `JSON.parse`, `json.loads` and `json.dumps` are not implemented.
  - Parsing is a function-valued input.
  - A dump is a constructor (`JsonDump`) wrapping the document.
- EasyOCR, pdf2image and PIL are inputs of the `Engine` datatype:
  - the reader returns a page's text lines, or an exception message;
  - the renderer returns the page count, or an exception message.
- The per-block `confidence` and `bbox` values are left out: they are floats
  and integer casts of the reader's output, and nothing in the core reads them.
- Flask request handling is left out. The request is the upload list, the
  form field and the host functions.
- `secure_filename`, and the uniqueness of `tempfile` names, are host
  functions. What `secure_filename` does to an extension (it strips leading
  dots and underscores and drops non-ASCII letters) enters the model only as
  the hypothesis `KeepsExtension` of OcrApi.TempPathExtension and as the
  instance in OcrApi.SecuredNameLosesExtension.
- Failures of `file.save` and `os.unlink` are left out, as is the 50 MB
  request limit.
- OcrApi.ProcessFiles: the form fields `confidenceThreshold` and
  `useHighAccuracy` are not read.
  - The code never uses their values.
  - The `ValueError` that `float()` raises on a malformed threshold (an
    answer of 500) is left out.
  - `use_fallback` is accepted but ignored by the engine.
- OcrCli.ParseCli covers `argparse` only in part:
  - `-h`/`--help` (and a token starting with `-h`) print the usage and exit
    with status 0; the model reads them as an error;
  - a cluster of short flags such as `-vx` or `-vl` is read as an error;
  - long-option prefix abbreviations and `--opt=value` are not modelled;
  - `--` is not modelled;
  - the exact wording of error messages and exit status 2 are not modelled;
  - Python `int()` leniency (surrounding spaces, `+`, underscores) is not
    modelled.
  - An error is a `Result.Err` with a short message.
- OcrCli.RunCli: logging, `--verbose` and the write to the `--output` file
  are left out. The output is returned rather than written.
- The `/api/health` and `/api/languages` endpoints are left out. They return
  constant documents.
- VerifyLoader.VerifyDecision: the side effects of the fetch helpers on
  storage (their own handling of 401 and 405 answers) are left out.
  `client-web/src/utils/fetch.utils.js` is not part of this model.
- VerifyLoader.RoleMatches: `toLowerCase` is modelled on ASCII letters only.
  This is exact for comparisons with the all-ASCII guard names.
- VerifyLoader.LoginThenVerify: it assumes each dashboard route is guarded by
  `verifyLoader` with the first segment of its path. The routes that would do
  this are not wired in `client-web/src/routes.jsx`.
- OcrApi.Envelope: `extractedText` is taken from `full_text`. The engine's
  dictionaries never carry a `text` key, `method`, `fallback_used`,
  `confidence` or `average_confidence`, so those reads always fall back to
  their defaults; the `confidence` field, always `null`, is not part of the
  modelled data.
- OcrApi.ProcessFilesResponse: `process_file` runs with the engine's default
  DPI of 300, since `app.py` passes none.
- OcrService.BuildSingleArgs: the DPI is an integer printed in plain digits.
  A JavaScript number that is not an integer (printed with a decimal point) or
  whose magnitude is 10^21 or more (printed as `1e+21` or `-1e+21`) is not
  modelled.
- OcrService.BuildBatchArgs: the DPI is modelled as for
  OcrService.BuildSingleArgs, an integer printed in plain digits.
- OcrService.NumeralIsNotOptionWord: it is stated for the integer DPIs that
  are modelled; a non-integral or exponent-form DPI is not covered.
- EngineProtocol.NumeralIsValue: as for OcrService.NumeralIsNotOptionWord, it
  is stated for integers printed in plain digits only.
- EngineProtocol.SingleInvocationParses: it holds only for paths and language
  codes the parser reads as values, and a DPI between -10^21 and 10^21. A path
  such as `-l a.png` is read as the `-l` option, and an exponent-form DPI
  fails `int()`. A path of the form `--opt=value` with a space, such as
  `--dpi=1 2.png` or `--lang=a b`, satisfies the hypothesis but is read by
  `argparse` as an option; this falls under the `--opt=value` form that
  OcrCli.ParseCli does not model.
- EngineProtocol.BatchInvocationParses: the same hypotheses on the paths,
  languages and DPI as EngineProtocol.SingleInvocationParses.
- OcrEngine.ReaderIsStable: `Engine.build` is assumed to give the same answer
  for the same languages, so a retry after a failed build fails alike. In the
  source, `_reader` stays `None` after a failure and the next `get_reader`
  builds again; a transient failure (a model download, say) on one file can be
  followed by success on the next. OcrEngine.BatchFiles,
  OcrEngine.CacheAfterFilesStep and OcrEngine.BatchProcess read every file of
  a batch with the one reader, or fail every file with the one exception,
  under this assumption.
- OcrEngine.ProcessFile: `.lower()` is modelled on ASCII letters only. Whether
  an extension is supported is still decided exactly, since every supported
  extension is ASCII; but for an extension with other letters (`scan.DOCÜ`)
  the `Unsupported file type` message keeps them as written rather than
  lower-cased.
