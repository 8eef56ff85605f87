/**
 * The Node.js bridge to the Python OCR engine (`OCRService`): it turns a path
 * or paths plus an options record into the argument list given to the Python
 * interpreter, accumulates the child's two output streams, and settles the
 * returned promise from the child's 'close' or 'error' event.
 *
 * Spawning the child and delivering its stream chunks are the environment's
 * business; here a finished run is a `ProcessOutcome`, and `JSON.parse` is the
 * oracle `parse`, which yields `None` where `JSON.parse` throws.
 */
module OcrService {
  import opened Wrappers
  import opened Text

  // ---------------------------------------------------------------------------
  // Options and argument lists
  // ---------------------------------------------------------------------------

  /** The fields of the `options` record the builders look at.
      `languages` is `Some(codes)` when `options.languages` is an array (an empty
      array is truthy in JavaScript) and `None` when it is absent or not an array;
      `detail` and `json` are the truthiness of those fields; `dpi` is the integer
      given, if any. */
  datatype Options = Options(languages: Option<seq<string>>, detail: bool, json: bool, dpi: Option<int>)

  /** Whether the caller asked for JSON output (`options.json || options.detail`). */
  predicate Structured(o: Options) {
    o.json || o.detail
  }

  /** Whether `options.dpi.toString()` is the integer's decimal digits, as
      `IntToString` prints them: true below 10^21 in magnitude, while larger
      numbers are printed in exponent form (`1e+21`). */
  predicate PrintsAsDigits(dpi: Option<int>) {
    dpi.Some? ==> -1000000000000000000000 < dpi.value < 1000000000000000000000
  }

  /** Whether `options.dpi` is truthy: present and not zero. */
  predicate DpiGiven(dpi: Option<int>) {
    dpi.Some? && dpi.value != 0
  }

  function LanguageArgs(languages: Option<seq<string>>): seq<string> {
    if languages.Some? then ["--languages"] + languages.value else []
  }

  function DetailArgs(detail: bool): seq<string> {
    if detail then ["--detail"] else []
  }

  function DpiArgs(dpi: Option<int>): seq<string> {
    if DpiGiven(dpi) then ["--dpi", IntToString(dpi.value)] else []
  }

  /** The argument list of `extractText`: script, file, then the languages, the
      detail flag, the JSON flag and the DPI, in that order. */
  function SingleArgs(scriptPath: string, filePath: string, o: Options): seq<string> {
    [scriptPath, filePath] + LanguageArgs(o.languages) + DetailArgs(o.detail) +
    (if Structured(o) then ["--json"] else []) + DpiArgs(o.dpi)
  }

  /** The argument list of `extractTextBatch`: script, the files, the batch and
      JSON flags, then the languages, the detail flag and the DPI. */
  function BatchArgs(scriptPath: string, filePaths: seq<string>, o: Options): seq<string> {
    [scriptPath] + filePaths + ["--batch", "--json"] + LanguageArgs(o.languages) +
    DetailArgs(o.detail) + DpiArgs(o.dpi)
  }

  /** `extractText` building `args` by successive pushes. */
  method BuildSingleArgs(scriptPath: string, filePath: string, o: Options) returns (args: seq<string>)
    ensures args == SingleArgs(scriptPath, filePath, o)
  {
    args := [scriptPath, filePath];
    if o.languages.Some? {
      PushAll(args, ["--languages"], o.languages.value);
      args := args + ["--languages"] + o.languages.value;
    }
    assert args == [scriptPath, filePath] + LanguageArgs(o.languages);
    if o.detail {
      args := args + ["--detail"];
    }
    assert args == [scriptPath, filePath] + LanguageArgs(o.languages) + DetailArgs(o.detail);
    if o.json || o.detail {
      args := args + ["--json"];
    }
    assert args == [scriptPath, filePath] + LanguageArgs(o.languages) + DetailArgs(o.detail) +
                   (if Structured(o) then ["--json"] else []);
    if DpiGiven(o.dpi) {
      args := args + ["--dpi", IntToString(o.dpi.value)];
    }
  }

  /** `extractTextBatch` building `args` by successive pushes. */
  method BuildBatchArgs(scriptPath: string, filePaths: seq<string>, o: Options) returns (args: seq<string>)
    ensures args == BatchArgs(scriptPath, filePaths, o)
  {
    args := [scriptPath] + filePaths + ["--batch", "--json"];
    if o.languages.Some? {
      PushAll(args, ["--languages"], o.languages.value);
      args := args + ["--languages"] + o.languages.value;
    }
    assert args == [scriptPath] + filePaths + ["--batch", "--json"] + LanguageArgs(o.languages);
    if o.detail {
      args := args + ["--detail"];
    }
    assert args == [scriptPath] + filePaths + ["--batch", "--json"] + LanguageArgs(o.languages) + DetailArgs(o.detail);
    if DpiGiven(o.dpi) {
      args := args + ["--dpi", IntToString(o.dpi.value)];
    }
  }

  /** Pushing an option and its values appends both. */
  lemma PushAll(args: seq<string>, option: seq<string>, values: seq<string>)
    ensures args + option + values == args + (option + values)
  {
  }

  /** Number of times `word` occurs in `args`. */
  function Count(args: seq<string>, word: string): nat
    decreases |args|
  {
    if args == [] then 0 else (if args[0] == word then 1 else 0) + Count(args[1..], word)
  }

  /** Occurrences in a concatenation add up. */
  lemma {:induction false} CountConcat(a: seq<string>, b: seq<string>, word: string)
    ensures Count(a + b, word) == Count(a, word) + Count(b, word)
    decreases |a|
  {
    if a != [] {
      assert (a + b)[1..] == a[1..] + b;
      CountConcat(a[1..], b, word);
    } else {
      assert a + b == b;
    }
  }

  /** The option words of the engine's command line that the builders emit. */
  predicate IsOptionWord(w: string) {
    w == "--languages" || w == "--detail" || w == "--json" || w == "--dpi" || w == "--batch"
  }

  /** A printed integer is never one of the option words. */
  lemma NumeralIsNotOptionWord(i: int, w: string)
    requires IsOptionWord(w)
    ensures IntToString(i) != w
  {
    assert w[1] == '-';
  }

  /** Every option word the builder adds is counted once beyond those the
      caller's own strings (script, file, language codes) already hold:
      `--json` exactly when JSON output is wanted, `--detail` exactly when detail
      is, `--languages` exactly when an array was given, `--dpi` exactly when the
      DPI is truthy, and `--batch` never. */
  lemma SingleArgsFlagCount(scriptPath: string, filePath: string, o: Options, w: string)
    requires IsOptionWord(w)
    ensures Count(SingleArgs(scriptPath, filePath, o), w) ==
            Count([scriptPath, filePath] + o.languages.GetOr([]), w) +
            (if w == "--json" then (if Structured(o) then 1 else 0)
             else if w == "--detail" then (if o.detail then 1 else 0)
             else if w == "--languages" then (if o.languages.Some? then 1 else 0)
             else if w == "--dpi" then (if DpiGiven(o.dpi) then 1 else 0)
             else 0)
  {
    var head := [scriptPath, filePath];
    var codes := o.languages.GetOr([]);
    CountOfFive(head, LanguageArgs(o.languages), DetailArgs(o.detail),
                if Structured(o) then ["--json"] else [], DpiArgs(o.dpi), w);
    CountConcat(head, codes, w);
    CountLanguageArgs(o.languages, w);
    CountDpiArgs(o.dpi, w);
  }

  /** Occurrences in a five-part argument list add up. */
  lemma CountOfFive(a: seq<string>, b: seq<string>, c: seq<string>, d: seq<string>, e: seq<string>, w: string)
    ensures Count(a + b + c + d + e, w) == Count(a, w) + Count(b, w) + Count(c, w) + Count(d, w) + Count(e, w)
  {
    CountConcat(a + b + c + d, e, w);
    CountConcat(a + b + c, d, w);
    CountConcat(a + b, c, w);
    CountConcat(a, b, w);
  }

  /** The language option counts once for `--languages` besides its codes. */
  lemma CountLanguageArgs(languages: Option<seq<string>>, w: string)
    ensures Count(LanguageArgs(languages), w) ==
            Count(languages.GetOr([]), w) + (if w == "--languages" && languages.Some? then 1 else 0)
  {
    if languages.Some? {
      CountConcat(["--languages"], languages.value, w);
    }
  }

  /** The DPI option counts only for `--dpi` among the option words. */
  lemma CountDpiArgs(dpi: Option<int>, w: string)
    requires IsOptionWord(w)
    ensures Count(DpiArgs(dpi), w) == (if w == "--dpi" && DpiGiven(dpi) then 1 else 0)
  {
    if DpiGiven(dpi) {
      NumeralIsNotOptionWord(dpi.value, w);
      assert DpiArgs(dpi) == ["--dpi"] + [IntToString(dpi.value)];
      CountConcat(["--dpi"], [IntToString(dpi.value)], w);
    }
  }

  /** The single-file argument list starts with the script and the file, and
      when no DPI is given it ends with `--json` exactly when JSON output is
      wanted. */
  lemma SingleArgsLayout(scriptPath: string, filePath: string, o: Options)
    ensures var args := SingleArgs(scriptPath, filePath, o);
            |args| >= 2 && args[0] == scriptPath && args[1] == filePath &&
            (!DpiGiven(o.dpi) && Structured(o) ==> args[|args| - 1] == "--json")
  {
  }

  /** The batch argument list keeps the paths in order right after the script,
      followed by the batch and JSON flags. */
  lemma BatchArgsLayout(scriptPath: string, filePaths: seq<string>, o: Options)
    ensures var args := BatchArgs(scriptPath, filePaths, o);
            var n := |filePaths|;
            |args| >= n + 3 && args[0] == scriptPath && args[1..n + 1] == filePaths &&
            args[n + 1] == "--batch" && args[n + 2] == "--json"
  {
  }

  // ---------------------------------------------------------------------------
  // Settling the promise
  // ---------------------------------------------------------------------------

  /** The code the 'close' event reports: a number, or `null` when the child
      was ended by a signal. */
  datatype ExitCode = Code(n: int) | NoCode

  /** How a run ended: closed with the accumulated output streams, or the
      child could not be started at all. */
  datatype ProcessOutcome =
    | Closed(code: ExitCode, stdout: string, stderr: string)
    | SpawnFailed(message: string)

  /** What a promise resolves with: trimmed raw text or a parsed document. */
  datatype Payload<J> = RawText(text: string) | Parsed(doc: J)

  datatype Settlement<J> = Resolved(value: Payload<J>) | Rejected(reason: string)

  /** How `${code}` prints the exit code. */
  function CodeText(code: ExitCode): string {
    match code
    case Code(n) => IntToString(n)
    case NoCode => "null"
  }

  predicate CleanExit(outcome: ProcessOutcome) {
    outcome.Closed? && outcome.code == Code(0)
  }

  /** `errorOutput || `OCR process exited with code ${code}``. */
  function ExitMessage(code: ExitCode, stderr: string): string {
    if stderr != "" then stderr else "OCR process exited with code " + CodeText(code)
  }

  function SpawnMessage(message: string): string {
    "Failed to start OCR process: " + message
  }

  /** The promise of `extractText` once the child is done: exit code 0 always
      resolves, with the parsed document only when JSON was asked for and
      parsing succeeded, and otherwise with the trimmed standard output. */
  function SettleSingle<J>(outcome: ProcessOutcome, structured: bool, parse: string -> Option<J>): (r: Settlement<J>)
    ensures r.Resolved? <==> CleanExit(outcome)
    ensures r.Resolved? && r.value.RawText? ==>
              r.value.text == Trim(outcome.stdout) && (!structured || parse(outcome.stdout).None?)
    ensures r.Resolved? && r.value.Parsed? ==> structured && parse(outcome.stdout) == Some(r.value.doc)
  {
    match outcome
    case SpawnFailed(m) => Rejected(SpawnMessage(m))
    case Closed(code, out, err) =>
      if code != Code(0) then Rejected(ExitMessage(code, err))
      else if structured then
        match parse(out)
        case Some(doc) => Resolved(Parsed(doc))
        case None => Resolved(RawText(Trim(out)))
      else Resolved(RawText(Trim(out)))
  }

  /** The promise of `extractTextBatch` once the child is done: it resolves only
      on exit code 0 with output that parses, and then with the parsed document. */
  function SettleBatch<J>(outcome: ProcessOutcome, parse: string -> Option<J>): (r: Settlement<J>)
    ensures r.Resolved? <==> CleanExit(outcome) && parse(outcome.stdout).Some?
    ensures r.Resolved? ==> r.value == Parsed(parse(outcome.stdout).value)
  {
    match outcome
    case SpawnFailed(m) => Rejected(SpawnMessage(m))
    case Closed(code, out, err) =>
      if code != Code(0) then Rejected(ExitMessage(code, err))
      else
        match parse(out)
        case Some(doc) => Resolved(Parsed(doc))
        case None => Rejected("Failed to parse batch results")
  }

  /** Both promises reject alike on anything but exit code 0: a spawn failure
      with its message prefixed, a non-zero or missing code with the
      accumulated standard error, or the generic exit message when that is
      empty; no parse is attempted. */
  lemma RejectionMessages<J>(outcome: ProcessOutcome, structured: bool, parse: string -> Option<J>)
    requires !CleanExit(outcome)
    ensures SettleSingle(outcome, structured, parse) == SettleBatch(outcome, parse)
    ensures outcome.SpawnFailed? ==>
              SettleBatch(outcome, parse) == Rejected("Failed to start OCR process: " + outcome.message)
    ensures outcome.Closed? && outcome.stderr != "" ==>
              SettleBatch(outcome, parse) == Rejected(outcome.stderr)
    ensures outcome.Closed? && outcome.stderr == "" ==>
              SettleBatch(outcome, parse) == Rejected("OCR process exited with code " + CodeText(outcome.code))
  {
  }

  /** The fallback asymmetry: on exit code 0 with output that does not parse, a
      single file still resolves with the trimmed text while a batch rejects. */
  lemma FallbackVersusStrictness<J>(outcome: ProcessOutcome, parse: string -> Option<J>)
    requires CleanExit(outcome) && parse(outcome.stdout).None?
    ensures SettleSingle(outcome, true, parse) == Resolved(RawText(Trim(outcome.stdout)))
    ensures SettleBatch(outcome, parse) == Rejected("Failed to parse batch results")
  {
  }

  /** When the output parses, a structured single-file call and a batch call
      settle identically. */
  lemma ParsedOutputAgrees<J>(outcome: ProcessOutcome, parse: string -> Option<J>)
    requires CleanExit(outcome) && parse(outcome.stdout).Some?
    ensures SettleSingle(outcome, true, parse) == SettleBatch(outcome, parse)
  {
  }

  /** A plain single-file run printing "Hello World\n" resolves with "Hello World". */
  lemma PlainRunIsTrimmed<J>(parse: string -> Option<J>)
    ensures SettleSingle(Closed(Code(0), "Hello World\n", ""), false, parse) == Resolved(RawText("Hello World"))
  {
    var s := "Hello World\n";
    assert TrimStart(s) == s;
    assert s[..|s| - 1] == "Hello World";
    assert TrimEnd("Hello World") == "Hello World";
  }

  /** A run exiting with code 2 and "unsupported format" on standard error
      rejects with exactly that text. */
  lemma FailedRunReportsStderr<J>(stdout: string, structured: bool, parse: string -> Option<J>)
    ensures SettleSingle(Closed(Code(2), stdout, "unsupported format"), structured, parse) ==
            Rejected("unsupported format")
  {
  }

  // ---------------------------------------------------------------------------
  // One call in flight
  // ---------------------------------------------------------------------------

  /** One pending `extractText` or `extractTextBatch` call: the `output` and
      `errorOutput` accumulators appended to by the 'data' listeners, and the
      promise, which the first of 'close' and 'error' settles. */
  class OcrCall<J> {
    const batch: bool
    const structured: bool
    const parse: string -> Option<J>
    var output: string
    var errorOutput: string
    var settled: Option<Settlement<J>>

    constructor(batch: bool, structured: bool, parse: string -> Option<J>)
      ensures this.batch == batch && this.structured == structured && this.parse == parse
      ensures output == "" && errorOutput == "" && settled == None
    {
      this.batch := batch;
      this.structured := structured;
      this.parse := parse;
      output := "";
      errorOutput := "";
      settled := None;
    }

    /** How this call's promise settles for a finished run. */
    function Settle(outcome: ProcessOutcome): Settlement<J>
      reads this
    {
      if batch then SettleBatch(outcome, parse) else SettleSingle(outcome, structured, parse)
    }

    /** A chunk arrives on standard output. */
    method OnStdout(chunk: string)
      modifies this
      ensures output == old(output) + chunk
      ensures errorOutput == old(errorOutput) && settled == old(settled)
    {
      output := output + chunk;
    }

    /** A chunk arrives on standard error. */
    method OnStderr(chunk: string)
      modifies this
      ensures errorOutput == old(errorOutput) + chunk
      ensures output == old(output) && settled == old(settled)
    {
      errorOutput := errorOutput + chunk;
    }

    /** The 'close' event: settles the promise from the accumulated streams,
        unless it is settled already. */
    method OnClose(code: ExitCode)
      modifies this
      ensures output == old(output) && errorOutput == old(errorOutput)
      ensures settled == if old(settled).Some? then old(settled)
                         else Some(Settle(Closed(code, output, errorOutput)))
    {
      if settled.None? {
        settled := Some(Settle(Closed(code, output, errorOutput)));
      }
    }

    /** The 'error' event: rejects the promise, unless it is settled already. */
    method OnError(message: string)
      modifies this
      ensures output == old(output) && errorOutput == old(errorOutput)
      ensures settled == if old(settled).Some? then old(settled)
                         else Some(Rejected("Failed to start OCR process: " + message))
    {
      if settled.None? {
        settled := Some(Settle(SpawnFailed(message)));
      }
    }
  }

  /** A child that cannot be started emits 'error' and then 'close'; the promise
      keeps the spawn failure. */
  method SpawnErrorThenClose<J>(batch: bool, structured: bool, parse: string -> Option<J>, message: string, code: ExitCode)
    returns (settled: Option<Settlement<J>>)
    ensures settled == Some(Rejected("Failed to start OCR process: " + message))
  {
    var call := new OcrCall(batch, structured, parse);
    call.OnError(message);
    call.OnClose(code);
    settled := call.settled;
  }

  // ---------------------------------------------------------------------------
  // Convenience wrappers
  // ---------------------------------------------------------------------------

  /** `quickExtract`: plain text, with the given languages. */
  function QuickExtractOptions(languages: seq<string>): (o: Options)
    ensures o.languages == Some(languages) && !Structured(o) && !DpiGiven(o.dpi)
  {
    Options(Some(languages), false, false, None)
  }

  /** `detailedExtract`: always asks for detail and JSON. */
  function DetailedExtractOptions(languages: seq<string>): (o: Options)
    ensures o.languages == Some(languages) && o.detail && Structured(o) && !DpiGiven(o.dpi)
  {
    Options(Some(languages), true, true, None)
  }

  /** `extractFromPDF`: plain text with a DPI, which is passed on only when it
      is not zero. */
  function PdfExtractOptions(dpi: int, languages: seq<string>): (o: Options)
    ensures o.languages == Some(languages) && !Structured(o)
    ensures DpiGiven(o.dpi) <==> dpi != 0
    ensures o.dpi == Some(dpi)
  {
    Options(Some(languages), false, false, Some(dpi))
  }

  /** `detailedExtract` passes its languages, then `--detail` and `--json`. */
  lemma DetailedExtractArgs(scriptPath: string, filePath: string, languages: seq<string>)
    ensures SingleArgs(scriptPath, filePath, DetailedExtractOptions(languages)) ==
            [scriptPath, filePath, "--languages"] + languages + ["--detail", "--json"]
  {
  }

  /** `extractFromPDF` with its defaults asks for English at 300 DPI. */
  lemma PdfDefaultArgs(scriptPath: string, pdfPath: string)
    ensures SingleArgs(scriptPath, pdfPath, PdfExtractOptions(300, ["en"])) ==
            [scriptPath, pdfPath, "--languages", "en", "--dpi", "300"]
  {
    assert NatToString(3) == "3";
    assert NatToString(30) == "30";
    assert IntToString(300) == "300";
  }
}
