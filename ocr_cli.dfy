/**
 * The command line of the Python OCR engine (`main` in ocr.py): how the
 * argument parser reads the tokens after the script path, how the run picks
 * single or batch mode, and what it prints.
 *
 * The parser is argparse restricted to the option strings the engine
 * declares: a token is an option string when it starts with '-', is longer
 * than one character, and either begins with a declared short option or
 * holds no space and is not a negative number; every other token is a value.
 */
module OcrCli {
  import opened Wrappers
  import opened Text
  import opened OcrEngine

  // ---------------------------------------------------------------------------
  // Tokens
  // ---------------------------------------------------------------------------

  /** argparse's negative-number pattern: '-' then digits, or '-' then digits,
      a '.', and at least one digit. */
  predicate IsNegativeNumber(t: string) {
    |t| >= 2 && t[0] == '-' &&
    (AllDigits(t[1..]) ||
     ('.' in t[1..] &&
      var d := 1 + IndexOf(t[1..], '.');
      AllDigits(t[1..d]) && d + 1 < |t| && AllDigits(t[d + 1..])))
  }

  /** The declared short options, argparse's own `-h` included. */
  const ShortOptions: set<string> := {"-l", "-o", "-v", "-h"}

  /** Whether argparse reads `t` as an option string rather than a value: a
      token whose first two characters are a short option is that option,
      whatever follows; any other dash token is one unless it holds a space or
      is a negative number. */
  predicate IsOptionLike(t: string) {
    |t| >= 2 && t[0] == '-' && (t[..2] in ShortOptions || (' ' !in t && !IsNegativeNumber(t)))
  }

  /** A path beginning with a short option and a space is read as that option. */
  lemma AttachedShortOption(rest: string)
    ensures IsOptionLike("-l " + rest) && IsOptionLike("-h " + rest)
  {
    assert ("-l " + rest)[..2] == "-l";
    assert ("-h " + rest)[..2] == "-h";
  }

  /** A token of '-' and a character that is neither a digit nor '.', holding
      no space, is an option string. */
  lemma DashWordIsOptionLike(t: string)
    requires |t| >= 2 && t[0] == '-' && !IsDigit(t[1]) && t[1] != '.' && ' ' !in t
    ensures IsOptionLike(t)
  {
    if '.' in t[1..] {
      var d := 1 + IndexOf(t[1..], '.');
      assert t[1..d][0] == t[1];
    }
  }

  /** The option strings the engine declares. */
  const OptionStrings: seq<string> :=
    ["--languages", "-l", "--json", "--detail", "--dpi", "--batch", "--output", "-o", "--verbose", "-v", "--use-fallback"]

  lemma OptionStringsAreOptionLike(t: string)
    requires t in OptionStrings
    ensures IsOptionLike(t)
  {
    DashWordIsOptionLike(t);
  }

  /** The longest run of values at the start of `tokens`: what an argument
      taking one or more values consumes. */
  function ValueRun(tokens: seq<string>): (run: seq<string>)
    ensures |run| <= |tokens| && run == tokens[..|run|]
    ensures forall k :: 0 <= k < |run| ==> !IsOptionLike(run[k])
    ensures |run| < |tokens| ==> IsOptionLike(tokens[|run|])
    decreases |tokens|
  {
    if tokens == [] || IsOptionLike(tokens[0]) then [] else [tokens[0]] + ValueRun(tokens[1..])
  }

  /** A run of values followed by an option string (or by nothing) is consumed
      exactly. */
  lemma {:induction false} ValueRunOf(values: seq<string>, rest: seq<string>)
    requires forall k :: 0 <= k < |values| ==> !IsOptionLike(values[k])
    requires rest == [] || IsOptionLike(rest[0])
    ensures ValueRun(values + rest) == values
    decreases |values|
  {
    if values != [] {
      assert (values + rest)[1..] == values[1..] + rest;
      ValueRunOf(values[1..], rest);
    }
  }

  // ---------------------------------------------------------------------------
  // Parsing
  // ---------------------------------------------------------------------------

  /** What the parser has collected so far; `None` is an argument not seen. */
  datatype Namespace = Namespace(
    files: Option<seq<string>>,
    languages: Option<seq<string>>,
    json: bool,
    detail: bool,
    dpi: Option<int>,
    batch: bool,
    output: Option<string>,
    verbose: bool,
    useFallback: bool)

  /** Nothing seen yet. */
  const Empty := Namespace(None, None, false, false, None, false, None, false, false)

  /** The files and the languages, when seen, hold at least one value each. */
  predicate WellFormed(ns: Namespace) {
    (ns.files.Some? ==> |ns.files.value| >= 1) &&
    (ns.languages.Some? ==> |ns.languages.value| >= 1)
  }

  /** The flags: each sets its own field and consumes nothing else. */
  function SetFlag(t: string, ns: Namespace): (next: Option<Namespace>)
    ensures next.Some? ==> next.value.files == ns.files && next.value.languages == ns.languages
  {
    if t == "--json" then Some(ns.(json := true))
    else if t == "--detail" then Some(ns.(detail := true))
    else if t == "--batch" then Some(ns.(batch := true))
    else if t == "--verbose" || t == "-v" then Some(ns.(verbose := true))
    else if t == "--use-fallback" then Some(ns.(useFallback := true))
    else None
  }

  /** The namespace after a step of the parser, and how many tokens it read. */
  datatype Consumed = Consumed(ns: Namespace, used: nat)

  /** The value of an option that takes exactly one: the next token, when it
      is a value. */
  function OneValue(option: string, tokens: seq<string>): (r: Result<string>)
    ensures r.Ok? <==> |tokens| >= 2 && !IsOptionLike(tokens[1])
    ensures r.Ok? ==> r.value == tokens[1]
  {
    if |tokens| < 2 || IsOptionLike(tokens[1]) then Err("argument " + option + ": expected one argument")
    else Ok(tokens[1])
  }

  /** `--languages`/`-l`: one or more values. */
  function LanguagesStep(tokens: seq<string>, ns: Namespace): (r: Result<Consumed>)
    requires tokens != [] && WellFormed(ns)
    ensures r.Ok? ==> 1 <= r.value.used <= |tokens| && WellFormed(r.value.ns)
    ensures r.Ok? ==> r.value.ns.files == ns.files
  {
    var run := ValueRun(tokens[1..]);
    if run == [] then Err("argument --languages/-l: expected at least one argument")
    else Ok(Consumed(ns.(languages := Some(run)), 1 + |run|))
  }

  /** `--dpi`: one value, read as an integer. */
  function DpiStep(tokens: seq<string>, ns: Namespace): (r: Result<Consumed>)
    requires tokens != [] && WellFormed(ns)
    ensures r.Ok? ==> 1 <= r.value.used <= |tokens| && WellFormed(r.value.ns)
    ensures r.Ok? ==> r.value.ns.files == ns.files
  {
    match OneValue("--dpi", tokens)
    case Err(m) => Err(m)
    case Ok(v) =>
      match ParseInt(v)
      case None => Err("argument --dpi: invalid int value: '" + v + "'")
      case Some(d) => Ok(Consumed(ns.(dpi := Some(d)), 2))
  }

  /** `--output`/`-o`: one value. */
  function OutputStep(tokens: seq<string>, ns: Namespace): (r: Result<Consumed>)
    requires tokens != [] && WellFormed(ns)
    ensures r.Ok? ==> 1 <= r.value.used <= |tokens| && WellFormed(r.value.ns)
    ensures r.Ok? ==> r.value.ns.files == ns.files
  {
    match OneValue("--output/-o", tokens)
    case Err(m) => Err(m)
    case Ok(v) => Ok(Consumed(ns.(output := Some(v)), 2))
  }

  /** `-l` or `-o` with its value attached (`-lfr`, `-o=out.txt`): the text
      after the option, less one leading '=', is the only value. */
  function AttachedStep(t: string, ns: Namespace): (r: Consumed)
    requires |t| > 2 && (t[..2] == "-l" || t[..2] == "-o") && WellFormed(ns)
    ensures r.used == 1 && WellFormed(r.ns) && r.ns.files == ns.files
    ensures t[..2] == "-l" ==> r.ns.languages == Some([AttachedValue(t)])
    ensures t[..2] == "-o" ==> r.ns.output == Some(AttachedValue(t))
  {
    if t[..2] == "-l" then Consumed(ns.(languages := Some([AttachedValue(t)])), 1)
    else Consumed(ns.(output := Some(AttachedValue(t))), 1)
  }

  function AttachedValue(t: string): string
    requires |t| > 2
  {
    if t[2] == '=' then t[3..] else t[2..]
  }

  /** A step at an option string: a later occurrence of an option replaces an
      earlier one, a flag sets its field, and an option string the engine does
      not declare is an error. */
  function OptionStep(tokens: seq<string>, ns: Namespace): (r: Result<Consumed>)
    requires tokens != [] && WellFormed(ns)
    ensures r.Ok? ==> 1 <= r.value.used <= |tokens| && WellFormed(r.value.ns)
    ensures r.Ok? ==> r.value.ns.files == ns.files
  {
    var t := tokens[0];
    if t == "--languages" || t == "-l" then LanguagesStep(tokens, ns)
    else if t == "--dpi" then DpiStep(tokens, ns)
    else if t == "--output" || t == "-o" then OutputStep(tokens, ns)
    else if |t| > 2 && (t[..2] == "-l" || t[..2] == "-o") then Ok(AttachedStep(t, ns))
    else
      match SetFlag(t, ns)
      case Some(next) => Ok(Consumed(next, 1))
      case None => Err("unrecognized arguments: " + t)
  }

  /** One step of the parser at the head of `tokens`: the namespace after it
      and the number of tokens it consumed, or the error. The first run of
      values is the files and a later stray value is an error. */
  function Step(tokens: seq<string>, ns: Namespace): (r: Result<Consumed>)
    requires tokens != [] && WellFormed(ns)
    ensures r.Ok? ==> 1 <= r.value.used <= |tokens| && WellFormed(r.value.ns)
    ensures r.Ok? && ns.files.Some? ==> r.value.ns.files == ns.files
  {
    if IsOptionLike(tokens[0]) then OptionStep(tokens, ns)
    else if ns.files.Some? then Err("unrecognized arguments: " + tokens[0])
    else
      var run := ValueRun(tokens);
      Ok(Consumed(ns.(files := Some(run)), |run|))
  }

  /** Reads `tokens` left to right into `ns`, step by step, stopping at the
      first error. */
  function Scan(tokens: seq<string>, ns: Namespace): (r: Result<Namespace>)
    requires WellFormed(ns)
    ensures r.Ok? ==> WellFormed(r.value)
    ensures r.Ok? && ns.files.Some? ==> r.value.files == ns.files
    decreases |tokens|
  {
    if tokens == [] then Ok(ns)
    else
      match Step(tokens, ns)
      case Err(m) => Err(m)
      case Ok(Consumed(next, used)) => Scan(tokens[used..], next)
  }

  /** The parsed command line, defaults applied. */
  datatype CliArgs = CliArgs(
    files: seq<string>,
    languages: seq<string>,
    json: bool,
    detail: bool,
    dpi: int,
    batch: bool,
    output: Option<string>,
    verbose: bool,
    useFallback: bool)

  const DefaultLanguages: seq<string> := ["en"]
  const DefaultDpi := 300

  /** `parser.parse_args()` on the tokens after the script path: at least one
      file is required; languages default to English and the resolution to
      300 dpi. */
  function ParseCli(tokens: seq<string>): (r: Result<CliArgs>)
    ensures r.Ok? ==> |r.value.files| >= 1 && |r.value.languages| >= 1
    ensures tokens == [] ==> r.Err?
  {
    match Scan(tokens, Empty)
    case Err(m) => Err(m)
    case Ok(ns) =>
      if ns.files.None? then Err("the following arguments are required: files")
      else Ok(CliArgs(ns.files.value, ns.languages.GetOr(DefaultLanguages), ns.json, ns.detail,
                      ns.dpi.GetOr(DefaultDpi), ns.batch, ns.output, ns.verbose, ns.useFallback))
  }

  /** A lone file name parses to the defaults. */
  lemma ParseCliDefaults(file: string)
    requires !IsOptionLike(file)
    ensures ParseCli([file]) == Ok(CliArgs([file], ["en"], false, false, 300, false, None, false, false))
  {
    ValueRunOf([file], []);
    var ns := Empty.(files := Some([file]));
    assert Step([file], Empty) == Ok(Consumed(ns, 1));
    assert [file][1..] == [];
    assert Scan([file], Empty) == Scan([], ns) == Ok(ns);
  }

  /** An option that takes values, given as the last token, is an error. */
  lemma MissingOptionValueRejected(tokens: seq<string>, option: string)
    requires option in ["--languages", "-l", "--dpi", "--output", "-o"]
    requires forall k :: 0 <= k < |tokens| ==> tokens[k] in ["--json", "--detail", "--batch"]
    ensures ParseCli(tokens + [option]).Err?
  {
    ScanFlagsThenOption(tokens, option, Empty);
  }

  lemma {:induction false} ScanFlagsThenOption(tokens: seq<string>, option: string, ns: Namespace)
    requires option in ["--languages", "-l", "--dpi", "--output", "-o"]
    requires forall k :: 0 <= k < |tokens| ==> tokens[k] in ["--json", "--detail", "--batch"]
    requires WellFormed(ns)
    ensures Scan(tokens + [option], ns).Err?
    decreases |tokens|
  {
    var all := tokens + [option];
    if tokens == [] {
      assert all == [option];
      OptionStringsAreOptionLike(option);
      assert ValueRun(all[1..]) == [];
    } else {
      assert all[0] == tokens[0] && all[1..] == tokens[1..] + [option];
      var next := SetFlag(tokens[0], ns).value;
      OptionStringsAreOptionLike(tokens[0]);
      assert tokens[0][..2] == "--";
      assert OptionStep(all, ns) == Ok(Consumed(next, 1));
      ScanFlagsThenOption(tokens[1..], option, next);
    }
  }

  // ---------------------------------------------------------------------------
  // Mode selection and output
  // ---------------------------------------------------------------------------

  /** Single mode processes one file; batch mode several. Both carry whether
      results are dictionaries. */
  datatype Mode = SingleMode(file: string, detail: bool) | BatchMode(files: seq<string>, detail: bool)

  /** Batch mode when asked for or when more than one file is given; detail
      when asked for or when JSON output is. */
  function SelectMode(a: CliArgs): (m: Mode)
    requires |a.files| >= 1
    ensures m.BatchMode? <==> (a.batch || |a.files| > 1)
    ensures m.SingleMode? ==> [m.file] == a.files
    ensures m.BatchMode? ==> m.files == a.files
    ensures m.detail <==> (a.detail || a.json)
  {
    if a.batch || |a.files| > 1 then BatchMode(a.files, a.detail || a.json)
    else SingleMode(a.files[0], a.detail || a.json)
  }

  /** What a run writes: a JSON dump, a string as it is, or the `str()` of a
      dictionary. */
  datatype Document = ResultDoc(result: Extraction) | WrappedText(text: string) | BatchDoc(report: BatchReport)
  datatype Output = JsonDump(doc: Document) | Printed(text: string) | ReprOf(doc: Document)

  /** Output of single mode: with `--json`, the result dictionary, or a plain
      result wrapped under `text`; without, a success dictionary's
      `full_text`, any other dictionary as such, or the plain string. */
  function SingleOutput(json: bool, result: Extraction): Output {
    if json then
      if IsDict(result) then JsonDump(ResultDoc(result)) else JsonDump(WrappedText(result.text))
    else if IsSuccess(result) then Printed(result.fullText)
    else if IsDict(result) then ReprOf(ResultDoc(result))
    else Printed(result.text)
  }

  /** Output of batch mode: the report as JSON with `--json`, otherwise the
      report dictionary itself (it has no `full_text`). */
  function BatchOutput(json: bool, report: BatchReport): Output {
    if json then JsonDump(BatchDoc(report)) else ReprOf(BatchDoc(report))
  }

  /** `main` up to writing the output: a parse error ends the run (argparse
      exits with status 2); otherwise the selected mode runs in a fresh
      process, whose reader is built for the parsed languages, and its output
      is returned. */
  method RunCli(env: Engine, tokens: seq<string>) returns (r: Result<Output>)
    ensures ParseCli(tokens).Err? ==> r == Err(ParseCli(tokens).message)
    ensures ParseCli(tokens).Ok? ==>
              var a := ParseCli(tokens).value;
              match SelectMode(a)
              case SingleMode(file, detail) =>
                r == Ok(SingleOutput(a.json, ProcessFile(env, FreshReader(env, a.languages), file, detail, a.dpi)))
              case BatchMode(files, _) =>
                r == Ok(BatchOutput(a.json, BatchReportOf(env, FreshReader(env, a.languages), files, a.dpi)))
  {
    var parsed := ParseCli(tokens);
    if parsed.Err? {
      return Err(parsed.message);
    }
    var args := parsed.value;
    var cache := new ReaderCache();
    if args.batch || |args.files| > 1 {
      var report := BatchProcess(env, cache, args.files, args.languages, args.detail || args.json, args.dpi);
      r := Ok(BatchOutput(args.json, report));
    } else {
      var result := ProcessOneFile(env, cache, args.files[0], args.languages, args.detail || args.json, args.dpi);
      r := Ok(SingleOutput(args.json, result));
    }
  }

  /** With `--json` in single mode the result is always a dictionary, so the
      `{'text': ...}` wrapping is never printed. */
  lemma JsonSingleModeNeverWraps(env: Engine, tokens: seq<string>)
    requires ParseCli(tokens).Ok? && ParseCli(tokens).value.json
    requires SelectMode(ParseCli(tokens).value).SingleMode?
    ensures var a := ParseCli(tokens).value;
            var m := SelectMode(a);
            SingleOutput(true, ProcessFile(env, FreshReader(env, a.languages), m.file, m.detail, a.dpi)).doc.ResultDoc?
  {
  }

  /** Without `--json` or `--detail` a single file prints exactly the plain
      text `process_file` returns. */
  lemma PlainSingleModePrintsText(env: Engine, reader: Result<Reader>, file: string, dpi: int)
    ensures var result := ProcessFile(env, reader, file, false, dpi);
            result.PlainText? && SingleOutput(false, result) == Printed(result.text)
  {
  }
}
