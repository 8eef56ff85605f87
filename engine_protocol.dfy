/**
 * The contract between the Node.js wrapper and the Python engine: the argument
 * vectors the wrapper builds (OcrService) are read back by the engine's
 * parser (OcrCli) as the file, languages, detail, JSON and resolution settings
 * the wrapper meant, and the engine then prints JSON exactly when the wrapper
 * will parse its output.
 */
module EngineProtocol {
  import opened Wrappers
  import opened Text
  import opened OcrEngine
  import S = OcrService
  import opened OcrCli

  /** Language codes the parser reads back as given: absent, or at least one
      code and none of them an option string. */
  predicate LanguagesReadBack(languages: Option<seq<string>>) {
    languages.Some? ==>
      |languages.value| >= 1 && forall k :: 0 <= k < |languages.value| ==> !IsOptionLike(languages.value[k])
  }

  /** Regrouping four argument lists. */
  lemma Regroup(a: seq<string>, b: seq<string>, c: seq<string>, d: seq<string>)
    ensures a + b + c + d == a + (b + (c + d))
  {
  }

  /** A printed integer is a value to the parser. */
  lemma NumeralIsValue(i: int)
    ensures !IsOptionLike(IntToString(i))
  {
    var t := IntToString(i);
    if |t| >= 2 && t[0] == '-' {
      assert IsDigit(t[1..][0]);
      assert t[..2] !in ShortOptions;
    }
  }

  /** The wrapper's option arguments, from the first one on, start with an
      option string. */
  lemma OptionArgsStartWithOption(languages: Option<seq<string>>, detail: bool, json: bool, dpi: Option<int>)
    ensures var rest := S.LanguageArgs(languages) + S.DetailArgs(detail) + (if json then ["--json"] else []) + S.DpiArgs(dpi);
            rest == [] || IsOptionLike(rest[0])
  {
    OptionStringsAreOptionLike("--languages");
    OptionStringsAreOptionLike("--detail");
    OptionStringsAreOptionLike("--json");
    OptionStringsAreOptionLike("--dpi");
  }

  lemma ScanFlag(w: string, rest: seq<string>, ns: Namespace)
    requires w in ["--json", "--detail", "--batch"] && WellFormed(ns)
    ensures Scan([w] + rest, ns) == Scan(rest, SetFlag(w, ns).value)
  {
    OptionStringsAreOptionLike(w);
    assert w[..2] == "--";
    assert ([w] + rest)[1..] == rest;
  }

  lemma ScanDpi(d: int, ns: Namespace)
    requires WellFormed(ns)
    ensures Scan(["--dpi", IntToString(d)], ns) == Ok(ns.(dpi := Some(d)))
  {
    OptionStringsAreOptionLike("--dpi");
    NumeralIsValue(d);
    IntToStringRoundTrip(d);
    var tokens := ["--dpi", IntToString(d)];
    assert Step(tokens, ns) == Ok(Consumed(ns.(dpi := Some(d)), 2));
    assert tokens[2..] == [];
  }

  lemma ScanLanguages(codes: seq<string>, rest: seq<string>, ns: Namespace)
    requires |codes| >= 1 && forall k :: 0 <= k < |codes| ==> !IsOptionLike(codes[k])
    requires rest == [] || IsOptionLike(rest[0])
    requires WellFormed(ns)
    ensures Scan(["--languages"] + codes + rest, ns) == Scan(rest, ns.(languages := Some(codes)))
  {
    OptionStringsAreOptionLike("--languages");
    var tokens := ["--languages"] + (codes + rest);
    assert ["--languages"] + codes + rest == tokens;
    assert tokens[0] == "--languages" && tokens[1..] == codes + rest;
    ValueRunOf(codes, rest);
    var next := Consumed(ns.(languages := Some(codes)), 1 + |codes|);
    assert LanguagesStep(tokens, ns) == Ok(next);
    assert OptionStep(tokens, ns) == Ok(next);
    assert Step(tokens, ns) == Ok(next);
    assert tokens[1 + |codes|..] == rest;
  }

  lemma ScanFiles(files: seq<string>, rest: seq<string>, ns: Namespace)
    requires |files| >= 1 && forall k :: 0 <= k < |files| ==> !IsOptionLike(files[k])
    requires rest == [] || IsOptionLike(rest[0])
    requires WellFormed(ns) && ns.files.None?
    ensures Scan(files + rest, ns) == Scan(rest, ns.(files := Some(files)))
  {
    var tokens := files + rest;
    assert tokens[0] == files[0];
    ValueRunOf(files, rest);
    assert Step(tokens, ns) == Ok(Consumed(ns.(files := Some(files)), |files|));
    assert tokens[|files|..] == rest;
  }

  /** The wrapper's `--dpi` arguments set the resolution when it is truthy. */
  lemma ScanDpiArgs(dpi: Option<int>, ns: Namespace)
    requires WellFormed(ns)
    ensures Scan(S.DpiArgs(dpi), ns) == Ok(ns.(dpi := if S.DpiGiven(dpi) then dpi else ns.dpi))
  {
    if S.DpiGiven(dpi) {
      ScanDpi(dpi.value, ns);
    } else {
      assert S.DpiArgs(dpi) == [];
    }
  }

  /** A flag the wrapper may or may not emit sets its field when emitted. */
  lemma ScanOptionalFlag(w: string, on: bool, rest: seq<string>, ns: Namespace)
    requires w in ["--json", "--detail", "--batch"] && WellFormed(ns)
    ensures var flag: seq<string> := if on then [w] else [];
            Scan(flag + rest, ns) == Scan(rest, if on then SetFlag(w, ns).value else ns)
  {
    if on {
      ScanFlag(w, rest, ns);
    } else {
      assert [] + rest == rest;
    }
  }

  /** `--detail`, `--json` and `--dpi` as the wrapper emits them update exactly
      the settings they name. */
  lemma ScanFlagsAndDpi(detail: bool, json: bool, dpi: Option<int>, ns: Namespace)
    requires WellFormed(ns)
    ensures Scan(S.DetailArgs(detail) + ((if json then ["--json"] else []) + S.DpiArgs(dpi)), ns)
            == Ok(ns.(detail := ns.detail || detail, json := ns.json || json,
                      dpi := if S.DpiGiven(dpi) then dpi else ns.dpi))
  {
    var jsonArgs: seq<string> := if json then ["--json"] else [];
    assert S.DetailArgs(detail) == if detail then ["--detail"] else [];
    ScanOptionalFlag("--detail", detail, jsonArgs + S.DpiArgs(dpi), ns);
    var ns2 := ns.(detail := ns.detail || detail);
    assert ns2 == if detail then SetFlag("--detail", ns).value else ns;
    ScanOptionalFlag("--json", json, S.DpiArgs(dpi), ns2);
    var ns3 := ns2.(json := ns.json || json);
    assert ns3 == if json then SetFlag("--json", ns2).value else ns2;
    ScanDpiArgs(dpi, ns3);
  }

  /** The wrapper's `--languages` arguments set the languages when given. */
  lemma ScanLanguageArgs(languages: Option<seq<string>>, rest: seq<string>, ns: Namespace)
    requires LanguagesReadBack(languages) && WellFormed(ns)
    requires rest == [] || IsOptionLike(rest[0])
    ensures Scan(S.LanguageArgs(languages) + rest, ns) ==
            Scan(rest, ns.(languages := if languages.Some? then languages else ns.languages))
  {
    if languages.Some? {
      ScanLanguages(languages.value, rest, ns);
    } else {
      assert S.LanguageArgs(languages) + rest == rest;
    }
  }

  /** The wrapper's option arguments update exactly the settings they name. */
  lemma ScanOptionArgs(languages: Option<seq<string>>, detail: bool, json: bool, dpi: Option<int>, ns: Namespace)
    requires LanguagesReadBack(languages) && WellFormed(ns)
    ensures Scan(S.LanguageArgs(languages) + S.DetailArgs(detail) + (if json then ["--json"] else []) + S.DpiArgs(dpi), ns)
            == Ok(ns.(languages := if languages.Some? then languages else ns.languages,
                      detail := ns.detail || detail,
                      json := ns.json || json,
                      dpi := if S.DpiGiven(dpi) then dpi else ns.dpi))
  {
    var jsonArgs: seq<string> := if json then ["--json"] else [];
    var afterLanguages := S.DetailArgs(detail) + (jsonArgs + S.DpiArgs(dpi));
    Regroup(S.LanguageArgs(languages), S.DetailArgs(detail), jsonArgs, S.DpiArgs(dpi));
    Regroup(S.LanguageArgs(None), S.DetailArgs(detail), jsonArgs, S.DpiArgs(dpi));
    OptionArgsStartWithOption(None, detail, json, dpi);
    ScanLanguageArgs(languages, afterLanguages, ns);
    ScanFlagsAndDpi(detail, json, dpi, ns.(languages := if languages.Some? then languages else ns.languages));
  }

  /** The resolution the engine uses for what the wrapper passed: the given one,
      unless it is missing or zero, then 300. */
  function EffectiveDpi(dpi: Option<int>): int {
    if S.DpiGiven(dpi) then dpi.value else 300
  }

  /** The option arguments the wrapper appends after the file names. */
  function OptionArgs(languages: Option<seq<string>>, detail: bool, json: bool, dpi: Option<int>): seq<string> {
    S.LanguageArgs(languages) + S.DetailArgs(detail) + (if json then ["--json"] else []) + S.DpiArgs(dpi)
  }

  /** Dropping the script from a single-file argument list, whatever its parts. */
  lemma DropScript(scriptPath: string, filePath: string, la: seq<string>, da: seq<string>, j: seq<string>, dp: seq<string>)
    ensures ([scriptPath, filePath] + la + da + j + dp)[1..] == [filePath] + (la + da + j + dp)
  {
  }

  /** Dropping the script from a batch argument list, whatever its parts. */
  lemma DropBatchScript(scriptPath: string, filePaths: seq<string>, la: seq<string>, da: seq<string>, dp: seq<string>)
    ensures ([scriptPath] + filePaths + ["--batch", "--json"] + la + da + dp)[1..] ==
            filePaths + (["--batch"] + (["--json"] + (la + da + [] + dp)))
  {
    var opts := la + da + [] + dp;
    assert [scriptPath] + filePaths + ["--batch", "--json"] + la + da + dp ==
           [scriptPath] + (filePaths + (["--batch"] + (["--json"] + opts)));
  }

  /** What the engine receives from `extractText`: the file, then the options. */
  lemma SingleArgsTail(scriptPath: string, filePath: string, o: S.Options)
    ensures S.SingleArgs(scriptPath, filePath, o)[1..] == [filePath] + OptionArgs(o.languages, o.detail, S.Structured(o), o.dpi)
  {
    DropScript(scriptPath, filePath, S.LanguageArgs(o.languages), S.DetailArgs(o.detail),
               if S.Structured(o) then ["--json"] else [], S.DpiArgs(o.dpi));
  }

  /** What the engine receives from `extractTextBatch`: the files, the batch and
      JSON flags, then the options. */
  lemma BatchArgsTail(scriptPath: string, filePaths: seq<string>, o: S.Options)
    ensures S.BatchArgs(scriptPath, filePaths, o)[1..] ==
            filePaths + (["--batch"] + (["--json"] + OptionArgs(o.languages, o.detail, false, o.dpi)))
  {
    DropBatchScript(scriptPath, filePaths, S.LanguageArgs(o.languages), S.DetailArgs(o.detail), S.DpiArgs(o.dpi));
  }

  /** A scan that ends with files set is the parse, defaults applied. */
  lemma ParseCliOfScan(tokens: seq<string>, ns: Namespace)
    requires Scan(tokens, Empty) == Ok(ns) && ns.files.Some?
    ensures ParseCli(tokens) == Ok(CliArgs(ns.files.value, ns.languages.GetOr(["en"]), ns.json, ns.detail,
                                           ns.dpi.GetOr(300), ns.batch, ns.output, ns.verbose, ns.useFallback))
  {
  }

  /** The engine reads a single-file invocation back as one file, in single mode,
      with the wrapper's languages (English by default), detail when the
      wrapper asked for JSON or detail, and the wrapper's resolution: for a
      path the parser reads as a value and a DPI printed in digits. */
  lemma SingleInvocationParses(scriptPath: string, filePath: string, o: S.Options)
    requires !IsOptionLike(filePath) && LanguagesReadBack(o.languages) && S.PrintsAsDigits(o.dpi)
    ensures ParseCli(S.SingleArgs(scriptPath, filePath, o)[1..]) ==
            Ok(CliArgs([filePath], o.languages.GetOr(["en"]), S.Structured(o), o.detail,
                       EffectiveDpi(o.dpi), false, None, false, false))
    ensures SelectMode(ParseCli(S.SingleArgs(scriptPath, filePath, o)[1..]).value) ==
            SingleMode(filePath, S.Structured(o))
  {
    var rest := OptionArgs(o.languages, o.detail, S.Structured(o), o.dpi);
    SingleArgsTail(scriptPath, filePath, o);
    OptionArgsStartWithOption(o.languages, o.detail, S.Structured(o), o.dpi);
    ScanFiles([filePath], rest, Empty);
    var ns1 := Empty.(files := Some([filePath]));
    ScanOptionArgs(o.languages, o.detail, S.Structured(o), o.dpi, ns1);
    ParseCliOfScan([filePath] + rest, ns1.(languages := o.languages, detail := o.detail, json := S.Structured(o),
                                            dpi := if S.DpiGiven(o.dpi) then o.dpi else None));
  }

  /** The engine reads a batch invocation back as the same files, in batch
      mode, with JSON output and detail, whatever the wrapper's detail flag:
      for paths the parser reads as values and a DPI printed in digits. */
  lemma BatchInvocationParses(scriptPath: string, filePaths: seq<string>, o: S.Options)
    requires |filePaths| >= 1 && forall k :: 0 <= k < |filePaths| ==> !IsOptionLike(filePaths[k])
    requires LanguagesReadBack(o.languages) && S.PrintsAsDigits(o.dpi)
    ensures ParseCli(S.BatchArgs(scriptPath, filePaths, o)[1..]) ==
            Ok(CliArgs(filePaths, o.languages.GetOr(["en"]), true, o.detail,
                       EffectiveDpi(o.dpi), true, None, false, false))
    ensures SelectMode(ParseCli(S.BatchArgs(scriptPath, filePaths, o)[1..]).value) ==
            BatchMode(filePaths, true)
  {
    var opts := OptionArgs(o.languages, o.detail, false, o.dpi);
    var rest := ["--batch"] + (["--json"] + opts);
    var tokens := filePaths + rest;
    BatchArgsTail(scriptPath, filePaths, o);
    OptionStringsAreOptionLike("--batch");
    assert rest[0] == "--batch";
    var ns1 := Empty.(files := Some(filePaths));
    ScanFiles(filePaths, rest, Empty);
    assert Scan(tokens, Empty) == Scan(rest, ns1);
    ScanFlag("--batch", ["--json"] + opts, ns1);
    assert SetFlag("--batch", ns1).value == ns1.(batch := true);
    ScanFlag("--json", opts, ns1.(batch := true));
    var ns2 := ns1.(batch := true, json := true);
    assert SetFlag("--json", ns1.(batch := true)).value == ns2;
    ScanOptionArgs(o.languages, o.detail, false, o.dpi, ns2);
    var final := ns2.(languages := o.languages, detail := o.detail, dpi := if S.DpiGiven(o.dpi) then o.dpi else None);
    assert Scan(tokens, Empty) == Ok(final);
    ParseCliOfScan(tokens, final);
  }

  /** An empty language list makes the wrapper emit `--languages` with no
      code after it, which the engine's parser rejects. */
  lemma EmptyLanguageListRejected(scriptPath: string, filePath: string, o: S.Options)
    requires !IsOptionLike(filePath) && o.languages == Some([])
    ensures ParseCli(S.SingleArgs(scriptPath, filePath, o)[1..]).Err?
  {
    var tail := OptionArgs(None, o.detail, S.Structured(o), o.dpi);
    var rest := OptionArgs(o.languages, o.detail, S.Structured(o), o.dpi);
    SingleArgsTail(scriptPath, filePath, o);
    BareOption("--languages", S.DetailArgs(o.detail), if S.Structured(o) then ["--json"] else [], S.DpiArgs(o.dpi));
    assert rest == ["--languages"] + tail;
    OptionStringsAreOptionLike("--languages");
    var ns1 := Empty.(files := Some([filePath]));
    ScanFiles([filePath], rest, Empty);
    OptionArgsStartWithOption(None, o.detail, S.Structured(o), o.dpi);
    assert rest[1..] == tail;
    assert ValueRun(tail) == [];
    assert LanguagesStep(rest, ns1).Err?;
    assert Step(rest, ns1).Err?;
    assert Scan(rest, ns1).Err?;
  }

  /** An option with an empty list of values is the option alone. */
  lemma BareOption(option: string, da: seq<string>, j: seq<string>, dp: seq<string>)
    ensures [option] + [] + da + j + dp == [option] + ([] + da + j + dp)
  {
  }

  /** A batch of no files leaves the engine's required `files` argument
      unset, so the engine's parser rejects the invocation. */
  lemma EmptyBatchRejected(scriptPath: string, o: S.Options)
    requires LanguagesReadBack(o.languages)
    ensures ParseCli(S.BatchArgs(scriptPath, [], o)[1..]).Err?
  {
    var opts := OptionArgs(o.languages, o.detail, false, o.dpi);
    var tokens := S.BatchArgs(scriptPath, [], o)[1..];
    BatchArgsTail(scriptPath, [], o);
    assert tokens == ["--batch"] + (["--json"] + opts);
    var ns := Empty.(batch := true).(json := true);
    ScanFlag("--batch", ["--json"] + opts, Empty);
    ScanFlag("--json", opts, Empty.(batch := true));
    ScanOptionArgs(o.languages, o.detail, false, o.dpi, ns);
    assert Scan(tokens, Empty) == Scan(opts, ns);
    assert Scan(tokens, Empty).value.files.None?;
  }

  /** What the engine prints for a single-file invocation: a JSON dump of the
      result dictionary when the wrapper will parse the output, otherwise the
      plain text of `process_file`, which the wrapper trims. */
  lemma SingleInvocationOutput(env: Engine, scriptPath: string, filePath: string, o: S.Options)
    requires !IsOptionLike(filePath) && LanguagesReadBack(o.languages) && S.PrintsAsDigits(o.dpi)
    ensures ParseCli(S.SingleArgs(scriptPath, filePath, o)[1..]).Ok?
    ensures var a := ParseCli(S.SingleArgs(scriptPath, filePath, o)[1..]).value;
            var result := ProcessFile(env, FreshReader(env, a.languages), filePath, S.Structured(o), a.dpi);
            SingleOutput(a.json, result) ==
              if S.Structured(o) then JsonDump(ResultDoc(result)) else Printed(result.text)
  {
    SingleInvocationParses(scriptPath, filePath, o);
  }
}
