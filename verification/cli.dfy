/** The command-line entry of src/cli/cli.js: parse the options, answer `--version`
    or `--help`, or run the engine and print its results, and report an exit code
    through the callback. Every observable step is recorded as an `Effect`. */
module Cli {
  import opened Js

  /** What `options.parse(args)` does: throw with a message, or return the options. */
  datatype ParseOutcome = ParseFailed(message: string) | Parsed(options: Value)

  /** What `new Formatter(format).getOutput(issues, rules)` does for one format. */
  datatype FormatOutcome = FormatThrew | Rendered(output: Value)

  /** How constructing and running the engine ends: a synchronous throw while
      building the configuration or the engine, a rejected run, or a resolved run
      with its number of issues and of processed rules. */
  datatype RunOutcome =
    | SetupThrew
    | RunRejected
    | RunResolved(issueCount: nat, processedRuleCount: nat)

  /** The observable steps of `execute`, in order. `StartEngine` marks the attempt
      to build the configuration and the engine and run it; when that setup throws
      (`SetupThrew`), no engine exists and nothing follows the step. */
  datatype Effect =
    | LogError(message: string)
    | LogInfo(text: Value)
    | ShowVersion
    | ShowHelp
    | StartEngine(configTarget: Value, engineOptions: Value)
    | UseFormatter(format: Value)
    | LogRunFailure
    | Callback(code: int)

  const PARSE_HINT: string := "\nRun 'adviser -h' to discover the available parameters"

  /** `_prepareEngineOptions`. */
  function PrepareEngineOptions(cliOptions: Value, cwd: string): Value {
    var engineOptions := [("outputFormat", Str("base")), ("cwd", Str(cwd)),
                          ("verboseMode", Or(Get(cliOptions, "verbose"), Bool(false)))];
    if Truthy(Get(cliOptions, "config")) then Obj(Put(engineOptions, "configFile", Get(cliOptions, "config")))
    else Obj(engineOptions)
  }

  /** The engine options: format `'base'`, the working directory, a verbose mode that
      is the `verbose` option when truthy and `false` otherwise, and a `configFile`
      key exactly when the `config` option is truthy; no other keys. */
  lemma {:induction false} PrepareEngineOptionsShape(cliOptions: Value, cwd: string, k: string)
    ensures Get(PrepareEngineOptions(cliOptions, cwd), k) ==
      if k == "outputFormat" then Str("base")
      else if k == "cwd" then Str(cwd)
      else if k == "verboseMode" then (if Truthy(Get(cliOptions, "verbose")) then Get(cliOptions, "verbose") else Bool(false))
      else if k == "configFile" && Truthy(Get(cliOptions, "config")) then Get(cliOptions, "config")
      else Undefined
    ensures HasKey(PrepareEngineOptions(cliOptions, cwd), k) <==>
      k == "outputFormat" || k == "cwd" || k == "verboseMode" || (k == "configFile" && Truthy(Get(cliOptions, "config")))
  {
    var verboseMode := Or(Get(cliOptions, "verbose"), Bool(false));
    var e0 := [("outputFormat", Str("base")), ("cwd", Str(cwd)), ("verboseMode", verboseMode)];
    var e1 := e0[1..];
    var e2 := e1[1..];
    assert e2[1..] == [];
    assert Lookup(e2, k) == if k == "verboseMode" then verboseMode else Undefined;
    assert HasKeyIn(e2, k) <==> k == "verboseMode";
    assert Lookup(e0, k) == if k == "outputFormat" then Str("base") else if k == "cwd" then Str(cwd) else Lookup(e2, k);
    assert HasKeyIn(e0, k) <==> k == "outputFormat" || k == "cwd" || HasKeyIn(e2, k);
    assert !HasKeyIn(e0, "configFile") by {
      assert !HasKeyIn(e2, "configFile");
    }
    if Truthy(Get(cliOptions, "config")) {
      LookupPut(e0, "configFile", Get(cliOptions, "config"), k);
    }
  }

  /** The argument of `new Config(...)`: the config file when one was given, else `cwd`. */
  function ConfigTarget(engineOptions: Value): Value {
    Or(Get(engineOptions, "configFile"), Get(engineOptions, "cwd"))
  }

  /** `printResults`: the formatter is built for the format (which may throw), and
      its output is logged only when it is truthy. The flag says it did not throw. */
  function PrintResults(format: Value, formatter: Value -> FormatOutcome): (r: (seq<Effect>, bool))
    ensures 1 <= |r.0| <= 2 && r.0[0] == UseFormatter(format)
    ensures r.1 <==> formatter(format).Rendered?
    ensures |r.0| == 2 <==> formatter(format).Rendered? && Truthy(formatter(format).output)
    ensures |r.0| == 2 ==> r.0[1] == LogInfo(formatter(format).output)
  {
    match formatter(format)
    case FormatThrew => ([UseFormatter(format)], false)
    case Rendered(output) =>
      if Truthy(output) then ([UseFormatter(format), LogInfo(output)], true)
      else ([UseFormatter(format)], true)
  }

  /** The formats a resolved run prints, in order: the output format when there
      are issues; then, in verbose mode, `'verbose'` when there are issues and
      `'summary'` when any rule was processed. */
  function PrintPlan(issueCount: nat, processedRuleCount: nat, verbose: Value, outputFormat: Value): seq<Value> {
    (if issueCount > 0 then [outputFormat] else []) +
    (if Truthy(verbose) && issueCount > 0 then [Str("verbose")] else []) +
    (if Truthy(verbose) && processedRuleCount > 0 then [Str("summary")] else [])
  }

  /** The formats named by the formatter steps of a list of effects. */
  function FormatsOf(effects: seq<Effect>): seq<Value> {
    if effects == [] then []
    else (if effects[0].UseFormatter? then [effects[0].format] else []) + FormatsOf(effects[1..])
  }

  lemma {:induction false} FormatsOfAppend(a: seq<Effect>, b: seq<Effect>)
    ensures FormatsOf(a + b) == FormatsOf(a) + FormatsOf(b)
  {
    if a == [] {
      assert a + b == b;
    } else {
      assert (a + b)[0] == a[0];
      assert (a + b)[1..] == a[1..] + b;
      FormatsOfAppend(a[1..], b);
    }
  }

  /** Printing a plan in order, stopping at the first format whose formatter throws.
      The count is the number of prints that completed. */
  function PrintAll(plan: seq<Value>, formatter: Value -> FormatOutcome): (r: (seq<Effect>, nat))
    ensures r.1 <= |plan|
  {
    if plan == [] then ([], 0)
    else
      var head := PrintResults(plan[0], formatter);
      if !head.1 then (head.0, 0)
      else
        var tail := PrintAll(plan[1..], formatter);
        (head.0 + tail.0, tail.1 + 1)
  }

  /** The completed prints are exactly a prefix of the plan whose formatters render,
      followed, when the plan was cut short, by the one that threw; printing only
      builds formatters and logs output. */
  lemma {:induction false} PrintAllStops(plan: seq<Value>, formatter: Value -> FormatOutcome)
    ensures var r := PrintAll(plan, formatter);
      (forall i :: 0 <= i < r.1 ==> formatter(plan[i]).Rendered?) &&
      (r.1 < |plan| ==> formatter(plan[r.1]).FormatThrew?) &&
      (forall e :: e in r.0 ==> e.UseFormatter? || e.LogInfo?)
  {
    if plan != [] {
      var head := PrintResults(plan[0], formatter);
      if head.1 {
        var tail := PrintAll(plan[1..], formatter);
        PrintAllStops(plan[1..], formatter);
        assert forall i :: 1 <= i < tail.1 + 1 ==> plan[i] == plan[1..][i - 1];
      }
    }
  }

  /** The formatters are asked for the planned formats, in plan order, up to and
      including the first one that throws. */
  lemma {:induction false} PrintAllFormats(plan: seq<Value>, formatter: Value -> FormatOutcome)
    ensures var r := PrintAll(plan, formatter);
      FormatsOf(r.0) == if r.1 < |plan| then plan[..r.1 + 1] else plan
  {
    if plan != [] {
      var (first, ok) := PrintResults(plan[0], formatter);
      assert FormatsOf(first) == [plan[0]] by {
        assert first[0] == UseFormatter(plan[0]);
        if |first| == 2 {
          assert first[1..][1..] == [];
          assert FormatsOf(first[1..]) == [];
        } else {
          assert first[1..] == [];
        }
      }
      if ok {
        var (rest, done) := PrintAll(plan[1..], formatter);
        PrintAllFormats(plan[1..], formatter);
        FormatsOfAppend(first, rest);
        if done < |plan[1..]| {
          assert [plan[0]] + plan[1..][..done + 1] == plan[..done + 2];
        } else {
          assert [plan[0]] + plan[1..] == plan;
        }
      }
    }
  }

  /** Printing one plan after another: the second plan is printed only when every
      format of the first one printed. */
  lemma {:induction false} PrintAllConcat(p: seq<Value>, q: seq<Value>, formatter: Value -> FormatOutcome)
    ensures PrintAll(p + q, formatter) ==
      if PrintAll(p, formatter).1 == |p|
      then (PrintAll(p, formatter).0 + PrintAll(q, formatter).0, |p| + PrintAll(q, formatter).1)
      else PrintAll(p, formatter)
  {
    if p == [] {
      assert p + q == q;
      assert PrintAll(p, formatter).0 + PrintAll(q, formatter).0 == PrintAll(q, formatter).0;
    } else {
      var head := PrintResults(p[0], formatter);
      assert (p + q)[0] == p[0];
      assert (p + q)[1..] == p[1..] + q;
      if !head.1 {
        assert PrintAll(p + q, formatter) == (head.0, 0);
        assert PrintAll(p, formatter) == (head.0, 0);
      } else {
        var rest := PrintAll(p[1..], formatter);
        var after := PrintAll(q, formatter);
        var both := PrintAll(p[1..] + q, formatter);
        PrintAllConcat(p[1..], q, formatter);
        assert PrintAll(p + q, formatter) == (head.0 + both.0, both.1 + 1);
        assert PrintAll(p, formatter) == (head.0 + rest.0, rest.1 + 1);
        if rest.1 == |p[1..]| {
          assert head.0 + (rest.0 + after.0) == (head.0 + rest.0) + after.0;
        }
      }
    }
  }

  /** Printing one more format after a plan that printed completely. */
  lemma {:induction false} PrintAllStep(plan: seq<Value>, format: Value, formatter: Value -> FormatOutcome)
    requires PrintAll(plan, formatter).1 == |plan|
    ensures PrintAll(plan + [format], formatter) ==
      (PrintAll(plan, formatter).0 + PrintResults(format, formatter).0,
       |plan| + if PrintResults(format, formatter).1 then 1 else 0)
  {
    PrintAllConcat(plan, [format], formatter);
    PrintAllSingle(format, formatter);
    var single := PrintAll([format], formatter);
    assert PrintAll(plan + [format], formatter) == (PrintAll(plan, formatter).0 + single.0, |plan| + single.1);
  }

  lemma {:induction false} PrintAllSingle(format: Value, formatter: Value -> FormatOutcome)
    ensures PrintAll([format], formatter) ==
      (PrintResults(format, formatter).0, if PrintResults(format, formatter).1 then 1 else 0)
  {
    assert [format][1..] == [];
    assert PrintAll([format][1..], formatter) == ([], 0);
    var head := PrintResults(format, formatter);
    assert [format][0] == format;
    if head.1 {
      assert PrintAll([format], formatter).0 == head.0 + [] == head.0;
      assert PrintAll([format], formatter).1 == 1;
    } else {
      assert PrintAll([format], formatter).0 == head.0;
    }
  }

  /** The `then`/`catch` continuation of a started run, as a reference definition:
      print the plan; the callback gets 2 once the first print of a run with issues
      has completed, and 0 otherwise; a failed print or a rejected run goes through
      the `catch` handler, which logs and calls back with the code set so far. */
  function Settle(run: RunOutcome, verbose: Value, outputFormat: Value, formatter: Value -> FormatOutcome): seq<Effect> {
    match run
    case SetupThrew => []
    case RunRejected => [LogRunFailure, Callback(0)]
    case RunResolved(issueCount, processedRuleCount) =>
      var plan := PrintPlan(issueCount, processedRuleCount, verbose, outputFormat);
      var printed := PrintAll(plan, formatter);
      var code := if issueCount > 0 && printed.1 > 0 then 2 else 0;
      printed.0 + (if printed.1 < |plan| then [LogRunFailure] else []) + [Callback(code)]
  }

  /** Unless setting up the run throws, the callback is called exactly once, last,
      with 0 or 2. */
  lemma SettleCallsBackOnce(run: RunOutcome, verbose: Value, outputFormat: Value, formatter: Value -> FormatOutcome)
    ensures var s := Settle(run, verbose, outputFormat, formatter);
      (run.SetupThrew? <==> s == []) &&
      (s != [] ==> s[|s| - 1].Callback? && s[|s| - 1].code in {0, 2}) &&
      forall i :: 0 <= i < |s| - 1 ==> !s[i].Callback?
  {
    if run.RunResolved? {
      var plan := PrintPlan(run.issueCount, run.processedRuleCount, verbose, outputFormat);
      var (effects, done) := PrintAll(plan, formatter);
      var s := Settle(run, verbose, outputFormat, formatter);
      PrintAllStops(plan, formatter);
      forall i | 0 <= i < |s| - 1 ensures !s[i].Callback? {
        if i < |effects| {
          assert s[i] == effects[i];
          assert effects[i] in effects;
        }
      }
    }
  }

  /** After a resolved run whose prints all succeed, the exit code is 2 exactly when
      there are issues, nothing goes through `catch`, and the formats printed are
      the plan, in order. */
  lemma SettleExitCode(run: RunOutcome, verbose: Value, outputFormat: Value, formatter: Value -> FormatOutcome)
    requires run.RunResolved?
    requires forall f :: f in PrintPlan(run.issueCount, run.processedRuleCount, verbose, outputFormat) ==> formatter(f).Rendered?
    ensures var s := Settle(run, verbose, outputFormat, formatter);
      s != [] && s[|s| - 1] == Callback(if run.issueCount > 0 then 2 else 0) &&
      LogRunFailure !in s &&
      FormatsOf(s) == PrintPlan(run.issueCount, run.processedRuleCount, verbose, outputFormat)
  {
    var plan := PrintPlan(run.issueCount, run.processedRuleCount, verbose, outputFormat);
    var printed := PrintAll(plan, formatter);
    PrintAllStops(plan, formatter);
    assert printed.1 == |plan|;
    var last := [Callback(if run.issueCount > 0 then 2 else 0)];
    assert Settle(run, verbose, outputFormat, formatter) == printed.0 + last;
    PrintAllFormats(plan, formatter);
    FormatsOfAppend(printed.0, last);
    assert FormatsOf(last) == [] by {
      assert last[1..] == [];
    }
    assert LogRunFailure !in printed.0;
  }

  /** Exit code 2 is only ever reported for a resolved run with issues whose first
      print completed; a rejected run always calls back with 0. */
  lemma SettleCodeTwo(run: RunOutcome, verbose: Value, outputFormat: Value, formatter: Value -> FormatOutcome)
    ensures run.RunRejected? ==> Settle(run, verbose, outputFormat, formatter) == [LogRunFailure, Callback(0)]
    ensures Callback(2) in Settle(run, verbose, outputFormat, formatter) ==>
      run.RunResolved? && run.issueCount > 0 && formatter(outputFormat).Rendered?
  {
    if run.RunResolved? {
      var plan := PrintPlan(run.issueCount, run.processedRuleCount, verbose, outputFormat);
      var printed := PrintAll(plan, formatter);
      var code := if run.issueCount > 0 && printed.1 > 0 then 2 else 0;
      var tail := (if printed.1 < |plan| then [LogRunFailure] else []) + [Callback(code)];
      assert Settle(run, verbose, outputFormat, formatter) == printed.0 + tail;
      PrintAllStops(plan, formatter);
      if Callback(2) in printed.0 + tail {
        assert Callback(2) !in printed.0;
        assert code == 2;
        assert formatter(plan[0]).Rendered?;
      }
    }
  }

  /** The reference trace of a resolved run, read off any prefix of the plan that
      covers every print made: the rest of the plan is never reached. */
  lemma {:induction false} SettleFromPrefix(issueCount: nat, processedRuleCount: nat, verbose: Value, outputFormat: Value,
                                            formatter: Value -> FormatOutcome, planned: seq<Value>, rest: seq<Value>)
    requires PrintPlan(issueCount, processedRuleCount, verbose, outputFormat) == planned + rest
    requires rest != [] ==> PrintAll(planned, formatter).1 < |planned|
    ensures var printed := PrintAll(planned, formatter);
      Settle(RunResolved(issueCount, processedRuleCount), verbose, outputFormat, formatter) ==
        printed.0 + (if printed.1 < |planned| then [LogRunFailure] else []) +
        [Callback(if issueCount > 0 && printed.1 > 0 then 2 else 0)]
  {
    var plan := planned + rest;
    if rest == [] {
      assert plan == planned;
    } else {
      PrintAllConcat(planned, rest, formatter);
    }
  }

  /** The `then` handler of a resolved run, with the `catch` handler it falls into
      when a print throws: `errorCode` becomes 2 right after the issues are printed. */
  method Settled(issueCount: nat, processedRuleCount: nat, verbose: Value, outputFormat: Value,
                 formatter: Value -> FormatOutcome)
    returns (effects: seq<Effect>)
    ensures effects == Settle(RunResolved(issueCount, processedRuleCount), verbose, outputFormat, formatter)
  {
    var errorCode := 0;
    effects := [];
    ghost var plan := PrintPlan(issueCount, processedRuleCount, verbose, outputFormat);
    // `planned` is the part of the plan asked for so far; after a failed print,
    // `rest` is the part it skipped.
    ghost var planned: seq<Value> := [];
    ghost var rest: seq<Value> := [];
    var failed := false;
    if issueCount > 0 {
      var (printed, ok) := PrintResults(outputFormat, formatter);
      PrintAllStep(planned, outputFormat, formatter);
      effects := effects + printed;
      planned := planned + [outputFormat];
      failed := !ok;
      if !failed {
        errorCode := 2;
      }
    }
    assert errorCode == if issueCount > 0 && PrintAll(planned, formatter).1 > 0 then 2 else 0;
    if failed {
      rest := plan[1..];
    } else if Truthy(verbose) {
      if issueCount > 0 {
        var (printed, ok) := PrintResults(Str("verbose"), formatter);
        PrintAllStep(planned, Str("verbose"), formatter);
        effects := effects + printed;
        planned := planned + [Str("verbose")];
        failed := !ok;
      }
      if failed {
        rest := plan[2..];
      } else if processedRuleCount > 0 {
        var (printed, ok) := PrintResults(Str("summary"), formatter);
        PrintAllStep(planned, Str("summary"), formatter);
        effects := effects + printed;
        planned := planned + [Str("summary")];
        failed := !ok;
      }
    }
    assert plan == planned + rest;
    SettleFromPrefix(issueCount, processedRuleCount, verbose, outputFormat, formatter, planned, rest);
    if failed {
      effects := effects + [LogRunFailure];
    }
    effects := effects + [Callback(errorCode)];
  }

  /** `execute`, step by step: the local `errorCode` starts at 0 and becomes 2 on a
      parse failure or once the issues have been printed. */
  method Execute(parsed: ParseOutcome, cwd: string, run: RunOutcome, formatter: Value -> FormatOutcome)
    returns (effects: seq<Effect>)
    ensures parsed.ParseFailed? ==> effects == [LogError(parsed.message), LogInfo(Str(PARSE_HINT)), Callback(2)]
    ensures parsed.Parsed? && Truthy(Get(parsed.options, "version")) ==> effects == [ShowVersion]
    ensures parsed.Parsed? && !Truthy(Get(parsed.options, "version")) && Truthy(Get(parsed.options, "help")) ==>
      effects == [ShowHelp]
    ensures parsed.Parsed? && !Truthy(Get(parsed.options, "version")) && !Truthy(Get(parsed.options, "help")) ==>
      var engineOptions := PrepareEngineOptions(parsed.options, cwd);
      effects == [StartEngine(ConfigTarget(engineOptions), engineOptions)] +
                 Settle(run, Get(parsed.options, "verbose"), Get(engineOptions, "outputFormat"), formatter)
  {
    var errorCode := 0;
    if parsed.ParseFailed? {
      errorCode := 2;
      return [LogError(parsed.message), LogInfo(Str(PARSE_HINT)), Callback(errorCode)];
    }
    var currentOptions := parsed.options;
    if Truthy(Get(currentOptions, "version")) {
      effects := [ShowVersion];
    } else if Truthy(Get(currentOptions, "help")) {
      effects := [ShowHelp];
    } else {
      var engineOptions := PrepareEngineOptions(currentOptions, cwd);
      effects := [StartEngine(ConfigTarget(engineOptions), engineOptions)];
      var verbose := Get(currentOptions, "verbose");
      var outputFormat := Get(engineOptions, "outputFormat");
      match run {
        case SetupThrew =>
        case RunRejected =>
          effects := effects + [LogRunFailure, Callback(errorCode)];
        case RunResolved(issueCount, processedRuleCount) =>
          var settled := Settled(issueCount, processedRuleCount, verbose, outputFormat, formatter);
          effects := effects + settled;
      }
    }
  }
}
