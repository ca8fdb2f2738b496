# adviser (sentinal) core, modelled in Dafny

This project models the core of the adviser/sentinal linter for JavaScript
projects:

- the rule engine, which merges its options, runs every loaded rule and collects
  one issue per `report` call;
- the older configuration class, which locates and validates the configuration
  file, flattens the loaded plugins' rules into qualified ids, and binds every
  configured rule name to a plugin rule;
- the newer configuration loader, whose `_config` field is set by `load` or
  `search` and then schema-checked;
- the command-line entry, which parses options, answers `--version` and `--help`,
  or runs the engine, prints the results in a fixed order and reports an exit
  code.

Modules, one per source file plus two shared ones:

| module | file | source |
|---|---|---|
| `Js` | js.dfy | JavaScript values: truthiness, `||`, property reads, `Object.keys` order, `Object.assign` |
| `ConfigSource` | config_source.dfy | the collaborators both loaders call (cosmiconfig explorer, `path.resolve`, schema validator) and their error kinds |
| `CoreEngine` | engine.dfy | src/core/engine.js |
| `LegacyConfig` | legacy_config.dfy | src/core/config/config.old.js |
| `ConfigLoader` | config.dfy | src/core/config/config.js |
| `Cli` | cli.dfy | src/cli/cli.js |

Several things become parameters of the model:

- the file-system and library calls: `loadSync`, `searchSync`, `fs.statSync`,
  `path.resolve`, `process.cwd()`;
- the option parser (`options.parse`);
- the default engine options, which the `Engine` constructor takes as
  `defaults`;
- the schema validator;
- the plugin registry;
- the formatters;
- each rule's `create` code.

Each is a total function or value the caller supplies. The option parser, the
explorer's `loadSync` and `searchSync`, `fs.statSync` and the formatters have
an outcome type covering each way the call can end: a throw, a result, and for
the explorer also `null`. The source reads `.config` of a `null` explorer
result without a check, which the model gives as `TypeError`. An explorer
result may lack `filepath`, which is then `undefined`. The other parameters
always return a value; "## Left out" lists them.

A JavaScript object is an ordered list of (key, value) entries, so key order and
`Object.assign` overwriting are explicit. Numbers are integers, since the core
only compares them with small literals. The bitwise `|` of `normalizeSeverity`
is computed on `bv32`.

The engine and the newer loader update fields in place, so they are classes.
`Engine` holds `options` and `rawIssues`. `Config` holds `current`, which is
`_config`. The engine's loops are methods with invariants, each proved equal
to a specification function that carries the lemmas. `Config`'s methods have
no loops and state their outcomes case by case.

The old configuration's constructor is the method `LegacyConfig.Create`. Its
loops are `FlattenPluginRules`, `FindPluginRule` and `BindRules`. It is proved
equal to the function `Construct`.

`execute` is the method `Cli.Execute`. It returns the list of observable steps
(log lines, formatter uses, engine start, callback). Its `then`/`catch` part is
proved equal to the reference definition `Cli.Settle`.

Where the files disagree, the model follows each file as written:

- src/cli/cli.js builds `new Engine(config, engineOptions)` and calls
  `engine.getIssues()` and `engine.getRules()`.
- The engine in src/core/engine.js has the constructor `constructor(providedOptions)`.
  Its `run()` returns no promise, and it has neither `getIssues` nor `getRules`.
- The command-line model therefore takes the outcome of the run as an input:
  a throw out of `execute` while `new Config` or `new Engine`
  (src/cli/cli.js:57-58) is set up, a rejected run, or a run resolved with an
  issue count and a processed-rule count. The step `StartEngine` marks the
  attempt, so it is recorded even when the setup throws.
- src/core/engine.js:12 loads `./config/config`, which is
  src/core/config/config.js. That class's constructor takes
  `(filePath, fileExplorer)` (src/core/config/config.js:34) and it has no `rules`
  property, so `this.config.rules.getAllLoadedRules()` (src/core/engine.js:26)
  would read a property of `undefined`.
- The call `new Config(cwd, configFile)` at src/core/engine.js:19 and the read of
  `config.rules` fit the older src/core/config/config.old.js instead. The engine
  model follows that shape: `CoreEngine.Engine.Run` takes the rules that
  `Rules.getAllLoadedRules` would give as a parameter, and `LegacyConfig.Create`
  models the class that supplies them.

## Model

| member | source | states |
|---|---|---|
| `CoreEngine.NormalizeSeverity` | src/core/engine.js:71-81 | as written, every input (`'warn'`, `1`, `'off'`, anything) maps to `'error'` |
| `CoreEngine.NormalizeSeverityDiffersFromIntended` | src/core/engine.js:71-81 | the bitwise OR with 2 or 1 is non-zero for both booleans, so the `'warn'` and `'off'` returns are unreachable; `'warn'` and `0` come out as `'error'` where the three-way scale gives `'warn'` and `'off'` |
| `CoreEngine.IntendedSeverity` | src/core/engine.js:71-81 | the three-way scale: `'error'` exactly for `'error'`/2, `'warn'` exactly for `'warn'`/1, `'off'` for everything else |
| `CoreEngine.IntendedSeverityIdempotent` | src/core/engine.js:71-81 | mapping the canonical token of any result again gives the same severity; each canonical token (`'error'`, `'warn'`, `'off'`) maps to its own severity |
| `CoreEngine.MergeOptionsPrecedence` | src/core/engine.js:17 | for every key, the merged options read the provided value if the key is provided, else `cwd` for `"cwd"`, else the default; the merged keys are the union of the three |
| `Js.LookupAssign` | src/core/engine.js:17 | `Object.assign` with one source: keys of the source read as the source's values, all other keys keep the target's; the key set is the union |
| `CoreEngine.RunIssuesLength` | src/core/engine.js:26-42 | a run adds exactly as many issues as the rules make `report` calls |
| `CoreEngine.RunIssuesAppend` | src/core/engine.js:26-42 | running two rule lists back to back adds the first list's issues followed by the second's, so issues are grouped rule by rule in load order |
| `CoreEngine.RunIssuesAt` | src/core/engine.js:26-42 | the k-th report of rule j is the issue right after all reports of the earlier rules, and it carries that report's params |
| `CoreEngine.RunIssuesShape` | src/core/engine.js:32-37 | every issue has plugin name `'audit-npm'`, rule name `'min-vulnerabilities-allowed'` and severity `'error'`, whatever rule reported it, and its params were reported by some rule |
| `CoreEngine.Engine.constructor` | src/core/engine.js:15-22 | the options are the merge of defaults, `{ cwd }` and the provided options; the issue list starts empty |
| `CoreEngine.Engine.ProcessRuleOutput` | src/core/engine.js:47-49 | appends exactly the given record at the end; the options are unchanged |
| `CoreEngine.Engine.Report` | src/core/engine.js:31-39 | one `report(params)` call appends one record at the end with the normalised severity of the rule's settings and the params exactly as passed; earlier records are unchanged |
| `CoreEngine.Engine.RunRule` | src/core/engine.js:27-41 | one rule runs once, with context options = its settings and dirname = the engine's `cwd`; the issue list becomes the old list followed by one issue per report, in call order; the options are unchanged |
| `CoreEngine.Engine.Run` | src/core/engine.js:24-43 | the rules run in load order; the issue list becomes the old list followed by the issues of every rule, rule by rule (with `RunIssuesLength`, it grows by exactly the number of reports) |
| `LegacyConfig.NormalizeRuleName` | src/core/config/config.old.js:75 | a name mentioning `sentinal-plugin` is kept, and only such a name; any other name gets the prefix `sentinal-plugin-`; the result always mentions the marker |
| `LegacyConfig.NormalizeRuleNameIdempotent` | src/core/config/config.old.js:75 | normalising twice is normalising once |
| `LegacyConfig.PluginRulesOf` | src/core/config/config.old.js:55-70 | every entry's qualified id is its plugin name, `/` and its rule id |
| `LegacyConfig.PluginRulesOfAppend` | src/core/config/config.old.js:55-70 | the entries come plugin by plugin: the entries of a concatenation of plugin lists are the concatenation of their entries |
| `LegacyConfig.PluginRulesOfMembership` | src/core/config/config.old.js:55-70 | an entry is present exactly when some plugin with a truthy `rules` export exports that rule id; a plugin without `rules` contributes nothing |
| `LegacyConfig.FlattenPluginRules` | src/core/config/config.old.js:52-70 | the nested loop builds exactly the flattened list, plugin by plugin and rule key by rule key |
| `LegacyConfig.Find` | src/core/config/config.old.js:76 | nothing is found exactly when no entry has the id; a found entry has the id and is one of the entries |
| `LegacyConfig.FindFirst` | src/core/config/config.old.js:76 | the found entry is the first one with that id |
| `LegacyConfig.FindPluginRule` | src/core/config/config.old.js:76 | the scan returns exactly the first match, or nothing |
| `LegacyConfig.BindOneMeaning` | src/core/config/config.old.js:73-85 | one configured name binds exactly when some entry's qualified id is the normalised name; it then binds the first such entry's rule under that id with the raw declaration, and otherwise fails with "The rule <name as written> was not found" |
| `LegacyConfig.BindAllSucceedsIff` | src/core/config/config.old.js:72-87 | binding succeeds exactly when every configured name has a match |
| `LegacyConfig.BindAllContents` | src/core/config/config.old.js:72-87 | a successful binding holds one `rules.add` per configured name, in key order, each that name's binding |
| `LegacyConfig.BindAllFailsAtFirstMissing` | src/core/config/config.old.js:73-80 | a failed binding fails at the first configured name without a match, in key order, with that name's not-found message |
| `LegacyConfig.BindRules` | src/core/config/config.old.js:72-87 | the loop adds the bindings one name at a time and stops at the first failure, with the same result as the binding function |
| `LegacyConfig.ConstructSelectsSource` | src/core/config/config.old.js:30-34 | with a truthy path only `loadSync` is consulted; without one only `searchSync` is consulted |
| `LegacyConfig.ConstructValidatesFirst` | src/core/config/config.old.js:37-42 | a configuration with schema errors fails with the validation error carrying the constructor's path and every schema error, whatever the plugins and rules |
| `LegacyConfig.ConstructSucceeds` | src/core/config/config.old.js:44-87 | a successful construction had a valid configuration; its entries are the flattened rules of the registry's plugins, loaded from the `plugins` list only when it is truthy; it has one binding per configured rule, or none without `rules` |
| `LegacyConfig.Create` | src/core/config/config.old.js:23-114 | the constructor step by step, including the explorer error mapping of `loadConfigFileFromPath` and `searchConfigFile`, has exactly the outcome of `Construct` |
| `ConfigLoader.ValidateSchema` | src/core/config/config.js:130-140 | succeeds exactly when the validator reports no errors and then returns the configuration unchanged; otherwise fails with the validation error carrying the given path and every schema error |
| `ConfigLoader.Config.constructor` | src/core/config/config.js:34-37 | `_config` starts null, so `getPlugins()` is `[]` and `getRules()` is `{}` |
| `ConfigLoader.Config.GetPlugins` | src/core/config/config.js:56-62 | the loaded configuration's `plugins` when a truthy configuration is loaded, `[]` otherwise |
| `ConfigLoader.Config.GetRules` | src/core/config/config.js:70-76 | the loaded configuration's `rules` when a truthy configuration is loaded, `{}` otherwise |
| `ConfigLoader.Config.Load` | src/core/config/config.js:85-99 | an explorer failure raises the path-not-found error naming the error's `path` or else the resolved path, and leaves `_config` unchanged; a result is stored before validation and stays stored when the validation fails, which carries the loaded `filepath`; a `null` result fails when read |
| `ConfigLoader.Config.Search` | src/core/config/config.js:108-121 | as for `load`, but an explorer failure raises the distinct not-found error with a `null` message |
| `ConfigLoader.Config.Open` | src/core/config/config.js:39-47 | the dispatch `Opened` states in full: no truthy path changes nothing; a stat failure escapes with `_config` unchanged; a directory is searched and any other path loaded, each with its own not-found error naming the error's path or else the resolved path, `null` stored then a `TypeError`, or the result stored and its schema error (carrying the loaded `filepath`) escaping |
| `ConfigLoader.NewConfig` | src/core/config/config.js:34-48 | a new object whose `_config` and escaping error are those of the dispatch from `null` |
| `ConfigLoader.OpenedDeterministic` | src/core/config/config.js:39-47 | the dispatch leaves one `_config` and one error for each start, so `Open` and `NewConfig` state their outcome completely |
| `ConfigLoader.OpenedSucceedsIff` | src/core/config/config.js:39-47 | construction succeeds exactly without a truthy path, or when the explorer call that the stat selects returned a configuration with no schema errors; that file is then loaded |
| `ConfigLoader.OpenedNotFound` | src/core/config/config.js:39-47 | an explorer failure leaves `_config` unchanged and raises, for a directory, the not-found error and otherwise the path-not-found error, naming the error's `path` when truthy and the resolved path otherwise |
| `ConfigLoader.OpenedValidationError` | src/core/config/config.js:39-47 | a schema failure from the constructor carries the loaded file's `filepath`, the fixed message and every schema error, and the file stays loaded |
| `Cli.PrepareEngineOptionsShape` | src/cli/cli.js:120-130 | the engine options have `outputFormat = 'base'`, the working directory, `verboseMode = verbose` when truthy and `false` otherwise, and a `configFile` key exactly when `config` is truthy; no other key |
| `Cli.PrintResults` | src/cli/cli.js:105-113 | builds the formatter for the format; logs its output only when the output is truthy; completes exactly when the formatter does not throw |
| `Cli.PrintAllStops` | src/cli/cli.js:66-86 | the prints that complete are a prefix of the plan whose formatters render; when cut short, the next planned format is the one that threw |
| `Cli.PrintAllFormats` | src/cli/cli.js:66-86 | formatters are asked for the planned formats in plan order, up to and including the first that throws |
| `Cli.PrintAllConcat` | src/cli/cli.js:66-86 | a later print happens only when every earlier one completed |
| `Cli.SettleCallsBackOnce` | src/cli/cli.js:62-93 | once the run is started, the callback is called exactly once, as the last step, with 0 or 2; a throw while setting up the run calls back never |
| `Cli.SettleExitCode` | src/cli/cli.js:63-88 | after a resolved run whose prints succeed, the code is 2 exactly when there are issues; nothing is logged as a failure; the formats printed are, in order, the output format if there are issues, `'verbose'` if verbose with issues, and `'summary'` if verbose with processed rules |
| `Cli.SettleCodeTwo` | src/cli/cli.js:88-93 | a rejected run calls back with 0; code 2 only follows a resolved run with issues whose output format rendered |
| `Cli.Settled` | src/cli/cli.js:62-93 | the `then` handler, with its fall into `catch` when a print throws, produces exactly the reference trace |
| `Cli.Execute` | src/cli/cli.js:29-95 | a parse failure logs the message and the hint and calls back with 2, and nothing else; `version` wins over `help`; neither calls back; otherwise the engine starts on the config file or else the working directory, and the rest is the reference trace |

## Left out

- Logging and `debug` output are side effects. The command-line model records
  each log line as a step of the trace. The parse-error message and hint
  (`LogError`) and a formatter's output (`LogInfo`) carry their text. The
  run-failure log (`LogRunFailure`), `ShowVersion` and `ShowHelp` carry none.
- The cosmiconfig explorer, `fs.statSync`, `path.resolve`, `process.cwd()`, the
  schema validator, the plugin registry (`Plugins`), the formatters and the
  option parser are foreign code. Each is a parameter; their own behaviour is
  not part of this model.
- `LegacyConfig.Create` replaces the rule store (`Rules`,
  src/core/config/config.old.js:51) by the list of its `rules.add` calls
  (src/core/config/config.old.js:85), in order. Every call is kept, even when
  two configured names normalise to the same qualified id, such as `"a/r"` and
  `"sentinal-plugin-a/r"`; what the store does with such a pair is not modelled.
- `Engine.getFormatter` and `Engine.printResults` (src/core/engine.js:44,51-69)
  are a dynamic `require` plus logging, so they are not modelled.
  `CoreEngine.Engine.Run` stops before the final print.
- `CoreEngine.Engine.constructor` builds no configuration
  (src/core/engine.js:19). `Rules.getAllLoadedRules` is not part of this model,
  so `Run` takes the loaded rules as a parameter.
- `CoreEngine.Engine.Run` does not model the TypeError that reading
  `this.config.rules` would raise with the configuration class that
  src/core/engine.js:12 actually loads; see the list of file disagreements above.
- Some collaborators are assumed never to throw:
  - the plugin registry: a throw from `plugins.loadAll`
    (src/core/config/config.old.js:48), such as a plugin that fails to load;
  - the rule store: a throw from `rules.add` (src/core/config/config.old.js:85);
  - `path.resolve`: `resolve(undefined)` throws in Node, for example when `load()`
    is called with no path (src/core/config/config.js:91), and the model names
    the resolved path instead;
  - the schema validator.
- `CoreEngine.IssueFor` reads `rule.settings.severity` with `Js.Get`. A `null`
  or `undefined` `settings` makes `report` throw at src/core/engine.js:34; the
  model gives an issue with the normalised severity instead.
- A rule's `create` is seen only through the params it reports, in order. A rule
  that throws, or that reports after `create` returns, is not modelled.
- The promise in src/cli/cli.js:60-93 is modelled as one synchronous step. Also
  not modelled: a callback that itself throws inside `then`, which would reach
  `catch` and call back a second time.
- `Cli.Execute` does not produce the version and help texts. They are the steps
  `ShowVersion` and `ShowHelp`.
- `LegacyConfig.Create` does not keep the `Plugins` and `Rules` objects.
  - It returns the flattened entries and the `rules.add` calls in order.
  - Reading `.config` of a `null` explorer result is the error `TypeError`.
  - So is reading `.plugins` of an `undefined` or `null` configuration.
- `ConfigLoader.Config.Open` models the constructor after its first two
  statements. It returns the error a JavaScript constructor would throw, because
  a Dafny constructor cannot fail.
- The engine test file targets an engine API that neither configuration file
  nor src/core/engine.js has: `new Engine(config, {})`, `engine.rules`, and
  invalid-rule errors. It is not modelled.
- src/cli/bin/sentinal.js is process wiring and is not part of this model.
- Objects keep their keys in insertion order. JavaScript lists array-index keys
  (such as `"1"`) first, in ascending order; such keys are not modelled.
- The index keys of strings and arrays are not modelled: `Object.keys("ab")` is
  `["0", "1"]`, but the model gives strings and arrays no own properties.

## Findings

| source | as written | input that shows it | evidently intended | confidence | as-written member | corrected member |
|---|---|---|---|---|---|---|
| src/core/engine.js:72-80 | `(severity === 'error') \| 2` is a bitwise OR with a non-zero mask, so the first test always passes and every severity becomes `'error'` | `severity = 'warn'` gives `'error'`; so does `0` | `'error'`/2 → `'error'`, `'warn'`/1 → `'warn'`, anything else → `'off'` (a logical `\|\|`) | high; not executed | `CoreEngine.NormalizeSeverityDiffersFromIntended` | `CoreEngine.IntendedSeverity` |

The engine model keeps the mapping as written, because that is what the shipped
engine does; `CoreEngine.IntendedSeverity` and `CoreEngine.IntendedSeverityIdempotent`
give the intended mapping and its properties.
