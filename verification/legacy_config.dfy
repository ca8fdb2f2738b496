/** The older configuration class of src/core/config/config.old.js, whose constructor
    locates and validates the configuration, loads the declared plugins, flattens
    their rules into qualified ids, and binds every configured rule name to the
    first plugin rule with the matching qualified id. */
module LegacyConfig {
  import opened Js
  import opened ConfigSource

  /** A rule implementation exported by a plugin, known only by its identity. */
  datatype RuleImpl = RuleImpl(id: nat)

  /** A plugin as `plugins.get(name)` returns it: its `rules` export when that is
      truthy, as (ruleId, rule) pairs in `Object.keys` order. */
  datatype Plugin = Plugin(name: string, rules: Option<seq<(string, RuleImpl)>>)

  /** One entry of `pluginRules`. */
  datatype PluginRule = PluginRule(pluginName: string, ruleId: string, qualifiedRuleId: string, rule: RuleImpl)

  /** One `rules.add(qualifiedRuleId, rule, declaration)` call. */
  datatype RuleBinding = RuleBinding(qualifiedRuleId: string, rule: RuleImpl, declaration: Value)

  /** A successfully constructed `Config`. */
  datatype Config = Config(currentDirectory: Value, configFilePath: Value, pluginRules: seq<PluginRule>, rules: seq<RuleBinding>)

  /** The plugin registry seen from the constructor: `getAll()` for the current
      directory, after `loadAll(list)` when a list is given; it is taken never
      to throw. */
  type PluginRegistry = (Value, Option<Value>) -> seq<Plugin>

  const PLUGIN_MARKER: string := "sentinal-plugin"
  const PLUGIN_PREFIX: string := "sentinal-plugin-"
  const INVALID_CONFIG_MESSAGE: string := "Invalid Sentinal Configuration file"

  predicate OccursAt(s: string, sub: string, i: int) {
    0 <= i <= |s| - |sub| && s[i..i + |sub|] == sub
  }

  /** `s.indexOf(sub) >= 0`. */
  predicate Contains(s: string, sub: string) {
    exists i | 0 <= i <= |s| - |sub| :: OccursAt(s, sub, i)
  }

  /** A configured rule name is used as written when it mentions the plugin marker,
      and otherwise gets the plugin prefix. The result always mentions the marker. */
  function NormalizeRuleName(ruleName: string): (r: string)
    ensures r == ruleName || r == PLUGIN_PREFIX + ruleName
    ensures r == ruleName <==> Contains(ruleName, PLUGIN_MARKER)
    ensures Contains(r, PLUGIN_MARKER)
  {
    if !Contains(ruleName, PLUGIN_MARKER) then
      var r := PLUGIN_PREFIX + ruleName;
      assert OccursAt(r, PLUGIN_MARKER, 0);
      r
    else ruleName
  }

  lemma NormalizeRuleNameIdempotent(ruleName: string)
    ensures NormalizeRuleName(NormalizeRuleName(ruleName)) == NormalizeRuleName(ruleName)
  {
  }

  function RuleNotFoundMessage(ruleName: string): string {
    "The rule " + ruleName + " was not found"
  }

  /** The entries one plugin contributes: none when its `rules` export is falsy. */
  function RulesOfPlugin(p: Plugin): seq<PluginRule> {
    match p.rules
    case None => []
    case Some(rs) =>
      seq(|rs|, j requires 0 <= j < |rs| => PluginRule(p.name, rs[j].0, p.name + "/" + rs[j].0, rs[j].1))
  }

  /** `pluginRules`: plugin by plugin, then rule key by rule key. Every entry's
      qualified id is its plugin name, a slash and its rule id. */
  function PluginRulesOf(plugins: seq<Plugin>): (r: seq<PluginRule>)
    ensures forall i :: 0 <= i < |r| ==> r[i].qualifiedRuleId == r[i].pluginName + "/" + r[i].ruleId
  {
    if plugins == [] then []
    else PluginRulesOf(plugins[..|plugins| - 1]) + RulesOfPlugin(plugins[|plugins| - 1])
  }

  lemma {:induction false} PluginRulesOfAppend(a: seq<Plugin>, b: seq<Plugin>)
    ensures PluginRulesOf(a + b) == PluginRulesOf(a) + PluginRulesOf(b)
    decreases |b|
  {
    if b == [] {
      assert a + b == a;
    } else {
      assert (a + b)[..|a + b| - 1] == a + b[..|b| - 1];
      PluginRulesOfAppend(a, b[..|b| - 1]);
    }
  }

  /** Exactly one entry per (plugin, rule id) of a plugin with a truthy `rules`
      export, carrying that plugin's name, the rule id and the exported rule. */
  lemma {:induction false} PluginRulesOfMembership(plugins: seq<Plugin>, pr: PluginRule)
    ensures pr in PluginRulesOf(plugins) <==>
      exists i, j :: 0 <= i < |plugins| && plugins[i].rules.Some? && 0 <= j < |plugins[i].rules.value| &&
        pr == PluginRule(plugins[i].name, plugins[i].rules.value[j].0,
                         plugins[i].name + "/" + plugins[i].rules.value[j].0, plugins[i].rules.value[j].1)
  {
    if plugins != [] {
      var init := plugins[..|plugins| - 1];
      var last := |plugins| - 1;
      PluginRulesOfMembership(init, pr);
      assert PluginRulesOf(plugins) == PluginRulesOf(init) + RulesOfPlugin(plugins[last]);
      if pr in PluginRulesOf(plugins) {
        if pr !in PluginRulesOf(init) {
          var j :| 0 <= j < |RulesOfPlugin(plugins[last])| && RulesOfPlugin(plugins[last])[j] == pr;
          assert plugins[last].rules.Some?;
        } else {
          var i, j :| 0 <= i < |init| && init[i].rules.Some? && 0 <= j < |init[i].rules.value| &&
            pr == PluginRule(init[i].name, init[i].rules.value[j].0,
                             init[i].name + "/" + init[i].rules.value[j].0, init[i].rules.value[j].1);
          assert plugins[i] == init[i];
        }
      } else {
        forall i, j | 0 <= i < |plugins| && plugins[i].rules.Some? && 0 <= j < |plugins[i].rules.value|
          ensures pr != PluginRule(plugins[i].name, plugins[i].rules.value[j].0,
                                   plugins[i].name + "/" + plugins[i].rules.value[j].0, plugins[i].rules.value[j].1)
        {
          if i == last {
            assert RulesOfPlugin(plugins[last])[j] in PluginRulesOf(plugins);
          } else {
            assert init[i] == plugins[i];
          }
        }
      }
    }
  }

  /** `pluginRules.find(...)`: the first entry whose qualified id is `id`. */
  function Find(pluginRules: seq<PluginRule>, id: string): (r: Option<PluginRule>)
    ensures r.None? <==> forall i :: 0 <= i < |pluginRules| ==> pluginRules[i].qualifiedRuleId != id
    ensures r.Some? ==> r.value.qualifiedRuleId == id && r.value in pluginRules
  {
    if pluginRules == [] then None
    else if pluginRules[0].qualifiedRuleId == id then Some(pluginRules[0])
    else
      var r := Find(pluginRules[1..], id);
      if r.Some? then
        r
      else
        assert forall i :: 0 <= i < |pluginRules| ==> pluginRules[i].qualifiedRuleId != id by {
          forall i | 0 <= i < |pluginRules| ensures pluginRules[i].qualifiedRuleId != id {
            if i > 0 { assert pluginRules[i] == pluginRules[1..][i - 1]; }
          }
        }
        r
  }

  /** The match is the first entry with that id: every entry before it differs. */
  lemma {:induction false} FindFirst(pluginRules: seq<PluginRule>, id: string)
    requires Find(pluginRules, id).Some?
    ensures exists i ::
              0 <= i < |pluginRules| && pluginRules[i] == Find(pluginRules, id).value &&
              forall j :: 0 <= j < i ==> pluginRules[j].qualifiedRuleId != id
  {
    if pluginRules[0].qualifiedRuleId != id {
      var rest := pluginRules[1..];
      FindFirst(rest, id);
      var i :| 0 <= i < |rest| && rest[i] == Find(rest, id).value &&
        forall j :: 0 <= j < i ==> rest[j].qualifiedRuleId != id;
      assert pluginRules[i + 1] == rest[i];
      forall j | 0 <= j < i + 1 ensures pluginRules[j].qualifiedRuleId != id {
        if j > 0 { assert pluginRules[j] == rest[j - 1]; }
      }
    }
  }

  /** One `rules.add` step: the first plugin rule whose qualified id is the
      normalised name, bound with the raw declaration; or the not-found error. */
  function BindOne(pluginRules: seq<PluginRule>, declaration: (string, Value)): Result<RuleBinding, ConfigError> {
    match Find(pluginRules, NormalizeRuleName(declaration.0))
    case None => Err(RuleNotFound(RuleNotFoundMessage(declaration.0)))
    case Some(pr) => Ok(RuleBinding(pr.qualifiedRuleId, pr.rule, declaration.1))
  }

  /** The rule definitions, configured name by configured name in key order;
      the first name without a match stops everything with its error. */
  function BindAll(pluginRules: seq<PluginRule>, declared: seq<(string, Value)>): Result<seq<RuleBinding>, ConfigError> {
    if declared == [] then Ok([])
    else
      match BindOne(pluginRules, declared[0])
      case Err(e) => Err(e)
      case Ok(binding) =>
        match BindAll(pluginRules, declared[1..])
        case Err(e) => Err(e)
        case Ok(rest) => Ok([binding] + rest)
  }

  /** What one binding step means: it succeeds exactly when some plugin rule has
      the normalised name as its qualified id, and then binds the first such rule
      under that id with the raw declaration; otherwise it reports the name as
      written. */
  lemma BindOneMeaning(pluginRules: seq<PluginRule>, declaration: (string, Value))
    ensures BindOne(pluginRules, declaration).Ok? <==>
      exists i :: 0 <= i < |pluginRules| && pluginRules[i].qualifiedRuleId == NormalizeRuleName(declaration.0)
    ensures BindOne(pluginRules, declaration).Ok? ==>
      var pr := Find(pluginRules, NormalizeRuleName(declaration.0)).value;
      BindOne(pluginRules, declaration).value == RuleBinding(NormalizeRuleName(declaration.0), pr.rule, declaration.1)
    ensures BindOne(pluginRules, declaration).Err? ==>
      BindOne(pluginRules, declaration).error == RuleNotFound(RuleNotFoundMessage(declaration.0))
  {
  }

  /** Every configured name binds. */
  predicate AllBind(pluginRules: seq<PluginRule>, declared: seq<(string, Value)>) {
    forall i :: 0 <= i < |declared| ==> BindOne(pluginRules, declared[i]).Ok?
  }

  /** Binding succeeds exactly when every configured name has a match. */
  lemma {:induction false} BindAllSucceedsIff(pluginRules: seq<PluginRule>, declared: seq<(string, Value)>)
    ensures BindAll(pluginRules, declared).Ok? <==> AllBind(pluginRules, declared)
  {
    if declared != [] {
      var rest := declared[1..];
      BindAllSucceedsIff(pluginRules, rest);
      var head := BindOne(pluginRules, declared[0]).Ok?;
      assert AllBind(pluginRules, declared) <==> head && AllBind(pluginRules, rest) by {
        if head && AllBind(pluginRules, rest) {
          forall i | 0 <= i < |declared| ensures BindOne(pluginRules, declared[i]).Ok? {
            if i > 0 { assert declared[i] == rest[i - 1]; }
          }
        }
        if AllBind(pluginRules, declared) {
          forall i | 0 <= i < |rest| ensures BindOne(pluginRules, rest[i]).Ok? {
            assert rest[i] == declared[i + 1];
          }
        }
      }
    }
  }

  /** A successful binding has one entry per configured name, in key order: the
      binding step of that name. */
  lemma {:induction false} BindAllContents(pluginRules: seq<PluginRule>, declared: seq<(string, Value)>)
    requires BindAll(pluginRules, declared).Ok?
    ensures |BindAll(pluginRules, declared).value| == |declared|
    ensures forall i :: 0 <= i < |declared| ==>
      BindOne(pluginRules, declared[i]).Ok? && BindAll(pluginRules, declared).value[i] == BindOne(pluginRules, declared[i]).value
  {
    if declared != [] {
      var rest := declared[1..];
      BindAllContents(pluginRules, rest);
      var bound := BindAll(pluginRules, declared).value;
      var restBound := BindAll(pluginRules, rest).value;
      assert bound[1..] == restBound;
      forall i | 0 <= i < |declared|
        ensures BindOne(pluginRules, declared[i]).Ok? && bound[i] == BindOne(pluginRules, declared[i]).value
      {
        if i > 0 {
          assert declared[i] == rest[i - 1];
          assert bound[i] == restBound[i - 1];
        }
      }
    }
  }

  /** The name at index i is the first configured name without a match. */
  predicate FirstMissing(pluginRules: seq<PluginRule>, declared: seq<(string, Value)>, i: int) {
    0 <= i < |declared| &&
    BindOne(pluginRules, declared[i]).Err? &&
    forall j :: 0 <= j < i ==> BindOne(pluginRules, declared[j]).Ok?
  }

  /** Binding fails exactly at the first configured name without a match, with
      "The rule <name> was not found" for that name as written. */
  lemma {:induction false} BindAllFailsAtFirstMissing(pluginRules: seq<PluginRule>, declared: seq<(string, Value)>)
    requires BindAll(pluginRules, declared).Err?
    ensures exists i :: FirstMissing(pluginRules, declared, i) &&
              BindAll(pluginRules, declared).error == RuleNotFound(RuleNotFoundMessage(declared[i].0))
  {
    var rest := declared[1..];
    var head := BindOne(pluginRules, declared[0]);
    if head.Err? {
      assert BindAll(pluginRules, declared) == Err(head.error);
      assert FirstMissing(pluginRules, declared, 0);
    } else {
      assert BindAll(pluginRules, rest).Err? && BindAll(pluginRules, declared).error == BindAll(pluginRules, rest).error;
      BindAllFailsAtFirstMissing(pluginRules, rest);
      var i :| FirstMissing(pluginRules, rest, i) &&
        BindAll(pluginRules, rest).error == RuleNotFound(RuleNotFoundMessage(rest[i].0));
      assert FirstMissing(pluginRules, declared, i + 1) by {
        assert declared[i + 1] == rest[i];
        forall j | 0 <= j < i + 1 ensures BindOne(pluginRules, declared[j]).Ok? {
          if j > 0 { assert declared[j] == rest[j - 1]; }
        }
      }
    }
  }

  /** The plugin-rule flattening loop of the constructor. */
  method FlattenPluginRules(plugins: seq<Plugin>) returns (pluginRules: seq<PluginRule>)
    ensures pluginRules == PluginRulesOf(plugins)
  {
    pluginRules := [];
    var i := 0;
    while i < |plugins|
      invariant 0 <= i <= |plugins|
      invariant pluginRules == PluginRulesOf(plugins[..i])
    {
      var plugin := plugins[i];
      if plugin.rules.Some? {
        var rs := plugin.rules.value;
        var j := 0;
        while j < |rs|
          invariant 0 <= j <= |rs|
          invariant pluginRules == PluginRulesOf(plugins[..i]) + RulesOfPlugin(plugin)[..j]
        {
          var qualifiedRuleId := plugin.name + "/" + rs[j].0;
          pluginRules := pluginRules + [PluginRule(plugin.name, rs[j].0, qualifiedRuleId, rs[j].1)];
          assert RulesOfPlugin(plugin)[..j + 1] == RulesOfPlugin(plugin)[..j] + [RulesOfPlugin(plugin)[j]];
          j := j + 1;
        }
        assert RulesOfPlugin(plugin)[..j] == RulesOfPlugin(plugin);
      }
      assert plugins[..i + 1][..i] == plugins[..i];
      i := i + 1;
    }
    assert plugins[..i] == plugins;
  }

  /** The `find` call: scans the entries in order and stops at the first match. */
  method FindPluginRule(pluginRules: seq<PluginRule>, id: string) returns (found: Option<PluginRule>)
    ensures found == Find(pluginRules, id)
  {
    var i := 0;
    while i < |pluginRules|
      invariant 0 <= i <= |pluginRules|
      invariant Find(pluginRules, id) == Find(pluginRules[i..], id)
    {
      if pluginRules[i].qualifiedRuleId == id {
        return Some(pluginRules[i]);
      }
      assert pluginRules[i..][1..] == pluginRules[i + 1..];
      i := i + 1;
    }
    return None;
  }

  function Then(bound: seq<RuleBinding>, rest: Result<seq<RuleBinding>, ConfigError>): Result<seq<RuleBinding>, ConfigError> {
    match rest
    case Err(e) => Err(e)
    case Ok(r) => Ok(bound + r)
  }

  lemma ThenEmpty(rest: Result<seq<RuleBinding>, ConfigError>)
    ensures Then([], rest) == rest
  {
    if rest.Ok? {
      assert [] + rest.value == rest.value;
    }
  }

  lemma ThenStep(bound: seq<RuleBinding>, pluginRules: seq<PluginRule>, declared: seq<(string, Value)>)
    requires declared != [] && BindOne(pluginRules, declared[0]).Ok?
    ensures Then(bound, BindAll(pluginRules, declared)) ==
            Then(bound + [BindOne(pluginRules, declared[0]).value], BindAll(pluginRules, declared[1..]))
  {
    match BindAll(pluginRules, declared[1..]) {
      case Err(e) =>
      case Ok(rest) =>
        assert bound + ([BindOne(pluginRules, declared[0]).value] + rest) ==
               bound + [BindOne(pluginRules, declared[0]).value] + rest;
    }
  }

  /** The rule-binding loop of the constructor: `rules.add` for each configured
      name in turn, throwing at the first one without a match. */
  method BindRules(pluginRules: seq<PluginRule>, declared: seq<(string, Value)>)
    returns (r: Result<seq<RuleBinding>, ConfigError>)
    ensures r == BindAll(pluginRules, declared)
  {
    var bound: seq<RuleBinding> := [];
    var i := 0;
    assert declared[0..] == declared;
    ThenEmpty(BindAll(pluginRules, declared));
    while i < |declared|
      invariant 0 <= i <= |declared|
      invariant BindAll(pluginRules, declared) == Then(bound, BindAll(pluginRules, declared[i..]))
    {
      var ruleName := declared[i].0;
      var normalizedRuleName := NormalizeRuleName(ruleName);
      var pluginRule := FindPluginRule(pluginRules, normalizedRuleName);
      assert declared[i..][0] == declared[i];
      if pluginRule.None? {
        assert BindOne(pluginRules, declared[i..][0]) == Err(RuleNotFound(RuleNotFoundMessage(ruleName)));
        assert BindAll(pluginRules, declared[i..]) == Err(RuleNotFound(RuleNotFoundMessage(ruleName)));
        return Err(RuleNotFound(RuleNotFoundMessage(ruleName)));
      }
      var binding := RuleBinding(pluginRule.value.qualifiedRuleId, pluginRule.value.rule, declared[i].1);
      assert BindOne(pluginRules, declared[i..][0]) == Ok(binding);
      ThenStep(bound, pluginRules, declared[i..]);
      assert declared[i..][1..] == declared[i + 1..];
      assert Then(bound, BindAll(pluginRules, declared[i..])) == Then(bound + [binding], BindAll(pluginRules, declared[i + 1..]));
      bound := bound + [binding];
      i := i + 1;
    }
    assert declared[i..] == [];
    assert bound + [] == bound;
    r := Ok(bound);
  }

  /** The outcome of the whole constructor, as a function of the collaborators. */
  function Construct(currentDirectory: Value, configFilePath: Value, c: Collaborators, registry: PluginRegistry): Result<Config, ConfigError> {
    var found := if Truthy(configFilePath) then c.loadSync(configFilePath) else c.searchSync(currentDirectory);
    match found
    case Threw(errorPath) =>
      if Truthy(configFilePath) then Err(ConfigFilePathNotFound(TargetDirectory(errorPath, configFilePath, c)))
      else Err(ConfigFileNotFound(Null, TargetDirectory(errorPath, currentDirectory, c)))
    case ReturnedNull => Err(TypeError)
    case Returned(config, _) =>
      if c.validate(config) != [] then Err(ConfigFileValidation(INVALID_CONFIG_MESSAGE, configFilePath, c.validate(config)))
      else if config == Undefined || config == Null then Err(TypeError)
      else
        var plugins := registry(currentDirectory, if Truthy(Get(config, "plugins")) then Some(Get(config, "plugins")) else None);
        var pluginRules := PluginRulesOf(plugins);
        var bound := if Truthy(Get(config, "rules")) then BindAll(pluginRules, OwnEntries(Get(config, "rules"))) else Ok([]);
        match bound
        case Err(e) => Err(e)
        case Ok(rules) => Ok(Config(currentDirectory, configFilePath, pluginRules, rules))
  }

  /** An explicit configuration path is loaded and the search is never consulted;
      without one, only the search is consulted. */
  lemma ConstructSelectsSource(currentDirectory: Value, configFilePath: Value, c: Collaborators, registry: PluginRegistry,
                               other: Value -> ExplorerOutcome)
    ensures Truthy(configFilePath) ==>
      Construct(currentDirectory, configFilePath, c.(searchSync := other), registry) == Construct(currentDirectory, configFilePath, c, registry)
    ensures !Truthy(configFilePath) ==>
      Construct(currentDirectory, configFilePath, c.(loadSync := other), registry) == Construct(currentDirectory, configFilePath, c, registry)
  {
  }

  /** An invalid schema fails with the validation error, carrying the path given to
      the constructor and every schema error, before any plugin is loaded. */
  lemma ConstructValidatesFirst(currentDirectory: Value, configFilePath: Value, c: Collaborators, registry: PluginRegistry)
    requires var found := if Truthy(configFilePath) then c.loadSync(configFilePath) else c.searchSync(currentDirectory);
      found.Returned? && c.validate(found.config) != []
    ensures var found := if Truthy(configFilePath) then c.loadSync(configFilePath) else c.searchSync(currentDirectory);
      Construct(currentDirectory, configFilePath, c, registry) ==
        Err(ConfigFileValidation(INVALID_CONFIG_MESSAGE, configFilePath, c.validate(found.config)))
  {
  }

  /** A successful construction holds the flattened rules of the plugins the
      registry reports (asked to load only when `plugins` is truthy) and one
      binding per configured rule name, in key order. */
  lemma ConstructSucceeds(currentDirectory: Value, configFilePath: Value, c: Collaborators, registry: PluginRegistry)
    requires Construct(currentDirectory, configFilePath, c, registry).Ok?
    ensures var found := if Truthy(configFilePath) then c.loadSync(configFilePath) else c.searchSync(currentDirectory);
      var cfg := Construct(currentDirectory, configFilePath, c, registry).value;
      found.Returned? && c.validate(found.config) == [] &&
      cfg.pluginRules == PluginRulesOf(registry(currentDirectory,
        if Truthy(Get(found.config, "plugins")) then Some(Get(found.config, "plugins")) else None)) &&
      (Truthy(Get(found.config, "rules")) ==> |cfg.rules| == |OwnEntries(Get(found.config, "rules"))|) &&
      (!Truthy(Get(found.config, "rules")) ==> cfg.rules == [])
  {
    var found := if Truthy(configFilePath) then c.loadSync(configFilePath) else c.searchSync(currentDirectory);
    var config := found.config;
    var plugins := registry(currentDirectory, if Truthy(Get(config, "plugins")) then Some(Get(config, "plugins")) else None);
    if Truthy(Get(config, "rules")) {
      BindAllContents(PluginRulesOf(plugins), OwnEntries(Get(config, "rules")));
    }
  }

  /** The constructor: locate, validate, load plugins, flatten, bind. */
  method Create(currentDirectory: Value, configFilePath: Value, c: Collaborators, registry: PluginRegistry)
    returns (r: Result<Config, ConfigError>)
    ensures r == Construct(currentDirectory, configFilePath, c, registry)
  {
    var foundConfigFile: ExplorerOutcome;
    if Truthy(configFilePath) {
      foundConfigFile := c.loadSync(configFilePath);
      if foundConfigFile.Threw? {
        return Err(ConfigFilePathNotFound(TargetDirectory(foundConfigFile.errorPath, configFilePath, c)));
      }
    } else {
      foundConfigFile := c.searchSync(currentDirectory);
      if foundConfigFile.Threw? {
        return Err(ConfigFileNotFound(Null, TargetDirectory(foundConfigFile.errorPath, currentDirectory, c)));
      }
    }
    if foundConfigFile.ReturnedNull? {
      return Err(TypeError);
    }
    var config := foundConfigFile.config;
    var schemaErrors := c.validate(config);
    if schemaErrors != [] {
      return Err(ConfigFileValidation(INVALID_CONFIG_MESSAGE, configFilePath, schemaErrors));
    }
    if config == Undefined || config == Null {
      return Err(TypeError);
    }
    var plugins := registry(currentDirectory, if Truthy(Get(config, "plugins")) then Some(Get(config, "plugins")) else None);
    var pluginRules := FlattenPluginRules(plugins);
    var rules: seq<RuleBinding> := [];
    if Truthy(Get(config, "rules")) {
      var bound := BindRules(pluginRules, OwnEntries(Get(config, "rules")));
      if bound.Err? {
        return Err(bound.error);
      }
      rules := bound.value;
    }
    r := Ok(Config(currentDirectory, configFilePath, pluginRules, rules));
  }
}
