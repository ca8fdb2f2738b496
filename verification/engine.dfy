/** The rule engine of src/core/engine.js: option merge, severity mapping, and the
    run loop that gives each loaded rule a context whose `report` appends one issue. */
module CoreEngine {
  import opened Js

  /** The canonical severities `'off'`, `'warn'` and `'error'`. */
  datatype Severity = Off | Warn | Error

  /** One record of `_rawIssues`. */
  datatype Issue = Issue(pluginName: string, severity: Severity, ruleName: string, params: Value)

  /** The context handed to a rule's `create`, apart from its `report` callback. */
  datatype RuleContext = RuleContext(options: Value, dirname: Value)

  /** A loaded rule: its settings and its `create` code, seen from outside as the
      sequence of `params` values it passes to `report` when given a context. */
  datatype LoadedRule = LoadedRule(settings: Value, create: RuleContext -> seq<Value>)

  /** Every issue is stamped with these two names, whichever rule reports it. */
  const ISSUE_PLUGIN_NAME: string := "audit-npm"
  const ISSUE_RULE_NAME: string := "min-vulnerabilities-allowed"

  /** JavaScript's `flag | mask`: the boolean becomes 0 or 1 and is OR-ed bitwise
      with the mask as a 32-bit integer. */
  function BitOr(flag: bool, mask: bv32): bv32 {
    (if flag then 1 else 0) | mask
  }

  /** `normalizeSeverity` as written: each test is `(severity === s) | n`, a bitwise
      OR with a non-zero mask, so the first test is truthy for every input. */
  function NormalizeSeverity(severity: Value): (r: Severity)
    ensures r == Error
  {
    if BitOr(severity == Str("error"), 2) != 0 then Error
    else if BitOr(severity == Str("warn"), 1) != 0 then Warn
    else Off
  }

  /** The three-way mapping the severity scale calls for: `'error'` or 2, then
      `'warn'` or 1, anything else `'off'`, each alias an independent equality. */
  function IntendedSeverity(severity: Value): (r: Severity)
    ensures r == Error <==> severity == Str("error") || severity == Num(2)
    ensures r == Warn <==> severity == Str("warn") || severity == Num(1)
    ensures r == Off <==> !(severity in {Str("error"), Num(2), Str("warn"), Num(1)})
  {
    if severity == Str("error") || severity == Num(2) then Error
    else if severity == Str("warn") || severity == Num(1) then Warn
    else Off
  }

  /** The configuration token that names a canonical severity. */
  function SeverityToken(s: Severity): Value {
    match s
    case Off => Str("off")
    case Warn => Str("warn")
    case Error => Str("error")
  }

  /** The intended mapping is idempotent and fixes each canonical token. */
  lemma IntendedSeverityIdempotent(x: Value)
    ensures IntendedSeverity(SeverityToken(IntendedSeverity(x))) == IntendedSeverity(x)
    ensures forall s: Severity :: IntendedSeverity(SeverityToken(s)) == s
  {
  }

  /** The defect: `'warn'`, `1`, `'off'` and `0` all come out as `'error'`, so the
      `'warn'` and `'off'` returns can never be reached. */
  lemma NormalizeSeverityDiffersFromIntended()
    ensures NormalizeSeverity(Str("warn")) == Error && IntendedSeverity(Str("warn")) == Warn
    ensures NormalizeSeverity(Num(0)) == Error && IntendedSeverity(Num(0)) == Off
    ensures forall flag: bool :: BitOr(flag, 2) != 0 && BitOr(flag, 1) != 0
  {
    forall flag: bool ensures BitOr(flag, 2) != 0 && BitOr(flag, 1) != 0 {
      assert BitOr(flag, 2) & 2 == 2;
      assert BitOr(flag, 1) & 1 == 1;
    }
  }

  /** `Object.assign({}, defaultOptions, { cwd }, providedOptions)`. */
  function MergeOptions(defaults: Value, cwd: Value, provided: Value): Value {
    Obj(Assign(Assign(Assign([], OwnEntries(defaults)), [("cwd", cwd)]), OwnEntries(provided)))
  }

  /** Precedence of the merge: provided options win, then `cwd`, then the defaults;
      the merged object has exactly the keys of the three. */
  lemma {:induction false} MergeOptionsPrecedence(defaults: Value, cwd: Value, provided: Value, k: string)
    requires UniqueKeys(OwnEntries(defaults)) && UniqueKeys(OwnEntries(provided))
    ensures Get(MergeOptions(defaults, cwd, provided), k) ==
      if HasKey(provided, k) then Get(provided, k)
      else if k == "cwd" then cwd
      else Get(defaults, k)
    ensures HasKey(MergeOptions(defaults, cwd, provided), k) ==
      (HasKey(provided, k) || k == "cwd" || HasKey(defaults, k))
  {
    var first := Assign([], OwnEntries(defaults));
    var second := Assign(first, [("cwd", cwd)]);
    LookupAssign([], OwnEntries(defaults), k);
    LookupAbsent(OwnEntries(defaults), k);
    assert UniqueKeys([("cwd", cwd)]) by {
      assert [("cwd", cwd)][1..] == [];
    }
    LookupAssign(first, [("cwd", cwd)], k);
    assert HasKeyIn([("cwd", cwd)], k) == (k == "cwd") by {
      assert [("cwd", cwd)][1..] == [];
    }
    LookupAssign(second, OwnEntries(provided), k);
  }

  function ContextFor(rule: LoadedRule, cwd: Value): RuleContext {
    RuleContext(rule.settings, cwd)
  }

  /** The params a rule reports when run with the engine's working directory. */
  function Reported(rule: LoadedRule, cwd: Value): seq<Value> {
    rule.create(ContextFor(rule, cwd))
  }

  /** The record the `report` closure builds for one call; `settings` is taken to
      be an object, since reading `severity` of `null` or `undefined` throws. */
  function IssueFor(rule: LoadedRule, params: Value): Issue {
    Issue(ISSUE_PLUGIN_NAME, NormalizeSeverity(Get(rule.settings, "severity")), ISSUE_RULE_NAME, params)
  }

  /** The issues one rule adds, one per `report` call, in call order. */
  function RuleIssues(rule: LoadedRule, cwd: Value): seq<Issue> {
    var reported := Reported(rule, cwd);
    seq(|reported|, k requires 0 <= k < |reported| => IssueFor(rule, reported[k]))
  }

  /** The issues a run adds, rule by rule in load order. */
  function RunIssues(rules: seq<LoadedRule>, cwd: Value): seq<Issue> {
    if rules == [] then []
    else RunIssues(rules[..|rules| - 1], cwd) + RuleIssues(rules[|rules| - 1], cwd)
  }

  /** The total number of `report` calls the rules make. */
  function ReportCount(rules: seq<LoadedRule>, cwd: Value): nat {
    if rules == [] then 0
    else ReportCount(rules[..|rules| - 1], cwd) + |Reported(rules[|rules| - 1], cwd)|
  }

  lemma {:induction false} RunIssuesLength(rules: seq<LoadedRule>, cwd: Value)
    ensures |RunIssues(rules, cwd)| == ReportCount(rules, cwd)
  {
    if rules != [] {
      RunIssuesLength(rules[..|rules| - 1], cwd);
    }
  }

  /** Running two lists of rules one after the other yields the first list's issues
      followed by the second's. */
  lemma {:induction false} RunIssuesAppend(a: seq<LoadedRule>, b: seq<LoadedRule>, cwd: Value)
    ensures RunIssues(a + b, cwd) == RunIssues(a, cwd) + RunIssues(b, cwd)
    decreases |b|
  {
    if b == [] {
      assert a + b == a;
    } else {
      var init := b[..|b| - 1];
      var last := b[|b| - 1];
      assert (a + b)[..|a + b| - 1] == a + init;
      assert (a + b)[|a + b| - 1] == last;
      RunIssuesAppend(a, init, cwd);
      assert RunIssues(a + b, cwd) == RunIssues(a + init, cwd) + RuleIssues(last, cwd);
      assert RunIssues(b, cwd) == RunIssues(init, cwd) + RuleIssues(last, cwd);
      assert (RunIssues(a, cwd) + RunIssues(init, cwd)) + RuleIssues(last, cwd) ==
             RunIssues(a, cwd) + (RunIssues(init, cwd) + RuleIssues(last, cwd));
    }
  }

  /** A run over one more rule adds that rule's issues at the end. */
  lemma RunIssuesStep(rules: seq<LoadedRule>, i: nat, cwd: Value)
    requires i < |rules|
    ensures RunIssues(rules[..i + 1], cwd) == RunIssues(rules[..i], cwd) + RuleIssues(rules[i], cwd)
  {
    assert rules[..i + 1][..i] == rules[..i];
    assert rules[..i + 1][i] == rules[i];
  }

  /** Where each issue lands: the k-th report of rule j is the issue right after all
      the reports of the rules before j. */
  lemma {:induction false} RunIssuesAt(rules: seq<LoadedRule>, cwd: Value, j: nat, k: nat)
    requires j < |rules| && k < |Reported(rules[j], cwd)|
    ensures ReportCount(rules[..j], cwd) + k < |RunIssues(rules, cwd)|
    ensures RunIssues(rules, cwd)[ReportCount(rules[..j], cwd) + k] == IssueFor(rules[j], Reported(rules[j], cwd)[k])
  {
    var upto := rules[..j + 1];
    assert rules == upto + rules[j + 1..];
    RunIssuesAppend(upto, rules[j + 1..], cwd);
    assert upto[..|upto| - 1] == rules[..j];
    assert RunIssues(upto, cwd) == RunIssues(rules[..j], cwd) + RuleIssues(rules[j], cwd);
    RunIssuesLength(rules[..j], cwd);
  }

  /** Every issue of a run carries the two fixed names and the `'error'` severity,
      and its params are one of the values some rule reported. */
  lemma {:induction false} RunIssuesShape(rules: seq<LoadedRule>, cwd: Value)
    ensures forall i :: 0 <= i < |RunIssues(rules, cwd)| ==>
      RunIssues(rules, cwd)[i].pluginName == ISSUE_PLUGIN_NAME &&
      RunIssues(rules, cwd)[i].ruleName == ISSUE_RULE_NAME &&
      RunIssues(rules, cwd)[i].severity == Error &&
      exists j :: 0 <= j < |rules| && RunIssues(rules, cwd)[i].params in Reported(rules[j], cwd)
  {
    if rules != [] {
      var init := rules[..|rules| - 1];
      var last := rules[|rules| - 1];
      RunIssuesShape(init, cwd);
      var all := RunIssues(rules, cwd);
      forall i | 0 <= i < |all|
        ensures exists j :: 0 <= j < |rules| && all[i].params in Reported(rules[j], cwd)
      {
        if i < |RunIssues(init, cwd)| {
          var j :| 0 <= j < |init| && RunIssues(init, cwd)[i].params in Reported(init[j], cwd);
          assert rules[j] == init[j];
        } else {
          var k := i - |RunIssues(init, cwd)|;
          assert all[i] == RuleIssues(last, cwd)[k];
          assert all[i].params == Reported(last, cwd)[k];
          assert rules[|rules| - 1] == last;
        }
      }
    }
  }

  /** The engine of src/core/engine.js: its merged options and the append-only
      `_rawIssues` list. */
  class Engine {
    var options: Value
    var rawIssues: seq<Issue>

    /** The merge of the constructor; the engine starts with no issues. */
    constructor (defaults: Value, cwd: string, provided: Value)
      ensures options == MergeOptions(defaults, Str(cwd), provided)
      ensures rawIssues == []
    {
      options := MergeOptions(defaults, Str(cwd), provided);
      rawIssues := [];
    }

    /** `processRuleOutput`: appends exactly one record at the end. */
    method ProcessRuleOutput(issue: Issue)
      modifies this
      ensures rawIssues == old(rawIssues) + [issue]
      ensures options == old(options)
    {
      rawIssues := rawIssues + [issue];
    }

    /** The `report` closure of one rule: builds the record from the rule's settings
      and the params exactly as passed, and hands it to `processRuleOutput`. */
    method Report(rule: LoadedRule, params: Value)
      modifies this
      ensures rawIssues == old(rawIssues) + [IssueFor(rule, params)]
      ensures |rawIssues| == |old(rawIssues)| + 1 && rawIssues[..|old(rawIssues)|] == old(rawIssues)
      ensures options == old(options)
    {
      var severity := NormalizeSeverity(Get(rule.settings, "severity"));
      var context := Issue(ISSUE_PLUGIN_NAME, severity, ISSUE_RULE_NAME, params);
      ProcessRuleOutput(context);
    }

    /** The `forEach` callback of `run` for one rule: a fresh context whose options
      are the rule's settings and whose directory is the engine's `cwd`; `create`
      runs once, and each of its reports appends one issue, in call order. */
    method RunRule(rule: LoadedRule)
      modifies this
      ensures options == old(options)
      ensures rawIssues == old(rawIssues) + RuleIssues(rule, Get(options, "cwd"))
    {
      var ruleContext := RuleContext(rule.settings, Get(options, "cwd"));
      var reported := rule.create(ruleContext);
      ghost var issues := RuleIssues(rule, Get(options, "cwd"));
      assert |issues| == |reported|;
      var k := 0;
      while k < |reported|
        invariant 0 <= k <= |reported|
        invariant options == old(options)
        invariant rawIssues == old(rawIssues) + issues[..k]
      {
        Report(rule, reported[k]);
        assert issues[k] == IssueFor(rule, reported[k]);
        assert issues[..k + 1] == issues[..k] + [issues[k]];
        k := k + 1;
      }
      assert issues[..k] == issues;
    }

    /** `run`: the loaded rules, in order, each through the callback; the issue list
      grows by exactly the reports, rule by rule. */
    method Run(rules: seq<LoadedRule>)
      modifies this
      ensures options == old(options)
      ensures rawIssues == old(rawIssues) + RunIssues(rules, Get(options, "cwd"))
    {
      var i := 0;
      while i < |rules|
        invariant 0 <= i <= |rules|
        invariant options == old(options)
        invariant rawIssues == old(rawIssues) + RunIssues(rules[..i], Get(options, "cwd"))
      {
        RunRule(rules[i]);
        RunIssuesStep(rules, i, Get(options, "cwd"));
        i := i + 1;
      }
      assert rules[..i] == rules;
    }
  }
}
