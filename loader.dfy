/** `RulesetLoader` (agentbom/policy/loader.py): the validation that turns a
    loaded document into a `Ruleset`.  Reading the file and the YAML/JSON
    parsers are not part of this model: the input is the loaded value. */
module RulesetLoading {
  import opened Wrappers
  import opened Strs
  import opened Documents
  import opened Rulesets

  /** Why `_parse_rule` rejects a rule: a missing field (named), a severity
      that is no member's value (the text as written), a `detect` that is
      not a mapping, a pattern list that pydantic refuses, or a rule of the
      wrong shape altogether (the TypeError or AttributeError Python raises
      on it). */
  datatype RuleError =
    | MissingField(field: string)
    | InvalidSeverity(severity: string)
    | DetectNotMapping
    | InvalidDetect
    | Malformed

  /** Why `_parse_ruleset` rejects a document; an invalid rule is reported
      with its index. */
  datatype LoadError =
    | NotAMapping
    | NoVersion
    | RulesNotList
    | InvalidRule(index: nat, cause: RuleError)

  const REQUIRED_FIELDS: seq<string> := ["id", "title", "category", "severity", "scope", "detect"]

  /** The loop over the required fields: the error for the first field the
      rule does not hold, or *that* the rule cannot be searched at all. */
  function MissingFrom(v: Value, fields: seq<string>): (r: Option<RuleError>)
    ensures r.Some? ==> r.value.Malformed? || (r.value.MissingField? && r.value.field in fields)
    ensures v.Mapping? ==> (r.None? <==> forall f :: f in fields ==> f in v.fields)
  {
    if fields == [] then None
    else match Member(v, fields[0])
      case None => Some(Malformed)
      case Some(false) => Some(MissingField(fields[0]))
      case Some(true) => MissingFrom(v, fields[1..])
  }

  /** What pydantic accepts for an `Optional[List[str]]` field: nothing, or
      a list of strings. */
  function PatternList(v: Value): (r: Option<Option<seq<string>>>)
    ensures r == Some(None) <==> v.Null?
    ensures r.Some? && r.value.Some? ==>
      v.List? && |r.value.value| == |v.items| && forall k :: 0 <= k < |v.items| ==> v.items[k] == Str(r.value.value[k])
  {
    match v
    case Null => Some(None)
    case List(items) =>
      if forall k :: 0 <= k < |items| ==> items[k].Str? then Some(Some(seq(|items|, k requires 0 <= k < |items| => items[k].s)))
      else None
    case _ => None
  }

  /** `DetectPattern(...)` from the `detect` mapping. */
  function DetectOf(detect: map<string, Value>): Option<DetectPattern> {
    var py := PatternList(Get(detect, "python_regex_any"));
    var ts := PatternList(Get(detect, "ts_regex_any"));
    var fail := PatternList(Get(detect, "fail_if_regex"));
    var keys := PatternList(Get(detect, "manifest_keys_must_exist"));
    if py.None? || ts.None? || fail.None? || keys.None? then None
    else Some(DetectPattern(py.value, ts.value, fail.value, keys.value))
  }

  /** `_parse_rule(rule_data)` */
  function ParseRule(v: Value): (r: Result<Rule, RuleError>)
    ensures r.Success? ==> v.Mapping? && forall f :: f in REQUIRED_FIELDS ==> f in v.fields
    ensures r.Success? ==>
      r.value.id == v.fields["id"] && r.value.title == v.fields["title"] && r.value.category == v.fields["category"]
      && r.value.scope == v.fields["scope"] && r.value.autofixHint == Get(v.fields, "autofix_hint")
    ensures r.Success? ==> v.fields["severity"].Str? && SeverityValue(r.value.severity) == Lower(v.fields["severity"].s)
    ensures r.Failure? && r.error.MissingField? ==> r.error.field in REQUIRED_FIELDS
  {
    match MissingFrom(v, REQUIRED_FIELDS)
    case Some(e) => Failure(e)
    case None =>
      if !v.Mapping? then Failure(Malformed)
      else
        var fields := v.fields;
        assert "id" in REQUIRED_FIELDS && "title" in REQUIRED_FIELDS && "category" in REQUIRED_FIELDS;
        assert "severity" in REQUIRED_FIELDS && "scope" in REQUIRED_FIELDS && "detect" in REQUIRED_FIELDS;
        var severity := fields["severity"];
        if !severity.Str? then Failure(Malformed)
        else match SeverityOf(Lower(severity.s))
          case None => Failure(InvalidSeverity(severity.s))
          case Some(s) =>
            var detect := fields["detect"];
            if !detect.Mapping? then Failure(DetectNotMapping)
            else match DetectOf(detect.fields)
              case None => Failure(InvalidDetect)
              case Some(d) =>
                Success(Rule(fields["id"], fields["title"], fields["category"], s, fields["scope"], d, Get(fields, "autofix_hint")))
  }

  /** A rule mapping is refused for a missing field exactly when one of the
      six fields is absent, naming the first absent one in the listed
      order. */
  lemma MissingFieldFirst(fields: map<string, Value>)
    ensures (exists f :: f in REQUIRED_FIELDS && f !in fields)
        <==> ParseRule(Mapping(fields)) == Failure(MissingField(FirstAbsent(fields, REQUIRED_FIELDS)))
  {
    FirstAbsentIsMissing(fields, REQUIRED_FIELDS);
  }

  function FirstAbsent(fields: map<string, Value>, names: seq<string>): string {
    if names == [] then "" else if names[0] !in fields then names[0] else FirstAbsent(fields, names[1..])
  }

  lemma {:induction false} FirstAbsentIsMissing(fields: map<string, Value>, names: seq<string>)
    ensures (exists f :: f in names && f !in fields) ==> MissingFrom(Mapping(fields), names) == Some(MissingField(FirstAbsent(fields, names)))
  {
    if names != [] {
      FirstAbsentIsMissing(fields, names[1..]);
      if names[0] in fields && exists f :: f in names && f !in fields {
        var f :| f in names && f !in fields;
        assert names == [names[0]] + names[1..];
        assert f in names[1..];
      }
    }
  }

  /** The severity is read case-insensitively: a rule whose other fields
      are valid is accepted with severity `s` for any spelling whose
      lower-case form is `s`'s value, and refused as an invalid severity
      for a text no lower-casing makes a value. */
  lemma SeverityCaseInsensitive(fields: map<string, Value>, text: string)
    requires MissingFrom(Mapping(fields), REQUIRED_FIELDS).None? && "severity" in fields && fields["severity"] == Str(text)
    ensures SeverityOf(Lower(text)).None? ==> ParseRule(Mapping(fields)) == Failure(InvalidSeverity(text))
    ensures ParseRule(Mapping(fields)).Success? ==> Some(ParseRule(Mapping(fields)).value.severity) == SeverityOf(Lower(text))
  {
  }

  /** A parser for one entry of the rule list. */
  type RuleParser = Value -> Result<Rule, RuleError>

  /** The rules `parse` makes of the first `n` entries, or the error for the
      first entry it refuses. */
  function ParseRulesUpTo(parse: RuleParser, items: seq<Value>, n: nat): (r: Result<seq<Rule>, LoadError>)
    requires n <= |items|
    ensures r.Success? ==> |r.value| == n
    ensures r.Failure? ==> r.error.InvalidRule? && r.error.index < n
  {
    if n == 0 then Success([])
    else match ParseRulesUpTo(parse, items, n - 1)
      case Failure(e) => Failure(e)
      case Success(rules) =>
        match parse(items[n - 1])
        case Failure(cause) => Failure(InvalidRule(n - 1, cause))
        case Success(rule) => Success(rules + [rule])
  }

  /** `_parse_ruleset(data)` */
  function ParseRuleset(data: Value): Result<Ruleset, LoadError> {
    if !data.Mapping? then Failure(NotAMapping)
    else
      var version := Get(data.fields, "version");
      if !Truthy(version) then Failure(NoVersion)
      else
        var rulesData := if "rules" in data.fields then data.fields["rules"] else List([]);
        if !rulesData.List? then Failure(RulesNotList)
        else match ParseRulesUpTo(ParseRule, rulesData.items, |rulesData.items|)
          case Failure(e) => Failure(e)
          case Success(rules) => Success(Ruleset(version, rules))
  }

  /** The rules are parsed in order: the rule list is accepted exactly when
      every entry is, giving one rule per entry. */
  lemma {:induction false} ParseRulesInOrder(parse: RuleParser, items: seq<Value>, n: nat)
    requires n <= |items|
    ensures ParseRulesUpTo(parse, items, n).Success? <==> forall k :: 0 <= k < n ==> parse(items[k]).Success?
    ensures ParseRulesUpTo(parse, items, n).Success? ==>
      forall k :: 0 <= k < n ==> ParseRulesUpTo(parse, items, n).value[k] == parse(items[k]).value
  {
    if n > 0 {
      ParseRulesInOrder(parse, items, n - 1);
      var before := ParseRulesUpTo(parse, items, n - 1);
      if before.Success? && parse(items[n - 1]).Success? {
        assert ParseRulesUpTo(parse, items, n).value == before.value + [parse(items[n - 1]).value];
      }
    }
  }

  /** A refused rule list names its first refused entry and carries that
      entry's cause. */
  lemma {:induction false} ParseRulesFirstError(parse: RuleParser, items: seq<Value>, n: nat)
    requires n <= |items| && ParseRulesUpTo(parse, items, n).Failure?
    ensures var e := ParseRulesUpTo(parse, items, n).error;
      (forall k :: 0 <= k < e.index ==> parse(items[k]).Success?) && parse(items[e.index]) == Failure(e.cause)
  {
    var before := ParseRulesUpTo(parse, items, n - 1);
    if before.Failure? {
      ParseRulesFirstError(parse, items, n - 1);
    } else {
      ParseRulesInOrder(parse, items, n - 1);
    }
  }

  /** Once an entry is refused, so is every longer prefix, with the same
      error. */
  lemma {:induction false} ParseRulesFailureStays(parse: RuleParser, items: seq<Value>, n: nat, m: nat)
    requires n <= m <= |items| && ParseRulesUpTo(parse, items, n).Failure?
    ensures ParseRulesUpTo(parse, items, m) == ParseRulesUpTo(parse, items, n)
    decreases m - n
  {
    if n < m {
      assert ParseRulesUpTo(parse, items, n + 1) == ParseRulesUpTo(parse, items, n);
      ParseRulesFailureStays(parse, items, n + 1, m);
    }
  }

  /** What `_parse_ruleset` refuses before it looks at any rule: data that
      is not a mapping, a missing or false `version`, and `rules` that is
      present but not a list; a missing `rules` is the empty list. */
  lemma ParseRulesetGuards(data: Value)
    ensures !data.Mapping? ==> ParseRuleset(data) == Failure(NotAMapping)
    ensures data.Mapping? && !Truthy(Get(data.fields, "version")) ==> ParseRuleset(data) == Failure(NoVersion)
    ensures data.Mapping? && Truthy(Get(data.fields, "version")) && "rules" in data.fields && !data.fields["rules"].List?
      ==> ParseRuleset(data) == Failure(RulesNotList)
    ensures data.Mapping? && Truthy(Get(data.fields, "version")) && "rules" !in data.fields
      ==> ParseRuleset(data) == Success(Ruleset(data.fields["version"], []))
  {
  }

  /** `_parse_ruleset(data)`, rule by rule. */
  method ParseRulesetLoop(data: Value) returns (r: Result<Ruleset, LoadError>)
    ensures r == ParseRuleset(data)
  {
    if !data.Mapping? {
      return Failure(NotAMapping);
    }
    var version := Get(data.fields, "version");
    if !Truthy(version) {
      return Failure(NoVersion);
    }
    var rulesData := if "rules" in data.fields then data.fields["rules"] else List([]);
    if !rulesData.List? {
      return Failure(RulesNotList);
    }
    var items := rulesData.items;
    var rules: seq<Rule> := [];
    var i := 0;
    while i < |items|
      invariant 0 <= i <= |items|
      invariant ParseRulesUpTo(ParseRule, items, i) == Success(rules)
    {
      var rule := ParseRule(items[i]);
      if rule.Failure? {
        ParseRulesFailureStays(ParseRule, items, i + 1, |items|);
        return Failure(InvalidRule(i, rule.error));
      }
      rules := rules + [rule.value];
      i := i + 1;
    }
    return Success(Ruleset(version, rules));
  }
}
