/** What the policy engine (agentbom/policy/engine.py) finds in a file: the
    findings of each rule, as functions of the file, its content and the
    rule.  Regular expressions, the YAML and JSON parsers and `str()` of a
    value are oracles. */
module Policy {
  import opened Wrappers
  import opened Strs
  import opened Regex
  import opened Paths
  import opened Documents
  import opened Rulesets

  /** What the engine reads: the regular-expression engine and which
      patterns compile, the file system, the two document parsers (`None`
      for a parse error) and `str()` of a value that is not a string. */
  datatype World = World(
    re: Engine,
    compiles: string -> bool,
    fs: FileSystem,
    parseJson: string -> Option<Value>,
    parseYaml: string -> Option<Value>,
    show: Value -> string)

  /** `Finding`; the hint holds the rule's `autofix_hint` when that is a
      true value, so it is a value rather than a string. */
  datatype Finding = Finding(ruleId: Value, filePath: string, lineNumber: nat, severity: Severity, hint: Value, matchedText: string)

  /** One entry of `_find_regex_matches`: the 1-based line, the matched
      text and where it starts and ends in the line. */
  datatype LineMatch = LineMatch(line: nat, text: string, start: nat, end: nat)

  /** The entries for the matches `ms` of line number `line`. */
  function LineMatches(ms: seq<Match>, line: nat): (r: seq<LineMatch>)
    ensures |r| == |ms|
  {
    seq(|ms|, k requires 0 <= k < |ms| => LineMatch(line, GroupText(ms[k], 0), ms[k].start, ms[k].start + |GroupText(ms[k], 0)|))
  }

  /** The entries for the first `n` lines. */
  function MatchesUpTo(re: Engine, pattern: string, lines: seq<string>, n: nat): seq<LineMatch>
    requires n <= |lines|
  {
    if n == 0 then [] else MatchesUpTo(re, pattern, lines, n - 1) + LineMatches(re(pattern, {Multiline}, lines[n - 1]), n)
  }

  /** `_find_regex_matches(pattern, content)`: nothing when the pattern
      does not compile. */
  function RegexMatches(w: World, pattern: string, content: string): seq<LineMatch> {
    if !w.compiles(pattern) then []
    else
      var lines := Split(content, '\n');
      MatchesUpTo(w.re, pattern, lines, |lines|)
  }

  /** The number of matches on the first `n` lines. */
  function MatchCount(re: Engine, pattern: string, lines: seq<string>, n: nat): nat
    requires n <= |lines|
  {
    if n == 0 then 0 else MatchCount(re, pattern, lines, n - 1) + |re(pattern, {Multiline}, lines[n - 1])|
  }

  /** There is one entry per match per line: the line numbers run from 1 to
      the number of lines, never decrease, and each entry spans its text. */
  lemma {:induction false} MatchesShape(re: Engine, pattern: string, lines: seq<string>, n: nat)
    requires n <= |lines|
    ensures |MatchesUpTo(re, pattern, lines, n)| == MatchCount(re, pattern, lines, n)
    ensures forall k :: 0 <= k < |MatchesUpTo(re, pattern, lines, n)| ==>
      var e := MatchesUpTo(re, pattern, lines, n)[k]; 1 <= e.line <= n && e.end == e.start + |e.text|
    ensures forall k, l :: 0 <= k < l < |MatchesUpTo(re, pattern, lines, n)| ==>
      MatchesUpTo(re, pattern, lines, n)[k].line <= MatchesUpTo(re, pattern, lines, n)[l].line
  {
    if n > 0 {
      MatchesShape(re, pattern, lines, n - 1);
    }
  }

  /** An invalid pattern yields no entries; a valid one yields one entry per
      match over the lines of `content.split('\n')`. */
  lemma RegexMatchesShape(w: World, pattern: string, content: string)
    ensures !w.compiles(pattern) ==> RegexMatches(w, pattern, content) == []
    ensures w.compiles(pattern) ==>
      var lines := Split(content, '\n');
      |RegexMatches(w, pattern, content)| == MatchCount(w.re, pattern, lines, |lines|)
      && forall k :: 0 <= k < |RegexMatches(w, pattern, content)| ==> 1 <= RegexMatches(w, pattern, content)[k].line <= |lines|
  {
    var lines := Split(content, '\n');
    MatchesShape(w.re, pattern, lines, |lines|);
  }

  /** The hint of a violation: the rule's own when it has a true one. */
  function ViolationHint(w: World, rule: Rule): Value {
    Or(rule.autofixHint, Str("Violation of rule " + Text(w.show, rule.id)))
  }

  function MissingHint(w: World, rule: Rule): Value {
    Or(rule.autofixHint, Str("Missing required pattern for rule " + Text(w.show, rule.id)))
  }

  /** The findings for the matches `ms` of a `fail_if_regex` pattern. */
  function Violations(rule: Rule, rel: string, hint: Value, ms: seq<LineMatch>): (r: seq<Finding>)
    ensures |r| == |ms|
  {
    seq(|ms|, k requires 0 <= k < |ms| => Finding(rule.id, rel, ms[k].line, rule.severity, hint, ms[k].text))
  }

  /** The findings of the first `n` `fail_if_regex` patterns. */
  function ViolationsUpTo(w: World, rule: Rule, rel: string, content: string, patterns: seq<string>, n: nat): seq<Finding>
    requires n <= |patterns|
  {
    if n == 0 then [] else
      ViolationsUpTo(w, rule, rel, content, patterns, n - 1) + Violations(rule, rel, ViolationHint(w, rule), RegexMatches(w, patterns[n - 1], content))
  }

  /** Each match of a `fail_if_regex` pattern is one finding of the rule,
      with the rule's severity, the violation hint, the match's line and its
      text. */
  lemma {:induction false} ViolationsCarryRule(w: World, rule: Rule, rel: string, content: string, patterns: seq<string>, n: nat)
    requires n <= |patterns|
    ensures forall k :: 0 <= k < |ViolationsUpTo(w, rule, rel, content, patterns, n)| ==>
      var f := ViolationsUpTo(w, rule, rel, content, patterns, n)[k];
      f.ruleId == rule.id && f.filePath == rel && f.severity == rule.severity && f.hint == ViolationHint(w, rule)
  {
    if n > 0 {
      ViolationsCarryRule(w, rule, rel, content, patterns, n - 1);
    }
  }

  /** `file_path.suffix.lower()` */
  function Extension(file: Path): string {
    Lower(Suffix(Name(file)))
  }

  const TS_EXTENSIONS: seq<string> := [".ts", ".tsx", ".js", ".jsx"]

  /** The patterns of which one must match: `python_regex_any` for a `.py`
      file, `ts_regex_any` for a TypeScript or JavaScript file, when those
      lists are present and not empty. */
  function PositivePatterns(rule: Rule, file: Path): seq<string> {
    var ext := Extension(file);
    if ext == ".py" && rule.detect.pythonRegexAny.Some? && rule.detect.pythonRegexAny.value != [] then rule.detect.pythonRegexAny.value
    else if ext in TS_EXTENSIONS && rule.detect.tsRegexAny.Some? && rule.detect.tsRegexAny.value != [] then rule.detect.tsRegexAny.value
    else []
  }

  /** Some pattern among the first `n` matches somewhere in the content. */
  predicate AnyMatchUpTo(w: World, patterns: seq<string>, content: string, n: nat)
    requires n <= |patterns|
  {
    n > 0 && (AnyMatchUpTo(w, patterns, content, n - 1) || RegexMatches(w, patterns[n - 1], content) != [])
  }

  /** The finding for a missing required pattern: one at line 1 with no
      matched text when there are positive patterns and none matches. */
  function MissingPatternFinding(w: World, rule: Rule, file: Path, rel: string, content: string): seq<Finding> {
    var patterns := PositivePatterns(rule, file);
    if patterns != [] && !AnyMatchUpTo(w, patterns, content, |patterns|) then [Finding(rule.id, rel, 1, rule.severity, MissingHint(w, rule), "")]
    else []
  }

  /** `AnyMatchUpTo` is "some pattern matches". */
  lemma {:induction false} AnyMatchExists(w: World, patterns: seq<string>, content: string, n: nat)
    requires n <= |patterns|
    ensures AnyMatchUpTo(w, patterns, content, n) <==> exists k :: 0 <= k < n && RegexMatches(w, patterns[k], content) != []
  {
    if n > 0 {
      AnyMatchExists(w, patterns, content, n - 1);
    }
  }

  /** The positive-pattern check adds exactly one finding, at line 1 with
      empty matched text, when the file type has positive patterns and none
      of them matches, and nothing otherwise; a file that is neither Python
      nor TypeScript or JavaScript is never checked. */
  lemma MissingPatternRule(w: World, rule: Rule, file: Path, rel: string, content: string)
    ensures var patterns := PositivePatterns(rule, file);
      (patterns != [] && forall k :: 0 <= k < |patterns| ==> RegexMatches(w, patterns[k], content) == [])
      ==> MissingPatternFinding(w, rule, file, rel, content) == [Finding(rule.id, rel, 1, rule.severity, MissingHint(w, rule), "")]
    ensures (exists k :: 0 <= k < |PositivePatterns(rule, file)| && RegexMatches(w, PositivePatterns(rule, file)[k], content) != [])
      ==> MissingPatternFinding(w, rule, file, rel, content) == []
    ensures Extension(file) != ".py" && Extension(file) !in TS_EXTENSIONS ==> MissingPatternFinding(w, rule, file, rel, content) == []
  {
    var patterns := PositivePatterns(rule, file);
    AnyMatchExists(w, patterns, content, |patterns|);
  }

  const MANIFEST_FILES: seq<string> := ["abom.json", "agents.yaml", "agents.yml"]

  /** The first of `names` that exists in `dir`. */
  function FirstManifest(fs: FileSystem, dir: Path, names: seq<string>): (r: Option<Path>)
    ensures r.Some? ==> Exists(fs, r.value) && exists k :: (0 <= k < |names| && r.value == Child(dir, names[k])
                          && forall j :: 0 <= j < k ==> !Exists(fs, Child(dir, names[j])))
    ensures r.None? <==> forall k :: 0 <= k < |names| ==> !Exists(fs, Child(dir, names[k]))
  {
    if names == [] then None
    else if Exists(fs, Child(dir, names[0])) then Some(Child(dir, names[0]))
    else
      var r := FirstManifest(fs, dir, names[1..]);
      assert forall k :: 1 <= k < |names| ==> names[k] == names[1..][k - 1];
      if r.Some? then
        var k :| 0 <= k < |names[1..]| && r.value == Child(dir, names[1..][k])
                 && forall j :: 0 <= j < k ==> !Exists(fs, Child(dir, names[1..][j]));
        assert r.value == Child(dir, names[k + 1]);
        r
      else r
  }

  /** `_key_exists` on the segments of a key path: each segment is a key of
      the mapping reached so far. */
  predicate KeyPathExists(v: Value, keys: seq<string>) {
    keys == [] || (v.Mapping? && keys[0] in v.fields && KeyPathExists(v.fields[keys[0]], keys[1..]))
  }

  /** The value a key path leads to, when it exists. */
  function Descend(v: Value, keys: seq<string>): Value
    requires KeyPathExists(v, keys)
  {
    if keys == [] then v else Descend(v.fields[keys[0]], keys[1..])
  }

  /** A key path exists exactly when its first part does and the rest exists
      below where the first part leads. */
  lemma {:induction false} KeyPathSplit(v: Value, a: seq<string>, b: seq<string>)
    ensures KeyPathExists(v, a + b) <==> KeyPathExists(v, a) && KeyPathExists(Descend(v, a), b)
  {
    if a == [] {
      assert a + b == b;
    } else {
      assert (a + b)[0] == a[0] && (a + b)[1..] == a[1..] + b;
      if v.Mapping? && a[0] in v.fields {
        KeyPathSplit(v.fields[a[0]], a[1..], b);
        assert KeyPathExists(v, a + b) == KeyPathExists(v.fields[a[0]], a[1..] + b);
        assert KeyPathExists(v, a) == KeyPathExists(v.fields[a[0]], a[1..]);
        if KeyPathExists(v, a) {
          assert Descend(v, a) == Descend(v.fields[a[0]], a[1..]);
        }
      } else {
        assert !KeyPathExists(v, a + b) && !KeyPathExists(v, a);
      }
    }
  }

  /** `_key_exists(data, key_path)` */
  predicate KeyExists(data: Value, keyPath: string) {
    KeyPathExists(data, Split(keyPath, '.'))
  }

  /** The keys of `keys` that `data` does not hold, in their order. */
  function MissingKeys(data: Value, keys: seq<string>): seq<string> {
    if keys == [] then []
    else MissingKeys(data, keys[..|keys| - 1]) + (if KeyExists(data, keys[|keys| - 1]) then [] else [keys[|keys| - 1]])
  }

  /** A key is reported missing exactly when it is asked for and absent. */
  lemma {:induction false} MissingKeysExact(data: Value, keys: seq<string>)
    ensures forall k :: k in MissingKeys(data, keys) <==> k in keys && !KeyExists(data, k)
  {
    if keys != [] {
      var init := keys[..|keys| - 1];
      MissingKeysExact(data, init);
      assert keys == init + [keys[|keys| - 1]];
    }
  }

  /** The manifest's document: `None` when it cannot be read or parsed, the
      JSON parser for a `.json` name and the YAML parser otherwise. */
  function ManifestData(w: World, path: Path): Option<Value> {
    if path !in w.fs.files then None
    else if Extension(path) == ".json" then w.parseJson(w.fs.files[path])
    else w.parseYaml(w.fs.files[path])
  }

  /** The finding for a manifest document: none when it could not be read
      or parsed, or when it holds every key. */
  function KeysFinding(rule: Rule, rel: string, data: Option<Value>, keys: seq<string>): Option<Finding> {
    match data
    case None => None
    case Some(d) =>
      var missing := MissingKeys(d, keys);
      if missing == [] then None
      else Some(Finding(rule.id, rel, 1, rule.severity, Str("Missing manifest keys: " + Join(", ", missing)), ""))
  }

  /** A manifest finding exists exactly when the document was read and
      lacks one of the keys; it is at line 1 with no matched text and names
      the missing keys. */
  lemma KeysFindingExact(rule: Rule, rel: string, data: Option<Value>, keys: seq<string>)
    ensures KeysFinding(rule, rel, data, keys).Some? <==> data.Some? && exists k :: k in keys && !KeyExists(data.value, k)
    ensures KeysFinding(rule, rel, data, keys).Some? ==>
      var f := KeysFinding(rule, rel, data, keys).value;
      f.lineNumber == 1 && f.matchedText == "" && f.ruleId == rule.id && f.filePath == rel && f.severity == rule.severity
      && f.hint == Str("Missing manifest keys: " + Join(", ", MissingKeys(data.value, keys)))
  {
    if data.Some? {
      MissingKeysExact(data.value, keys);
      if exists k :: k in keys && !KeyExists(data.value, k) {
        var k :| k in keys && !KeyExists(data.value, k);
        assert k in MissingKeys(data.value, keys);
      }
    }
  }

  /** `_check_manifest_requirements(rule, rel_path, root_path)` */
  function ManifestFinding(w: World, rule: Rule, rel: string, dir: Path, keys: seq<string>): Option<Finding> {
    match FirstManifest(w.fs, dir, MANIFEST_FILES)
    case None => None
    case Some(path) => KeysFinding(rule, rel, ManifestData(w, path), keys)
  }

  /** Without a manifest file the rule's manifest check finds nothing;
      otherwise it checks the first of `abom.json`, `agents.yaml` and
      `agents.yml` that exists, and only that one. */
  lemma ManifestRule(w: World, rule: Rule, rel: string, dir: Path, keys: seq<string>)
    ensures (forall k :: 0 <= k < |MANIFEST_FILES| ==> !Exists(w.fs, Child(dir, MANIFEST_FILES[k]))) ==> ManifestFinding(w, rule, rel, dir, keys).None?
    ensures forall i :: 0 <= i < |MANIFEST_FILES| && Exists(w.fs, Child(dir, MANIFEST_FILES[i]))
                        && (forall j :: 0 <= j < i ==> !Exists(w.fs, Child(dir, MANIFEST_FILES[j]))) ==>
      ManifestFinding(w, rule, rel, dir, keys) == KeysFinding(rule, rel, ManifestData(w, Child(dir, MANIFEST_FILES[i])), keys)
  {
    forall i | 0 <= i < |MANIFEST_FILES| && Exists(w.fs, Child(dir, MANIFEST_FILES[i]))
               && (forall j :: 0 <= j < i ==> !Exists(w.fs, Child(dir, MANIFEST_FILES[j])))
      ensures FirstManifest(w.fs, dir, MANIFEST_FILES) == Some(Child(dir, MANIFEST_FILES[i]))
    {
      var r := FirstManifest(w.fs, dir, MANIFEST_FILES);
      var k :| 0 <= k < |MANIFEST_FILES| && r.value == Child(dir, MANIFEST_FILES[k])
               && forall j :: 0 <= j < k ==> !Exists(w.fs, Child(dir, MANIFEST_FILES[j]));
      assert !(k < i) && !(i < k);
    }
  }

  /** `rule.detect.manifest_keys_must_exist`, empty when absent. */
  function ManifestKeys(rule: Rule): seq<string> {
    if rule.detect.manifestKeysMustExist.Some? then rule.detect.manifestKeysMustExist.value else []
  }

  /** `_check_rule(rule, file_path, rel_path, content)`: the violations of
      the `fail_if_regex` patterns, then the missing-pattern finding, then
      the manifest finding. */
  function RuleFindings(w: World, rule: Rule, file: Path, rel: string, content: string): seq<Finding> {
    var fail := if rule.detect.failIfRegex.Some? then rule.detect.failIfRegex.value else [];
    var keys := ManifestKeys(rule);
    var manifest := if keys != [] then ManifestFinding(w, rule, rel, Parent(file), keys) else None;
    ViolationsUpTo(w, rule, rel, content, fail, |fail|)
    + MissingPatternFinding(w, rule, file, rel, content)
    + (if manifest.Some? then [manifest.value] else [])
  }

  /** `read_file_safely(file_path)`: the text of a readable file. */
  function ReadFile(fs: FileSystem, file: Path): Option<string> {
    if file in fs.files then Some(fs.files[file]) else None
  }

  /** The check of one rule. */
  type RuleCheck = Rule -> seq<Finding>

  /** The findings of the first `n` rules, in rule order. */
  function RulesFindingsUpTo(check: RuleCheck, rules: seq<Rule>, n: nat): seq<Finding>
    requires n <= |rules|
  {
    if n == 0 then [] else RulesFindingsUpTo(check, rules, n - 1) + check(rules[n - 1])
  }

  /** `_check_rule` for one file, as a check of a rule. */
  function FileCheck(w: World, file: Path, rel: string, content: string): RuleCheck {
    r => RuleFindings(w, r, file, rel, content)
  }

  /** `check_file(file_path, root_path)` */
  function FileFindings(w: World, rules: seq<Rule>, file: Path, root: Path): seq<Finding> {
    var content := ReadFile(w.fs, file);
    if content.None? || content.value == "" then []
    else RulesFindingsUpTo(FileCheck(w, file, RelativeOrFull(file, root), content.value), rules, |rules|)
  }

  /** A file that cannot be read or is empty has no findings; otherwise its
      findings are those of the rules in order: of the rule list `a + b`,
      those of `a` followed by those of `b`. */
  lemma FileFindingsInRuleOrder(w: World, a: seq<Rule>, b: seq<Rule>, file: Path, root: Path)
    ensures ReadFile(w.fs, file).None? || ReadFile(w.fs, file) == Some("") ==> FileFindings(w, a + b, file, root) == []
    ensures FileFindings(w, a + b, file, root) == FileFindings(w, a, file, root) + FileFindings(w, b, file, root)
  {
    var content := ReadFile(w.fs, file);
    if content.Some? && content.value != "" {
      ReadFileFindingsInRuleOrder(w, a, b, file, root, content.value);
    }
  }

  /** The readable, non-empty case of FileFindingsInRuleOrder, over the text read. */
  lemma ReadFileFindingsInRuleOrder(w: World, a: seq<Rule>, b: seq<Rule>, file: Path, root: Path, text: string)
    requires ReadFile(w.fs, file) == Some(text) && text != ""
    ensures FileFindings(w, a + b, file, root) == FileFindings(w, a, file, root) + FileFindings(w, b, file, root)
  {
    var check := FileCheck(w, file, RelativeOrFull(file, root), text);
    RulesFindingsSplit(check, a, b);
    FileFindingsRead(w, a + b, file, root, text);
    FileFindingsRead(w, a, file, root, text);
    FileFindingsRead(w, b, file, root, text);
  }

  lemma FileFindingsRead(w: World, rules: seq<Rule>, file: Path, root: Path, text: string)
    requires ReadFile(w.fs, file) == Some(text) && text != ""
    ensures FileFindings(w, rules, file, root)
         == RulesFindingsUpTo(FileCheck(w, file, RelativeOrFull(file, root), text), rules, |rules|)
  {
  }

  lemma RulesFindingsSplit(check: RuleCheck, a: seq<Rule>, b: seq<Rule>)
    ensures RulesFindingsUpTo(check, a + b, |a + b|) == RulesFindingsUpTo(check, a, |a|) + RulesFindingsUpTo(check, b, |b|)
  {
    RulesFindingsAppend(check, a, b, |b|);
  }

  lemma {:induction false} RulesFindingsAppend(check: RuleCheck, a: seq<Rule>, b: seq<Rule>, n: nat)
    requires n <= |b|
    ensures RulesFindingsUpTo(check, a + b, |a| + n) == RulesFindingsUpTo(check, a, |a|) + RulesFindingsUpTo(check, b, n)
  {
    if n == 0 {
      PrefixFindings(check, a + b, a, |a|);
    } else {
      RulesFindingsAppend(check, a, b, n - 1);
      assert (a + b)[|a| + n - 1] == b[n - 1];
    }
  }

  lemma {:induction false} PrefixFindings(check: RuleCheck, rules: seq<Rule>, a: seq<Rule>, n: nat)
    requires n <= |a| <= |rules| && a == rules[..|a|]
    ensures RulesFindingsUpTo(check, rules, n) == RulesFindingsUpTo(check, a, n)
  {
    if n > 0 {
      PrefixFindings(check, rules, a, n - 1);
      assert rules[n - 1] == a[n - 1];
    }
  }
}
