/** `PolicyEngine` (agentbom/policy/engine.py) as a class over its ruleset:
    each method is proved to compute its specification in module
    `Policy`. */
module PolicyEngineClass {
  import opened Wrappers
  import opened Strs
  import opened Regex
  import opened Paths
  import opened Documents
  import opened Rulesets
  import opened Policy

  class PolicyEngine {
    const ruleset: Ruleset

    /** `PolicyEngine(ruleset)`; the file walker it keeps only reads files,
        which is `ReadFile` here. */
    constructor(ruleset: Ruleset)
      ensures this.ruleset == ruleset
    {
      this.ruleset := ruleset;
    }

    /** `_find_regex_matches(pattern, content)` */
    method FindRegexMatches(w: World, pattern: string, content: string) returns (matches: seq<LineMatch>)
      ensures matches == RegexMatches(w, pattern, content)
    {
      matches := [];
      if !w.compiles(pattern) {
        return;
      }
      var lines := Split(content, '\n');
      var i := 0;
      while i < |lines|
        invariant 0 <= i <= |lines|
        invariant matches == MatchesUpTo(w.re, pattern, lines, i)
      {
        var found := w.re(pattern, {Multiline}, lines[i]);
        ghost var before := matches;
        var j := 0;
        while j < |found|
          invariant 0 <= j <= |found|
          invariant matches == before + LineMatches(found[..j], i + 1)
        {
          var text := GroupText(found[j], 0);
          matches := matches + [LineMatch(i + 1, text, found[j].start, found[j].start + |text|)];
          assert LineMatches(found[..j + 1], i + 1) == LineMatches(found[..j], i + 1) + [LineMatch(i + 1, text, found[j].start, found[j].start + |text|)];
          j := j + 1;
        }
        assert found[..j] == found;
        i := i + 1;
      }
    }

    /** `_key_exists(data, key_path)` */
    method KeyExistsIn(data: Value, keyPath: string) returns (b: bool)
      ensures b == KeyExists(data, keyPath)
    {
      var keys := Split(keyPath, '.');
      var current := data;
      var i := 0;
      while i < |keys|
        invariant 0 <= i <= |keys|
        invariant KeyPathExists(data, keys) == KeyPathExists(current, keys[i..])
      {
        if !current.Mapping? || keys[i] !in current.fields {
          return false;
        }
        assert keys[i..][1..] == keys[i + 1..];
        current := current.fields[keys[i]];
        i := i + 1;
      }
      return true;
    }

    /** The manifest search of `_check_manifest_requirements`: the first
        of the manifest names that exists in `dir`. */
    method FindManifest(fs: FileSystem, dir: Path) returns (manifest: Option<Path>)
      ensures manifest == FirstManifest(fs, dir, MANIFEST_FILES)
    {
      manifest := None;
      var i := 0;
      while i < |MANIFEST_FILES|
        invariant 0 <= i <= |MANIFEST_FILES|
        invariant FirstManifest(fs, dir, MANIFEST_FILES) == FirstManifest(fs, dir, MANIFEST_FILES[i..])
      {
        assert MANIFEST_FILES[i..][1..] == MANIFEST_FILES[i + 1..];
        var candidate := Child(dir, MANIFEST_FILES[i]);
        if Exists(fs, candidate) {
          return Some(candidate);
        }
        i := i + 1;
      }
    }

    /** The key loop of `_check_manifest_requirements`. */
    method CollectMissingKeys(data: Value, keys: seq<string>) returns (missing: seq<string>)
      ensures missing == MissingKeys(data, keys)
    {
      missing := [];
      var k := 0;
      while k < |keys|
        invariant 0 <= k <= |keys|
        invariant missing == MissingKeys(data, keys[..k])
      {
        assert keys[..k + 1][..k] == keys[..k];
        var present := KeyExistsIn(data, keys[k]);
        if !present {
          missing := missing + [keys[k]];
        }
        k := k + 1;
      }
      assert keys[..k] == keys;
    }

    /** `_check_manifest_requirements(rule, rel_path, root_path)` */
    method CheckManifestRequirements(w: World, rule: Rule, rel: string, dir: Path) returns (f: Option<Finding>)
      ensures f == ManifestFinding(w, rule, rel, dir, ManifestKeys(rule))
    {
      var manifest := FindManifest(w.fs, dir);
      if manifest.None? {
        return None;
      }
      var path := manifest.value;
      if path !in w.fs.files {
        return None;
      }
      var text := w.fs.files[path];
      var data := if Extension(path) == ".json" then w.parseJson(text) else w.parseYaml(text);
      if data.None? {
        return None;
      }
      var missing := CollectMissingKeys(data.value, ManifestKeys(rule));
      if missing != [] {
        return Some(Finding(rule.id, rel, 1, rule.severity, Str("Missing manifest keys: " + Join(", ", missing)), ""));
      }
      return None;
    }

    /** The `fail_if_regex` part of `_check_rule`. */
    method CheckViolations(w: World, rule: Rule, rel: string, content: string) returns (findings: seq<Finding>)
      ensures var fail := if rule.detect.failIfRegex.Some? then rule.detect.failIfRegex.value else [];
        findings == ViolationsUpTo(w, rule, rel, content, fail, |fail|)
    {
      findings := [];
      var fail := if rule.detect.failIfRegex.Some? then rule.detect.failIfRegex.value else [];
      var hint := ViolationHint(w, rule);
      for i := 0 to |fail|
        invariant findings == ViolationsUpTo(w, rule, rel, content, fail, i)
      {
        var ms := FindRegexMatches(w, fail[i], content);
        ghost var before := findings;
        for j := 0 to |ms|
          invariant findings == before + Violations(rule, rel, hint, ms[..j])
        {
          findings := findings + [Finding(rule.id, rel, ms[j].line, rule.severity, hint, ms[j].text)];
          assert Violations(rule, rel, hint, ms[..j + 1]) == Violations(rule, rel, hint, ms[..j]) + [Finding(rule.id, rel, ms[j].line, rule.severity, hint, ms[j].text)];
        }
        assert ms[..|ms|] == ms;
      }
    }

    /** The positive-pattern part of `_check_rule`. */
    method CheckRequiredPatterns(w: World, rule: Rule, file: Path, rel: string, content: string) returns (findings: seq<Finding>)
      ensures findings == MissingPatternFinding(w, rule, file, rel, content)
    {
      findings := [];
      var positive := PositivePatterns(rule, file);
      if positive == [] {
        return;
      }
      var anyMatch := false;
      var i := 0;
      while i < |positive| && !anyMatch
        invariant 0 <= i <= |positive|
        invariant anyMatch == AnyMatchUpTo(w, positive, content, i)
      {
        var ms := FindRegexMatches(w, positive[i], content);
        if ms != [] {
          anyMatch := true;
        }
        i := i + 1;
      }
      if anyMatch {
        MatchPersists(w, positive, content, i, |positive|);
      }
      if !anyMatch {
        findings := [Finding(rule.id, rel, 1, rule.severity, MissingHint(w, rule), "")];
      }
    }

    /** `_check_rule(rule, file_path, rel_path, content)` */
    method CheckRule(w: World, rule: Rule, file: Path, rel: string, content: string) returns (findings: seq<Finding>)
      ensures findings == RuleFindings(w, rule, file, rel, content)
    {
      findings := CheckViolations(w, rule, rel, content);
      var missing := CheckRequiredPatterns(w, rule, file, rel, content);
      findings := findings + missing;
      var keys := ManifestKeys(rule);
      if keys != [] {
        var violation := CheckManifestRequirements(w, rule, rel, Parent(file));
        if violation.Some? {
          findings := findings + [violation.value];
        }
      }
    }

    /** `check_file(file_path, root_path)` */
    method CheckFile(w: World, file: Path, root: Path) returns (findings: seq<Finding>)
      ensures findings == FileFindings(w, ruleset.rules, file, root)
    {
      findings := [];
      var content := ReadFile(w.fs, file);
      if content.None? || content.value == "" {
        return;
      }
      var rel := RelativeOrFull(file, root);
      ghost var check := FileCheck(w, file, rel, content.value);
      var rules := ruleset.rules;
      for i := 0 to |rules|
        invariant findings == RulesFindingsUpTo(check, rules, i)
      {
        var ruleFindings := CheckRule(w, rules[i], file, rel, content.value);
        findings := findings + ruleFindings;
      }
    }
  }

  /** A match among the first `i` patterns is a match among the first `n`. */
  lemma {:induction false} MatchPersists(w: World, patterns: seq<string>, content: string, i: nat, n: nat)
    requires i <= n <= |patterns| && AnyMatchUpTo(w, patterns, content, i)
    ensures AnyMatchUpTo(w, patterns, content, n)
    decreases n - i
  {
    if i < n {
      MatchPersists(w, patterns, content, i + 1, n);
    }
  }
}
