/** The ruleset records of the policy checker (agentbom/policy/ruleset.py)
    and its two queries, which select rules by severity and by category. */
module Rulesets {
  import opened Wrappers
  import opened Documents

  /** `Severity`, in the order the enum lists its members. */
  datatype Severity = Low | Medium | High | Critical

  const SEVERITIES: seq<Severity> := [Low, Medium, High, Critical]

  /** `severity.value` */
  function SeverityValue(s: Severity): string {
    match s
    case Low => "low"
    case Medium => "medium"
    case High => "high"
    case Critical => "critical"
  }

  /** `Severity(text)`: the member with that value; `None` is the
      ValueError raised for any other text. */
  function SeverityOf(text: string): (r: Option<Severity>)
    ensures r.Some? ==> SeverityValue(r.value) == text
    ensures r.None? ==> forall s :: SeverityValue(s) != text
  {
    if text == "low" then Some(Low)
    else if text == "medium" then Some(Medium)
    else if text == "high" then Some(High)
    else if text == "critical" then Some(Critical)
    else None
  }

  /** There are exactly four severities, each listed once, and each is
      found again from its value. */
  lemma SeveritiesComplete(s: Severity)
    ensures s in SEVERITIES && |SEVERITIES| == 4
    ensures forall i, j :: 0 <= i < j < |SEVERITIES| ==> SEVERITIES[i] != SEVERITIES[j]
    ensures SeverityOf(SeverityValue(s)) == Some(s)
  {
  }

  /** `DetectPattern`: each list is absent (`None`) or a list of strings. */
  datatype DetectPattern = DetectPattern(
    pythonRegexAny: Option<seq<string>>,
    tsRegexAny: Option<seq<string>>,
    failIfRegex: Option<seq<string>>,
    manifestKeysMustExist: Option<seq<string>>)

  /** `Rule`.  The dataclass does not check the types of the text fields, so
      they hold whatever the document held; `autofixHint` is `Null` when the
      rule has none. */
  datatype Rule = Rule(
    id: Value,
    title: Value,
    category: Value,
    severity: Severity,
    scope: Value,
    detect: DetectPattern,
    autofixHint: Value)

  datatype Ruleset = Ruleset(version: Value, rules: seq<Rule>)

  /** The condition of one of the two list comprehensions. */
  datatype Query = SeverityIs(severity: Severity) | CategoryIs(category: Value)

  predicate Keeps(q: Query, r: Rule) {
    match q
    case SeverityIs(s) => r.severity == s
    case CategoryIs(c) => r.category == c
  }

  /** The rules the comprehension keeps, in their order. */
  function Filter(rules: seq<Rule>, q: Query): seq<Rule> {
    if rules == [] then []
    else (if Keeps(q, rules[0]) then [rules[0]] else []) + Filter(rules[1..], q)
  }

  /** `a` is `b` with some elements left out. */
  predicate Subsequence<T(==)>(a: seq<T>, b: seq<T>)
    decreases |b|
  {
    a == [] || (b != [] && ((a[0] == b[0] && Subsequence(a[1..], b[1..])) || Subsequence(a, b[1..])))
  }

  /** `get_rules_by_severity(severity)` */
  function RulesBySeverity(rs: Ruleset, severity: Severity): seq<Rule> {
    Filter(rs.rules, SeverityIs(severity))
  }

  /** `get_rules_by_category(category)` */
  function RulesByCategory(rs: Ruleset, category: Value): seq<Rule> {
    Filter(rs.rules, CategoryIs(category))
  }

  /** A filter keeps the rules in their order, and keeps every occurrence of
      a rule it accepts and none of one it rejects. */
  lemma {:induction false} FilterExact(rules: seq<Rule>, q: Query, x: Rule)
    ensures Subsequence(Filter(rules, q), rules)
    ensures multiset(Filter(rules, q))[x] == if Keeps(q, x) then multiset(rules)[x] else 0
  {
    if rules != [] {
      FilterExact(rules[1..], q, x);
      var rest := Filter(rules[1..], q);
      assert rules == [rules[0]] + rules[1..];
      if Keeps(q, rules[0]) {
        var f := Filter(rules, q);
        assert f == [rules[0]] + rest;
        assert f != [] && f[0] == rules[0] && f[1..] == rest;
        assert Subsequence(f[1..], rules[1..]);
      } else {
        assert Filter(rules, q) == rest;
        assert Subsequence(rest, rules[1..]);
      }
    }
  }

  /** `get_rules_by_severity(s)` is exactly the rules of severity `s`, in
      their order. */
  lemma RulesBySeverityExact(rs: Ruleset, severity: Severity, x: Rule)
    ensures Subsequence(RulesBySeverity(rs, severity), rs.rules)
    ensures multiset(RulesBySeverity(rs, severity))[x] == if x.severity == severity then multiset(rs.rules)[x] else 0
  {
    FilterExact(rs.rules, SeverityIs(severity), x);
  }

  /** `get_rules_by_category(c)` is exactly the rules of category `c`, in
      their order. */
  lemma RulesByCategoryExact(rs: Ruleset, category: Value, x: Rule)
    ensures Subsequence(RulesByCategory(rs, category), rs.rules)
    ensures multiset(RulesByCategory(rs, category))[x] == if x.category == category then multiset(rs.rules)[x] else 0
  {
    FilterExact(rs.rules, CategoryIs(category), x);
  }

  function SeverityBuckets(rules: seq<Rule>): multiset<Rule> {
    multiset(Filter(rules, SeverityIs(Low))) + multiset(Filter(rules, SeverityIs(Medium)))
    + multiset(Filter(rules, SeverityIs(High))) + multiset(Filter(rules, SeverityIs(Critical)))
  }

  /** The four severity buckets together hold every rule exactly once. */
  lemma {:induction false} SeverityPartition(rs: Ruleset)
    ensures multiset(RulesBySeverity(rs, Low)) + multiset(RulesBySeverity(rs, Medium))
          + multiset(RulesBySeverity(rs, High)) + multiset(RulesBySeverity(rs, Critical)) == multiset(rs.rules)
    ensures |RulesBySeverity(rs, Low)| + |RulesBySeverity(rs, Medium)|
          + |RulesBySeverity(rs, High)| + |RulesBySeverity(rs, Critical)| == |rs.rules|
  {
    BucketsPartition(rs.rules);
    var low, medium, high, critical := RulesBySeverity(rs, Low), RulesBySeverity(rs, Medium),
      RulesBySeverity(rs, High), RulesBySeverity(rs, Critical);
    assert |multiset(low) + multiset(medium) + multiset(high) + multiset(critical)| == |multiset(rs.rules)|;
  }

  lemma BucketsPartition(rules: seq<Rule>)
    ensures SeverityBuckets(rules) == multiset(rules)
  {
    forall y ensures SeverityBuckets(rules)[y] == multiset(rules)[y] {
      FilterExact(rules, SeverityIs(Low), y);
      FilterExact(rules, SeverityIs(Medium), y);
      FilterExact(rules, SeverityIs(High), y);
      FilterExact(rules, SeverityIs(Critical), y);
    }
  }
}
