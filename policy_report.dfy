/** `PolicyReport` (agentbom/policy/report.py): the summary counts of a
    validation run and the exit code it leads to.  Rendering the table and
    the JSON text is not modelled. */
module PolicyReports {
  import opened Rulesets
  import opened Policy

  /** `PolicySummary` */
  datatype Summary = Summary(totalFiles: int, totalFindings: nat, bySeverity: map<Severity, nat>, rulesChecked: int)

  /** The number of the first `n` findings that have severity `s`. */
  function CountUpTo(findings: seq<Finding>, s: Severity, n: nat): nat
    requires n <= |findings|
  {
    if n == 0 then 0 else CountUpTo(findings, s, n - 1) + (if findings[n - 1].severity == s then 1 else 0)
  }

  /** The counter of `_generate_summary`: every severity, with the number
      of findings of that severity. */
  function SeverityCounts(findings: seq<Finding>): map<Severity, nat> {
    map s | s in SEVERITIES :: CountUpTo(findings, s, |findings|)
  }

  function SummaryOf(findings: seq<Finding>, totalFiles: int, rulesChecked: int): Summary {
    Summary(totalFiles, |findings|, SeverityCounts(findings), rulesChecked)
  }

  lemma {:induction false} CountsSumUpTo(findings: seq<Finding>, n: nat)
    requires n <= |findings|
    ensures CountUpTo(findings, Low, n) + CountUpTo(findings, Medium, n)
          + CountUpTo(findings, High, n) + CountUpTo(findings, Critical, n) == n
  {
    if n > 0 {
      CountsSumUpTo(findings, n - 1);
    }
  }

  /** Every severity has a count, every count is 0 when there are no
      findings, and the counts add up to the number of findings. */
  lemma SummaryCounts(findings: seq<Finding>, totalFiles: int, rulesChecked: int)
    ensures var summary := SummaryOf(findings, totalFiles, rulesChecked);
      (forall s :: s in summary.bySeverity)
      && (findings == [] ==> forall s :: summary.bySeverity[s] == 0)
      && summary.bySeverity[Low] + summary.bySeverity[Medium] + summary.bySeverity[High] + summary.bySeverity[Critical]
         == summary.totalFindings == |findings|
  {
    forall s ensures s in SEVERITIES {
      SeveritiesComplete(s);
    }
    CountsSumUpTo(findings, |findings|);
  }

  /** A severity has a positive count exactly when some finding has it. */
  lemma {:induction false} CountPositive(findings: seq<Finding>, s: Severity, n: nat)
    requires n <= |findings|
    ensures CountUpTo(findings, s, n) > 0 <==> exists k :: 0 <= k < n && findings[k].severity == s
  {
    if n > 0 {
      CountPositive(findings, s, n - 1);
    }
  }

  /** The findings whose severity is one of `ss`, in their order (the two
      list comprehensions of `determine_exit_code`). */
  function WithSeverity(findings: seq<Finding>, ss: set<Severity>): seq<Finding> {
    if findings == [] then []
    else (if findings[0].severity in ss then [findings[0]] else []) + WithSeverity(findings[1..], ss)
  }

  lemma {:induction false} WithSeverityNonEmpty(findings: seq<Finding>, ss: set<Severity>)
    ensures WithSeverity(findings, ss) != [] <==> exists k :: 0 <= k < |findings| && findings[k].severity in ss
  {
    if findings != [] {
      WithSeverityNonEmpty(findings[1..], ss);
      assert forall k :: 1 <= k < |findings| ==> findings[k] == findings[1..][k - 1];
      if exists k :: 0 <= k < |findings| && findings[k].severity in ss {
        var k :| 0 <= k < |findings| && findings[k].severity in ss;
        if k > 0 {
          assert findings[1..][k - 1].severity in ss;
        }
      }
    }
  }

  /** `determine_exit_code(strict)` */
  function ExitCode(findings: seq<Finding>, strict: bool): (code: int)
    ensures code == 0 || code == 1
    ensures findings == [] ==> code == 0
  {
    if findings == [] then 0
    else if WithSeverity(findings, {High, Critical}) != [] then 1
    else if strict && WithSeverity(findings, {Medium}) != [] then 1
    else 0
  }

  /** The exit code is 1 exactly when some finding is High or Critical, or,
      in strict mode, Medium; so Low findings alone pass in both modes and a
      failure without strict mode is a failure with it. */
  lemma ExitCodeExact(findings: seq<Finding>, strict: bool)
    ensures ExitCode(findings, strict) == 1 <==>
      (exists k :: 0 <= k < |findings| && findings[k].severity in {High, Critical})
      || (strict && exists k :: 0 <= k < |findings| && findings[k].severity == Medium)
    ensures (forall k :: 0 <= k < |findings| ==> findings[k].severity == Low) ==> ExitCode(findings, strict) == 0
    ensures ExitCode(findings, false) == 1 ==> ExitCode(findings, true) == 1
  {
    WithSeverityNonEmpty(findings, {High, Critical});
    WithSeverityNonEmpty(findings, {Medium});
    assert forall k :: 0 <= k < |findings| ==> (findings[k].severity in {Medium} <==> findings[k].severity == Medium);
  }

  /** The exit code read off the summary: 1 exactly when the High and
      Critical counts are not both 0, or, in strict mode, the Medium count
      is not 0. */
  lemma ExitCodeFromSummary(findings: seq<Finding>, strict: bool, totalFiles: int, rulesChecked: int)
    ensures var counts := SummaryOf(findings, totalFiles, rulesChecked).bySeverity;
      ExitCode(findings, strict) == 1 <==> counts[High] + counts[Critical] > 0 || (strict && counts[Medium] > 0)
  {
    ExitCodeExact(findings, strict);
    CountPositive(findings, High, |findings|);
    CountPositive(findings, Critical, |findings|);
    CountPositive(findings, Medium, |findings|);
    if exists k :: 0 <= k < |findings| && findings[k].severity in {High, Critical} {
      var k :| 0 <= k < |findings| && findings[k].severity in {High, Critical};
      assert findings[k].severity == High || findings[k].severity == Critical;
    }
  }

  class PolicyReport {
    const findings: seq<Finding>
    const totalFiles: int
    const rulesChecked: int
    const summary: Summary

    /** `PolicyReport(findings, total_files, rules_checked)` */
    constructor(findings: seq<Finding>, totalFiles: int, rulesChecked: int)
      ensures this.findings == findings && this.totalFiles == totalFiles && this.rulesChecked == rulesChecked
      ensures summary == SummaryOf(findings, totalFiles, rulesChecked)
    {
      this.findings := findings;
      this.totalFiles := totalFiles;
      this.rulesChecked := rulesChecked;
      var s := GenerateSummary(findings, totalFiles, rulesChecked);
      summary := s;
    }

    /** `_generate_summary()`, on the report's fields. */
    static method GenerateSummary(findings: seq<Finding>, totalFiles: int, rulesChecked: int) returns (summary: Summary)
      ensures summary == SummaryOf(findings, totalFiles, rulesChecked)
    {
      var counts: map<Severity, nat> := map[Low := 0, Medium := 0, High := 0, Critical := 0];
      for i := 0 to |findings|
        invariant counts == SeverityCounts(findings[..i])
      {
        var s := findings[i].severity;
        CountsStep(findings, i);
        counts := counts[s := counts[s] + 1];
      }
      assert findings[..|findings|] == findings;
      summary := Summary(totalFiles, |findings|, counts, rulesChecked);
    }
  }

  /** One more finding adds one to the count of its severity. */
  lemma CountsStep(findings: seq<Finding>, i: nat)
    requires i < |findings|
    ensures findings[i].severity in SeverityCounts(findings[..i])
    ensures SeverityCounts(findings[..i + 1])
      == SeverityCounts(findings[..i])[findings[i].severity := SeverityCounts(findings[..i])[findings[i].severity] + 1]
  {
    var s := findings[i].severity;
    SeveritiesComplete(s);
    var prefix := findings[..i + 1];
    assert prefix[..i] == findings[..i];
    forall t | t in SEVERITIES
      ensures CountUpTo(prefix, t, i + 1) == CountUpTo(findings[..i], t, i) + (if s == t then 1 else 0)
    {
      CountPrefix(prefix, findings[..i], t, i);
    }
  }

  /** Counting over a prefix of a list is counting over the list. */
  lemma {:induction false} CountPrefix(longer: seq<Finding>, shorter: seq<Finding>, s: Severity, n: nat)
    requires n <= |shorter| <= |longer| && shorter == longer[..|shorter|]
    ensures CountUpTo(longer, s, n) == CountUpTo(shorter, s, n)
  {
    if n > 0 {
      CountPrefix(longer, shorter, s, n - 1);
      assert longer[n - 1] == shorter[n - 1];
    }
  }
}
