# AgentBOM scanner core, modelled in Dafny

AgentBOM scans a repository and writes an "agent bill of materials". It
finds the files that build an AI agent with LangChain (Python or
TypeScript), CrewAI or AutoGen. For each agent it records a name, its tools
with their parameter schemas, its architecture and agent type, and owners
and timestamps taken from git. A companion checker validates source files
and agent manifests against a YAML or JSON ruleset and turns the findings
into a summary and an exit code.

This project models the deterministic core of the scanner and proves
properties of it:

- the framework detectors: their gating checks, the construction they read,
  how tools are resolved, and the agent type they assign;
- signature extraction and its merge with the docstring;
- the three docstring styles;
- the schema-extractor registry and its dialects;
- the scanner's per-file dispatch and its record conversion;
- CODEOWNERS matching and the git folds;
- the file filter;
- the whole policy checker: loading, findings, summary and exit code.

Each source module has one Dafny module of specification functions, with
the lemmas about them (`Signatures`, `Docstrings`, `LangChainPy`,
`LangChainTs`, `CrewAI`, `AutoGen`, `Schemas`, `Scanning`, `Git`, `Policy`,
…). Where the source works with loops or objects, a second module holds a
class or methods that do the same step by step. Every such method is
proved to compute its specification function. Examples are
`LangChainPyDetector`, `LangChainTsDetector`, `CrewAIDetector`,
`AutoGenDetector`, `DocstringParser`, `SignatureExtractor`,
`SchemaRegistry`, `ScannerClass`, `GitExtractorClass`, `FileWalking`,
`PolicyEngineClass` and `PolicyReports`.

The outside world enters as parameters:

- **Python's `re`**: an `Engine` from pattern, flags and subject to the
  matches `re.finditer` yields. The pattern texts are the source's own.
- **Python's `ast`**: a parsed module is the node list `ast.walk` yields,
  over a datatype with the node kinds the detectors inspect.
- **The file system**: a set of directories and a map from file paths to
  their contents.
- **git**: a `Repo` record holding each file's history, newest first, as
  `git log -- <file>` lists it, plus the default branch. `Git.Log` derives
  every `git log` answer from that history, applying the limit (`-n`) first
  and `--reverse` second, as git does.
- **Other oracles**: glob matching, file sizes, the YAML and JSON parsers,
  and `str()` of a loaded value.

Nothing here interprets a regular expression, reads a file or runs a
command.

## Model

| member | source | states |
|---|---|---|
| Rulesets.SeverityOf | agentbom/policy/ruleset.py:9-14 | a severity is found only for its own value text, and no severity is found for any other text (the ValueError) |
| Rulesets.SeveritiesComplete | agentbom/policy/ruleset.py:9-14 | there are exactly four severities, all distinct, and each is found again from its value |
| Rulesets.FilterExact | agentbom/policy/ruleset.py:53-59 | a rule query keeps rules in their order, keeps every occurrence of an accepted rule and none of a rejected one |
| Rulesets.RulesBySeverityExact | agentbom/policy/ruleset.py:53-55 | `get_rules_by_severity(s)` is exactly the rules of severity `s`, in order, with multiplicity |
| Rulesets.RulesByCategoryExact | agentbom/policy/ruleset.py:57-59 | `get_rules_by_category(c)` is exactly the rules of category `c`, in order, with multiplicity |
| Rulesets.SeverityPartition | agentbom/policy/ruleset.py:53-55 | the four severity queries together hold every rule exactly once, and their lengths add up to the number of rules |
| RulesetLoading.MissingFrom | agentbom/policy/loader.py:107-110 | the field check reports only a listed field or a malformed rule; on a mapping it passes exactly when every listed field is present |
| RulesetLoading.PatternList | agentbom/policy/ruleset.py:20-30 | an absent pattern list is `None`; an accepted list holds exactly the strings of the document's list, in order |
| RulesetLoading.ParseRule | agentbom/policy/loader.py:94-138 | an accepted rule had all six required fields; it copies id, title, category, scope and autofix hint, and its severity's value is the lower-cased severity text; a missing-field error names a required field |
| RulesetLoading.MissingFieldFirst | agentbom/policy/loader.py:106-110 | a rule is refused for a missing field exactly when one of the six is absent, and the error names the first absent one in the listed order |
| RulesetLoading.FirstAbsentIsMissing | agentbom/policy/loader.py:108-110 | when some listed field is absent, the field loop reports the first absent one |
| RulesetLoading.SeverityCaseInsensitive | agentbom/policy/loader.py:112-116 | a severity text that lower-cases to no value is refused with that text; an accepted rule's severity is the one whose value the lower-cased text is |
| RulesetLoading.ParseRulesUpTo | agentbom/policy/loader.py:83-89 | parsing `n` entries gives `n` rules or an invalid-rule error whose index is below `n` |
| RulesetLoading.ParseRulesInOrder | agentbom/policy/loader.py:83-89 | the rule list is accepted exactly when every entry is, and rule `k` is the parse of entry `k` |
| RulesetLoading.ParseRulesFirstError | agentbom/policy/loader.py:84-89 | a refused list names its first refused entry: every earlier entry parses and that entry fails with the reported cause |
| RulesetLoading.ParseRulesFailureStays | agentbom/policy/loader.py:88-89 | once an entry is refused, every longer prefix is refused with the same error (the loop stops at the first error) |
| RulesetLoading.ParseRulesetGuards | agentbom/policy/loader.py:70-81 | a non-mapping, a missing or false version, and a non-list `rules` are each refused with their own error, before any rule is read; a missing `rules` gives an empty ruleset |
| RulesetLoading.ParseRulesetLoop | agentbom/policy/loader.py:58-91 | the loop over the rules computes `ParseRuleset`, whose properties are the lemmas above |
| Policy.LineMatches | agentbom/policy/engine.py:189-195 | one entry per match of a line |
| Policy.MatchesShape | agentbom/policy/engine.py:184-195 | the match list has one entry per match per line; line numbers run from 1 to the number of lines and never decrease; each entry ends at its start plus the length of its text |
| Policy.RegexMatchesShape | agentbom/policy/engine.py:183-200 | a pattern that does not compile yields no entries; one that compiles yields one entry per match over `content.split('\n')` |
| Policy.Violations | agentbom/policy/engine.py:127-135 | one finding per match |
| Policy.ViolationsCarryRule | agentbom/policy/engine.py:124-135 | each match of a `fail_if_regex` pattern is one finding of the rule, with the rule's severity, the violation hint (the autofix hint, else "Violation of rule <id>"), the match's line and its text |
| Policy.AnyMatchExists | agentbom/policy/engine.py:145-150 | the positive-pattern loop reports a match exactly when some pattern has a match |
| Policy.MissingPatternRule | agentbom/policy/engine.py:137-161 | exactly one finding, at line 1 with empty matched text, is added when the file's type has positive patterns and none of them matches; otherwise none |
| Policy.FirstManifest | agentbom/policy/engine.py:219-226 | the manifest found exists, is the `k`-th of the names in the directory, and none of the names before it exists; none is found exactly when none of them exists |
| Policy.KeyPathSplit | agentbom/policy/engine.py:274-282 | a dotted key path exists exactly when the value is a mapping holding the first key and the rest of the path exists below it |
| Policy.MissingKeysExact | agentbom/policy/engine.py:243-246 | a key is reported missing exactly when it is required and does not exist in the manifest |
| Policy.KeysFindingExact | agentbom/policy/engine.py:243-256 | a manifest finding exists exactly when the manifest was parsed and lacks a required key; it is at line 1, has empty matched text and lists the missing keys |
| Policy.ManifestRule | agentbom/policy/engine.py:218-241 | with no manifest among `abom.json`, `agents.yaml`, `agents.yml` the check finds nothing; when the `i`-th of them exists and none before it does, it is that file's data whose keys are checked (so `agents.yaml` wins over `agents.yml` when there is no `abom.json`) |
| Policy.FileFindingsInRuleOrder | agentbom/policy/engine.py:78-96 | an unreadable or empty file has no findings; otherwise the findings are the rules' findings in rule order, so the findings for rules `a + b` are those for `a` followed by those for `b` |
| Policy.RulesFindingsAppend | agentbom/policy/engine.py:92-94 | the rule loop's findings for `a + b` are those for `a` followed by those for `b` |
| Policy.PrefixFindings | agentbom/policy/engine.py:92-94 | the findings of the first `n` rules do not depend on the rules after them |
| PolicyEngineClass.PolicyEngine.constructor | agentbom/policy/engine.py:28-35 | the engine holds the given ruleset |
| PolicyEngineClass.PolicyEngine.FindRegexMatches | agentbom/policy/engine.py:173-200 | the nested loop over lines and matches computes `RegexMatches` (see `Policy.RegexMatchesShape`) |
| PolicyEngineClass.PolicyEngine.KeyExistsIn | agentbom/policy/engine.py:264-282 | the walk down the key path computes `KeyExists` (see `Policy.KeyPathSplit`) |
| PolicyEngineClass.PolicyEngine.FindManifest | agentbom/policy/engine.py:219-226 | the loop that stops at the first existing manifest computes `FirstManifest` |
| PolicyEngineClass.PolicyEngine.CollectMissingKeys | agentbom/policy/engine.py:243-246 | the key loop computes `MissingKeys` (see `Policy.MissingKeysExact`) |
| PolicyEngineClass.PolicyEngine.CheckManifestRequirements | agentbom/policy/engine.py:202-262 | computes `ManifestFinding` (see `Policy.ManifestRule` and `Policy.KeysFindingExact`) |
| PolicyEngineClass.PolicyEngine.CheckViolations | agentbom/policy/engine.py:124-135 | the two loops over patterns and matches compute the rule's violation findings (see `Policy.ViolationsCarryRule`) |
| PolicyEngineClass.PolicyEngine.CheckRequiredPatterns | agentbom/policy/engine.py:137-161 | the loop that stops at the first matching pattern computes `MissingPatternFinding` (see `Policy.MissingPatternRule`) |
| PolicyEngineClass.PolicyEngine.CheckRule | agentbom/policy/engine.py:98-171 | computes `RuleFindings`: the violations, then the missing-pattern finding, then the manifest finding when the rule lists manifest keys |
| PolicyEngineClass.PolicyEngine.CheckFile | agentbom/policy/engine.py:68-96 | computes `FileFindings` over the engine's rules (see `Policy.FileFindingsInRuleOrder`) |
| PolicyEngineClass.MatchPersists | agentbom/policy/engine.py:147-150 | a match among the first `i` positive patterns is a match among the first `n`, so leaving the loop early loses nothing |
| PolicyReports.CountsSumUpTo | agentbom/policy/report.py:42-45 | the four severity counts of a prefix add up to its length |
| PolicyReports.SummaryCounts | agentbom/policy/report.py:40-52 | the summary has a count for every severity; all counts are 0 without findings; the counts add up to the total, which is the number of findings |
| PolicyReports.CountPositive | agentbom/policy/report.py:44-45 | a severity's count is positive exactly when some finding has that severity |
| PolicyReports.WithSeverityNonEmpty | agentbom/policy/report.py:130-133 | the findings of the listed severities are non-empty exactly when some finding has one of them |
| PolicyReports.ExitCode | agentbom/policy/report.py:117-148 | the exit code is 0 or 1, and 0 when there are no findings |
| PolicyReports.ExitCodeExact | agentbom/policy/report.py:126-148 | the exit code is 1 exactly when some finding is High or Critical, or, in strict mode, Medium; Low findings alone never fail; a failure without strict mode is a failure with it |
| PolicyReports.ExitCodeFromSummary | agentbom/policy/report.py:117-148 | the exit code can be read off the summary counts: 1 exactly when High plus Critical is positive, or, in strict mode, Medium is |
| PolicyReports.PolicyReport.constructor | agentbom/policy/report.py:27-38 | the report keeps the findings, totals and rule count, and its summary is `SummaryOf` them (see `PolicyReports.SummaryCounts`) |
| PolicyReports.PolicyReport.GenerateSummary | agentbom/policy/report.py:40-52 | the counting loop computes `SummaryOf` |
| PolicyReports.CountsStep | agentbom/policy/report.py:44-45 | one more finding adds one to its severity's count and leaves the other counts alone |
| PolicyReports.CountPrefix | agentbom/policy/report.py:44-45 | counting over a prefix of the findings is counting over the findings |
| Detection.FoundResult | agentbom/detectors/base.py:26-38 | a found result records the constructor file, language, frameworks and architecture it is given; every other field keeps its dataclass default: no name, no tools, no tool files, `LLMAgent`, no metadata |
| Detection.AgentTypeFor | agentbom/detectors/langchain_py.py:67-72 | the agent type is `SQLAgent` exactly when a SQL tool was seen, `RetrievalAgent` exactly when no SQL tool but a retrieval tool was, and `LLMAgent` otherwise |
| Detection.CheckPresence | agentbom/detectors/base.py:83-96 | true exactly when some signature is found in the content in multi-line mode |
| Detection.CheckConstruction | agentbom/detectors/base.py:98-112 | no match exactly when no signature is found in multi-line dot-all mode; otherwise the match of the first signature that is found |
| Detection.FindsAny | agentbom/detectors/langchain_py.py:471-476 | true exactly when one of the terms occurs in the text |
| Detection.NameTargets | agentbom/detectors/crewai.py:115-117 | the loop over the assignment targets keeps the variable of the last `Name` target, or the earlier value when there is none |
| Detection.AppendNames | agentbom/detectors/crewai.py:121-125 | the loop over a list literal appends exactly its `Name` items, in order |
| Detection.AnySqlTool | agentbom/detectors/langchain_py.py:445-448 | true exactly when some tool's name, or non-empty description, mentions `sql` in any case |
| Detection.AnyRetrievalTool | agentbom/detectors/langchain_py.py:469-476 | true exactly when some tool's name, or non-empty description, mentions `retriev`, `search`, `vector` or `embed` in any case |
| Detection.ProvidersAmong | agentbom/detectors/langchain_py.py:480-496 | at most one provider per table row is reported |
| Detection.ProvidersAmongExactly | agentbom/detectors/langchain_py.py:480-496 | among the first `n` rows, a provider is reported exactly when its import pattern occurs |
| Detection.ProvidersAmongNames | agentbom/detectors/langchain_py.py:480-496 | only names from the table are reported |
| Detection.ProvidersExactly | agentbom/detectors/langchain_py.py:480-496 | with distinct provider names, a provider is reported exactly when its import pattern occurs in the content, and nothing outside the table is reported |
| Detection.DetectProviders | agentbom/detectors/langchain_py.py:480-496 | the loop over the provider table computes `ProvidersAmong` (see `Detection.ProvidersExactly`) |
| Annotations.AsWrittenAgreesOnPlainSlices | agentbom/detectors/base.py:229-293 | the code's rendering of a type annotation equals the full rendering wherever no subscript's slice has a `value` attribute: names, `List[str]`, `Dict[str, int]`, `X \| None`, dotted names, tuples |
| Annotations.NestedGenericLosesArguments | agentbom/detectors/base.py:250-258 | `List[Dict[str, int]]` is rendered `List[Dict]` by the code, and `List[Dict[str, int]]` by the full rendering |
| Annotations.DictOfPairRendered | agentbom/detectors/base.py:259-265 | `Dict[str, int]` is rendered with its two arguments joined by `, ` |
| Annotations.AttributeArgumentLosesAttribute | agentbom/detectors/base.py:250-258 | `Optional[pd.DataFrame]` is rendered `Optional[pd]` by the code, and `Optional[pd.DataFrame]` by the full rendering |
| Annotations.StringDefaultRoundTrip | agentbom/detectors/base.py:308-310 | a string default is printed as a literal between matching quotes (`'`, or `"` when the text holds `'` and no `"`) whose body reads back as exactly the default's text |
| Annotations.UnescapeEscapeAll | agentbom/detectors/base.py:308-310 | escaping a string literal's characters is undone by reading the escapes back, for either quote character |
| Annotations.StringValue | agentbom/detectors/base.py:115-121 | a text is returned exactly for a string constant, and it is that constant's text |
| Annotations.Truncated | agentbom/detectors/crewai.py:159-165 | a text is kept exactly when the node is a non-empty string constant; it is the constant's first `limit` characters, so it is non-empty and at most `limit` long |
| Annotations.ListItems | agentbom/detectors/base.py:124-133 | nodes other than a list or tuple give no items; a list or tuple gives one item per element that is a name or a call of a name |
| Annotations.NamedItems | agentbom/detectors/base.py:127-133 | one item per name or call of a name, and when every element is one, the items are their names in order |
| Signatures.PositionalParamRules | agentbom/detectors/base.py:151-173 | the last `len(defaults)` positional parameters carry the text of their own default and are optional, the others are required; the type is the annotation's, `Any` without one; a default means optional |
| Signatures.KeywordOnlyParamRules | agentbom/detectors/base.py:185-206 | a keyword-only parameter is required exactly when it has no default, and carries the text of its default when it has one |
| Signatures.SignatureParameters | agentbom/detectors/base.py:145-216 | for a function with distinct parameter names, the parameters dictionary holds exactly the parameters, in declaration order: each positional and keyword-only one under its name with its kind's information, `*args` and `**kwargs` under their starred names |
| Signatures.SignatureConsistent | agentbom/detectors/base.py:145-216 | every parameter the extraction produces that has a default is optional |
| Signatures.EntriesAt | agentbom/detectors/base.py:151-216 | the positional parameters come first, then `*args`, then the keyword-only ones, then `**kwargs`, each entry with its kind's information |
| Signatures.EntriesConsistent | agentbom/detectors/base.py:151-216 | every entry with a default is optional |
| Signatures.ConsistentConcat | agentbom/detectors/base.py:151-216 | the default-means-optional rule holds for a concatenation when it holds for both parts |
| Signatures.MergeParamRules | agentbom/detectors/base.py:367-382 | one documented parameter: a non-empty documented description wins; the documented type is used only where the code declared `Any`; a documented default replaces the default and makes the parameter optional; a parameter whose default means optional stays so |
| Signatures.DocsNamed | agentbom/detectors/base.py:367-368 | every selected documentation entry has the name asked for |
| Signatures.MergeParamsGet | agentbom/detectors/base.py:366-382 | merging adds no parameter and removes none, and each parameter becomes the documentation entries of its name, applied in order, to it |
| Signatures.MergeUnknownNames | agentbom/detectors/base.py:367-368 | documentation entries for names the function does not have change nothing |
| Signatures.MergeKeepsConsistent | agentbom/detectors/base.py:366-382 | merging keeps every parameter's default-means-optional rule |
| Signatures.MergeAllConsistent | agentbom/detectors/base.py:367-382 | applying any number of documentation entries keeps the rule for one parameter |
| Signatures.MergeReturnsRules | agentbom/detectors/base.py:384-391 | a declared return type is kept; a documented type is used only where the code says `Any`; a non-empty documented description wins |
| SignatureExtractor.PositionalInfo | agentbom/detectors/base.py:153-173 | computes the `i`-th positional parameter's information (see `Signatures.PositionalParamRules`) |
| SignatureExtractor.PositionalLoop | agentbom/detectors/base.py:151-173 | the loop over the positional parameters builds the dictionary of their entries |
| SignatureExtractor.KeywordOnlyInfo | agentbom/detectors/base.py:187-206 | computes the `i`-th keyword-only parameter's information (see `Signatures.KeywordOnlyParamRules`) |
| SignatureExtractor.KeywordOnlyLoop | agentbom/detectors/base.py:185-206 | the loop over the keyword-only parameters adds their entries, in order, to the given dictionary |
| SignatureExtractor.ExtractSignature | agentbom/detectors/base.py:136-226 | computes `SignatureOf` (see `Signatures.SignatureParameters`) |
| SignatureExtractor.MergeParsed | agentbom/detectors/base.py:363-397 | the merge of a parsed docstring computes `MergeWith` (see `Signatures.MergeParamsGet` and `Signatures.MergeReturnsRules`) |
| SignatureExtractor.MergeDocstringInfo | agentbom/detectors/base.py:348-397 | an absent or empty docstring leaves the signature unchanged; otherwise the parsed docstring is merged into it |
| Docstrings.OptionalAt | agentbom/utils/docstring_parser.py:131-133 | a match of `,?\s*optional` at the start of a text ends with the word "optional" in some letter case |
| Docstrings.StripOptional | agentbom/utils/docstring_parser.py:131-133 | removing the `optional` marks never lengthens the type hint |
| Docstrings.StripOptionalAbsent | agentbom/utils/docstring_parser.py:131-133 | a type hint that never mentions "optional" in any case comes through the substitution unchanged |
| Docstrings.OptionalWordLowered | agentbom/utils/docstring_parser.py:128-132 | A word the `optional` substitution removes mentions `optional` once lower-cased, so the substitution only touches hints the `"optional" in type_info.lower()` test accepts. |
| Docstrings.CleanType | agentbom/utils/docstring_parser.py:131-134 | the cleaned type hint has no white space at either end |
| Docstrings.CleanTypeOfPlainHint | agentbom/utils/docstring_parser.py:127-134 | a hint without "optional" is only stripped |
| Docstrings.DefaultIn | agentbom/utils/docstring_parser.py:137-141 | a default is found exactly when the default pattern occurs in the description |
| Docstrings.GoogleParamRules | agentbom/utils/docstring_parser.py:114-150 | a Google parameter line gives the parameter its name and its stripped description; it is optional exactly when its type hint mentions "optional" or the description announces a default; a kept type is the non-empty cleaned hint, and a hint that cleans to something non-empty is kept |
| Docstrings.UntilReturns | agentbom/utils/docstring_parser.py:109-112 | the lines read are a prefix of the Args lines, none of them a `Returns:` line, and the line after them, if any, is one |
| Docstrings.UntilReturnsIsPrefix | agentbom/utils/docstring_parser.py:109-112 | the lines read are exactly those before the first `Returns:` line |
| Docstrings.GoogleBases | agentbom/utils/docstring_parser.py:114-150 | one parameter per parameter line |
| Docstrings.GoogleBasesAt | agentbom/utils/docstring_parser.py:114-150 | the `j`-th parameter is the one the `j`-th parameter line documents |
| Docstrings.ExtendsContinued | agentbom/utils/docstring_parser.py:151-157 | continuation text only lengthens a description and changes nothing else |
| Docstrings.ArgsStepOther | agentbom/utils/docstring_parser.py:151-157 | a line that is not a parameter line keeps the finished parameters and the current one, possibly with a longer description |
| Docstrings.ArgsStepParam | agentbom/utils/docstring_parser.py:115-150 | a parameter line finishes the current parameter and starts its own |
| Docstrings.ArgsFoldExtends | agentbom/utils/docstring_parser.py:108-161 | after any lines, the fold holds one parameter per parameter line, each the parameter its line documents with its description extended, and has a current parameter exactly when some parameter line was read |
| Docstrings.StepParamShape | agentbom/utils/docstring_parser.py:115-150 | a parameter line keeps the fold's shape, with its own parameter as the newest |
| Docstrings.StepOtherShape | agentbom/utils/docstring_parser.py:151-157 | any other line keeps the fold's shape |
| Docstrings.AllExtendSnoc | agentbom/utils/docstring_parser.py:117-118 | appending an extended parameter keeps every parameter an extension of its line's |
| Docstrings.FlushExtends | agentbom/utils/docstring_parser.py:159-161 | the list the Args loop returns has one parameter per parameter line, in order, each extending its line's parameter |
| Docstrings.GoogleParamListMeaning | agentbom/utils/docstring_parser.py:98-161 | the Google parameters are one per parameter line before the first `Returns:` line, in order, each as its line documents it with continuation text appended |
| Docstrings.GoogleReturns | agentbom/utils/docstring_parser.py:163-178 | a Returns entry exists exactly when the Returns section is found; text not of the form `T: d` is all description, with type `Any` |
| Docstrings.NumpyParamRules | agentbom/utils/docstring_parser.py:213-243 | a NumPy parameter gets its name and stripped description; it is optional exactly when its type mentions "optional" or the description announces a default; a type without "optional" is kept as written, and an empty type is none |
| Docstrings.NumpyReturns | agentbom/utils/docstring_parser.py:245-265 | a Returns entry exists exactly when the Returns section is found, and its type is never empty (`Any` when the first line is blank) |
| Docstrings.NumpyParamsAt | agentbom/utils/docstring_parser.py:213-243 | one parameter per entry of the section, in order, each as its entry documents it |
| Docstrings.NamedTexts | agentbom/utils/docstring_parser.py:289-299 | one name-text pair per match |
| Docstrings.SphinxParamRules | agentbom/utils/docstring_parser.py:303-332 | a Sphinx parameter keeps its name and its description (empty when it has none); it has a default only when its non-empty description announces one; it is optional exactly when its type mentions "optional" or it has a default; it has a type exactly when a `:type` entry exists |
| Docstrings.Missing | agentbom/utils/docstring_parser.py:302 | the names of the second list that are not in the first |
| Docstrings.SphinxReturns | agentbom/utils/docstring_parser.py:334-352 | a return entry's type is never empty (`Any` without `:rtype:`) |
| Docstrings.Names | agentbom/utils/docstring_parser.py:303 | the parameters' names, in order |
| Docstrings.SphinxParamsOfAt | agentbom/utils/docstring_parser.py:303-332 | the loop makes one parameter per name, the `j`-th from the `j`-th name's description and type |
| Docstrings.MissingDistinct | agentbom/utils/docstring_parser.py:302 | the added names are distinct when the second list is |
| Docstrings.SphinxParamListMeaning | agentbom/utils/docstring_parser.py:284-332 | the Sphinx parameters are one per name that has a `:param` or `:type` entry, each name once, each built from the text of the last `:param` entry and the last `:type` entry of its name |
| Docstrings.NameUnionExact | agentbom/utils/docstring_parser.py:302 | the set of names holds each name of either dictionary exactly once, and nothing else |
| Docstrings.SphinxParamsOfNames | agentbom/utils/docstring_parser.py:303-332 | the parameters come in the order of the names, one each |
| Docstrings.SphinxParamsNonEmpty | agentbom/utils/docstring_parser.py:284-332 | the Sphinx parser finds parameters exactly when some `:param` or `:type` entry exists |
| Docstrings.CleanedShape | agentbom/utils/docstring_parser.py:390-393 | dropping the blank lines leaves nothing exactly when every line is blank, and every line kept is stripped and non-empty |
| Docstrings.CleanedEmpty | agentbom/utils/docstring_parser.py:392-393 | nothing is left exactly when every line is blank |
| Docstrings.CleanedTidy | agentbom/utils/docstring_parser.py:392-393 | every kept line is non-empty, stripped and holds no line break |
| Docstrings.JoinTidy | agentbom/utils/docstring_parser.py:393 | joining stripped non-empty lines with single spaces gives a stripped non-empty text without line breaks |
| Docstrings.ExtractDescription | agentbom/utils/docstring_parser.py:357-395 | there is no description exactly when every line before the first section is blank; a description is non-empty, stripped and on one line |
| DocstringParser.ReadArgLine | agentbom/utils/docstring_parser.py:114-157 | one line's step of the Args loop computes `ArgsStep` (see `Docstrings.ArgsStepParam`, `Docstrings.ArgsStepOther`) |
| DocstringParser.ParseArgLines | agentbom/utils/docstring_parser.py:108-161 | the Args loop, stopping at the first `Returns:` line, computes the flushed fold (see `Docstrings.FlushExtends`) |
| DocstringParser.ParseGoogle | agentbom/utils/docstring_parser.py:76-180 | the Google parser returns the description before the first section, the parameters `Docstrings.GoogleParamListMeaning` describes, and `GoogleReturns` |
| DocstringParser.NumpyParamLoop | agentbom/utils/docstring_parser.py:213-243 | the loop over the entries computes `NumpyParams` (see `Docstrings.NumpyParamsAt`) |
| DocstringParser.ParseNumpy | agentbom/utils/docstring_parser.py:183-267 | the NumPy parser returns no description, one parameter per entry, and `NumpyReturns` |
| DocstringParser.CollectTexts | agentbom/utils/docstring_parser.py:288-299 | a dictionary-building loop computes the dictionary of its name-text pairs, a later match of a name replacing the earlier text |
| DocstringParser.SphinxParamLoop | agentbom/utils/docstring_parser.py:303-332 | the loop over the names computes `SphinxParamsOf` (see `Docstrings.SphinxParamsOfNames`) |
| DocstringParser.ParseSphinx | agentbom/utils/docstring_parser.py:270-354 | the Sphinx parser returns no description, the parameters `Docstrings.SphinxParamListMeaning` describes, and `SphinxReturns` |
| DocstringParser.Parse | agentbom/utils/docstring_parser.py:36-73 | an empty docstring gives no information; otherwise Google's parameters and returns are used when it has parameter lines, else NumPy's when it finds parameters, else Sphinx's, else Google's (empty); the description is Google's when Google was chosen and gave a non-empty one, else the free-text description |
| Schemas.MapType | agentbom/detectors/schema_extractors.py:90 | a type missing from the table is kept as written |
| Schemas.TypeTablesRename | agentbom/detectors/schema_extractors.py:78-90 | the three type tables rename only `string` to `str` and `boolean` to `bool`, and, for TypeScript, `Array` to `array`; every other type is kept |
| Schemas.FieldEntries | agentbom/detectors/schema_extractors.py:71-130 | one entry per field match, in order, under the field's name and with that field's information |
| Schemas.ExtractParamsMeaning | agentbom/detectors/schema_extractors.py:63-249 | a field is in the extracted parameters exactly when some field match names it, and its information is that of the last match of that name |
| Schemas.ZodFieldRules | agentbom/detectors/schema_extractors.py:108-128 | a Zod field is required exactly when its modifiers do not contain `.optional()`; a quoted `.describe(...)` gives its description |
| Schemas.YupFieldRules | agentbom/detectors/schema_extractors.py:231-245 | a Yup field is required exactly when its modifiers contain neither `.optional()` nor `.notRequired()`; it has a description exactly when a `.label(...)` is found; its type is the table's renaming |
| Schemas.ZodTypeCases | agentbom/detectors/schema_extractors.py:90-106 | a Zod literal or enum with arguments is `literal<args>` or `enum<args>`; an array with arguments is `array<object>` when they contain `z.object`, else `array<str>` or `array`; any other type is the table's renaming |
| Schemas.TsOptionalMarker | agentbom/detectors/schema_extractors.py:157-158 | a TypeScript field is optional exactly when a `?` comes before its colon |
| Schemas.TsTypeCases | agentbom/detectors/schema_extractors.py:170-181 | a TypeScript type quoted with `'` is a literal, an unquoted union an enum, `T[]` is `array<T renamed>`, anything else the table's renaming |
| Schemas.Chosen | agentbom/detectors/schema_extractors.py:263-278 | no extractor is chosen exactly when none of them accepts the content |
| Schemas.ChosenIsFirst | agentbom/detectors/schema_extractors.py:272-275 | the chosen extractor accepts the content and every extractor before it refuses it |
| Schemas.RegisterPriority | agentbom/detectors/schema_extractors.py:280-287 | a registered extractor that accepts the content is chosen before every older one; one that refuses it changes nothing |
| Schemas.DefaultOrder | agentbom/detectors/schema_extractors.py:255-261 | with the default extractors, Zod wins when it accepts, then Yup, then the TypeScript interface extractor, else none |
| SchemaRegistry.ExtractFields | agentbom/detectors/schema_extractors.py:63-249 | the field loop computes `ExtractParams` (see `Schemas.ExtractParamsMeaning`) |
| SchemaRegistry.Extract | agentbom/detectors/schema_extractors.py:27-37 | a built-in extractor gives the parameters of its dialect; a registered one gives what its own extraction returns |
| SchemaRegistry.SchemaExtractorFactory.constructor | agentbom/detectors/schema_extractors.py:255-261 | a new factory holds Zod, Yup and the TypeScript interface extractor, in that order |
| SchemaRegistry.SchemaExtractorFactory.GetExtractor | agentbom/detectors/schema_extractors.py:263-278 | returns the first registered extractor that accepts the content, and none exactly when none accepts it |
| SchemaRegistry.SchemaExtractorFactory.RegisterExtractor | agentbom/detectors/schema_extractors.py:280-287 | the new extractor is put before all the others, which keep their order |
| LangChainPy.PydanticFields | agentbom/detectors/langchain_py.py:341-398 | the extracted model fields never hold a field name twice |
| LangChainPy.FieldKeywordsRule | agentbom/detectors/langchain_py.py:370-376 | a `Field(...)` initialiser makes the field optional exactly when it has `default=` or `default_factory=`, and then it has a default |
| LangChainPy.FieldRequiredRule | agentbom/detectors/langchain_py.py:360-392 | a model field is optional exactly when its type mentions `Optional` or `\| None`, or it has a plain initialiser or a `Field` with a default; it has a default exactly in the last two cases; it has no description |
| LangChainPy.ModelFieldsValid | agentbom/detectors/langchain_py.py:346-394 | the fields of all model classes of that name together hold no name twice |
| LangChainPy.BodyFieldsValid | agentbom/detectors/langchain_py.py:357-394 | adding a class body's fields keeps every name once |
| LangChainPy.BodyFieldsDeclared | agentbom/detectors/langchain_py.py:357-359 | a field after a class body is one of the body's annotated names, or was there before |
| LangChainPy.FieldsAreDeclared | agentbom/detectors/langchain_py.py:346-359 | every extracted field is annotated in some model class of that name |
| LangChainPy.ClassToolIn | agentbom/detectors/langchain_py.py:506-551 | a tool found from a class has a non-empty name, the file's path, and no returns |
| LangChainPy.ToolFromClass | agentbom/detectors/langchain_py.py:498-551 | a tool found from a class has a non-empty name and the file's path; a file that does not parse gives none |
| LangChainPy.ToolClassIsFirst | agentbom/detectors/langchain_py.py:508-547 | the tool is that of the first class of that name, with a base mentioning `Tool`, whose body sets a non-empty name; none is found exactly when there is no such class |
| LangChainPy.TargetsAttrsName | agentbom/detectors/langchain_py.py:524-530 | an assignment's targets change the tool's name only to the string assigned, and only through a `name` target |
| LangChainPy.ClassNameIsAssigned | agentbom/detectors/langchain_py.py:522-547 | a tool class's name is empty or the text of one of its `name = "..."` attributes |
| LangChainPy.Candidates | agentbom/detectors/langchain_py.py:623-626 | a resolved module file exists; resolution fails for the root path |
| LangChainPy.LeadingDots | agentbom/detectors/langchain_py.py:601-607 | the count of the dots a module path starts with: all of those characters are dots and the next one is not |
| LangChainPy.Ancestor | agentbom/detectors/langchain_py.py:612-615 | going up `k` directories shortens the path by `k`, down to the root |
| LangChainPy.LeadingDotsOf | agentbom/detectors/langchain_py.py:601-610 | a module path of `k` dots and a name has `k` leading dots, and removing them leaves the name |
| LangChainPy.RelativeTargetOf | agentbom/detectors/langchain_py.py:600-621 | `k` leading dots name the directory `k - 1` levels up, then the module's parts below it |
| LangChainPy.RelativeResolution | agentbom/detectors/langchain_py.py:597-626 | a relative import with `k` dots tries `<target>.py`, then `<target>/__init__.py`, where the target is `k - 1` directories above the importing file's, followed by the module's parts |
| LangChainPy.SearchUpFirst | agentbom/detectors/langchain_py.py:633-646 | a search that resolves stops at a directory it searched, the nearest one with a candidate |
| LangChainPy.AbsoluteResolution | agentbom/detectors/langchain_py.py:628-646 | an absolute import resolves to the candidate of the nearest of at most five directories searched upward that has one |
| LangChainPy.ToolClassFromImport | agentbom/detectors/langchain_py.py:553-588 | a tool found through an import has a non-empty name |
| LangChainPy.AliasToolsNamed | agentbom/detectors/langchain_py.py:568-582 | a tool found among an import's names has a non-empty name |
| LangChainPy.ToolsFromImportsNamed | agentbom/detectors/langchain_py.py:564-582 | a tool found through any import of the walk has a non-empty name |
| LangChainPy.RelativeImportAsWritten | agentbom/detectors/langchain_py.py:566-574 | as written, `from ..name import X` in `/pkg/sub/file` is resolved as the absolute module `name`, finding `/pkg/sub/name.py` and not the intended `/pkg/name.py` |
| LangChainPy.NearestModuleFile | agentbom/detectors/langchain_py.py:629-642 | an absolute import of a plain module name finds `<dir>/<name>.py` first when it exists |
| LangChainPy.ModuleFile | agentbom/detectors/langchain_py.py:623-626 | an existing `<dir>/<name>.py` is what trying `<dir>/<name>` gives |
| LangChainPy.RelativeImportCorrected | agentbom/detectors/langchain_py.py:553-626 | with the leading dots restored from the import's level, `from <k dots><m> import ...` is looked up `k - 1` directories above the importing file's directory, then down the parts of `m` |
| LangChainPy.FirstFunction | agentbom/detectors/langchain_py.py:404-405 | a function found is a definition of that name |
| LangChainPy.CallFieldOf | agentbom/detectors/langchain_py.py:286-301 | a keyword is read as the name, description, schema or function only for its own argument name, and the schema only for `StructuredTool` |
| LangChainPy.CallToolName | agentbom/detectors/langchain_py.py:282-290 | a constructed tool is called `unknown` unless a `name=` keyword gives it a non-empty string name |
| LangChainPy.ToolFromCall | agentbom/detectors/langchain_py.py:273-339 | a call gives a tool exactly when the callee is a plain name |
| LangChainPy.CustomClassFallback | agentbom/detectors/langchain_py.py:325-339 | a call of a custom tool class is never dropped: it gives a tool with a non-empty name |
| LangChainPy.ConstructedTool | agentbom/detectors/langchain_py.py:250-269 | the text-level reading gives a tool exactly when `<name> = Tool(` or `StructuredTool(` occurs; it has an empty path and no parameters |
| LangChainPy.ToolDefinition | agentbom/detectors/langchain_py.py:186-271 | a name with no tool definition in the file has no `<name> = Tool(...)` text either |
| LangChainPy.AssignToolsStep | agentbom/detectors/langchain_py.py:150-165 | one more target adds the tools of the value exactly when it is the variable and the value is a list or tuple |
| LangChainPy.ItemToolsResolved | agentbom/detectors/langchain_py.py:171-182 | one tool per list item that resolves, each the tool of some item; an item that resolves to nothing is dropped |
| LangChainPy.NothingResolves | agentbom/detectors/langchain_py.py:171-182 | a list none of whose items resolves gives no tools |
| LangChainPy.ItemResolution | agentbom/detectors/langchain_py.py:174-179 | a call item with a plain class name always resolves; a bare name that resolves to nothing has no `<name> = Tool(...)` text in the file |
| LangChainPy.AgentFieldOf | agentbom/detectors/langchain_py.py:102-116 | a keyword counts as the tools, the agent or the agent name exactly for its own argument name, and `agent=` only for `initialize_agent` |
| LangChainPy.FirstNamed | agentbom/detectors/langchain_py.py:128-131 | a name found is the id of a name target |
| LangChainPy.AgentInfoOf | agentbom/detectors/langchain_py.py:80-136 | agent information is reported only for an agent construction and only with tools |
| LangChainPy.ReActRule | agentbom/detectors/langchain_py.py:107-111 | the architecture is ReAct exactly when `initialize_agent` is given `agent=<...>.ZERO_SHOT_REACT_DESCRIPTION`, otherwise Other |
| LangChainPy.ToolsRule | agentbom/detectors/langchain_py.py:102-106 | the tools are those of the last `tools=` keyword, and none without one |
| LangChainPy.AgentInfoRules | agentbom/detectors/langchain_py.py:80-136 | an agent is reported only for `initialize_agent`, `AgentExecutor` or `from_agent_and_tools`, only with tools from a `tools=` keyword, and with the architecture its `agent=` keyword gives |
| LangChainPy.ProvidersReported | agentbom/detectors/langchain_py.py:480-496 | a provider package is reported exactly when its import occurs in the content, and nothing else is reported |
| LangChainPy.AgentResult | agentbom/detectors/langchain_py.py:50-76 | past the gates the result is found, in Python, with LangChain as its first framework, for the file, and never multi-agent |
| LangChainPy.FirstAgentRules | agentbom/detectors/langchain_py.py:58-76 | the agent taken from the walk has tools and is not multi-agent |
| LangChainPy.FirstAgentIsFirst | agentbom/detectors/langchain_py.py:58-76 | the agent reported is that of the first call in the walk that constructs an agent with tools; none exactly when no call does |
| LangChainPy.AgentTypeRule | agentbom/detectors/langchain_py.py:57-76 | with no agent the result keeps its defaults; with one, it has the agent's tools, is a SQL agent exactly when SQL indicators or tools are present, a retrieval agent exactly when those are not and retrieval ones are, and its frameworks are LangChain then the providers |
| LangChainPy.DetectGates | agentbom/detectors/langchain_py.py:33-78 | a result is returned exactly when a presence signature and a construction signature are found and the file parses; the file raising makes the detector raise; a result is found, in Python, with LangChain first |
| LangChainPyDetector.HasModelBase | agentbom/detectors/langchain_py.py:349-353 | true exactly when some base is a name or attribute mentioning `Model` |
| LangChainPyDetector.FieldCallDefault | agentbom/detectors/langchain_py.py:370-376 | the keyword loop of `Field(...)` computes `FieldKeywords` (see `LangChainPy.FieldKeywordsRule`) |
| LangChainPyDetector.FieldInfo | agentbom/detectors/langchain_py.py:359-392 | computes one field's information (see `LangChainPy.FieldRequiredRule`) |
| LangChainPyDetector.AddModelFields | agentbom/detectors/langchain_py.py:357-394 | the loop over a model class body computes `ModelFields` (see `LangChainPy.BodyFieldsDeclared`) |
| LangChainPyDetector.ExtractPydanticModelFields | agentbom/detectors/langchain_py.py:341-398 | computes `PydanticFields` (see `LangChainPy.FieldsAreDeclared`) |
| LangChainPyDetector.HasToolBase | agentbom/detectors/langchain_py.py:511-515 | true exactly when some base is a name or attribute mentioning `Tool` |
| LangChainPyDetector.AssignAttrs | agentbom/detectors/langchain_py.py:524-534 | the target loop of one class-body assignment computes `TargetsAttrs` (see `LangChainPy.TargetsAttrsName`) |
| LangChainPyDetector.ClassAttributes | agentbom/detectors/langchain_py.py:522-540 | the loop over a tool class body computes `ClassAttrsOf` (see `LangChainPy.ClassNameIsAssigned`) |
| LangChainPyDetector.ExtractToolFromClass | agentbom/detectors/langchain_py.py:498-551 | computes `ToolFromClass` (see `LangChainPy.ToolClassIsFirst`) |
| LangChainPyDetector.TryCandidates | agentbom/detectors/langchain_py.py:623-626 | the candidate loop computes `Candidates` |
| LangChainPyDetector.JoinParts | agentbom/detectors/langchain_py.py:619-621 | the loop over the parts descends through them in order |
| LangChainPyDetector.RelativeDirectory | agentbom/detectors/langchain_py.py:601-621 | the dot count, the loop up and the loop down compute `RelativeTarget` (see `LangChainPy.RelativeTargetOf`) |
| LangChainPyDetector.SearchFrom | agentbom/detectors/langchain_py.py:633-646 | the upward search loop, which stops at the root, computes `SearchUp` over five levels (see `LangChainPy.SearchUpFirst`) |
| LangChainPyDetector.SearchAbsolute | agentbom/detectors/langchain_py.py:629-646 | computes `ResolveAbsolute` |
| LangChainPyDetector.ResolvePythonImport | agentbom/detectors/langchain_py.py:590-648 | computes `ResolveImport` (see `LangChainPy.RelativeResolution` and `LangChainPy.AbsoluteResolution`) |
| LangChainPyDetector.AliasesLookup | agentbom/detectors/langchain_py.py:568-584 | the loop over one import's names computes `AliasLookup` |
| LangChainPyDetector.FindToolClassFromImport | agentbom/detectors/langchain_py.py:553-588 | the loop over the imports computes `ToolClassFromImport`, on the corrected module text (see `LangChainPy.RelativeImportCorrected`) |
| LangChainPyDetector.ExtractFunctionInfo | agentbom/detectors/langchain_py.py:400-416 | computes `FunctionInfo`: the merged signature of the first function of that name |
| LangChainPyDetector.AddLambdaParams | agentbom/detectors/langchain_py.py:305-311 | the loop over a lambda's parameters computes `LambdaParams`: each a required parameter of type `Any` |
| LangChainPyDetector.CallKeyword | agentbom/detectors/langchain_py.py:286-319 | one keyword of `Tool(...)` or `StructuredTool(...)` computes `CallStep` for the part `CallFieldOf` gives it |
| LangChainPyDetector.ExtractToolFromCall | agentbom/detectors/langchain_py.py:273-339 | computes `ToolFromCall` (see `LangChainPy.CallToolName` and `LangChainPy.CustomClassFallback`) |
| LangChainPyDetector.FindAssignedTool | agentbom/detectors/langchain_py.py:189-201 | the first pass's loops compute `AssignedTool`: the first assignment of the name to a call that gives a tool |
| LangChainPyDetector.FindToolDefinition | agentbom/detectors/langchain_py.py:186-271 | computes `ToolDefinition` (see `LangChainPy.ToolDefinition`) |
| LangChainPyDetector.ItemToolOf | agentbom/detectors/langchain_py.py:174-179 | one list item computes `ItemTool` (see `LangChainPy.ItemResolution`) |
| LangChainPyDetector.AppendItemTools | agentbom/detectors/langchain_py.py:171-182 | the item loop appends `ItemTools` (see `LangChainPy.ItemToolsResolved`) |
| LangChainPyDetector.AssignedToolLists | agentbom/detectors/langchain_py.py:152-165 | the target loop appends `AssignTools` (see `LangChainPy.AssignToolsStep`) |
| LangChainPyDetector.ExtractToolsFromNode | agentbom/detectors/langchain_py.py:138-184 | computes `ToolsFromNode`: a variable's list assignments, or a literal list's items |
| LangChainPyDetector.InfoKeyword | agentbom/detectors/langchain_py.py:102-116 | one keyword computes `InfoStep` for the part `AgentFieldOf` gives it |
| LangChainPyDetector.AssignmentName | agentbom/detectors/langchain_py.py:120-134 | the re-parse computes `AssignedName` |
| LangChainPyDetector.ExtractAgentInfo | agentbom/detectors/langchain_py.py:80-136 | computes `AgentInfoOf` (see `LangChainPy.AgentInfoRules`) |
| LangChainPyDetector.HasSql | agentbom/detectors/langchain_py.py:431-449 | true exactly when a SQL indicator occurs in the content or some tool is a SQL tool (see `Detection.AnySqlTool`) |
| LangChainPyDetector.HasRetrieval | agentbom/detectors/langchain_py.py:451-478 | true exactly when a retrieval indicator occurs in the content or some tool is a retrieval tool (see `Detection.AnyRetrievalTool`) |
| LangChainPyDetector.DetectProviderFrameworks | agentbom/detectors/langchain_py.py:480-496 | computes `Providers` (see `LangChainPy.ProvidersReported`) |
| LangChainPyDetector.FindAgent | agentbom/detectors/langchain_py.py:58-76 | the walk loop that stops at the first agent computes `FirstAgent` (see `LangChainPy.FirstAgentIsFirst`) |
| LangChainPyDetector.BuildResult | agentbom/detectors/langchain_py.py:50-76 | computes `AgentResult` (see `LangChainPy.AgentTypeRule`) |
| LangChainPyDetector.Detect | agentbom/detectors/langchain_py.py:33-78 | computes `LangChainPy.Detect` (see `LangChainPy.DetectGates`) |
| LangChainTs.NameOr | agentbom/detectors/langchain_ts.py:540-543 | Without a `name: '...'` field the given default name is kept. |
| LangChainTs.Window | agentbom/detectors/langchain_ts.py:314 | The 2000-character chunk is at most that long and, when the start lies inside the text, is the slice of the text starting there. |
| LangChainTs.SchemaParamsRules | agentbom/detectors/langchain_ts.py:370-391 | When no registered extractor accepts the file there are no parameters; with the built-in extractor list and a file the Zod extractor accepts, the parameters are the Zod extractor's reading of the schema body. |
| LangChainTs.LocalToolDefinition | agentbom/detectors/langchain_ts.py:304-368 | A local definition is found exactly when the file has `const name = tool(` or `const name = new DynamicStructuredTool({`; a local tool records no file path. |
| LangChainTs.TryExtensions | agentbom/detectors/langchain_ts.py:519-531 | A candidate path is returned only if it exists. |
| LangChainTs.ResolveImportPath | agentbom/detectors/langchain_ts.py:507-533 | A resolved import always names an existing path. |
| LangChainTs.ResolveImportOrder | agentbom/detectors/langchain_ts.py:507-533 | A non-relative (package) import never resolves; a relative one is taken from the importing file's directory and becomes the first existing one of `<p>.ts`, `<p>.tsx`, `<p>.js`, `<p>.jsx`, the file `<p>` itself and `<p>/index.ts`. |
| LangChainTs.WalkPlain | agentbom/detectors/langchain_ts.py:516 | Joining import components that are plain names descends from the directory by exactly those names. |
| LangChainTs.ParseToolRules | agentbom/detectors/langchain_ts.py:535-583 | A tool file gives a tool only through a non-empty `name:` field, which is the tool's name; the tool records the file it came from; a backtick description, stripped, wins over a quoted one. |
| LangChainTs.SegmentNames | agentbom/detectors/langchain_ts.py:214-218 | The names taken from the tools list are non-empty, already stripped, and no more than the comma-separated segments. |
| LangChainTs.ExtractToolsRules | agentbom/detectors/langchain_ts.py:209-233 | One tool per non-empty segment, in order: a local definition, else the tool its factory import leads to, else a bare tool under the segment's own name, so no segment is dropped. |
| LangChainTs.ConstructorRules | agentbom/detectors/langchain_ts.py:154-178 | An inline `tools: [...]` list wins over a `tools: v` reference; a constructor with neither has no tools. |
| LangChainTs.FactoryImplRules | agentbom/detectors/langchain_ts.py:256-302 | Without a factory body the tool is the bare factory name; a body that builds a `tool(` or a `DynamicStructuredTool` names the tool by its `name:` field (else the factory name) and takes its `description:` field, only a `tool(` body reads a Zod schema, and any other body gives the bare factory name; a factory tool records no file path. |
| LangChainTs.FactoryPrecedence | agentbom/detectors/langchain_ts.py:235-254 | A tool file reached through the factory's import wins; otherwise a local `export function` factory is read; otherwise the tool is the bare factory name, so a factory always gives a tool. |
| LangChainTs.FactoryCallTool | agentbom/detectors/langchain_ts.py:193-205 | A tool built by a factory call is named after the variable it is assigned to, else after the factory. |
| LangChainTs.FactoryCallTools | agentbom/detectors/langchain_ts.py:193-205 | One tool per factory call, in order, each with the assigned variable's name. |
| LangChainTs.AgentInfoOf | agentbom/detectors/langchain_ts.py:109-152 | An agent is reported only with at least one tool. |
| LangChainTs.AgentPrecedence | agentbom/detectors/langchain_ts.py:109-152 | `new AgentExecutor({...})` is looked for first, then `createReactAgent({...})`, then a `create*Agent(` factory; the first shape found decides the agent's name and where its tools come from, and there is no agent when that shape has no tools. |
| LangChainTs.SqlIndicatedIgnoresCase | agentbom/detectors/langchain_ts.py:420-422 | The SQL indicator test is a substring test of the lower-cased indicator in the lower-cased content (`str.lower`, including the Kelvin sign and the dotted capital I). |
| LangChainTs.ProvidersReported | agentbom/detectors/langchain_ts.py:585-603 | A provider package is reported exactly when its import pattern occurs, and only known providers are reported. |
| LangChainTs.AgentResult | agentbom/detectors/langchain_ts.py:65-89 | A detected TypeScript file reports LangChain as its first framework, the file as constructor file, and the architecture "other". |
| LangChainTs.DetectGates | agentbom/detectors/langchain_ts.py:51-89 | A result exactly when a presence signature, a tool import and a construction signature all match; the agent found gives the name and the tools, and the type is SQL exactly when the SQL test holds and retrieval exactly when only the retrieval test holds. |
| LangChainTsDetector.LangChainTypeScriptDetector.constructor | agentbom/detectors/langchain_ts.py:17-24 | A new detector owns a fresh schema-extractor registry holding the built-in extractors. |
| LangChainTsDetector.LangChainTypeScriptDetector.ExtractSchemaParams | agentbom/detectors/langchain_ts.py:370-391 | Computes the schema parameters of the specification, an extractor failure giving none. |
| LangChainTsDetector.LangChainTypeScriptDetector.ExtractZodSchemaParams | agentbom/detectors/langchain_ts.py:393-407 | Reads a schema body as a Zod schema, through the registry. |
| LangChainTsDetector.LangChainTypeScriptDetector.SchemaFound | agentbom/detectors/langchain_ts.py:330-335 | Reads the schema a pattern finds, as the specification does. |
| LangChainTsDetector.LangChainTypeScriptDetector.FindToolDefinition | agentbom/detectors/langchain_ts.py:304-368 | Computes `LangChainTs.LocalToolDefinition`. |
| LangChainTsDetector.LangChainTypeScriptDetector.ResolveImportPath | agentbom/detectors/langchain_ts.py:507-533 | Its loop over the extensions computes `LangChainTs.ResolveImportPath`. |
| LangChainTsDetector.LangChainTypeScriptDetector.ParseToolFromFile | agentbom/detectors/langchain_ts.py:535-583 | Computes `LangChainTs.ParseToolFromFile`. |
| LangChainTsDetector.LangChainTypeScriptDetector.LoadToolFromImport | agentbom/detectors/langchain_ts.py:482-505 | Computes `LangChainTs.LoadToolFromImport`: an unresolved or unreadable import gives no tool. |
| LangChainTsDetector.LangChainTypeScriptDetector.FindToolFromImport | agentbom/detectors/langchain_ts.py:460-480 | Computes the tool a variable's import leads to. |
| LangChainTsDetector.LangChainTypeScriptDetector.ToolOfSegment | agentbom/detectors/langchain_ts.py:219-231 | One tools-list segment gives the specification's tool. |
| LangChainTsDetector.LangChainTypeScriptDetector.SegmentLoop | agentbom/detectors/langchain_ts.py:216-231 | The loop over the segments collects exactly `LangChainTs.SegmentTools`. |
| LangChainTsDetector.LangChainTypeScriptDetector.ExtractTools | agentbom/detectors/langchain_ts.py:209-233 | Computes `LangChainTs.ExtractTools`. |
| LangChainTsDetector.LangChainTypeScriptDetector.ExtractToolsFromConstructor | agentbom/detectors/langchain_ts.py:154-178 | Computes `LangChainTs.ConstructorTools`. |
| LangChainTsDetector.LangChainTypeScriptDetector.ExtractToolFromFactoryImpl | agentbom/detectors/langchain_ts.py:256-302 | Computes `LangChainTs.FactoryImpl`. |
| LangChainTsDetector.LangChainTypeScriptDetector.FindToolFactoryDefinition | agentbom/detectors/langchain_ts.py:235-254 | Computes `LangChainTs.FactoryDefinition`. |
| LangChainTsDetector.LangChainTypeScriptDetector.FactoryCallToolOf | agentbom/detectors/langchain_ts.py:196-204 | One factory call gives the specification's tool. |
| LangChainTsDetector.LangChainTypeScriptDetector.FactoryCallLoop | agentbom/detectors/langchain_ts.py:193-205 | The loop over the factory calls collects exactly `LangChainTs.FactoryCallTools`. |
| LangChainTsDetector.LangChainTypeScriptDetector.ExtractToolsFromFactory | agentbom/detectors/langchain_ts.py:180-207 | Computes `LangChainTs.FactoryTools`. |
| LangChainTsDetector.LangChainTypeScriptDetector.ExtractAgentInfo | agentbom/detectors/langchain_ts.py:109-152 | Computes `LangChainTs.AgentInfoOf`. |
| LangChainTsDetector.LangChainTypeScriptDetector.HasToolImports | agentbom/detectors/langchain_ts.py:91-107 | Holds exactly when one of the tool-import patterns matches. |
| LangChainTsDetector.LangChainTypeScriptDetector.HasSqlTools | agentbom/detectors/langchain_ts.py:409-428 | Holds exactly when `LangChainTs.HasSqlTools` does: some indicator occurs in the content once both are lower-cased, or some tool is a SQL tool. |
| LangChainTsDetector.LangChainTypeScriptDetector.IndicatorIn | agentbom/detectors/langchain_ts.py:421 | One indicator is found exactly when its lower-cased text occurs in the lower-cased content. |
| LangChainTsDetector.LangChainTypeScriptDetector.AnyIndicated | agentbom/detectors/langchain_ts.py:420-422 | The loop that stops at the first indicator found reports one exactly when some indicator of the list is found. |
| Strs.KelvinSignLowersToK | agentbom/detectors/langchain_ts.py:421 | `str.lower` maps the Kelvin sign to `k` wherever it stands, so `SqlToolKit` written with it reads `sqltoolkit` once lower-cased. |
| LangChainTsDetector.LangChainTypeScriptDetector.HasRetrievalTools | agentbom/detectors/langchain_ts.py:430-458 | Holds exactly when `LangChainTs.HasRetrievalTools` does. |
| LangChainTsDetector.LangChainTypeScriptDetector.DetectProviderFrameworks | agentbom/detectors/langchain_ts.py:585-603 | Computes `LangChainTs.Providers`. |
| LangChainTsDetector.LangChainTypeScriptDetector.BuildResult | agentbom/detectors/langchain_ts.py:65-89 | Computes `LangChainTs.AgentResult`. |
| LangChainTsDetector.LangChainTypeScriptDetector.Detect | agentbom/detectors/langchain_ts.py:51-89 | Computes `LangChainTs.Detect`. |
| CrewAI.ToolDefinition | agentbom/detectors/crewai.py:236-285 | A tool is found only when an `@tool`-decorated `def name(...)` occurs in the text, and it is named after the variable and records no file path. |
| CrewAI.ToolParametersAreFunctionParameters | agentbom/detectors/crewai.py:246-272 | When the text matches and the parse has an `@tool` function of that name (with distinct parameter names), the tool's parameters are exactly that function's parameters, in their order, and it reports a return value. |
| CrewAI.ItemTool | agentbom/detectors/crewai.py:211-232 | Each list item the tool reader handles gives a tool under the item's own name (the variable, or the called function). |
| CrewAI.ItemToolsNamed | agentbom/detectors/crewai.py:210-234 | One tool per name or named call in the items, in their order and under the item's name. |
| CrewAI.ToolsFromNodeNamed | agentbom/detectors/crewai.py:206-234 | Nothing is dropped: a list or tuple gives one tool per name or named call, in order, and anything else gives no tools. |
| CrewAI.FieldOf | agentbom/detectors/crewai.py:153-202 | A keyword is recognised only by its exact argument name. |
| CrewAI.AgentWellFormed | agentbom/detectors/crewai.py:149-181 | Every agent's recorded role is non-empty, every goal and backstory non-empty and at most 200 characters, a tool list is recorded only when not empty, and the agent keeps the variable it was assigned to. |
| CrewAI.AgentStepWellFormed | agentbom/detectors/crewai.py:153-179 | Reading one more keyword of `Agent(...)` keeps those bounds. |
| CrewAI.TaskWellFormed | agentbom/detectors/crewai.py:183-204 | Every task's description and expected output are non-empty and at most 200 characters, and a tool list is recorded only when not empty. |
| CrewAI.TaskStepWellFormed | agentbom/detectors/crewai.py:187-202 | Reading one more keyword of `Task(...)` keeps those bounds. |
| CrewAI.TruncatedFromPrefix | agentbom/detectors/crewai.py:153-181 | A text taken from one of the first keywords is still taken from a keyword once more keywords follow. |
| CrewAI.AgentTextsFromKeywords | agentbom/detectors/crewai.py:158-165 | Every goal and backstory is the 200-character truncation of the string value of a keyword of that name: nothing is invented. |
| CrewAI.TaskTextsFromKeywords | agentbom/detectors/crewai.py:188-198 | Every description and expected output is the 200-character truncation of the string value of a keyword of that name. |
| CrewAI.AgentTargetsKeyed | agentbom/detectors/crewai.py:92-100 | Storing an agent under each name target keeps every agent under its own variable. |
| CrewAI.TaskTargetsKeyed | agentbom/detectors/crewai.py:103-111 | Storing a task under each name target keeps every task under its own variable. |
| CrewAI.ScanKeyed | agentbom/detectors/crewai.py:84-130 | After the first pass every agent and every task is stored under the variable it was assigned to. |
| CrewAI.CrewToolsOfAgents | agentbom/detectors/crewai.py:133-141 | A tool is among the crew's tools exactly when one of the crew's agents lists it. |
| CrewAI.CrewToolsCount | agentbom/detectors/crewai.py:133-141 | The crew's tools number exactly the tools of its agents together. |
| CrewAI.InfoOf | agentbom/detectors/crewai.py:132-147 | There is no crew information exactly when none of the names in the crew's agent lists was assigned by `Agent(...)`. |
| CrewAI.MembersInCrewOrder | agentbom/detectors/crewai.py:70-147 | The crew's members are the agents of the crew's lists that were defined, in the crew's order; its tasks likewise; its tools are the members' tools one after the other. |
| CrewAI.CrewResult | agentbom/detectors/crewai.py:52-66 | A detected file is a Python multi-agent system reporting CrewAI, with the file as constructor file. |
| CrewAI.DetectGates | agentbom/detectors/crewai.py:28-68 | A result exactly when all three imports, a construction signature and a parse are present; a parse failing otherwise than by a syntax error raises; past the gates the result is found even when no crew resolves, and then it has no metadata and no tools. |
| CrewAIDetector.FindToolDefinition | agentbom/detectors/crewai.py:236-285 | Computes `CrewAI.ToolDefinition`. |
| CrewAIDetector.ItemToolOf | agentbom/detectors/crewai.py:212-232 | Computes `CrewAI.ItemTool`. |
| CrewAIDetector.ExtractToolsFromNode | agentbom/detectors/crewai.py:206-234 | Its loop over the items computes `CrewAI.ToolsFromNode`. |
| CrewAIDetector.AgentKeyword | agentbom/detectors/crewai.py:154-179 | One keyword of `Agent(...)` updates the details as `CrewAI.AgentStep` does. |
| CrewAIDetector.ExtractAgentDetails | agentbom/detectors/crewai.py:149-181 | Its loop over the keywords computes `CrewAI.AgentOf`. |
| CrewAIDetector.TaskKeyword | agentbom/detectors/crewai.py:188-202 | One keyword of `Task(...)` updates the details as `CrewAI.TaskStep` does. |
| CrewAIDetector.ExtractTaskDetails | agentbom/detectors/crewai.py:183-204 | Its loop over the keywords computes `CrewAI.TaskOf`. |
| CrewAIDetector.AddAgents | agentbom/detectors/crewai.py:93-100 | Its loop over the targets computes `CrewAI.AgentTargets`. |
| CrewAIDetector.AddTasks | agentbom/detectors/crewai.py:104-111 | Its loop over the targets computes `CrewAI.TaskTargets`. |
| CrewAIDetector.CrewLists | agentbom/detectors/crewai.py:120-130 | Appends the names in the `agents=[...]` and `tasks=[...]` lists to the crew's lists, in order. |
| CrewAIDetector.ScanNode | agentbom/detectors/crewai.py:86-130 | One node of the first pass updates the scan as `CrewAI.ScanStep` does. |
| CrewAIDetector.ResolveAgents | agentbom/detectors/crewai.py:133-141 | The defined agents of the crew's list, in order, and their tools one after the other. |
| CrewAIDetector.ExtractCrewInfo | agentbom/detectors/crewai.py:70-147 | Computes `CrewAI.CrewInfoOf`. |
| CrewAIDetector.Detect | agentbom/detectors/crewai.py:28-68 | Computes `CrewAI.Detect`. |
| CrewAIDetector.BuildResult | agentbom/detectors/crewai.py:52-66 | Computes `CrewAI.CrewResult`. |
| AutoGen.ChatFieldOf | agentbom/detectors/autogen.py:137-154 | A keyword is recognised only by its exact argument name. |
| AutoGen.DetailsStepShape | agentbom/detectors/autogen.py:137-154 | One keyword keeps the agent's variable and class, keeps a recorded name non-empty and keeps the system message at most 200 characters. |
| AutoGen.DetailsStepFlags | agentbom/detectors/autogen.py:149-154 | One keyword sets the code-execution, functions or LLM-config flag exactly when it is that flag's keyword, and never clears one. |
| AutoGen.ChatAgentShape | agentbom/detectors/autogen.py:88-97 | The agent keeps the variable it is assigned to and its class, and a name and a system message are recorded only when non-empty, the message cut to 200 characters. |
| AutoGen.ChatAgentFlags | agentbom/detectors/autogen.py:149-154 | Each flag is set exactly when its keyword is given, whatever its value. |
| AutoGen.HasKeywordSnoc | agentbom/detectors/autogen.py:137 | A keyword is among a list with one more keyword exactly when it was among the list or is the new one. |
| AutoGen.AgentTargetsKeyed | agentbom/detectors/autogen.py:89-97 | Storing an agent under each name target keeps every agent under its own variable and of an agent class. |
| AutoGen.ScanKeyed | agentbom/detectors/autogen.py:80-124 | After the first pass every agent is stored under its own variable and was made by `AssistantAgent` or `UserProxyAgent`. |
| AutoGen.ListedOnlyFromLiterals | agentbom/detectors/autogen.py:106-111 | Only a list literal given as `agents=` adds group members: an `agents=` given any other way adds none. |
| AutoGen.LinksNeedGroupChat | agentbom/detectors/autogen.py:119-124 | A manager is linked only through a `groupchat=` naming the group chat variable recorded by the time the manager is reached. |
| AutoGen.InfoOf | agentbom/detectors/autogen.py:126-131 | There is no agent information exactly when none of the group's member names was assigned an agent. |
| AutoGen.MembersInGroupOrder | agentbom/detectors/autogen.py:70-131 | The group's agents are the members of its list literals that were assigned an assistant or user-proxy agent, in the group chat's order. |
| AutoGen.ChatResult | agentbom/detectors/autogen.py:53-66 | A detected file is a Python multi-agent system reporting AutoGen, with the file as constructor file and no tools. |
| AutoGen.DetectGates | agentbom/detectors/autogen.py:28-68 | A result exactly when all four class names, the construction signature and a parse are present; a parse failing otherwise than by a syntax error raises; past the gates the result is found even when no group resolves, and then it has no metadata. |
| AutoGenDetector.DetailsKeyword | agentbom/detectors/autogen.py:138-154 | One keyword updates the details as `AutoGen.DetailsStep` does. |
| AutoGenDetector.ExtractAgentDetails | agentbom/detectors/autogen.py:133-156 | Its loop over the keywords computes `AutoGen.ChatAgentOf`. |
| AutoGenDetector.AddAgents | agentbom/detectors/autogen.py:89-97 | Its loop over the targets computes `AutoGen.AgentTargets`. |
| AutoGenDetector.GroupChatAgents | agentbom/detectors/autogen.py:106-111 | Appends the names of the `agents=[...]` list to the members, in order. |
| AutoGenDetector.CheckLinked | agentbom/detectors/autogen.py:120-124 | Its loop over the keywords computes `AutoGen.Links`. |
| AutoGenDetector.ScanNode | agentbom/detectors/autogen.py:82-124 | One node of the first pass updates the scan as `AutoGen.ScanStep` does. |
| AutoGenDetector.ExtractAgentsInfo | agentbom/detectors/autogen.py:70-131 | Computes `AutoGen.AgentsInfoOf`. |
| AutoGenDetector.Detect | agentbom/detectors/autogen.py:28-68 | Computes `AutoGen.Detect`. |
| Scanning.FrameworkOf | agentbom/scanner.py:27-32 | Exactly the four names `langchain-py`, `langchain-ts`, `autogen` and `crewai` name a detector, each its own. |
| Scanning.RequestedFrameworks | agentbom/scanner.py:55 | No framework list, or an empty one, selects the two LangChain frameworks; any other list is kept as given. |
| Scanning.SelectDetectors | agentbom/scanner.py:63-70 | There are never more detectors than requested names. |
| Scanning.SelectDetectorsAppend | agentbom/scanner.py:65-70 | Selection goes name by name: the detectors of a longer list are those of its parts, one after the other. |
| Scanning.SelectDetectorsRules | agentbom/scanner.py:55-70 | A known name adds its detector, an unknown one adds nothing; by default the Python and then the TypeScript LangChain detectors run. |
| Scanning.FirstFoundRules | agentbom/scanner.py:268-280 | A detector that raises or finds nothing is passed over: the result is that of the first detector that finds an agent, and there is none exactly when no detector finds one. |
| Scanning.ResolveToolFiles | agentbom/scanner.py:282-300 | The constructor file becomes the path relative to the root (the full path when outside it); an empty tool-file list becomes the constructor file alone; nothing else changes. |
| Scanning.ProcessFileRules | agentbom/scanner.py:253-280 | A file that cannot be read or is empty gives nothing; otherwise the result is the first finding detector's result with its files resolved, and there is none exactly when no detector finds an agent. |
| Scanning.ConvertParams | agentbom/scanner.py:344-356 | A parameter is kept exactly when the tool has it and its name does not start with `*`, and it keeps that parameter's type, requirement and description. |
| Scanning.ConvertParamsOrder | agentbom/scanner.py:346-356 | The kept parameters are in the tool's order. |
| Scanning.DetailOf | agentbom/scanner.py:358-371 | A tool's detail keeps its name, and a description that is missing or empty reads "unknown". |
| Scanning.Details | agentbom/scanner.py:341-372 | One detail per tool, in order. |
| Scanning.Dedup | agentbom/scanner.py:320-324 | The agent's files are the constructor file and the tool files, each once. |
| Scanning.CreateAgentRules | agentbom/scanner.py:302-406 | An agent is made exactly when the result has a constructor file and a language; it keeps the detector's type, language, frameworks and architecture, has one detail per tool in order and a count equal to the number of tools, lists each file once, falls back to the root's name when there is no agent name, and without git has owner "unknown", both times equal to the current time and no last changer or default branch. |
| ScannerClass.Scanner.constructor | agentbom/scanner.py:34-81 | A new scanner keeps the requested frameworks (by default the two LangChain ones) and builds their detectors name by name, skipping unknown names. |
| ScannerClass.Scanner.RunDetector | agentbom/scanner.py:271 | Runs the chosen detector as `Scanning.DetectWith` does. |
| ScannerClass.Scanner.ProcessFile | agentbom/scanner.py:253-280 | Computes `Scanning.ProcessFile` over the scanner's detectors. |
| ScannerClass.Scanner.FirstDetection | agentbom/scanner.py:269-280 | The loop over the detectors computes `Scanning.FirstFound`. |
| ScannerClass.Scanner.AgentFiles | agentbom/scanner.py:320-324 | Computes `Scanning.Dedup`. |
| ScannerClass.Scanner.ConvertParameters | agentbom/scanner.py:344-356 | Computes `Scanning.ConvertParams`. |
| ScannerClass.Scanner.ConvertTools | agentbom/scanner.py:341-372 | Computes `Scanning.Details`. |
| ScannerClass.Scanner.CreateAgentFromResult | agentbom/scanner.py:302-406 | Computes `Scanning.CreateAgent`; the git extractor stays valid and, once an agent is made, has loaded its CODEOWNERS file. |
| Git.FirstExisting | agentbom/extractors/git.py:167-177 | The CODEOWNERS file read is one of the candidate locations that exists; there is none exactly when no candidate exists. |
| Git.ParseLineRules | agentbom/extractors/git.py:184-196 | Blank lines, comment lines and lines of a single word give no rule; a rule's pattern is a single word. |
| Git.ParseLineRoundTrip | agentbom/extractors/git.py:192-196 | A line of two or more words, the first not a comment, reads back as the first word for pattern and the other words, joined by single spaces, for owners. |
| Git.ParsedLines | agentbom/extractors/git.py:184 | Each line is read on its own, in order. |
| Git.RulesPresent | agentbom/extractors/git.py:184-196 | No more rules than lines. |
| Git.RulesPresentKeeps | agentbom/extractors/git.py:184-196 | A rule is kept exactly when a line gives it. |
| Git.ParseCodeownersKeeps | agentbom/extractors/git.py:163-199 | A rule is loaded exactly when some line of the file reads as it. |
| Git.NoDoubleStarAbsent | agentbom/extractors/git.py:242 | Text without two adjacent stars has no `**` in it. |
| Git.SingleStarsOnly | agentbom/extractors/git.py:242 | Once every `*` is replaced by `[^/]*`, no two stars are adjacent and the text does not start with a star. |
| Git.DoubleStarReplaceIsNoOp | agentbom/extractors/git.py:242 | The second replacement, of `**` by `.*`, never applies: the translation as written is the single-star replacement alone. |
| Git.ReplaceStarFree | agentbom/extractors/git.py:242 | Star-free text goes through the star replacement unchanged. |
| Git.AnchoredRooted | agentbom/extractors/git.py:244-253 | A pattern rooted at `/` that does not end in `/` is anchored at both ends and nothing more. |
| Git.DocsPatternAsWritten | agentbom/extractors/git.py:242-253 | As written, the rule `/docs/**` becomes `^/docs/[^/]*[^/]*$`, whose two star classes both exclude `/`. |
| Git.GlobStarFree | agentbom/extractors/git.py:242 | Star-free text goes through the corrected translation unchanged. |
| Git.DocsPatternCorrected | agentbom/extractors/git.py:242-253 | Corrected, the rule `/docs/**` becomes `^/docs/.*$`, which spans directories. |
| Git.DoubleStarTranslated | agentbom/extractors/git.py:242 | Corrected, `**` alone translates to `.*`. |
| Git.GlobDoubleStarSpans | agentbom/extractors/git.py:242 | Corrected, any pattern with `**` translates to a regular expression containing `.*`. |
| Git.Hits | agentbom/extractors/git.py:221-222 | Each rule is matched against the path on its own, in order. |
| Git.BestMatch | agentbom/extractors/git.py:218-228 | Without a match the best length stays 0. |
| Git.BestMatchStep | agentbom/extractors/git.py:221-226 | One more rule replaces the best match exactly when it matches and its pattern is strictly longer. |
| Git.BestMatchIsLongest | agentbom/extractors/git.py:201-228 | The owners found are those of the longest matching pattern, the earliest among equally long ones; nothing is found only when every matching pattern is empty. |
| Git.Rooted | agentbom/extractors/git.py:214-215 | The path is given a leading `/` exactly when it has none. |
| Git.FileOwners | agentbom/extractors/git.py:152-153 | Each file's owner is looked up on its own, in order. |
| Git.OwnerSet | agentbom/extractors/git.py:151-155 | The owners collected are the non-empty owners of the files, each once. |
| Git.Sole | agentbom/extractors/git.py:158-159 | An owner is returned exactly when there is one owner, and it is that one. |
| Git.OwnerSetOfOnly | agentbom/extractors/git.py:151-159 | When every file with an owner has the owner `o` and one does, the collected owners are `o` alone. |
| Git.OwnerSetOfNone | agentbom/extractors/git.py:151-155 | When no file has a non-empty owner, no owner is collected. |
| Git.SoleOwnerIsOnly | agentbom/extractors/git.py:151-159 | The collected owners are a single `o` exactly when some file has owner `o` and every file with an owner has `o`. |
| Git.CodeownersOwnerUnique | agentbom/extractors/git.py:135-161 | CODEOWNERS names an owner for the files exactly when rules were loaded, some file has a non-empty owner and every file that has one has that same owner. |
| Git.Log | agentbom/extractors/git.py:322-328 | A `git log` call fails exactly when the history cannot be read; otherwise git keeps the `n` newest commits of the history first and reverses only what it kept, in that order. |
| Git.LastCommit | agentbom/extractors/git.py:283-311 | A file's last author and time are those of the newest commit of its history, and there are none when the log fails, lists nothing, or the author text holds a `\|`, which breaks the two-part split. |
| Git.Commits | agentbom/extractors/git.py:271-272 | Each file's last commit is looked up on its own, in order. |
| Git.Authors | agentbom/extractors/git.py:269-274 | The authors collected are exactly the non-empty authors of the files' last commits. |
| Git.Leader | agentbom/extractors/git.py:278-279 | The leader is among the elements looked at. |
| Git.LeaderIsFirstMost | agentbom/extractors/git.py:278-279 | The leader occurs at least as often as any element looked at, and strictly more often than every element before it. |
| Git.MostCommonRules | agentbom/extractors/git.py:278-279 | `most_common(1)` gives an element that occurs at least as often as any other, and is the first one to occur that often. |
| Git.ModalAuthor | agentbom/extractors/git.py:260-281 | The modal author is one of the files' authors, or "unknown" exactly when there are none. |
| Git.OwnerRules | agentbom/extractors/git.py:26-41 | CODEOWNERS decides when it names one owner; otherwise the modal last author does, which is "unknown" when no file has an author. |
| Git.EarliestIsMinimum | agentbom/extractors/git.py:55-60 | The earliest time is one of the times and no later than any; there is one exactly when some time is known. |
| Git.LatestIsMaximum | agentbom/extractors/git.py:62-66 | The latest time is one of the times and no earlier than any. |
| Git.CreationAsWrittenIsUpdate | agentbom/extractors/git.py:324 | As written, `git log --reverse -1` gives every file its newest commit time as its creation time, the same answer as the update time. |
| Git.SingleFileAsWritten | agentbom/extractors/git.py:43-73 | As written, a single file is reported as created at the moment it was last updated. |
| Git.AsWrittenMissesFirstCommit | agentbom/extractors/git.py:324 | As written, a file whose newest and oldest commits differ in time gets the newest as its creation time, where the intended creation time is the oldest. |
| Git.CreationIsFirstCommit | agentbom/extractors/git.py:313-337 | The intended creation time is the time of the oldest commit of the file's history, and the update time (agentbom/extractors/git.py:339-362) that of the newest; each exists exactly when git lists a commit. |
| Git.CreationBeforeUpdate | agentbom/extractors/git.py:313-362 | On a history listed newest first, a file has a creation time exactly when it has an update time, and the creation time is no later. |
| Git.CreatedNotAfterUpdated | agentbom/extractors/git.py:43-73 | On histories listed newest first, the files' reported creation is never after their reported update. |
| Git.CreationTimes | agentbom/extractors/git.py:57 | Each file's creation time, its first commit's time, is looked up on its own, in order. |
| Git.UpdateTimes | agentbom/extractors/git.py:63 | Each file's update time is looked up on its own, in order. |
| Git.TimestampsRules | agentbom/extractors/git.py:43-73 | The creation time is the earliest creation time of the files and the update time their latest update time, each one of the files' own times; either is the current time when no file has one. |
| Git.LatestCommit | agentbom/extractors/git.py:84-94 | The latest commit is one of the files' commits. |
| Git.LatestCommitRules | agentbom/extractors/git.py:84-94 | There is a latest commit exactly when some file has a commit, and it is the first of the latest ones. |
| Git.LastChangedByRules | agentbom/extractors/git.py:75-94 | The last change is by the author of the first file whose last commit is the latest, and by nobody exactly when no file has a commit. |
| GitExtractorClass.GitExtractor.constructor | agentbom/extractors/git.py:17-24 | A new extractor has not loaded CODEOWNERS yet. |
| GitExtractorClass.GitExtractor.LoadCodeowners | agentbom/extractors/git.py:163-199 | Fills the cache with the rules of the first CODEOWNERS file that exists. |
| GitExtractorClass.GitExtractor.MatchCodeownersPattern | agentbom/extractors/git.py:201-228 | Before loading nothing is found; afterwards the owners are those of `Git.MatchCodeowners`. |
| GitExtractorClass.GitExtractor.LongestMatch | agentbom/extractors/git.py:217-228 | The loop over the rules computes `Git.BestMatch`. |
| GitExtractorClass.GitExtractor.GetCodeownersOwner | agentbom/extractors/git.py:135-161 | Loads the rules when needed and computes `Git.CodeownersOwner`. |
| GitExtractorClass.GitExtractor.CollectOwners | agentbom/extractors/git.py:151-155 | The loop over the files computes `Git.OwnerSet`. |
| GitExtractorClass.GitExtractor.GetModalAuthor | agentbom/extractors/git.py:260-281 | Computes `Git.ModalAuthor`. |
| GitExtractorClass.GitExtractor.GetOwner | agentbom/extractors/git.py:26-41 | Computes `Git.Owner`, with the rules loaded afterwards. |
| GitExtractorClass.GitExtractor.GetTimestamps | agentbom/extractors/git.py:43-73 | The loop over the files computes `Git.TimestampsOf`. |
| GitExtractorClass.GitExtractor.GetLastChangedBy | agentbom/extractors/git.py:75-94 | The loop over the files computes `Git.LastChangedBy`. |
| FileWalking.ExcludeSet | agentbom/utils/file_walker.py:69-72 | A name is in the exclude set exactly when it is one of the user's exclude patterns or, in strict mode only, one of the default excluded directory names. |
| FileWalking.AncestorExcludedBelowRoot | agentbom/utils/file_walker.py:182-187 | For a file strictly below the root, the ancestor loop rejects it exactly when a directory strictly between the root and the file has a name that is in the exclude set (exact membership, not a glob). |
| FileWalking.ExcludedFromPrefix | agentbom/utils/file_walker.py:183-187 | From any ancestor upwards, the loop rejects exactly when one of the directories between that ancestor and the root has an excluded name. |
| FileWalking.ExcludedFromMonotone | agentbom/utils/file_walker.py:183-187 | A larger exclude set rejects every ancestor a smaller one rejects. |
| FileWalking.StrictProcessesFewer | agentbom/utils/file_walker.py:69-72 | A strict walker processes no file that a lenient walker with the same patterns would skip. |
| FileWalking.FileWalker.constructor | agentbom/utils/file_walker.py:50-72 | A new walker keeps the byte limit and the pattern lists and builds `FileWalking.ExcludeSet`. |
| FileWalking.FileWalker.ShouldExcludeDir | agentbom/utils/file_walker.py:109-134 | A directory is excluded exactly when its name matches an exclude-set pattern, or its `parent/name` path or its name matches one of the user's patterns. |
| FileWalking.FileWalker.MatchesExcludePattern | agentbom/utils/file_walker.py:176-180 | Holds exactly when the relative path or the name matches one of the user's exclude patterns. |
| FileWalking.FileWalker.MatchesIncludePattern | agentbom/utils/file_walker.py:166-173 | Holds exactly when the relative path matches one of the include patterns. |
| FileWalking.FileWalker.HasExcludedAncestor | agentbom/utils/file_walker.py:182-187 | The loop over the parents computes `FileWalking.AncestorExcluded`. |
| FileWalking.FileWalker.ShouldProcessFile | agentbom/utils/file_walker.py:136-189 | A file is processed exactly when its size is known and within the limit, its extension is supported or its name is a README name, it matches an include pattern when there are any, neither its relative path nor its name matches an exclude pattern, and no ancestor below the root has an excluded name. |
| FileWalking.FileWalker.Walk | agentbom/utils/file_walker.py:74-90 | A root that does not exist yields nothing; a file root yields itself exactly when it passes the filter relative to its parent, and nothing else. |
| ToolDefs.FirstToolFunction | agentbom/detectors/crewai.py:246-255 | The definition found is a function of that name. The same lookup serves the LangChain Python detector (agentbom/detectors/langchain_py.py:203-235). |
| ToolDefs.FirstToolFunctionIsFirst | agentbom/detectors/langchain_py.py:211-221 | The definition found is the first node of the walk that is a function of that name decorated with `@tool` or `@<x>.tool`; none is found exactly when the walk has no such node. |
| ToolDefs.FindToolFunction | agentbom/detectors/crewai.py:246-255 | The loop over the walk computes `ToolDefs.FirstToolFunction`. The same lookup serves the LangChain Python detector (agentbom/detectors/langchain_py.py:203-235). |
| ToolDefs.FunctionTool | agentbom/detectors/crewai.py:256-272 | Builds the tool of `ToolDefs.ToolFromFunction`: the merged signature, and for a description the merged one, else the docstring's first line. The LangChain Python detector builds its tool the same way (agentbom/detectors/langchain_py.py:222-235). |
| PyAst.LastNamed | agentbom/detectors/crewai.py:115-117 | A variable other than the one before comes from one of the assignment's name targets. |
| Paths.Suffix | agentbom/utils/file_walker.py:154 | A suffix is empty or a dot followed by at least one character, ends the name, and is shorter than the name. |
| Paths.RelativeTo | agentbom/utils/file_walker.py:160-163 | A path relative to the root, put back under the root, is the path. |
| Dicts.Put | agentbom/detectors/base.py:173 | Assigning a key gives it the new value and leaves every other key as it was; an existing key keeps its place and a new one goes last. |
| Dicts.FromEntriesGet | agentbom/detectors/base.py:165-213 | Assigning a list of entries in turn leaves each key with the value of its last entry, and keys that never occur absent. |
| Dicts.FromEntriesDistinct | agentbom/detectors/base.py:165-213 | When no key repeats, the dictionary's keys are in the order of the entries. |
| Dicts.FromEntriesDistinctGet | agentbom/detectors/base.py:165-213 | When no key repeats, every entry is in the dictionary with its own value. |
| Dicts.FromEntriesConcat | agentbom/detectors/base.py:165-213 | Assigning two lists of entries is assigning the first and then the second. |
| Dicts.PresentEmpty | agentbom/detectors/crewai.py:133-134 | No listed variable is found exactly when none of them is a key. |
| Dicts.ValuesAt | agentbom/detectors/crewai.py:133-145 | The values looked up are those of the listed variables that are keys, in the list's order. |
| Dicts.ValuesAtLoop | agentbom/detectors/crewai.py:143-145 | The loop over the variables named in a list computes `ValuesAt`: the defined ones, in the list's order. The CrewAI detector uses it for the crew's tasks, and the AutoGen detector for the group's agents (agentbom/detectors/autogen.py:127-129). |

## Left out

- Annotations.StringValue, Annotations.TypeString, Annotations.ValueString: Python's `ast` is modelled as in Python 3.9 to 3.13. There, the `isinstance(node, ast.Str)` tests at agentbom/detectors/base.py:119 and :288 are simply false for a node that is not a string constant. The same holds for the `ast.Str`, `ast.Num` and `ast.NameConstant` tests at base.py:311-316. Python 3.14 removed those three classes, so each test raises AttributeError when it is reached. Only `extract_string_value` is called outside a `try`, from agentbom/detectors/crewai.py:155-196, autogen.py:139-143 and langchain_py.py:114, :288 and :292. So only a non-string keyword value such as `Agent(role=ROLE)` raises out of the detector's `detect`, and `_process_file` (agentbom/scanner.py:268-280) then skips that detector; the model gives None and keeps the detection. `extract_function_signature`, `_ast_to_type_string` and `_ast_to_value_string` run only inside bare `except:` blocks. On Python 3.14, a `Name` default such as `def f(x=DEFAULT)` or an annotation that reaches the fallback, such as `Callable[[int], str]`, raises there. The source then falls back as follows: a `@tool` function is read by the docstring regular expression (crewai.py:244-273, langchain_py.py:209-238); a pydantic schema gives no fields (langchain_py.py:344-395); and `_extract_function_info` gives None (langchain_py.py:402-414). The model keeps the full signature, with `...` or `Any` in those places.
- Annotations.StringDefaultRoundTrip: `repr` of a string is modelled for backslash, the quote, newline, carriage return and tab only; Python's `\x..`/`\u....` escapes for other non-printable characters are not modelled, and numbers, bytes and other constants are carried as their printed text.
- `Scanner.scan_path`, `scan_repo`, `scan_org` and `_scan_files` (agentbom/scanner.py:83-251): they clone repositories, walk directories and call the GitHub API. The model starts at `_process_file`, one file at a time.
- `Scanner._has_llm_config` and the LLM enrichment of a record (agentbom/scanner.py:398-411): they call a language model over the network.
- `PolicyEngine.scan_files` and `_get_changed_files` (agentbom/policy/engine.py:37-66, 284-326): they walk the tree and run `git diff` in a subprocess. The model starts at `check_file`, one file at a time.
- The policy engine's own `FileWalker`: the engine only reads files through it, and that is `Policy.ReadFile` here.
- `RulesetLoader.load` (agentbom/policy/loader.py:15-55): reading the file and choosing a parser is I/O. The model starts at `_parse_ruleset`, from the loaded document.
- `PolicyReport.generate_table`, `generate_json`, `_get_severity_color` and `print_summary` (agentbom/policy/report.py:54-115, 150-193): these only render text for the terminal.
- `FileWalker.walk` over a directory (agentbom/utils/file_walker.py:90-107): the `os.walk` descent, which prunes directories in place, is left out. Only the case where the root is a file is modelled, and `_should_process_file` is modelled for every file.
- `FileWalker.find_codeowners` and `read_file_safely` (agentbom/utils/file_walker.py:191-229): a file is read either with its whole text or not at all, and the fallback through encodings is not modelled. A regular file that exists but cannot be read or decoded is in `Paths.FileSystem.unreadable`. Such a file passes `exists()` and `is_file()`, so it still wins import resolution (agentbom/detectors/langchain_ts.py:519-531), and every read of it gives None.
- `GitExtractor.get_default_branch` (agentbom/extractors/git.py:96-133): it runs `git` in a subprocess, so its answer is the `defaultBranch` field of `Git.Repo`. The other `git` calls are all `git log`, and their answers are read off the per-file history `Git.Repo.log` by `Git.Log`; the subprocess, its timeout and its output parsing beyond the `|` split are not modelled.
- Timestamps are integers rather than `datetime` values, and "now" is a parameter rather than a clock reading.
- Python's `re`, `fnmatch`, `yaml`, `json`, `ast.parse`, `os.path.getsize` and `str()` of a loaded value are oracles (see above). The model does not interpret a regular expression or a glob.
- `max_file_mb * 1024 * 1024` is a float in the source. Here it is the whole number of bytes `maxFileBytes`.
- `Path.resolve()` is modelled as lexical normalisation of `.`, `..` and empty components. Symbolic links and the current working directory are not modelled.
- Logging calls and the messages they print are left out.
- `merge_docstring_info` updates the signature dictionary in place while the caller continues to hold it. The model returns a new signature and does not capture that aliasing.
- AST node identity (`n.value is node`, `node in ...`) is modelled as structural equality of the nodes.
- `_find_parent_assign` in the LangChain Python detector is never called, so it is not modelled.
- `info.get("name", file_path.stem)` in the CrewAI and AutoGen `detect` cannot fall back: the info always has a name. The name is kept as an `Option` and the fallback is not modelled.
- The `else` branch of the factory loop at agentbom/detectors/langchain_ts.py:203-205 cannot be reached: `_find_tool_factory_definition` always returns a `ToolInfo`, which is truthy.
- The `except:` fallback of `_find_tool_definition` at agentbom/detectors/langchain_py.py:237-248, which rebuilds a tool from a regex-read docstring, is not modelled. `detect` only asks for tool definitions after `ast.parse` has succeeded on the same content, and the model takes the walk over the parsed tree as unable to raise, so the fallback is never taken.
- LangChainTs.DetectGates: a registered extractor's `can_extract`, and its `get_library_name` inside the log message, are taken not to raise. In the code both run in `get_extractor` (agentbom/detectors/schema_extractors.py:272-275), which `_extract_schema_params` calls outside its `try` (agentbom/detectors/langchain_ts.py:380-383), so such an exception would escape `detect`. The model's `Schemas.CustomAccepts` is a total predicate and its `Detect` never raises; the built-in extractors only run regex searches, so this matters only for extractors registered with `register_extractor`.
- Scanning.Dedup: `list(set(...))` has an order that depends on string hashing. The model keeps the first occurrence of each file, and proves only that the list holds every input file exactly once.
- Docstrings.SphinxParamListMeaning: the Sphinx parser iterates over a `set` of names, whose order depends on hashing. The model lists the names with a description first, then the names with only a type, and proves which parameters are produced, not their order.
- Annotations.TypeString: every parameter and field type in the model is rendered in full, the corrected half of the fourth finding below; the code as written (`Annotations.TypeStringAsWritten`) drops a nested subscript's arguments and an attribute's name, and no detector here uses that rendering. The members below inherit this.
- Signatures.PositionalParamRules: the parameter's type text is `TypeString`, so `x: List[Dict[str, int]]` has type `List[Dict[str, int]]` where the code gives `List[Dict]`.
- Signatures.KeywordOnlyParamRules: the keyword-only parameter's type text is `TypeString`, not the as-written rendering.
- Signatures.SignatureParameters: all parameter types are rendered with `TypeString`, not the as-written rendering.
- SignatureExtractor.PositionalInfo: computes the type with `TypeString`, not the as-written rendering.
- SignatureExtractor.KeywordOnlyInfo: computes the type with `TypeString`, not the as-written rendering.
- SignatureExtractor.ExtractSignature: computes `SignatureOf` with `TypeString`, so nested generic types keep their arguments.
- LangChainPy.FieldRequiredRule: the `Optional` test runs on the full rendering, so a field `x: List[List[Optional[int]]]` is optional here; as written its text is `List[List]` and the field is required.
- LangChainPyDetector.FieldInfo: the field's type text and its `Optional` test use `TypeString`, as in `LangChainPy.FieldRequiredRule`.
- Git.CreationTimes: each file's creation time is the corrected one of the second finding below, the time of its oldest commit (`Git.CreationTime`). The code's `git log --reverse -1` gives the newest commit's time (`Git.CreationTimeAsWritten`).
- Git.TimestampsRules: `created_at` is the minimum of the files' oldest commit times. In the code it is the minimum of their newest commit times, which for one file equals `updated_at` (`Git.SingleFileAsWritten`).
- Git.CreatedNotAfterUpdated: holds of the corrected creation times. As written, `created_at` is the earliest of the newest commit times, and that too is never after `updated_at`.
- GitExtractorClass.GitExtractor.GetTimestamps: computes `Git.TimestampsOf` over the corrected creation times, as `Git.TimestampsRules` does.
- Scanning.GitInfoOf: takes its `created_at` from `Git.TimestampsOf` (and `ScannerClass.Scanner.CreateAgentFromResult` from `GitExtractorClass.GitExtractor.GetTimestamps`), and so inherits the corrected creation time.
- Git.LastCommit: the `strip()` of git's output is not modelled; git prints no leading or trailing blanks around an author name and an ISO time.
- Git.Hits: CODEOWNERS rules are matched with the corrected glob translation of the first finding below (`Git.PatternRegex`, `**` spanning directories), not the as-written `Git.PatternRegexAsWritten`. For the rule `/docs/** @team` and the file `docs/a/b.md` the model finds `@team`, where the code finds no rule.
- GitExtractorClass.GitExtractor.MatchCodeownersPattern: matches with the corrected glob, as `Git.Hits` does.
- GitExtractorClass.GitExtractor.LongestMatch: its hits come from the corrected glob, as in `Git.Hits`.
- GitExtractorClass.GitExtractor.GetCodeownersOwner: the CODEOWNERS owner is computed with the corrected glob, as in `Git.Hits`.
- GitExtractorClass.GitExtractor.GetOwner: the CODEOWNERS branch uses the corrected glob, so `/docs/**` owns `docs/a/b.md` where the code falls back to the modal author.
- LangChainPy.ImportLookup: an import is resolved from its module text with the leading dots restored from its level, the corrected half of the third finding below; the code as written resolves the bare `node.module` (see `LangChainPy.RelativeImportAsWritten`), so `from ..tools import X` is looked up as the absolute module `tools`.
- LangChainPyDetector.FindToolClassFromImport: resolves the corrected module text, as `LangChainPy.ImportLookup` does.
- Strs.Lower: `str.lower` is modelled for the ASCII capitals, the Kelvin sign and the capital I with a dot above, the only characters whose lower-case form holds an ASCII letter; every other character is kept, where Python maps some of them to other non-ASCII characters. Every text the model compares a lower-cased text with is ASCII, so no result changes.
- Docstrings.StripOptional: the `re.IGNORECASE` match of `optional` compares ASCII letters only; Python's also lets `İ` and `ı` stand for its `i`.
- The cli, `agentbom/utils/github.py` and the record types of `agentbom/models.py` (beyond the fields the scanner fills) are outside this model.

## Findings

| source | as written | input that shows it | evidently intended | confidence | as-written member | corrected member |
|---|---|---|---|---|---|---|
| agentbom/extractors/git.py:242 | `pattern.replace('*', '[^/]*').replace('**', '.*')`: the first replacement leaves no `**`, so the second never applies | the CODEOWNERS rule `/docs/**` becomes `^/docs/[^/]*[^/]*$`, which fails to match `/docs/a/b.md` | `**` becomes `.*` and spans directories; any other `*` stays within one directory | not executed | Git.DocsPatternAsWritten, Git.DoubleStarReplaceIsNoOp | Git.DocsPatternCorrected, Git.GlobDoubleStarSpans |
| agentbom/extractors/git.py:324 | `_get_file_creation_time` runs `git log --reverse -1`, but git applies `-1` before `--reverse`, so the one commit left is the newest | a file committed at time 10 and changed at time 20 gets 20 as its creation time, and `get_timestamps([f])` reports `created_at == updated_at` | the time of the file's oldest commit, as the docstring's "earliest commit" says | not executed | Git.CreationAsWrittenIsUpdate, Git.SingleFileAsWritten, Git.AsWrittenMissesFirstCommit | Git.CreationIsFirstCommit, Git.CreatedNotAfterUpdated |
| agentbom/detectors/langchain_py.py:566-574 | `_find_tool_class_from_import` passes `node.module`, but `ast` puts the leading dots of a relative import into `node.level`, so the relative branch of `_resolve_python_import` cannot be reached | `from ..tools import FetchTool` in `/pkg/sub/agent.py`, with both `/pkg/sub/tools.py` and `/pkg/tools.py` present, reads the class from `/pkg/sub/tools.py` | the module text, with `level` dots restored, is resolved relative to the importing file | not executed | LangChainPy.RelativeImportAsWritten | LangChainPy.RelativeImportCorrected |
| agentbom/detectors/base.py:254-256 | `hasattr(node.slice, "value")` is meant for Python 3.8 `ast.Index`; on 3.9 and later it also holds for a `Subscript` or `Attribute` slice, whose `value` is only its base | `List[Dict[str, int]]` renders as `List[Dict]`; `Optional[pd.DataFrame]` renders as `Optional[pd]` | the slice is rendered in full | not executed | Annotations.NestedGenericLosesArguments, Annotations.AttributeArgumentLosesAttribute | Annotations.AsWrittenAgreesOnPlainSlices (with Annotations.TypeString, which the detectors use) |
