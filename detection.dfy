/** What every framework detector reports, the two signature checks they
    share (presence: some import pattern occurs; construction: the first
    construction pattern that matches) and the small loops over syntax
    trees the Python detectors share. */
module Detection {
  import opened Wrappers
  import opened Strs
  import opened Regex
  import opened Dicts
  import opened PyAst

  /** One parameter of a tool: `{"type", "required", "description"}` and,
      when there is one, `"default"`. */
  datatype ParamInfo = ParamInfo(typ: string, required: bool, description: Option<string>, default: Option<string>)

  /** `{"type", "description"}` of a tool's return value. */
  datatype ReturnInfo = ReturnInfo(typ: string, description: Option<string>)

  /** `ToolInfo` */
  datatype ToolInfo = ToolInfo(
    name: string,
    filePath: string,
    lineNumber: int,
    description: Option<string>,
    parameters: Dict<ParamInfo>,
    result: Option<ReturnInfo>,
    rawDefinition: Option<string>)

  /** `ToolInfo(name=..., file_path=...)` with every other field defaulted. */
  function BasicTool(name: string, filePath: string, description: Option<string>): (t: ToolInfo)
    ensures t.name == name && t.filePath == filePath && t.description == description
    ensures t.lineNumber == 0 && t.parameters.keys == [] && Valid(t.parameters)
    ensures t.result.None? && t.rawDefinition.None?
  {
    ToolInfo(name, filePath, 0, description, Empty(), None, None)
  }

  datatype Architecture = ReAct | MAS | Other
  datatype AgentType = LLMAgent | SQLAgent | RetrievalAgent
  datatype Language = Python | TypeScript | NoLanguage

  /** A CrewAI `Agent(...)` assigned to `variable`; each optional field is
      present only when the call supplied it in a usable form. */
  datatype CrewAgent = CrewAgent(
    variable: string,
    role: Option<string>,
    goal: Option<string>,
    backstory: Option<string>,
    tools: Option<seq<ToolInfo>>,
    allowDelegation: Option<Const>,
    verbose: Option<Const>,
    maxIter: Option<Const>)

  /** A CrewAI `Task(...)` assigned to `variable`. */
  datatype CrewTask = CrewTask(
    variable: string,
    description: Option<string>,
    assignedAgent: Option<string>,
    expectedOutput: Option<string>,
    tools: Option<seq<ToolInfo>>)

  /** An AutoGen `AssistantAgent(...)` or `UserProxyAgent(...)`; `kind` is
      the constructor's name.  The flags record that the keyword was given. */
  datatype ChatAgent = ChatAgent(
    variable: string,
    kind: string,
    name: Option<string>,
    systemMessage: Option<string>,
    maxConsecutiveAutoReply: Option<Const>,
    hasCodeExecution: bool,
    hasFunctions: bool,
    hasLlmConfig: bool)

  /** `DetectorResult.metadata`: empty, a crew's members, or a group chat's
      members and whether its manager is linked to it. */
  datatype Metadata =
    | NoMetadata
    | CrewMetadata(crewAgents: seq<CrewAgent>, crewTasks: seq<CrewTask>)
    | GroupChatMetadata(chatAgents: seq<ChatAgent>, linked: bool)

  datatype DetectorResult = DetectorResult(
    found: bool,
    agentName: Option<string>,
    constructorFile: Option<string>,
    toolFiles: seq<string>,
    tools: seq<ToolInfo>,
    architecture: Architecture,
    frameworks: seq<string>,
    language: Language,
    agentType: AgentType,
    metadata: Metadata)

  /** What a call of `detect` does: it returns a result, returns `None`, or
      raises (which the scanner catches). */
  datatype Outcome = Detected(result: DetectorResult) | NotDetected | Raised

  /** A found result with the defaults of every field not given. */
  function FoundResult(constructorFile: string, language: Language, frameworks: seq<string>, architecture: Architecture): (r: DetectorResult)
    ensures r.found && r.agentName.None? && r.constructorFile == Some(constructorFile)
    ensures r.toolFiles == [] && r.tools == [] && r.agentType == LLMAgent && r.metadata == NoMetadata
    ensures r.language == language && r.frameworks == frameworks && r.architecture == architecture
  {
    DetectorResult(true, None, Some(constructorFile), [], [], architecture, frameworks, language, LLMAgent, NoMetadata)
  }

  /** The agent type: SQL tools win over retrieval. */
  function AgentTypeFor(sql: bool, retrieval: bool): (t: AgentType)
    ensures t == SQLAgent <==> sql
    ensures t == RetrievalAgent <==> !sql && retrieval
    ensures t == LLMAgent <==> !sql && !retrieval
  {
    if sql then SQLAgent else if retrieval then RetrievalAgent else LLMAgent
  }

  /** `check_presence_signature`: some signature is found in the content
      (multi-line mode). */
  method CheckPresence(re: Engine, signatures: seq<string>, content: string) returns (found: bool)
    ensures found <==> exists i :: 0 <= i < |signatures| && Found(re, signatures[i], {Multiline}, content)
  {
    for i := 0 to |signatures|
      invariant forall j :: 0 <= j < i ==> !Found(re, signatures[j], {Multiline}, content)
    {
      if Search(re, signatures[i], {Multiline}, content).Some? {
        return true;
      }
    }
    return false;
  }

  /** `check_construction_signature`: the match of the first signature
      found (multi-line and dot-all mode), or none when no signature is. */
  method CheckConstruction(re: Engine, signatures: seq<string>, content: string) returns (m: Option<Match>)
    ensures m.None? <==> forall i :: 0 <= i < |signatures| ==> !Found(re, signatures[i], {Multiline, DotAll}, content)
    ensures m.Some? ==> exists i :: 0 <= i < |signatures| && m == Search(re, signatures[i], {Multiline, DotAll}, content)
                          && forall j :: 0 <= j < i ==> !Found(re, signatures[j], {Multiline, DotAll}, content)
  {
    for i := 0 to |signatures|
      invariant forall j :: 0 <= j < i ==> !Found(re, signatures[j], {Multiline, DotAll}, content)
    {
      var found := Search(re, signatures[i], {Multiline, DotAll}, content);
      if found.Some? {
        return found;
      }
    }
    return None;
  }

  /** `any(term in text for term in terms)` */
  predicate MentionsAny(text: string, terms: seq<string>) {
    exists i :: 0 <= i < |terms| && Contains(text, terms[i])
  }

  /** The loop over `terms` that stops at the first one found in `text`. */
  method FindsAny(text: string, terms: seq<string>) returns (found: bool)
    ensures found <==> MentionsAny(text, terms)
  {
    for i := 0 to |terms|
      invariant forall j :: 0 <= j < i ==> !Contains(text, terms[j])
    {
      if Contains(text, terms[i]) {
        return true;
      }
    }
    return false;
  }

  /** The loop that keeps the variable of the last name target. */
  method NameTargets(name: Option<string>, targets: seq<Expr>) returns (r: Option<string>)
    ensures r == LastNamed(name, targets)
  {
    r := name;
    for i := 0 to |targets|
      invariant r == LastNamed(name, targets[..i])
    {
      assert targets[..i + 1][..i] == targets[..i];
      if targets[i].Name? {
        r := Some(targets[i].id);
      }
    }
    assert targets[..|targets|] == targets;
  }

  /** The names of a list literal, appended to `vars`. */
  method AppendNames(vars: seq<string>, elts: seq<Expr>) returns (r: seq<string>)
    ensures r == vars + ListedNames(elts)
  {
    r := vars;
    for i := 0 to |elts|
      invariant r == vars + ListedNames(elts[..i])
    {
      assert elts[..i + 1][..i] == elts[..i];
      if elts[i].Name? {
        r := r + [elts[i].id];
      }
    }
    assert elts[..|elts|] == elts;
  }

  // ---------------------------------------------------------------------
  // The agent-type and provider checks of the LangChain detectors

  /** What a retrieval tool's name or description mentions. */
  const RETRIEVAL_TERMS: seq<string> := ["retriev", "search", "vector", "embed"]

  /** A tool whose name, or non-empty description, mentions `sql` in any
      case. */
  predicate SqlTool(t: ToolInfo) {
    Contains(Lower(t.name), "sql") || (t.description.Some? && t.description.value != "" && Contains(Lower(t.description.value), "sql"))
  }

  /** A tool whose name, or non-empty description, mentions a retrieval
      term in any case. */
  predicate RetrievalTool(t: ToolInfo) {
    MentionsAny(Lower(t.name), RETRIEVAL_TERMS)
    || (t.description.Some? && t.description.value != "" && MentionsAny(Lower(t.description.value), RETRIEVAL_TERMS))
  }

  /** The loop over the tools looking for a SQL tool. */
  method AnySqlTool(tools: seq<ToolInfo>) returns (b: bool)
    ensures b <==> exists i :: 0 <= i < |tools| && SqlTool(tools[i])
  {
    for i := 0 to |tools|
      invariant forall j :: 0 <= j < i ==> !SqlTool(tools[j])
    {
      var tool := tools[i];
      if Contains(Lower(tool.name), "sql") || (tool.description.Some? && tool.description.value != "" && Contains(Lower(tool.description.value), "sql")) {
        return true;
      }
    }
    return false;
  }

  /** The loop over the tools looking for a retrieval tool. */
  method AnyRetrievalTool(tools: seq<ToolInfo>) returns (b: bool)
    ensures b <==> exists i :: 0 <= i < |tools| && RetrievalTool(tools[i])
  {
    for i := 0 to |tools|
      invariant forall j :: 0 <= j < i ==> !RetrievalTool(tools[j])
    {
      var tool := tools[i];
      var inName := FindsAny(Lower(tool.name), RETRIEVAL_TERMS);
      if inName {
        return true;
      }
      if tool.description.Some? && tool.description.value != "" {
        var inDescription := FindsAny(Lower(tool.description.value), RETRIEVAL_TERMS);
        if inDescription {
          return true;
        }
      }
    }
    return false;
  }

  /** The providers among the first `n` of a table whose import pattern
      occurs, in table order. */
  function ProvidersAmong(re: Engine, names: seq<string>, patterns: seq<string>, content: string, n: nat): (r: seq<string>)
    requires |patterns| == |names| && n <= |names|
    ensures |r| <= n
  {
    if n == 0 then []
    else ProvidersAmong(re, names, patterns, content, n - 1) + (if Found(re, patterns[n - 1], {}, content) then [names[n - 1]] else [])
  }

  lemma {:induction false} ProvidersAmongExactly(re: Engine, names: seq<string>, patterns: seq<string>, content: string, n: nat)
    requires |patterns| == |names| && n <= |names| && Distinct(names)
    ensures forall i :: 0 <= i < |names| ==>
              (names[i] in ProvidersAmong(re, names, patterns, content, n) <==> i < n && Found(re, patterns[i], {}, content))
  {
    if n > 0 {
      ProvidersAmongExactly(re, names, patterns, content, n - 1);
    }
  }

  lemma {:induction false} ProvidersAmongNames(re: Engine, names: seq<string>, patterns: seq<string>, content: string, n: nat)
    requires |patterns| == |names| && n <= |names|
    ensures forall p :: p in ProvidersAmong(re, names, patterns, content, n) ==> p in names
  {
    if n > 0 {
      ProvidersAmongNames(re, names, patterns, content, n - 1);
    }
  }

  /** With distinct provider names, a provider is reported exactly when its
      pattern occurs, and nothing else is reported. */
  lemma ProvidersExactly(re: Engine, names: seq<string>, patterns: seq<string>, content: string)
    requires |patterns| == |names| && Distinct(names)
    ensures forall i :: 0 <= i < |names| ==>
              (names[i] in ProvidersAmong(re, names, patterns, content, |names|) <==> Found(re, patterns[i], {}, content))
    ensures forall p :: p in ProvidersAmong(re, names, patterns, content, |names|) ==> p in names
  {
    ProvidersAmongExactly(re, names, patterns, content, |names|);
    ProvidersAmongNames(re, names, patterns, content, |names|);
  }

  /** `_detect_provider_frameworks(content)`: the loop over the table. */
  method DetectProviders(re: Engine, names: seq<string>, patterns: seq<string>, content: string) returns (providers: seq<string>)
    requires |patterns| == |names|
    ensures providers == ProvidersAmong(re, names, patterns, content, |names|)
  {
    providers := [];
    for i := 0 to |names|
      invariant providers == ProvidersAmong(re, names, patterns, content, i)
    {
      if Search(re, patterns[i], {}, content).Some? {
        providers := providers + [names[i]];
      }
    }
  }
}
