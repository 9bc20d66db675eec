/** `CrewAIDetector`: the loops of `detect`, `_extract_crew_info`, the two
    details extractors and the tool lookups, each proved to compute its
    specification in `CrewAI`. */
module CrewAIDetector {
  import opened Wrappers
  import opened Regex
  import opened Dicts
  import opened PyAst
  import opened Annotations
  import opened Detection
  import opened Signatures
  import opened SignatureExtractor
  import opened ToolDefs
  import opened CrewAI

  /** `_find_tool_definition(name, content)` */
  method FindToolDefinition(re: Engine, tree: Parse, name: string, content: string) returns (r: Option<ToolInfo>)
    ensures r == ToolDefinition(re, tree, name, content)
  {
    var m := Search(re, ToolPattern(name), {DotAll, Multiline}, content);
    if m.None? {
      return None;
    }
    match tree
    case Parsed(walk) =>
      var f := FindToolFunction(walk, name);
      if f.None? {
        return None;
      }
      var t := FunctionTool(re, f.value);
      r := Some(t);
    case _ =>
      var docMatch := Search(re, DocPattern(name), {DotAll}, content);
      var description: Option<string> := None;
      if docMatch.Some? {
        description := Some(Strs.Strip(GroupText(docMatch.value, 1)));
      }
      r := Some(ToolInfo(name, "", 0, description, Empty(), None, None));
  }

  /** The tool of one reported list item. */
  method ItemToolOf(re: Engine, tree: Parse, content: string, item: Expr) returns (t: ToolInfo)
    requires IsNamedItem(item)
    ensures t == ItemTool(re, tree, content, item)
  {
    if item.Name? {
      var found: Option<ToolInfo> := None;
      if content != "" {
        found := FindToolDefinition(re, tree, item.id, content);
      }
      t := if found.Some? then found.value else BasicTool(item.id, "", None);
    } else {
      t := BasicTool(item.func.id, "", None);
    }
  }

  /** `_extract_tools_from_node(node, content)` */
  method ExtractToolsFromNode(re: Engine, tree: Parse, content: string, node: Expr) returns (tools: seq<ToolInfo>)
    ensures tools == ToolsFromNode(re, tree, content, node)
  {
    tools := [];
    if node.ListExpr? || node.TupleExpr? {
      var elts := node.elts;
      for i := 0 to |elts|
        invariant tools == ItemTools(re, tree, content, elts[..i])
      {
        assert elts[..i + 1][..i] == elts[..i];
        var item := elts[i];
        if IsNamedItem(item) {
          var t := ItemToolOf(re, tree, content, item);
          tools := tools + [t];
        }
      }
      assert elts[..|elts|] == elts;
    }
  }

  /** What one keyword of `Agent(...)` adds to `details`. */
  method AgentKeyword(re: Engine, tree: Parse, content: string, a: CrewAgent, k: Keyword) returns (r: CrewAgent)
    ensures r == AgentStep(ToolsFor(re, tree, content), a, k)
  {
    r := a;
    match FieldOf(k.arg)
    case Role =>
      var role := StringValue(k.value);
      if role.Some? && role.value != "" {
        r := r.(role := role);
      }
    case Goal =>
      var goal := Truncated(k.value, TEXT_LIMIT);
      if goal.Some? {
        r := r.(goal := goal);
      }
    case Backstory =>
      var backstory := Truncated(k.value, TEXT_LIMIT);
      if backstory.Some? {
        r := r.(backstory := backstory);
      }
    case ToolList =>
      var tools := ExtractToolsFromNode(re, tree, content, k.value);
      if tools != [] {
        r := r.(tools := Some(tools));
      }
    case AllowDelegation =>
      if k.value.Constant? {
        r := r.(allowDelegation := Some(k.value.c));
      }
    case Verbose =>
      if k.value.Constant? {
        r := r.(verbose := Some(k.value.c));
      }
    case MaxIter =>
      if k.value.Constant? {
        r := r.(maxIter := Some(k.value.c));
      }
    case _ =>
  }

  /** `_extract_agent_details(call_node, content)`, with the variable the
      agent is assigned to. */
  method ExtractAgentDetails(re: Engine, tree: Parse, content: string, variable: string, kws: seq<Keyword>) returns (a: CrewAgent)
    ensures a == AgentOf(ToolsFor(re, tree, content), variable, kws)
  {
    a := CrewAgent(variable, None, None, None, None, None, None, None);
    for i := 0 to |kws|
      invariant a == AgentOf(ToolsFor(re, tree, content), variable, kws[..i])
    {
      assert kws[..i + 1][..i] == kws[..i];
      a := AgentKeyword(re, tree, content, a, kws[i]);
    }
    assert kws[..|kws|] == kws;
  }

  /** What one keyword of `Task(...)` adds to `details`. */
  method TaskKeyword(re: Engine, tree: Parse, content: string, t: CrewTask, k: Keyword) returns (r: CrewTask)
    ensures r == TaskStep(ToolsFor(re, tree, content), t, k)
  {
    r := t;
    match FieldOf(k.arg)
    case Description =>
      var desc := Truncated(k.value, TEXT_LIMIT);
      if desc.Some? {
        r := r.(description := desc);
      }
    case AssignedAgent =>
      if k.value.Name? {
        r := r.(assignedAgent := Some(k.value.id));
      }
    case ExpectedOutput =>
      var output := Truncated(k.value, TEXT_LIMIT);
      if output.Some? {
        r := r.(expectedOutput := output);
      }
    case ToolList =>
      var tools := ExtractToolsFromNode(re, tree, content, k.value);
      if tools != [] {
        r := r.(tools := Some(tools));
      }
    case _ =>
  }

  /** `_extract_task_details(call_node, content)` */
  method ExtractTaskDetails(re: Engine, tree: Parse, content: string, variable: string, kws: seq<Keyword>) returns (t: CrewTask)
    ensures t == TaskOf(ToolsFor(re, tree, content), variable, kws)
  {
    t := CrewTask(variable, None, None, None, None);
    for i := 0 to |kws|
      invariant t == TaskOf(ToolsFor(re, tree, content), variable, kws[..i])
    {
      assert kws[..i + 1][..i] == kws[..i];
      t := TaskKeyword(re, tree, content, t, kws[i]);
    }
    assert kws[..|kws|] == kws;
  }

  /** `agents[agent_var] = {...}` for each name target. */
  method AddAgents(re: Engine, tree: Parse, content: string, d: Dict<CrewAgent>, targets: seq<Expr>, kws: seq<Keyword>)
    returns (r: Dict<CrewAgent>)
    ensures r == AgentTargets(ToolsFor(re, tree, content), d, targets, kws)
  {
    r := d;
    for i := 0 to |targets|
      invariant r == AgentTargets(ToolsFor(re, tree, content), d, targets[..i], kws)
    {
      assert targets[..i + 1][..i] == targets[..i];
      var target := targets[i];
      if target.Name? {
        var details := ExtractAgentDetails(re, tree, content, target.id, kws);
        r := Put(r, target.id, details);
      }
    }
    assert targets[..|targets|] == targets;
  }

  /** `tasks[task_var] = {...}` for each name target. */
  method AddTasks(re: Engine, tree: Parse, content: string, d: Dict<CrewTask>, targets: seq<Expr>, kws: seq<Keyword>)
    returns (r: Dict<CrewTask>)
    ensures r == TaskTargets(ToolsFor(re, tree, content), d, targets, kws)
  {
    r := d;
    for i := 0 to |targets|
      invariant r == TaskTargets(ToolsFor(re, tree, content), d, targets[..i], kws)
    {
      assert targets[..i + 1][..i] == targets[..i];
      var target := targets[i];
      if target.Name? {
        var details := ExtractTaskDetails(re, tree, content, target.id, kws);
        r := Put(r, target.id, details);
      }
    }
    assert targets[..|targets|] == targets;
  }

  /** The loop over `Crew(...)`'s keywords filling `crew_agents` and
      `crew_tasks`. */
  method CrewLists(crewAgents: seq<string>, crewTasks: seq<string>, kws: seq<Keyword>)
    returns (agents: seq<string>, tasks: seq<string>)
    ensures agents == crewAgents + KeywordListNames(kws, "agents")
    ensures tasks == crewTasks + KeywordListNames(kws, "tasks")
  {
    agents, tasks := crewAgents, crewTasks;
    for i := 0 to |kws|
      invariant agents == crewAgents + KeywordListNames(kws[..i], "agents")
      invariant tasks == crewTasks + KeywordListNames(kws[..i], "tasks")
    {
      assert kws[..i + 1][..i] == kws[..i];
      var k := kws[i];
      if k.arg == Some("agents") {
        if k.value.ListExpr? {
          agents := AppendNames(agents, k.value.elts);
        }
      } else if k.arg == Some("tasks") {
        if k.value.ListExpr? {
          tasks := AppendNames(tasks, k.value.elts);
        }
      }
    }
    assert kws[..|kws|] == kws;
  }

  /** What the first pass does with one node of the walk. */
  method ScanNode(re: Engine, tree: Parse, content: string, st: CrewScan, n: Node) returns (r: CrewScan)
    ensures r == ScanStep(ToolsFor(re, tree, content), st, n)
  {
    r := st;
    if n.S? && n.stmt.Assign? && n.stmt.value.Call? && n.stmt.value.func.Name? {
      var f := n.stmt.value.func.id;
      var targets := n.stmt.targets;
      var kws := n.stmt.value.keywords;
      if f == "Agent" {
        var agents := AddAgents(re, tree, content, st.agents, targets, kws);
        r := r.(agents := agents);
      } else if f == "Task" {
        var tasks := AddTasks(re, tree, content, st.tasks, targets, kws);
        r := r.(tasks := tasks);
      } else if f == "Crew" {
        var name := NameTargets(st.name, targets);
        var agents, tasks := CrewLists(st.crewAgents, st.crewTasks, kws);
        r := r.(name := name, crewAgents := agents, crewTasks := tasks);
      }
    }
  }

  /** The second pass over the crew's agent list: the members in order and
      their tools one after the other. */
  method ResolveAgents(d: Dict<CrewAgent>, vars: seq<string>) returns (agents: seq<CrewAgent>, tools: seq<ToolInfo>)
    ensures agents == ValuesAt(d, vars) && tools == CrewTools(agents)
  {
    agents, tools := [], [];
    for i := 0 to |vars|
      invariant agents == ValuesAt(d, vars[..i]) && tools == CrewTools(agents)
    {
      assert vars[..i + 1][..i] == vars[..i];
      var v := vars[i];
      if v in d.values {
        var a := d.values[v];
        agents := agents + [a];
        assert agents[..|agents| - 1] == ValuesAt(d, vars[..i]);
        if a.tools.Some? {
          tools := tools + a.tools.value;
        }
      }
    }
    assert vars[..|vars|] == vars;
  }

  /** `_extract_crew_info(tree, content)` */
  method ExtractCrewInfo(re: Engine, tree: Parse, content: string, walk: seq<Node>) returns (info: Option<CrewInfo>)
    ensures info == CrewInfoOf(re, tree, content, walk)
  {
    var st := EmptyScan();
    for i := 0 to |walk|
      invariant st == Scan(ToolsFor(re, tree, content), walk[..i])
    {
      assert walk[..i + 1][..i] == walk[..i];
      st := ScanNode(re, tree, content, st, walk[i]);
    }
    assert walk[..|walk|] == walk;
    var agents, tools := ResolveAgents(st.agents, st.crewAgents);
    var tasks := ValuesAtLoop(st.tasks, st.crewTasks);
    if agents == [] {
      return None;
    }
    return Some(CrewInfo(st.name, agents, tasks, tools));
  }

  /** `detect(file_path, content)`, where `tree` is what `ast.parse` gives
      for the content. */
  method Detect(re: Engine, tree: Parse, filePath: string, content: string) returns (o: Outcome)
    ensures o == CrewAI.Detect(re, tree, filePath, content)
  {
    for i := 0 to |REQUIRED_IMPORTS|
      invariant forall j :: 0 <= j < i ==> Found(re, REQUIRED_IMPORTS[j], {}, content)
    {
      if Search(re, REQUIRED_IMPORTS[i], {}, content).None? {
        return NotDetected;
      }
    }
    var construction := CheckConstruction(re, CONSTRUCTION, content);
    if construction.None? {
      return NotDetected;
    }
    match tree
    case SyntaxError =>
      return NotDetected;
    case Crashed =>
      return Raised;
    case Parsed(walk) =>
      var result := BuildResult(re, tree, filePath, content, walk);
      return Detected(result);
  }

  /** The result `detect` fills in once the gates have passed. */
  method BuildResult(re: Engine, tree: Parse, filePath: string, content: string, walk: seq<Node>) returns (result: DetectorResult)
    ensures result == CrewResult(re, tree, filePath, content, walk)
  {
    result := FoundResult(filePath, Python, ["CrewAI"], MAS);
    var crewInfo := ExtractCrewInfo(re, tree, content, walk);
    if crewInfo.Some? {
      var info := crewInfo.value;
      result := result.(agentName := info.name, metadata := CrewMetadata(info.agents, info.tasks), tools := info.tools);
    }
  }
}
