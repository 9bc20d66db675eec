/** What `CrewAIDetector` reads off a CrewAI program: the agents and tasks
    assigned to variables, the crew that lists them, and the tools of its
    agents.  These are the specification functions; `CrewAIDetector`
    computes them with the source's loops. */
module CrewAI {
  import opened Wrappers
  import opened Strs
  import opened Regex
  import opened Dicts
  import opened PyAst
  import opened Annotations
  import opened Detection
  import opened Signatures
  import opened ToolDefs

  /** The three imports `detect` requires, searched without flags. */
  const REQUIRED_IMPORTS: seq<string> := [
    @"from\s+crewai\s+import.*\bAgent\b",
    @"from\s+crewai\s+import.*\bTask\b",
    @"from\s+crewai\s+import.*\bCrew\b"
  ]

  /** `get_construction_signatures` */
  const CONSTRUCTION: seq<string> := [@"Crew\s*\([^)]*agents\s*=\s*\["]

  /** The longest goal, backstory, description or expected output kept. */
  const TEXT_LIMIT: nat := 200

  // ---------------------------------------------------------------------
  // `_find_tool_definition`

  /** `_find_tool_definition(name, content)`, where `tree` is what parsing
      the content gives. */
  function ToolDefinition(re: Engine, tree: Parse, name: string, content: string): (r: Option<ToolInfo>)
    ensures r.Some? ==> r.value.name == name && r.value.filePath == ""
    ensures r.Some? ==> Found(re, ToolPattern(name), {DotAll, Multiline}, content)
  {
    if !Found(re, ToolPattern(name), {DotAll, Multiline}, content) then None
    else
      match tree
      case Parsed(walk) =>
        (match FirstToolFunction(walk, name)
         case Some(f) => Some(ToolFromFunction(re, f))
         case None => None)
      case _ => Some(ToolInfo(name, "", 0, FallbackDescription(re, name, content), Empty(), None, None))
  }

  /** A tool found by its definition lists exactly the parameters of the
      function, in their order, and always reports a return value. */
  lemma ToolParametersAreFunctionParameters(re: Engine, walk: seq<Node>, name: string, content: string)
    requires Found(re, ToolPattern(name), {DotAll, Multiline}, content)
    requires FirstToolFunction(walk, name).Some?
    requires DistinctNames(FirstToolFunction(walk, name).value.params)
    ensures var r := ToolDefinition(re, Parsed(walk), name, content);
      r.Some? && r.value.parameters.keys == Keys(SignatureEntries(FirstToolFunction(walk, name).value.params))
      && r.value.result.Some?
  {
    var f := FirstToolFunction(walk, name).value;
    var sig := SignatureOf(f.params, f.result);
    SignatureParameters(f.params, f.result);
    if Given(f.docstring) {
      var info := Docstrings.ParsedInfo(re, f.docstring.value);
      MergeParamsGet(sig.parameters, info.parameters, name);
    }
  }

  // ---------------------------------------------------------------------
  // `_extract_tools_from_node`

  /** The tool of one list item that `extract_list_items` would report: a
      name resolves to its definition, falling back to a bare record; a
      call is recorded under the called name. */
  function ItemTool(re: Engine, tree: Parse, content: string, item: Expr): (t: ToolInfo)
    requires IsNamedItem(item)
    ensures t.name == ItemName(item)
  {
    if item.Name? then
      (if content != "" then ToolDefinition(re, tree, item.id, content) else None).GetOr(BasicTool(item.id, "", None))
    else BasicTool(item.func.id, "", None)
  }

  function ItemTools(re: Engine, tree: Parse, content: string, elts: seq<Expr>): seq<ToolInfo> {
    if elts == [] then []
    else
      var last := elts[|elts| - 1];
      ItemTools(re, tree, content, elts[..|elts| - 1]) + (if IsNamedItem(last) then [ItemTool(re, tree, content, last)] else [])
  }

  /** `_extract_tools_from_node(node, content)` */
  function ToolsFromNode(re: Engine, tree: Parse, content: string, node: Expr): seq<ToolInfo> {
    if node.ListExpr? || node.TupleExpr? then ItemTools(re, tree, content, node.elts) else []
  }

  lemma {:induction false} ItemToolsNamed(re: Engine, tree: Parse, content: string, elts: seq<Expr>)
    ensures |ItemTools(re, tree, content, elts)| == |NamedItems(elts)|
    ensures forall i :: 0 <= i < |NamedItems(elts)| ==> ItemTools(re, tree, content, elts)[i].name == NamedItems(elts)[i]
  {
    if elts != [] {
      ItemToolsNamed(re, tree, content, elts[..|elts| - 1]);
    }
  }

  /** Nothing is dropped: one tool per name or named call in the list, in
      the list's order and under the item's name. */
  lemma ToolsFromNodeNamed(re: Engine, tree: Parse, content: string, node: Expr)
    ensures |ToolsFromNode(re, tree, content, node)| == |ListItems(node)|
    ensures forall i :: 0 <= i < |ListItems(node)| ==> ToolsFromNode(re, tree, content, node)[i].name == ListItems(node)[i]
  {
    if node.ListExpr? || node.TupleExpr? {
      ItemToolsNamed(re, tree, content, node.elts);
    }
  }

  // ---------------------------------------------------------------------
  // `_extract_agent_details` and `_extract_task_details`

  /** The keywords `Agent(...)` and `Task(...)` read. */
  datatype Field =
    | Role | Goal | Backstory | ToolList | AllowDelegation | Verbose | MaxIter
    | Description | AssignedAgent | ExpectedOutput | OtherField

  function FieldName(f: Field): string {
    match f
    case Role => "role"
    case Goal => "goal"
    case Backstory => "backstory"
    case ToolList => "tools"
    case AllowDelegation => "allow_delegation"
    case Verbose => "verbose"
    case MaxIter => "max_iter"
    case Description => "description"
    case AssignedAgent => "agent"
    case ExpectedOutput => "expected_output"
    case OtherField => ""
  }

  /** The field a keyword names. */
  function FieldOf(arg: Option<string>): (f: Field)
    ensures f != OtherField ==> arg == Some(FieldName(f))
  {
    if arg == Some("role") then Role
    else if arg == Some("goal") then Goal
    else if arg == Some("backstory") then Backstory
    else if arg == Some("tools") then ToolList
    else if arg == Some("allow_delegation") then AllowDelegation
    else if arg == Some("verbose") then Verbose
    else if arg == Some("max_iter") then MaxIter
    else if arg == Some("description") then Description
    else if arg == Some("agent") then AssignedAgent
    else if arg == Some("expected_output") then ExpectedOutput
    else OtherField
  }

  /** How a keyword's value is read as a list of tools; the detector's is
      `ToolsFor`. */
  type ToolReader = Expr -> seq<ToolInfo>

  /** `_extract_tools_from_node` over the content and its parse. */
  function ToolsFor(re: Engine, tree: Parse, content: string): ToolReader {
    e => ToolsFromNode(re, tree, content, e)
  }

  /** What one keyword of `Agent(...)` adds to the agent. */
  function AgentStep(toolsOf: ToolReader, a: CrewAgent, k: Keyword): CrewAgent {
    match FieldOf(k.arg)
    case Role => if Given(StringValue(k.value)) then a.(role := StringValue(k.value)) else a
    case Goal => if Truncated(k.value, TEXT_LIMIT).Some? then a.(goal := Truncated(k.value, TEXT_LIMIT)) else a
    case Backstory => if Truncated(k.value, TEXT_LIMIT).Some? then a.(backstory := Truncated(k.value, TEXT_LIMIT)) else a
    case ToolList =>
      var ts := toolsOf(k.value);
      if ts != [] then a.(tools := Some(ts)) else a
    case AllowDelegation => if k.value.Constant? then a.(allowDelegation := Some(k.value.c)) else a
    case Verbose => if k.value.Constant? then a.(verbose := Some(k.value.c)) else a
    case MaxIter => if k.value.Constant? then a.(maxIter := Some(k.value.c)) else a
    case _ => a
  }

  /** The agent assigned to `variable` by `Agent(...)` with keywords `kws`. */
  function AgentOf(toolsOf: ToolReader, variable: string, kws: seq<Keyword>): CrewAgent {
    if kws == [] then CrewAgent(variable, None, None, None, None, None, None, None)
    else AgentStep(toolsOf, AgentOf(toolsOf, variable, kws[..|kws| - 1]), kws[|kws| - 1])
  }

  /** What one keyword of `Task(...)` adds to the task. */
  function TaskStep(toolsOf: ToolReader, t: CrewTask, k: Keyword): CrewTask {
    match FieldOf(k.arg)
    case Description => if Truncated(k.value, TEXT_LIMIT).Some? then t.(description := Truncated(k.value, TEXT_LIMIT)) else t
    case AssignedAgent => if k.value.Name? then t.(assignedAgent := Some(k.value.id)) else t
    case ExpectedOutput => if Truncated(k.value, TEXT_LIMIT).Some? then t.(expectedOutput := Truncated(k.value, TEXT_LIMIT)) else t
    case ToolList =>
      var ts := toolsOf(k.value);
      if ts != [] then t.(tools := Some(ts)) else t
    case _ => t
  }

  function TaskOf(toolsOf: ToolReader, variable: string, kws: seq<Keyword>): CrewTask {
    if kws == [] then CrewTask(variable, None, None, None, None)
    else TaskStep(toolsOf, TaskOf(toolsOf, variable, kws[..|kws| - 1]), kws[|kws| - 1])
  }

  predicate WellFormedAgent(a: CrewAgent, variable: string) {
    a.variable == variable && Given(a.role) == a.role.Some? && Short(a.goal, TEXT_LIMIT) && Short(a.backstory, TEXT_LIMIT)
    && (a.tools.Some? ==> a.tools.value != [])
  }

  predicate WellFormedTask(t: CrewTask, variable: string) {
    t.variable == variable && Short(t.description, TEXT_LIMIT) && Short(t.expectedOutput, TEXT_LIMIT) && (t.tools.Some? ==> t.tools.value != [])
  }

  /** Every recorded role is non-empty, every goal and backstory non-empty
      and at most 200 characters, and a tool list is recorded only when it
      is not empty. */
  lemma {:induction false} AgentWellFormed(toolsOf: ToolReader, variable: string, kws: seq<Keyword>)
    ensures WellFormedAgent(AgentOf(toolsOf, variable, kws), variable)
  {
    if kws != [] {
      AgentWellFormed(toolsOf, variable, kws[..|kws| - 1]);
      AgentStepWellFormed(toolsOf, AgentOf(toolsOf, variable, kws[..|kws| - 1]), kws[|kws| - 1], variable);
    }
  }

  lemma AgentStepWellFormed(toolsOf: ToolReader, a: CrewAgent, k: Keyword, variable: string)
    requires WellFormedAgent(a, variable)
    ensures WellFormedAgent(AgentStep(toolsOf, a, k), variable)
  {
  }

  /** The same bounds for a task's description and expected output. */
  lemma {:induction false} TaskWellFormed(toolsOf: ToolReader, variable: string, kws: seq<Keyword>)
    ensures WellFormedTask(TaskOf(toolsOf, variable, kws), variable)
  {
    if kws != [] {
      TaskWellFormed(toolsOf, variable, kws[..|kws| - 1]);
      TaskStepWellFormed(toolsOf, TaskOf(toolsOf, variable, kws[..|kws| - 1]), kws[|kws| - 1], variable);
    }
  }

  lemma TaskStepWellFormed(toolsOf: ToolReader, t: CrewTask, k: Keyword, variable: string)
    requires WellFormedTask(t, variable)
    ensures WellFormedTask(TaskStep(toolsOf, t, k), variable)
  {
  }

  /** Some keyword naming `field` carries a text whose truncation is `v`. */
  predicate TruncatedFrom(kws: seq<Keyword>, field: Field, v: string) {
    exists i :: 0 <= i < |kws| && FieldOf(kws[i].arg) == field && Truncated(kws[i].value, TEXT_LIMIT) == Some(v)
  }

  lemma TruncatedFromPrefix(kws: seq<Keyword>, field: Field, v: string)
    requires kws != [] && TruncatedFrom(kws[..|kws| - 1], field, v)
    ensures TruncatedFrom(kws, field, v)
  {
    var i :| 0 <= i < |kws| - 1 && FieldOf(kws[..|kws| - 1][i].arg) == field && Truncated(kws[..|kws| - 1][i].value, TEXT_LIMIT) == Some(v);
    assert kws[i] == kws[..|kws| - 1][i];
  }

  /** Every goal and backstory is the truncated text of a keyword of that
      name: nothing is invented. */
  lemma {:induction false} AgentTextsFromKeywords(toolsOf: ToolReader, variable: string, kws: seq<Keyword>)
    ensures var a := AgentOf(toolsOf, variable, kws);
      (a.goal.Some? ==> TruncatedFrom(kws, Goal, a.goal.value))
      && (a.backstory.Some? ==> TruncatedFrom(kws, Backstory, a.backstory.value))
  {
    if kws != [] {
      var init := kws[..|kws| - 1];
      var before := AgentOf(toolsOf, variable, init);
      var a := AgentOf(toolsOf, variable, kws);
      AgentTextsFromKeywords(toolsOf, variable, init);
      var k := kws[|kws| - 1];
      if a.goal.Some? {
        if a.goal == before.goal {
          TruncatedFromPrefix(kws, Goal, a.goal.value);
        } else {
          assert FieldOf(k.arg) == Goal;
        }
      }
      if a.backstory.Some? {
        if a.backstory == before.backstory {
          TruncatedFromPrefix(kws, Backstory, a.backstory.value);
        } else {
          assert FieldOf(k.arg) == Backstory;
        }
      }
    }
  }

  /** Every description and expected output of a task is the truncated text
      of a keyword of that name. */
  lemma {:induction false} TaskTextsFromKeywords(toolsOf: ToolReader, variable: string, kws: seq<Keyword>)
    ensures var t := TaskOf(toolsOf, variable, kws);
      (t.description.Some? ==> TruncatedFrom(kws, Description, t.description.value))
      && (t.expectedOutput.Some? ==> TruncatedFrom(kws, ExpectedOutput, t.expectedOutput.value))
  {
    if kws != [] {
      var init := kws[..|kws| - 1];
      var before := TaskOf(toolsOf, variable, init);
      var t := TaskOf(toolsOf, variable, kws);
      TaskTextsFromKeywords(toolsOf, variable, init);
      var k := kws[|kws| - 1];
      if t.description.Some? {
        if t.description == before.description {
          TruncatedFromPrefix(kws, Description, t.description.value);
        } else {
          assert FieldOf(k.arg) == Description;
        }
      }
      if t.expectedOutput.Some? {
        if t.expectedOutput == before.expectedOutput {
          TruncatedFromPrefix(kws, ExpectedOutput, t.expectedOutput.value);
        } else {
          assert FieldOf(k.arg) == ExpectedOutput;
        }
      }
    }
  }

  // ---------------------------------------------------------------------
  // The first pass of `_extract_crew_info`

  /** What the walk has collected so far: the agents and tasks by variable,
      the crew's name and the variables its lists name. */
  datatype CrewScan = CrewScan(
    agents: Dict<CrewAgent>,
    tasks: Dict<CrewTask>,
    name: Option<string>,
    crewAgents: seq<string>,
    crewTasks: seq<string>)

  function EmptyScan(): CrewScan {
    CrewScan(Empty(), Empty(), None, [], [])
  }

  /** Each name target of `... = Agent(...)` gets the agent's details. */
  function AgentTargets(toolsOf: ToolReader, d: Dict<CrewAgent>, targets: seq<Expr>, kws: seq<Keyword>): Dict<CrewAgent> {
    if targets == [] then d
    else
      var before := AgentTargets(toolsOf, d, targets[..|targets| - 1], kws);
      var t := targets[|targets| - 1];
      if t.Name? then Put(before, t.id, AgentOf(toolsOf, t.id, kws)) else before
  }

  function TaskTargets(toolsOf: ToolReader, d: Dict<CrewTask>, targets: seq<Expr>, kws: seq<Keyword>): Dict<CrewTask> {
    if targets == [] then d
    else
      var before := TaskTargets(toolsOf, d, targets[..|targets| - 1], kws);
      var t := targets[|targets| - 1];
      if t.Name? then Put(before, t.id, TaskOf(toolsOf, t.id, kws)) else before
  }

  /** What one node of the walk adds. */
  function ScanStep(toolsOf: ToolReader, st: CrewScan, n: Node): CrewScan {
    if n.S? && n.stmt.Assign? && n.stmt.value.Call? && n.stmt.value.func.Name? then
      var f := n.stmt.value.func.id;
      var targets := n.stmt.targets;
      var kws := n.stmt.value.keywords;
      if f == "Agent" then st.(agents := AgentTargets(toolsOf, st.agents, targets, kws))
      else if f == "Task" then st.(tasks := TaskTargets(toolsOf, st.tasks, targets, kws))
      else if f == "Crew" then
        st.(name := LastNamed(st.name, targets),
            crewAgents := st.crewAgents + KeywordListNames(kws, "agents"),
            crewTasks := st.crewTasks + KeywordListNames(kws, "tasks"))
      else st
    else st
  }

  function Scan(toolsOf: ToolReader, walk: seq<Node>): CrewScan {
    if walk == [] then EmptyScan()
    else ScanStep(toolsOf, Scan(toolsOf, walk[..|walk| - 1]), walk[|walk| - 1])
  }

  /** Every agent is stored under its own variable, and so is every task. */
  ghost predicate Keyed(st: CrewScan) {
    Valid(st.agents) && Valid(st.tasks)
    && (forall v :: v in st.agents.values ==> st.agents.values[v].variable == v)
    && (forall v :: v in st.tasks.values ==> st.tasks.values[v].variable == v)
  }

  lemma {:induction false} AgentTargetsKeyed(toolsOf: ToolReader, d: Dict<CrewAgent>, targets: seq<Expr>, kws: seq<Keyword>)
    requires Valid(d) && forall v :: v in d.values ==> d.values[v].variable == v
    ensures var r := AgentTargets(toolsOf, d, targets, kws);
      Valid(r) && forall v :: v in r.values ==> r.values[v].variable == v
  {
    if targets != [] {
      AgentTargetsKeyed(toolsOf, d, targets[..|targets| - 1], kws);
      var t := targets[|targets| - 1];
      if t.Name? {
        AgentWellFormed(toolsOf, t.id, kws);
      }
    }
  }

  lemma {:induction false} TaskTargetsKeyed(toolsOf: ToolReader, d: Dict<CrewTask>, targets: seq<Expr>, kws: seq<Keyword>)
    requires Valid(d) && forall v :: v in d.values ==> d.values[v].variable == v
    ensures var r := TaskTargets(toolsOf, d, targets, kws);
      Valid(r) && forall v :: v in r.values ==> r.values[v].variable == v
  {
    if targets != [] {
      TaskTargetsKeyed(toolsOf, d, targets[..|targets| - 1], kws);
      var t := targets[|targets| - 1];
      if t.Name? {
        TaskWellFormed(toolsOf, t.id, kws);
      }
    }
  }

  /** The walk keeps every agent and task under its own variable. */
  lemma {:induction false} ScanKeyed(toolsOf: ToolReader, walk: seq<Node>)
    ensures Keyed(Scan(toolsOf, walk))
  {
    if walk != [] {
      var st := Scan(toolsOf, walk[..|walk| - 1]);
      ScanKeyed(toolsOf, walk[..|walk| - 1]);
      var n := walk[|walk| - 1];
      if n.S? && n.stmt.Assign? && n.stmt.value.Call? && n.stmt.value.func.Name? {
        AgentTargetsKeyed(toolsOf, st.agents, n.stmt.targets, n.stmt.value.keywords);
        TaskTargetsKeyed(toolsOf, st.tasks, n.stmt.targets, n.stmt.value.keywords);
      }
    }
  }

  // ---------------------------------------------------------------------
  // The second pass: the crew's members

  /** The tools of an agent, none when it lists none. */
  function AgentTools(a: CrewAgent): seq<ToolInfo> {
    a.tools.GetOr([])
  }

  /** The tools of the agents one after the other. */
  function CrewTools(agents: seq<CrewAgent>): seq<ToolInfo> {
    if agents == [] then [] else CrewTools(agents[..|agents| - 1]) + AgentTools(agents[|agents| - 1])
  }

  /** A tool is among the crew's tools exactly when one of its agents
      lists it. */
  lemma {:induction false} CrewToolsOfAgents(agents: seq<CrewAgent>, t: ToolInfo)
    ensures t in CrewTools(agents) <==> exists i :: 0 <= i < |agents| && t in AgentTools(agents[i])
  {
    if agents != [] {
      var init := agents[..|agents| - 1];
      CrewToolsOfAgents(init, t);
      assert forall i :: 0 <= i < |init| ==> init[i] == agents[i];
    }
  }

  /** The crew's tools number the tools of its agents together. */
  function ToolCount(agents: seq<CrewAgent>): nat {
    if agents == [] then 0 else ToolCount(agents[..|agents| - 1]) + |AgentTools(agents[|agents| - 1])|
  }

  lemma {:induction false} CrewToolsCount(agents: seq<CrewAgent>)
    ensures |CrewTools(agents)| == ToolCount(agents)
  {
    if agents != [] {
      CrewToolsCount(agents[..|agents| - 1]);
    }
  }

  /** `_extract_crew_info`'s result. */
  datatype CrewInfo = CrewInfo(name: Option<string>, agents: seq<CrewAgent>, tasks: seq<CrewTask>, tools: seq<ToolInfo>)

  function InfoOf(st: CrewScan): (r: Option<CrewInfo>)
    ensures r.None? <==> forall i :: 0 <= i < |st.crewAgents| ==> st.crewAgents[i] !in st.agents.values
  {
    PresentEmpty(st.agents, st.crewAgents);
    var agents := ValuesAt(st.agents, st.crewAgents);
    if agents == [] then None
    else Some(CrewInfo(st.name, agents, ValuesAt(st.tasks, st.crewTasks), CrewTools(agents)))
  }

  /** `_extract_crew_info(tree, content)` */
  function CrewInfoOf(re: Engine, tree: Parse, content: string, walk: seq<Node>): Option<CrewInfo> {
    InfoOf(Scan(ToolsFor(re, tree, content), walk))
  }

  /** The crew's members are the variables its agent lists name that were
      assigned by `Agent(...)`, in the crew's order, each with its own
      details; its tasks likewise; its tools are the members' tools. */
  lemma MembersInCrewOrder(re: Engine, tree: Parse, content: string, walk: seq<Node>)
    ensures var st := Scan(ToolsFor(re, tree, content), walk);
      var r := CrewInfoOf(re, tree, content, walk);
      r.Some? ==>
        |r.value.agents| == |Present(st.agents, st.crewAgents)|
        && (forall i :: 0 <= i < |r.value.agents| ==> r.value.agents[i].variable == Present(st.agents, st.crewAgents)[i])
        && |r.value.tasks| == |Present(st.tasks, st.crewTasks)|
        && (forall i :: 0 <= i < |r.value.tasks| ==> r.value.tasks[i].variable == Present(st.tasks, st.crewTasks)[i])
        && r.value.tools == CrewTools(r.value.agents)
  {
    ScanKeyed(ToolsFor(re, tree, content), walk);
  }

  // ---------------------------------------------------------------------
  // `detect`

  predicate Imported(re: Engine, content: string) {
    forall i :: 0 <= i < |REQUIRED_IMPORTS| ==> Found(re, REQUIRED_IMPORTS[i], {}, content)
  }

  predicate Constructed(re: Engine, content: string) {
    exists i :: 0 <= i < |CONSTRUCTION| && Found(re, CONSTRUCTION[i], {Multiline, DotAll}, content)
  }

  /** The result once the gates have passed: always found, a multi-agent
      system, with the crew's name, members and tools when there is a crew. */
  function CrewResult(re: Engine, tree: Parse, filePath: string, content: string, walk: seq<Node>): (r: DetectorResult)
    ensures r.found && r.language == Python && r.frameworks == ["CrewAI"] && r.architecture == MAS
    ensures r.constructorFile == Some(filePath) && r.agentType == LLMAgent
  {
    var base := FoundResult(filePath, Python, ["CrewAI"], MAS);
    match CrewInfoOf(re, tree, content, walk)
    case None => base
    case Some(info) => base.(agentName := info.name, metadata := CrewMetadata(info.agents, info.tasks), tools := info.tools)
  }

  /** `detect(file_path, content)` where `tree` is what parsing the content
      gives. */
  function Detect(re: Engine, tree: Parse, filePath: string, content: string): Outcome {
    if !Imported(re, content) || !Constructed(re, content) then NotDetected
    else
      match tree
      case Parsed(walk) => Detected(CrewResult(re, tree, filePath, content, walk))
      case SyntaxError => NotDetected
      case Crashed => Raised
  }

  /** The gates: no result without all three imports, the construction and
      a parse; a parse that fails otherwise than by a syntax error raises;
      past the gates the result is found whether or not a crew resolves. */
  lemma DetectGates(re: Engine, tree: Parse, filePath: string, content: string)
    ensures Detect(re, tree, filePath, content).Detected? <==> Imported(re, content) && Constructed(re, content) && tree.Parsed?
    ensures Detect(re, tree, filePath, content).Raised? <==> Imported(re, content) && Constructed(re, content) && tree.Crashed?
    ensures Detect(re, tree, filePath, content).Detected? ==>
              var r := Detect(re, tree, filePath, content).result;
              r.found && r.architecture == MAS && r.language == Python
              && (CrewInfoOf(re, tree, content, tree.walk).None? ==> r.metadata == NoMetadata && r.tools == [])
  {
  }
}
