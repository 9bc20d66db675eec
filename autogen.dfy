/** What `AutoGenDetector` reads off an AutoGen program: the assistant and
    user-proxy agents assigned to variables, the group chat that lists them
    and the manager that runs it. */
module AutoGen {
  import opened Wrappers
  import opened Strs
  import opened Regex
  import opened Dicts
  import opened PyAst
  import opened Annotations
  import opened Detection

  /** The class names that must all occur in the text. */
  const REQUIRED_NAMES: seq<string> := ["AssistantAgent", "UserProxyAgent", "GroupChat", "GroupChatManager"]

  /** `get_construction_signatures` */
  const CONSTRUCTION: seq<string> := [@"GroupChatManager\s*\([^)]*groupchat\s*="]

  /** The longest system message kept. */
  const MESSAGE_LIMIT: nat := 200

  /** The constructors whose assignments define agents. */
  predicate IsAgentClass(f: string) {
    f == "AssistantAgent" || f == "UserProxyAgent"
  }

  // ---------------------------------------------------------------------
  // `_extract_agent_details`

  /** The keywords an agent constructor is read for. */
  datatype ChatField = AgentName | SystemMessage | MaxAutoReply | CodeExecution | Functions | LlmConfig | OtherChatField

  function ChatFieldName(f: ChatField): string {
    match f
    case AgentName => "name"
    case SystemMessage => "system_message"
    case MaxAutoReply => "max_consecutive_auto_reply"
    case CodeExecution => "code_execution_config"
    case Functions => "function_map"
    case LlmConfig => "llm_config"
    case OtherChatField => ""
  }

  function ChatFieldOf(arg: Option<string>): (f: ChatField)
    ensures f != OtherChatField ==> arg == Some(ChatFieldName(f))
  {
    if arg == Some("name") then AgentName
    else if arg == Some("system_message") then SystemMessage
    else if arg == Some("max_consecutive_auto_reply") then MaxAutoReply
    else if arg == Some("code_execution_config") then CodeExecution
    else if arg == Some("function_map") then Functions
    else if arg == Some("llm_config") then LlmConfig
    else OtherChatField
  }

  /** What one keyword, for field `f` with value `v`, adds to the agent's
      details. */
  function DetailsStep(a: ChatAgent, f: ChatField, v: Expr): ChatAgent {
    match f
    case AgentName => if StringValue(v).Some? && StringValue(v).value != "" then a.(name := StringValue(v)) else a
    case SystemMessage => if Truncated(v, MESSAGE_LIMIT).Some? then a.(systemMessage := Truncated(v, MESSAGE_LIMIT)) else a
    case MaxAutoReply => if v.Constant? then a.(maxConsecutiveAutoReply := Some(v.c)) else a
    case CodeExecution => a.(hasCodeExecution := true)
    case Functions => a.(hasFunctions := true)
    case LlmConfig => a.(hasLlmConfig := true)
    case OtherChatField => a
  }

  /** The agent `kind(...)` with keywords `kws` assigned to `variable`. */
  function ChatAgentOf(variable: string, kind: string, kws: seq<Keyword>): ChatAgent {
    if kws == [] then ChatAgent(variable, kind, None, None, None, false, false, false)
    else DetailsStep(ChatAgentOf(variable, kind, kws[..|kws| - 1]), ChatFieldOf(kws[|kws| - 1].arg), kws[|kws| - 1].value)
  }

  predicate HasKeyword(kws: seq<Keyword>, f: ChatField) {
    exists i :: 0 <= i < |kws| && ChatFieldOf(kws[i].arg) == f
  }

  /** One keyword keeps the variable, the class and the shape of the texts. */
  lemma DetailsStepShape(a: ChatAgent, f: ChatField, v: Expr)
    requires (a.name.Some? ==> a.name.value != "") && Short(a.systemMessage, MESSAGE_LIMIT)
    ensures var b := DetailsStep(a, f, v);
      b.variable == a.variable && b.kind == a.kind
      && (b.name.Some? ==> b.name.value != "") && Short(b.systemMessage, MESSAGE_LIMIT)
  {
  }

  /** One keyword sets a flag exactly when it is that flag's keyword. */
  lemma DetailsStepFlags(a: ChatAgent, f: ChatField, v: Expr)
    ensures var b := DetailsStep(a, f, v);
      && (b.hasCodeExecution <==> a.hasCodeExecution || f == CodeExecution)
      && (b.hasFunctions <==> a.hasFunctions || f == Functions)
      && (b.hasLlmConfig <==> a.hasLlmConfig || f == LlmConfig)
  {
  }

  /** The agent keeps its variable and class, and a name and a system
      message are recorded only when non-empty, the message cut to 200
      characters. */
  lemma {:induction false} ChatAgentShape(variable: string, kind: string, kws: seq<Keyword>)
    ensures var a := ChatAgentOf(variable, kind, kws);
      a.variable == variable && a.kind == kind
      && (a.name.Some? ==> a.name.value != "") && Short(a.systemMessage, MESSAGE_LIMIT)
  {
    if kws != [] {
      ChatAgentShape(variable, kind, kws[..|kws| - 1]);
      DetailsStepShape(ChatAgentOf(variable, kind, kws[..|kws| - 1]), ChatFieldOf(kws[|kws| - 1].arg), kws[|kws| - 1].value);
    }
  }

  /** Each flag is set exactly when its keyword is given, whatever its
      value. */
  lemma {:induction false} ChatAgentFlags(variable: string, kind: string, kws: seq<Keyword>)
    ensures var a := ChatAgentOf(variable, kind, kws);
      && (a.hasCodeExecution <==> HasKeyword(kws, CodeExecution))
      && (a.hasFunctions <==> HasKeyword(kws, Functions))
      && (a.hasLlmConfig <==> HasKeyword(kws, LlmConfig))
  {
    if kws != [] {
      var init := kws[..|kws| - 1];
      var k := kws[|kws| - 1];
      ChatAgentFlags(variable, kind, init);
      DetailsStepFlags(ChatAgentOf(variable, kind, init), ChatFieldOf(k.arg), k.value);
      HasKeywordSnoc(init, k, CodeExecution);
      HasKeywordSnoc(init, k, Functions);
      HasKeywordSnoc(init, k, LlmConfig);
    }
  }

  lemma HasKeywordSnoc(init: seq<Keyword>, k: Keyword, f: ChatField)
    ensures HasKeyword(init + [k], f) <==> HasKeyword(init, f) || ChatFieldOf(k.arg) == f
  {
    var kws := init + [k];
    assert forall i :: 0 <= i < |init| ==> kws[i] == init[i];
    if HasKeyword(kws, f) && !HasKeyword(init, f) {
      var i :| 0 <= i < |kws| && ChatFieldOf(kws[i].arg) == f;
      assert i == |init|;
    }
    if ChatFieldOf(k.arg) == f {
      assert ChatFieldOf(kws[|init|].arg) == f;
    }
  }

  // ---------------------------------------------------------------------
  // The first pass of `_extract_agents_info`

  /** What the walk has collected: the agents by variable, the group chat's
      listed variables and its own variable, the manager's variable and
      whether a manager was given that group chat. */
  datatype ChatScan = ChatScan(
    agents: Dict<ChatAgent>,
    members: seq<string>,
    groupChat: Option<string>,
    name: Option<string>,
    linked: bool)

  function EmptyScan(): ChatScan {
    ChatScan(Empty(), [], None, None, false)
  }

  /** Each name target of `... = kind(...)` gets the agent's details. */
  function AgentTargets(d: Dict<ChatAgent>, targets: seq<Expr>, kind: string, kws: seq<Keyword>): Dict<ChatAgent> {
    if targets == [] then d
    else
      var before := AgentTargets(d, targets[..|targets| - 1], kind, kws);
      var t := targets[|targets| - 1];
      if t.Name? then Put(before, t.id, ChatAgentOf(t.id, kind, kws)) else before
  }

  /** A `groupchat=` keyword naming the group chat recorded so far. */
  function Links(linked: bool, groupChat: Option<string>, kws: seq<Keyword>): bool {
    if kws == [] then linked
    else
      var k := kws[|kws| - 1];
      Links(linked, groupChat, kws[..|kws| - 1])
      || (k.arg == Some("groupchat") && k.value.Name? && groupChat == Some(k.value.id))
  }

  function ScanStep(st: ChatScan, n: Node): ChatScan {
    if n.S? && n.stmt.Assign? && n.stmt.value.Call? && n.stmt.value.func.Name? then
      var f := n.stmt.value.func.id;
      var targets := n.stmt.targets;
      var kws := n.stmt.value.keywords;
      if IsAgentClass(f) then st.(agents := AgentTargets(st.agents, targets, f, kws))
      else if f == "GroupChat" then
        st.(groupChat := LastNamed(st.groupChat, targets), members := st.members + KeywordListNames(kws, "agents"))
      else if f == "GroupChatManager" then
        st.(name := LastNamed(st.name, targets), linked := Links(st.linked, st.groupChat, kws))
      else st
    else st
  }

  function Scan(walk: seq<Node>): ChatScan {
    if walk == [] then EmptyScan() else ScanStep(Scan(walk[..|walk| - 1]), walk[|walk| - 1])
  }

  ghost predicate Keyed(d: Dict<ChatAgent>) {
    Valid(d) && forall v :: v in d.values ==> d.values[v].variable == v && IsAgentClass(d.values[v].kind)
  }

  lemma {:induction false} AgentTargetsKeyed(d: Dict<ChatAgent>, targets: seq<Expr>, kind: string, kws: seq<Keyword>)
    requires Keyed(d) && IsAgentClass(kind)
    ensures Keyed(AgentTargets(d, targets, kind, kws))
  {
    if targets != [] {
      AgentTargetsKeyed(d, targets[..|targets| - 1], kind, kws);
      var t := targets[|targets| - 1];
      if t.Name? {
        ChatAgentShape(t.id, kind, kws);
      }
    }
  }

  /** The walk keeps every agent under its own variable, made by one of the
      two agent classes. */
  lemma {:induction false} ScanKeyed(walk: seq<Node>)
    ensures Keyed(Scan(walk).agents)
  {
    if walk != [] {
      ScanKeyed(walk[..|walk| - 1]);
      var st := Scan(walk[..|walk| - 1]);
      var n := walk[|walk| - 1];
      if n.S? && n.stmt.Assign? && n.stmt.value.Call? && n.stmt.value.func.Name? && IsAgentClass(n.stmt.value.func.id) {
        AgentTargetsKeyed(st.agents, n.stmt.targets, n.stmt.value.func.id, n.stmt.value.keywords);
      }
    }
  }

  /** Only a keyword list literal of a group chat adds members: an `agents=`
      given as a variable, or any other call, adds none. */
  lemma ListedOnlyFromLiterals(kws: seq<Keyword>)
    requires forall i :: 0 <= i < |kws| ==> kws[i].arg == Some("agents") ==> !kws[i].value.ListExpr?
    ensures KeywordListNames(kws, "agents") == []
  {
    if kws != [] {
      ListedOnlyFromLiterals(kws[..|kws| - 1]);
    }
  }

  /** A manager is linked only by a `groupchat=` naming the group chat
      variable that the walk had recorded when it reached the manager. */
  lemma {:induction false} LinksNeedGroupChat(linked: bool, groupChat: Option<string>, kws: seq<Keyword>)
    ensures Links(linked, groupChat, kws) ==>
              linked || exists i :: 0 <= i < |kws| && kws[i].arg == Some("groupchat") && kws[i].value.Name? && groupChat == Some(kws[i].value.id)
  {
    if kws != [] {
      var init := kws[..|kws| - 1];
      LinksNeedGroupChat(linked, groupChat, init);
      assert forall i :: 0 <= i < |init| ==> init[i] == kws[i];
    }
  }

  // ---------------------------------------------------------------------
  // The second pass and `detect`

  /** `_extract_agents_info`'s result. */
  datatype AgentsInfo = AgentsInfo(name: Option<string>, agents: seq<ChatAgent>, linked: bool)

  function InfoOf(st: ChatScan): (r: Option<AgentsInfo>)
    ensures r.None? <==> forall i :: 0 <= i < |st.members| ==> st.members[i] !in st.agents.values
  {
    PresentEmpty(st.agents, st.members);
    var agents := ValuesAt(st.agents, st.members);
    if agents == [] then None else Some(AgentsInfo(st.name, agents, st.linked))
  }

  function AgentsInfoOf(walk: seq<Node>): Option<AgentsInfo> {
    InfoOf(Scan(walk))
  }

  /** The group's members are the variables its list literal names that were
      assigned an assistant or user-proxy agent, in the group chat's order. */
  lemma MembersInGroupOrder(walk: seq<Node>)
    ensures var st := Scan(walk);
      var r := AgentsInfoOf(walk);
      r.Some? ==>
        |r.value.agents| == |Present(st.agents, st.members)|
        && forall i :: 0 <= i < |r.value.agents| ==>
             r.value.agents[i].variable == Present(st.agents, st.members)[i] && IsAgentClass(r.value.agents[i].kind)
  {
    ScanKeyed(walk);
  }

  /** Every required class name occurs in the text. */
  predicate Imported(content: string) {
    forall i :: 0 <= i < |REQUIRED_NAMES| ==> Contains(content, REQUIRED_NAMES[i])
  }

  predicate Constructed(re: Engine, content: string) {
    exists i :: 0 <= i < |CONSTRUCTION| && Found(re, CONSTRUCTION[i], {Multiline, DotAll}, content)
  }

  function ChatResult(filePath: string, walk: seq<Node>): (r: DetectorResult)
    ensures r.found && r.language == Python && r.frameworks == ["AutoGen"] && r.architecture == MAS
    ensures r.constructorFile == Some(filePath) && r.tools == [] && r.agentType == LLMAgent
  {
    var base := FoundResult(filePath, Python, ["AutoGen"], MAS);
    match AgentsInfoOf(walk)
    case None => base
    case Some(info) => base.(agentName := info.name, metadata := GroupChatMetadata(info.agents, info.linked))
  }

  /** `detect(file_path, content)` where `tree` is what parsing the content
      gives. */
  function Detect(re: Engine, tree: Parse, filePath: string, content: string): Outcome {
    if !Imported(content) || !Constructed(re, content) then NotDetected
    else
      match tree
      case Parsed(walk) => Detected(ChatResult(filePath, walk))
      case SyntaxError => NotDetected
      case Crashed => Raised
  }

  /** No result without all four names, the construction and a parse; past
      those gates the result is found whether or not a group resolves. */
  lemma DetectGates(re: Engine, tree: Parse, filePath: string, content: string)
    ensures Detect(re, tree, filePath, content).Detected? <==> Imported(content) && Constructed(re, content) && tree.Parsed?
    ensures Detect(re, tree, filePath, content).Raised? <==> Imported(content) && Constructed(re, content) && tree.Crashed?
    ensures Detect(re, tree, filePath, content).Detected? ==>
              var r := Detect(re, tree, filePath, content).result;
              r.found && r.architecture == MAS && r.language == Python
              && (AgentsInfoOf(tree.walk).None? ==> r.metadata == NoMetadata)
  {
  }
}
