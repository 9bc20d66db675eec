/** `AutoGenDetector`: the loops of `detect`, `_extract_agents_info` and
    `_extract_agent_details`, each proved to compute its specification in
    `AutoGen`. */
module AutoGenDetector {
  import opened Wrappers
  import opened Strs
  import opened Regex
  import opened Dicts
  import opened PyAst
  import opened Annotations
  import opened Detection
  import opened AutoGen

  /** One keyword of an agent constructor. */
  method DetailsKeyword(a: ChatAgent, k: Keyword) returns (r: ChatAgent)
    ensures r == DetailsStep(a, ChatFieldOf(k.arg), k.value)
  {
    r := a;
    if k.arg == Some("name") {
      var name := StringValue(k.value);
      if name.Some? && name.value != "" {
        r := r.(name := name);
      }
    } else if k.arg == Some("system_message") {
      var message := StringValue(k.value);
      if message.Some? && message.value != "" {
        r := r.(systemMessage := Some(Take(message.value, MESSAGE_LIMIT)));
      }
    } else if k.arg == Some("max_consecutive_auto_reply") {
      if k.value.Constant? {
        r := r.(maxConsecutiveAutoReply := Some(k.value.c));
      }
    } else if k.arg == Some("code_execution_config") {
      r := r.(hasCodeExecution := true);
    } else if k.arg == Some("function_map") {
      r := r.(hasFunctions := true);
    } else if k.arg == Some("llm_config") {
      r := r.(hasLlmConfig := true);
    }
  }

  /** `_extract_agent_details(call_node)`, with the variable and class the
      caller adds. */
  method ExtractAgentDetails(variable: string, kind: string, kws: seq<Keyword>) returns (a: ChatAgent)
    ensures a == ChatAgentOf(variable, kind, kws)
  {
    a := ChatAgent(variable, kind, None, None, None, false, false, false);
    for i := 0 to |kws|
      invariant a == ChatAgentOf(variable, kind, kws[..i])
    {
      assert kws[..i + 1][..i] == kws[..i];
      a := DetailsKeyword(a, kws[i]);
    }
    assert kws[..|kws|] == kws;
  }

  /** `agents[agent_name] = {...}` for each name target. */
  method AddAgents(d: Dict<ChatAgent>, targets: seq<Expr>, kind: string, kws: seq<Keyword>) returns (r: Dict<ChatAgent>)
    ensures r == AgentTargets(d, targets, kind, kws)
  {
    r := d;
    for i := 0 to |targets|
      invariant r == AgentTargets(d, targets[..i], kind, kws)
    {
      assert targets[..i + 1][..i] == targets[..i];
      var target := targets[i];
      if target.Name? {
        var details := ExtractAgentDetails(target.id, kind, kws);
        r := Put(r, target.id, details);
      }
    }
    assert targets[..|targets|] == targets;
  }

  /** The loop over `GroupChat(...)`'s keywords filling `group_chat_agents`. */
  method GroupChatAgents(members: seq<string>, kws: seq<Keyword>) returns (r: seq<string>)
    ensures r == members + KeywordListNames(kws, "agents")
  {
    r := members;
    for i := 0 to |kws|
      invariant r == members + KeywordListNames(kws[..i], "agents")
    {
      assert kws[..i + 1][..i] == kws[..i];
      var k := kws[i];
      if k.arg == Some("agents") && k.value.ListExpr? {
        r := AppendNames(r, k.value.elts);
      }
    }
    assert kws[..|kws|] == kws;
  }

  /** The loop over `GroupChatManager(...)`'s keywords checking `groupchat=`. */
  method CheckLinked(linked: bool, groupChat: Option<string>, kws: seq<Keyword>) returns (r: bool)
    ensures r == Links(linked, groupChat, kws)
  {
    r := linked;
    for i := 0 to |kws|
      invariant r == Links(linked, groupChat, kws[..i])
    {
      assert kws[..i + 1][..i] == kws[..i];
      var k := kws[i];
      if k.arg == Some("groupchat") && k.value.Name? && groupChat == Some(k.value.id) {
        r := true;
      }
    }
    assert kws[..|kws|] == kws;
  }

  /** What the first pass does with one node of the walk. */
  method ScanNode(st: ChatScan, n: Node) returns (r: ChatScan)
    ensures r == ScanStep(st, n)
  {
    r := st;
    if n.S? && n.stmt.Assign? && n.stmt.value.Call? && n.stmt.value.func.Name? {
      var f := n.stmt.value.func.id;
      var targets := n.stmt.targets;
      var kws := n.stmt.value.keywords;
      if f == "AssistantAgent" || f == "UserProxyAgent" {
        var agents := AddAgents(st.agents, targets, f, kws);
        r := r.(agents := agents);
      } else if f == "GroupChat" {
        var groupChat := NameTargets(st.groupChat, targets);
        var members := GroupChatAgents(st.members, kws);
        r := r.(groupChat := groupChat, members := members);
      } else if f == "GroupChatManager" {
        var name := NameTargets(st.name, targets);
        var linked := CheckLinked(st.linked, st.groupChat, kws);
        r := r.(name := name, linked := linked);
      }
    }
  }

  /** `_extract_agents_info(tree, content)` */
  method ExtractAgentsInfo(walk: seq<Node>) returns (info: Option<AgentsInfo>)
    ensures info == AgentsInfoOf(walk)
  {
    var st := EmptyScan();
    for i := 0 to |walk|
      invariant st == Scan(walk[..i])
    {
      assert walk[..i + 1][..i] == walk[..i];
      st := ScanNode(st, walk[i]);
    }
    assert walk[..|walk|] == walk;
    var agents := ValuesAtLoop(st.agents, st.members);
    if agents == [] {
      return None;
    }
    return Some(AgentsInfo(st.name, agents, st.linked));
  }

  /** `detect(file_path, content)`, where `tree` is what `ast.parse` gives
      for the content. */
  method Detect(re: Engine, tree: Parse, filePath: string, content: string) returns (o: Outcome)
    ensures o == AutoGen.Detect(re, tree, filePath, content)
  {
    for i := 0 to |REQUIRED_NAMES|
      invariant forall j :: 0 <= j < i ==> Contains(content, REQUIRED_NAMES[j])
    {
      if !Contains(content, REQUIRED_NAMES[i]) {
        return NotDetected;
      }
    }
    var construction := CheckConstruction(re, CONSTRUCTION, content);
    if construction.None? {
      return NotDetected;
    }
    match tree
    case SyntaxError =>
      return NotDetected;
    case Crashed =>
      return Raised;
    case Parsed(walk) =>
      var result := FoundResult(filePath, Python, ["AutoGen"], MAS);
      var agentsInfo := ExtractAgentsInfo(walk);
      if agentsInfo.Some? {
        var info := agentsInfo.value;
        result := result.(agentName := info.name, metadata := GroupChatMetadata(info.agents, info.linked));
      }
      return Detected(result);
  }
}
