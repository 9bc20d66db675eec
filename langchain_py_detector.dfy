/** `LangChainPythonDetector`'s loops, each proved to compute its
    specification in `LangChainPy`. */
module LangChainPyDetector {
  import opened Wrappers
  import opened Strs
  import opened Regex
  import opened Dicts
  import opened PyAst
  import Paths
  import opened Annotations
  import opened Detection
  import opened Signatures
  import opened SignatureExtractor
  import opened ToolDefs
  import opened LangChainPy

  // ---------------------------------------------------------------------
  // `_extract_pydantic_model_fields`

  /** The `any(...)` over the bases of a class. */
  method HasModelBase(bases: seq<Expr>) returns (b: bool)
    ensures b <==> exists i :: 0 <= i < |bases| && IsModelBase(bases[i])
  {
    for i := 0 to |bases|
      invariant forall j :: 0 <= j < i ==> !IsModelBase(bases[j])
    {
      var base := bases[i];
      if (base.Name? && Contains(base.id, "Model")) || (base.Attribute? && Contains(base.attr, "Model")) {
        return true;
      }
    }
    return false;
  }

  /** The loop over the keywords of `Field(...)`. */
  method FieldCallDefault(kws: seq<Keyword>) returns (d: FieldDefault)
    ensures d == FieldKeywords(kws)
  {
    d := FieldDefault(true, None);
    for i := 0 to |kws|
      invariant d == FieldKeywords(kws[..i])
    {
      assert kws[..i + 1][..i] == kws[..i];
      var kw := kws[i];
      if kw.arg == Some("default") {
        d := FieldDefault(false, Some(ValueString(kw.value)));
      } else if kw.arg == Some("default_factory") {
        d := FieldDefault(false, Some("factory"));
      }
    }
    assert kws[..|kws|] == kws;
  }

  /** One annotated field: its type, whether it is required, its default. */
  method FieldInfo(annotation: Expr, init: Option<Expr>) returns (p: ParamInfo)
    ensures p == FieldParam(annotation, init)
  {
    var fieldType := TypeString(annotation);
    var d := FieldDefault(true, None);
    if init.Some? {
      var v := init.value;
      if v.Call? && v.func.Name? {
        if v.func.id == "Field" {
          d := FieldCallDefault(v.keywords);
        } else {
          d := FieldDefault(false, Some(ValueString(v)));
        }
      } else {
        d := FieldDefault(false, Some(ValueString(v)));
      }
    }
    var required := d.required;
    if Contains(fieldType, "Optional") || Contains(fieldType, "| None") {
      required := false;
    }
    p := ParamInfo(fieldType, required, None, d.default);
  }

  /** The loop over a model class's body. */
  method AddModelFields(d: Dict<ParamInfo>, body: seq<Stmt>) returns (r: Dict<ParamInfo>)
    ensures r == ModelFields(d, body)
  {
    r := d;
    for i := 0 to |body|
      invariant r == ModelFields(d, body[..i])
    {
      assert body[..i + 1][..i] == body[..i];
      var item := body[i];
      if item.AnnAssign? && item.target.Name? {
        var p := FieldInfo(item.annotation, item.init);
        r := Put(r, item.target.id, p);
      }
    }
    assert body[..|body|] == body;
  }

  /** `_extract_pydantic_model_fields(model_name, content)` */
  method ExtractPydanticModelFields(tree: Parse, name: string) returns (d: Dict<ParamInfo>)
    ensures d == PydanticFields(tree, name)
  {
    d := Empty();
    if !tree.Parsed? {
      return;
    }
    var walk := tree.walk;
    for i := 0 to |walk|
      invariant d == ModelFieldsIn(walk[..i], name)
    {
      assert walk[..i + 1][..i] == walk[..i];
      var n := walk[i];
      if n.S? && n.stmt.ClassDef? && n.stmt.name == name {
        var isModel := HasModelBase(n.stmt.bases);
        if isModel {
          d := AddModelFields(d, n.stmt.body);
        }
      }
    }
    assert walk[..|walk|] == walk;
  }

  // ---------------------------------------------------------------------
  // `_extract_tool_from_class`

  method HasToolBase(bases: seq<Expr>) returns (b: bool)
    ensures b <==> exists i :: 0 <= i < |bases| && IsToolBase(bases[i])
  {
    for i := 0 to |bases|
      invariant forall j :: 0 <= j < i ==> !IsToolBase(bases[j])
    {
      var base := bases[i];
      if (base.Name? && Contains(base.id, "Tool")) || (base.Attribute? && Contains(base.attr, "Tool")) {
        return true;
      }
    }
    return false;
  }

  /** The targets of one class-body assignment. */
  method AssignAttrs(a: ClassAttrs, targets: seq<Expr>, value: Expr) returns (r: ClassAttrs)
    ensures r == TargetsAttrs(a, targets, value)
  {
    r := a;
    for i := 0 to |targets|
      invariant r == TargetsAttrs(a, targets[..i], value)
    {
      assert targets[..i + 1][..i] == targets[..i];
      var target := targets[i];
      if target.Name? {
        if target.id == "name" {
          var nameVal := StringValue(value);
          if nameVal.Some? && nameVal.value != "" {
            r := r.(name := nameVal.value);
          }
        } else if target.id == "description" {
          var descVal := StringValue(value);
          if descVal.Some? && descVal.value != "" {
            r := r.(description := descVal);
          }
        }
      }
    }
    assert targets[..|targets|] == targets;
  }

  /** The loop over a tool class's body. */
  method ClassAttributes(body: seq<Stmt>) returns (a: ClassAttrs)
    ensures a == ClassAttrsOf(body)
  {
    a := ClassAttrs("", None, None);
    for i := 0 to |body|
      invariant a == ClassAttrsOf(body[..i])
    {
      assert body[..i + 1][..i] == body[..i];
      var item := body[i];
      if item.Assign? {
        a := AssignAttrs(a, item.targets, item.value);
      } else if item.AnnAssign? && item.target.Name? {
        if item.target.id == "args_schema" && item.init.Some? {
          if item.init.value.Name? {
            a := a.(schema := Some(item.init.value.id));
          }
        }
      }
    }
    assert body[..|body|] == body;
  }

  /** `_extract_tool_from_class(class_name, content, file_path)` */
  method ExtractToolFromClass(tree: Parse, name: string, path: Paths.Path) returns (r: Option<ToolInfo>)
    ensures r == ToolFromClass(tree, name, path)
  {
    if !tree.Parsed? {
      return None;
    }
    var walk := tree.walk;
    var i := 0;
    while i < |walk|
      invariant 0 <= i <= |walk|
      invariant ClassToolIn(tree, walk[i..], name, path) == ClassToolIn(tree, walk, name, path)
    {
      assert walk[i..][1..] == walk[i + 1..];
      var n := walk[i];
      if n.S? && n.stmt.ClassDef? && n.stmt.name == name {
        var isTool := HasToolBase(n.stmt.bases);
        if isTool {
          var attrs := ClassAttributes(n.stmt.body);
          var params := Empty();
          if attrs.schema.Some? && attrs.schema.value != "" {
            params := ExtractPydanticModelFields(tree, attrs.schema.value);
          }
          if attrs.name != "" {
            return Some(ToolInfo(attrs.name, Paths.ToStr(path), 0, attrs.description, params, None, None));
          }
        }
      }
      i := i + 1;
    }
    return None;
  }

  // ---------------------------------------------------------------------
  // `_resolve_python_import`

  /** The candidates `<p>.py` and `<p>/__init__.py`, in that order. */
  method TryCandidates(fs: Paths.FileSystem, p: Paths.Path) returns (r: Resolution)
    ensures r == Candidates(fs, p)
  {
    var py := Paths.WithSuffix(p, ".py");
    if py.None? {
      return ResolveError;
    }
    var candidates := [py.value, Paths.Child(p, "__init__.py")];
    assert candidates[0] == py.value && candidates[1] == Paths.Child(p, "__init__.py");
    for i := 0 to 2
      invariant forall j :: 0 <= j < i ==> !Paths.Exists(fs, candidates[j])
    {
      if Paths.Exists(fs, candidates[i]) {
        return Resolved(candidates[i]);
      }
    }
    return Unresolved;
  }

  /** `candidate_path / part` for each part. */
  method JoinParts(p: Paths.Path, parts: seq<string>) returns (r: Paths.Path)
    ensures r == Descend(p, parts)
  {
    r := p;
    for i := 0 to |parts|
      invariant r == Descend(p, parts[..i])
    {
      assert parts[..i + 1][..i] == parts[..i];
      r := Paths.Child(r, parts[i]);
    }
    assert parts[..|parts|] == parts;
  }

  /** The directory a relative module path names. */
  method RelativeDirectory(dir: Paths.Path, modulePath: string) returns (target: Paths.Path)
    requires StartsWith(modulePath, ".")
    ensures target == RelativeTarget(dir, modulePath)
  {
    var level := 0;
    while level < |modulePath| && modulePath[level] == '.'
      invariant 0 <= level <= |modulePath|
      invariant forall j :: 0 <= j < level ==> modulePath[j] == '.'
    {
      level := level + 1;
    }
    assert level == LeadingDots(modulePath);
    var rest := modulePath[level..];
    target := dir;
    for i := 0 to level - 1
      invariant Ancestor(target, level - 1 - i) == Ancestor(dir, level - 1)
    {
      target := Paths.Parent(target);
    }
    if rest != "" {
      target := JoinParts(target, Split(rest, '.'));
    }
  }

  /** The loop trying at most `SEARCH_LEVELS` directories from `dir`
      upwards; `find` is what trying a candidate gives. */
  method SearchFrom(fs: Paths.FileSystem, ghost find: Finder, parts: seq<string>, dir: Paths.Path) returns (r: Resolution)
    requires forall p {:trigger Candidates(fs, p)} :: find(p) == Candidates(fs, p)
    ensures r == SearchUp(find, dir, parts, SEARCH_LEVELS)
  {
    var searchDir := dir;
    for i := 0 to SEARCH_LEVELS
      invariant SearchUp(find, searchDir, parts, SEARCH_LEVELS - i) == SearchUp(find, dir, parts, SEARCH_LEVELS)
    {
      var candidatePath := JoinParts(searchDir, parts);
      r := TryCandidates(fs, candidatePath);
      if !r.Unresolved? {
        return;
      }
      searchDir := Paths.Parent(searchDir);
      if searchDir == Paths.Parent(searchDir) {
        return Unresolved;
      }
    }
    return Unresolved;
  }

  /** The search for an absolute module path from `dir` upwards. */
  method SearchAbsolute(fs: Paths.FileSystem, modulePath: string, dir: Paths.Path) returns (r: Resolution)
    ensures r == ResolveAbsolute(fs, modulePath, dir)
  {
    r := SearchFrom(fs, TryIn(fs), Split(modulePath, '.'), dir);
  }

  /** `_resolve_python_import(module_path, current_file)` */
  method ResolvePythonImport(fs: Paths.FileSystem, modulePath: string, current: Paths.Path) returns (r: Resolution)
    ensures r == ResolveImport(fs, modulePath, current)
  {
    var currentDir := Paths.Parent(current);
    if StartsWith(modulePath, ".") {
      var targetDir := RelativeDirectory(currentDir, modulePath);
      r := TryCandidates(fs, targetDir);
    } else {
      r := SearchAbsolute(fs, modulePath, currentDir);
    }
  }

  // ---------------------------------------------------------------------
  // `_find_tool_class_from_import`

  /** The aliases of one import, each naming the class followed. */
  method AliasesLookup(env: Env, modulePath: string, names: seq<Alias>, name: string) returns (l: Lookup)
    ensures l == AliasLookup(env, modulePath, names, name)
  {
    var i := 0;
    while i < |names|
      invariant 0 <= i <= |names|
      invariant AliasLookup(env, modulePath, names[i..], name) == AliasLookup(env, modulePath, names, name)
    {
      assert names[i..][1..] == names[i + 1..];
      if names[i].name == name {
        var resolved := ResolvePythonImport(env.fs, modulePath, env.path);
        if resolved.ResolveError? {
          return Abort;
        }
        if resolved.Resolved? && resolved.file in env.fs.files {
          var tool := ExtractToolFromClass(env.parse(env.fs.files[resolved.file]), name, resolved.file);
          if tool.Some? {
            return Hit(tool.value);
          }
        }
      }
      i := i + 1;
    }
    return Miss;
  }

  /** `_find_tool_class_from_import(class_name, content, file_path)`, with
      the dots of a relative import put back in front of the module. */
  method FindToolClassFromImport(env: Env, name: string) returns (r: Option<ToolInfo>)
    ensures r == ToolClassFromImport(env, name)
  {
    var walk := env.walk;
    var i := 0;
    while i < |walk|
      invariant 0 <= i <= |walk|
      invariant ImportLookup(env, walk[i..], name) == ImportLookup(env, walk, name)
    {
      assert walk[i..][1..] == walk[i + 1..];
      var n := walk[i];
      if n.S? && n.stmt.ImportFrom? && n.stmt.source.Some? && n.stmt.source.value != "" {
        var modulePath := Dots(n.stmt.level) + n.stmt.source.value;
        var l := AliasesLookup(env, modulePath, n.stmt.names, name);
        if l.Hit? {
          return Some(l.tool);
        } else if l.Abort? {
          return None;
        }
      }
      i := i + 1;
    }
    return None;
  }

  // ---------------------------------------------------------------------
  // `_extract_function_info`, `_extract_tool_from_call`

  /** `_extract_function_info(func_name, content)` */
  method ExtractFunctionInfo(re: Engine, walk: seq<Node>, name: string) returns (r: Option<Signature>)
    ensures r == FunctionInfo(re, walk, name)
  {
    var i := 0;
    while i < |walk|
      invariant 0 <= i <= |walk|
      invariant FirstFunction(walk[i..], name) == FirstFunction(walk, name)
    {
      assert walk[i..][1..] == walk[i + 1..];
      var n := walk[i];
      if n.S? && n.stmt.FunctionDef? && n.stmt.name == name {
        var signature := ExtractSignature(n.stmt.params, n.stmt.result);
        var merged := MergeDocstringInfo(re, signature, n.stmt.docstring);
        return Some(merged);
      }
      i := i + 1;
    }
    return None;
  }

  /** A lambda's parameters. */
  method AddLambdaParams(d: Dict<ParamInfo>, args: seq<Arg>) returns (r: Dict<ParamInfo>)
    ensures r == LambdaParams(d, args)
  {
    r := d;
    for i := 0 to |args|
      invariant r == LambdaParams(d, args[..i])
    {
      assert args[..i + 1][..i] == args[..i];
      r := Put(r, args[i].name, ParamInfo("Any", true, None, None));
    }
    assert args[..|args|] == args;
  }

  /** One keyword of `Tool(...)` or `StructuredTool(...)`. */
  method CallKeyword(env: Env, cls: string, t: CallTool, k: Keyword) returns (r: CallTool)
    ensures r == CallStep(SignaturesIn(env.re, env.walk), FieldsIn(env.walk), t, CallFieldOf(k.arg, cls), k.value)
  {
    r := t;
    if k.arg == Some("name") {
      var name := StringValue(k.value);
      if name.Some? && name.value != "" {
        r := r.(name := name.value);
      }
    } else if k.arg == Some("description") {
      var desc := StringValue(k.value);
      if desc.Some? && desc.value != "" {
        r := r.(description := desc);
      }
    } else if k.arg == Some("args_schema") && cls == "StructuredTool" {
      if k.value.Name? {
        var params := ExtractPydanticModelFields(Parsed(env.walk), k.value.id);
        r := r.(parameters := params);
      }
    } else if k.arg == Some("func") {
      if k.value.Lambda? {
        var params := AddLambdaParams(r.parameters, k.value.params.args);
        r := r.(parameters := params);
      } else if k.value.Name? {
        var info := ExtractFunctionInfo(env.re, env.walk, k.value.id);
        if info.Some? {
          r := r.(parameters := info.value.parameters, returned := Some(info.value.returned));
        }
      }
    }
  }

  /** `_extract_tool_from_call(node, content, file_path)` */
  method ExtractToolFromCall(env: Env, e: Expr) returns (r: Option<ToolInfo>)
    requires e.Call?
    ensures r == ToolFromCall(env, e)
  {
    if !e.func.Name? {
      return None;
    }
    var cls := e.func.id;
    if cls == "Tool" || cls == "StructuredTool" {
      var t := CallTool("unknown", None, Empty(), None);
      var kws := e.keywords;
      for i := 0 to |kws|
        invariant t == CallToolOf(SignaturesIn(env.re, env.walk), FieldsIn(env.walk), cls, kws[..i])
      {
        assert kws[..i + 1][..i] == kws[..i];
        t := CallKeyword(env, cls, t, kws[i]);
      }
      assert kws[..|kws|] == kws;
      return Some(ToolInfo(t.name, "", 0, t.description, t.parameters, t.returned, None));
    }
    var local := ExtractToolFromClass(Parsed(env.walk), cls, env.path);
    if local.Some? {
      return local;
    }
    var imported := FindToolClassFromImport(env, cls);
    if imported.Some? {
      return imported;
    }
    return Some(BasicTool(cls, Paths.ToStr(env.path), None));
  }

  // ---------------------------------------------------------------------
  // `_find_tool_definition`, `_extract_tools_from_node`

  /** The first pass of `_find_tool_definition`: an assignment of the name
      to a tool construction. */
  method FindAssignedTool(env: Env, name: string) returns (r: Option<ToolInfo>)
    ensures r == AssignedTool(env, env.walk, name)
  {
    var walk := env.walk;
    var i := 0;
    while i < |walk|
      invariant 0 <= i <= |walk|
      invariant AssignedTool(env, walk[i..], name) == AssignedTool(env, walk, name)
    {
      assert walk[i..][1..] == walk[i + 1..];
      var n := walk[i];
      if n.S? && n.stmt.Assign? {
        var targets := n.stmt.targets;
        for j := 0 to |targets|
          invariant !(TargetsName(targets[..j], name) && n.stmt.value.Call? && n.stmt.value.func.Name?)
        {
          if targets[j].Name? && targets[j].id == name && n.stmt.value.Call? {
            var tool := ExtractToolFromCall(env, n.stmt.value);
            if tool.Some? {
              return tool;
            }
          }
          assert targets[..j + 1] == targets[..j] + [targets[j]];
        }
        assert targets[..|targets|] == targets;
      }
      i := i + 1;
    }
    return None;
  }

  /** `_find_tool_definition(name, content, file_path)` */
  method FindToolDefinition(env: Env, name: string) returns (r: Option<ToolInfo>)
    ensures r == ToolDefinition(env, name)
  {
    r := FindAssignedTool(env, name);
    if r.Some? {
      return;
    }
    if Search(env.re, ToolPattern(name), {DotAll, Multiline}, env.content).Some? {
      var f := FindToolFunction(env.walk, name);
      if f.Some? {
        var tool := FunctionTool(env.re, f.value);
        return Some(tool);
      }
    }
    if Search(env.re, ConstructPattern(name), {}, env.content).Some? {
      var nameMatch := Search(env.re, ConstructNamePattern(name), {}, env.content);
      var toolName := if nameMatch.Some? then GroupText(nameMatch.value, 1) else name;
      var descMatch := Search(env.re, ConstructDescriptionPattern(name), {}, env.content);
      var description := if descMatch.Some? then Some(GroupText(descMatch.value, 1)) else None;
      return Some(BasicTool(toolName, "", description));
    }
    return None;
  }

  /** One list item: a name is looked up, a call read as a construction. */
  method ItemToolOf(env: Env, item: Expr) returns (t: Option<ToolInfo>)
    ensures t == ItemTool(env, item)
  {
    t := None;
    if item.Name? {
      t := FindToolDefinition(env, item.id);
    } else if item.Call? {
      t := ExtractToolFromCall(env, item);
    }
  }

  /** The loop over a list's items, keeping those that resolve. */
  method AppendItemTools(env: Env, tools: seq<ToolInfo>, elts: seq<Expr>) returns (r: seq<ToolInfo>)
    ensures r == tools + ItemTools(ItemsFor(env), elts)
  {
    r := tools;
    for i := 0 to |elts|
      invariant r == tools + ItemTools(ItemsFor(env), elts[..i])
    {
      assert elts[..i + 1][..i] == elts[..i];
      var t := ItemToolOf(env, elts[i]);
      if t.Some? {
        r := r + [t.value];
      }
    }
    assert elts[..|elts|] == elts;
  }

  /** The targets of one assignment, for the variable `tools=` names. */
  method AssignedToolLists(env: Env, tools: seq<ToolInfo>, targets: seq<Expr>, value: Expr, variable: string) returns (r: seq<ToolInfo>)
    ensures r == tools + AssignTools(ItemsFor(env), targets, value, variable)
  {
    r := tools;
    for i := 0 to |targets|
      invariant r == tools + AssignTools(ItemsFor(env), targets[..i], value, variable)
    {
      AssignToolsStep(ItemsFor(env), targets, value, variable, i);
      if targets[i].Name? && targets[i].id == variable {
        if value.ListExpr? || value.TupleExpr? {
          r := AppendItemTools(env, r, value.elts);
        }
      }
    }
    assert targets[..|targets|] == targets;
  }

  /** `_extract_tools_from_node(node, content, file_path)` */
  method ExtractToolsFromNode(env: Env, node: Expr) returns (tools: seq<ToolInfo>)
    ensures tools == ToolsFromNode(ItemsFor(env), env.walk, node)
  {
    tools := [];
    if node.Name? {
      var walk := env.walk;
      for i := 0 to |walk|
        invariant tools == VariableTools(ItemsFor(env), walk[..i], node.id)
      {
        assert walk[..i + 1][..i] == walk[..i];
        var n := walk[i];
        if n.S? && n.stmt.Assign? {
          tools := AssignedToolLists(env, tools, n.stmt.targets, n.stmt.value, node.id);
        }
      }
      assert walk[..|walk|] == walk;
    } else if node.ListExpr? || node.TupleExpr? {
      tools := AppendItemTools(env, [], node.elts);
    }
  }

  // ---------------------------------------------------------------------
  // `_extract_agent_info`

  /** One keyword of an agent construction. */
  method InfoKeyword(env: Env, callee: string, info: AgentInfo, k: Keyword) returns (r: AgentInfo)
    ensures r == InfoStep(ToolsFor(env), info, AgentFieldOf(k.arg, callee), k.value)
  {
    r := info;
    if k.arg == Some("tools") {
      var tools := ExtractToolsFromNode(env, k.value);
      r := r.(tools := tools);
    } else if k.arg == Some("agent") && callee == "initialize_agent" {
      if k.value.Attribute? {
        if k.value.attr == REACT {
          r := r.(architecture := ReAct);
        }
      }
    } else if k.arg == Some("agent_name") {
      var name := StringValue(k.value);
      if name.Some? && name.value != "" {
        r := r.(name := name);
      }
    }
  }

  /** The re-parse that names the agent after its variable. */
  method AssignmentName(walk: seq<Node>, callee: string, name: Option<string>) returns (r: Option<string>)
    ensures r == AssignedName(walk, callee, name)
  {
    var i := 0;
    while i < |walk|
      invariant 0 <= i <= |walk|
      invariant AssignedName(walk[i..], callee, name) == AssignedName(walk, callee, name)
    {
      assert walk[i..][1..] == walk[i + 1..];
      var n := walk[i];
      if n.S? && n.stmt.Assign? && n.stmt.value.Call? && n.stmt.value.func == Name(callee) {
        var targets := n.stmt.targets;
        var j := 0;
        while j < |targets|
          invariant 0 <= j <= |targets|
          invariant FirstNamed(targets[j..]) == FirstNamed(targets)
        {
          assert targets[j..][1..] == targets[j + 1..];
          if targets[j].Name? {
            return Some(targets[j].id);
          }
          j := j + 1;
        }
        return name;
      }
      i := i + 1;
    }
    return name;
  }

  /** `_extract_agent_info(node, content, file_path)` */
  method ExtractAgentInfo(env: Env, call: Expr) returns (r: Option<AgentInfo>)
    requires call.Call?
    ensures r == AgentInfoOf(ToolsFor(env), env.walk, call)
  {
    var funcName := CalleeName(call.func);
    if funcName.None? || funcName.value !in AGENT_CALLS {
      return None;
    }
    var callee := funcName.value;
    var info := AgentInfo(None, [], Other);
    var kws := call.keywords;
    for i := 0 to |kws|
      invariant info == KeywordInfo(ToolsFor(env), callee, kws[..i])
    {
      assert kws[..i + 1][..i] == kws[..i];
      info := InfoKeyword(env, callee, info, kws[i]);
    }
    assert kws[..|kws|] == kws;
    var name := AssignmentName(env.walk, callee, info.name);
    info := info.(name := name);
    if info.tools == [] {
      return None;
    }
    return Some(info);
  }

  // ---------------------------------------------------------------------
  // `_has_sql_tools`, `_has_retrieval_tools`, `_detect_provider_frameworks`

  /** `_has_sql_tools(tools, content)` */
  method HasSql(tools: seq<ToolInfo>, content: string) returns (b: bool)
    ensures b == HasSqlTools(tools, content)
  {
    b := FindsAny(content, SQL_INDICATORS);
    if !b {
      b := AnySqlTool(tools);
    }
  }

  /** `_has_retrieval_tools(tools, content)` */
  method HasRetrieval(tools: seq<ToolInfo>, content: string) returns (b: bool)
    ensures b == HasRetrievalTools(tools, content)
  {
    b := FindsAny(content, RETRIEVAL_INDICATORS);
    if !b {
      b := AnyRetrievalTool(tools);
    }
  }

  /** `_detect_provider_frameworks(content)` */
  method DetectProviderFrameworks(re: Engine, content: string) returns (providers: seq<string>)
    ensures providers == Providers(re, content)
  {
    providers := DetectProviders(re, PROVIDER_NAMES, PROVIDER_PATTERNS, content);
  }

  // ---------------------------------------------------------------------
  // `detect`

  /** The loop over the walk that stops at the first agent construction. */
  method FindAgent(env: Env) returns (r: Option<AgentInfo>)
    ensures r == FirstAgent(ToolsFor(env), env.walk, env.walk)
  {
    var walk := env.walk;
    var i := 0;
    while i < |walk|
      invariant 0 <= i <= |walk|
      invariant FirstAgent(ToolsFor(env), walk, walk[i..]) == FirstAgent(ToolsFor(env), walk, walk)
    {
      assert walk[i..][1..] == walk[i + 1..];
      var n := walk[i];
      if n.E? && n.expr.Call? {
        var info := ExtractAgentInfo(env, n.expr);
        if info.Some? {
          return info;
        }
      }
      i := i + 1;
    }
    return None;
  }

  /** The result once the file has parsed. */
  method BuildResult(env: Env) returns (result: DetectorResult)
    ensures result == AgentResult(ToolsFor(env), env.re, env.walk, env.content, env.path)
  {
    result := FoundResult(Paths.ToStr(env.path), Python, ["LangChain"], Other);
    var info := FindAgent(env);
    if info.Some? {
      var sql := HasSql(info.value.tools, env.content);
      var retrieval := HasRetrieval(info.value.tools, env.content);
      var providers := DetectProviderFrameworks(env.re, env.content);
      result := result.(agentName := info.value.name, tools := info.value.tools, architecture := info.value.architecture,
                        agentType := AgentTypeFor(sql, retrieval), frameworks := result.frameworks + providers);
    }
  }

  /** `detect(file_path, content)` */
  method Detect(re: Engine, fs: Paths.FileSystem, parse: string -> Parse, path: Paths.Path, content: string) returns (o: Outcome)
    ensures o == LangChainPy.Detect(re, fs, parse, path, content)
  {
    var present := CheckPresence(re, PRESENCE, content);
    if !present {
      return NotDetected;
    }
    var construction := CheckConstruction(re, CONSTRUCTION, content);
    if construction.None? {
      return NotDetected;
    }
    match parse(content)
    case SyntaxError =>
      return NotDetected;
    case Crashed =>
      return Raised;
    case Parsed(walk) =>
      var result := BuildResult(Env(re, fs, parse, walk, content, path));
      return Detected(result);
  }
}
