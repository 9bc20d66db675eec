/** What `LangChainPythonDetector` reads off a LangChain program: the first
    agent construction with tools, the tools it is given (followed to their
    definitions in the file, in a tool class, in a Pydantic argument schema
    or in an imported module), its architecture and agent type, and the
    provider packages imported.  These are the specification functions;
    `LangChainPyDetector` computes them with the source's loops. */
module LangChainPy {
  import opened Wrappers
  import opened Strs
  import opened Regex
  import opened Dicts
  import opened PyAst
  import Paths
  import opened Annotations
  import opened Detection
  import opened Signatures
  import opened ToolDefs

  /** `get_presence_signatures` */
  const PRESENCE: seq<string> := [
    @"from\s+langchain\.agents\s+import\s+.*initialize_agent",
    @"from\s+langchain\.agents\s+import\s+.*AgentExecutor",
    @"from\s+langchain\.agents\s+import\s+[^#\n]*\bAgentType\b"
  ]

  /** `get_construction_signatures` */
  const CONSTRUCTION: seq<string> := [
    @"initialize_agent\s*\([^)]*tools\s*=",
    @"AgentExecutor\s*\([^)]*tools\s*=",
    @"AgentExecutor\.from_agent_and_tools\s*\("
  ]

  /** The calls that construct an agent. */
  const AGENT_CALLS: seq<string> := ["initialize_agent", "AgentExecutor", "from_agent_and_tools"]

  /** The `AgentType` member that makes an agent ReAct. */
  const REACT: string := "ZERO_SHOT_REACT_DESCRIPTION"

  const SQL_INDICATORS: seq<string> := [
    "SQLDatabaseToolkit", "sql_toolkit", "QuerySQLDataBaseTool", "InfoSQLDatabaseTool", "ListSQLDatabaseTool"
  ]

  const RETRIEVAL_INDICATORS: seq<string> := [
    "VectorStoreRetriever", "vectorstore", "retriever", "RetrievalQA", "ConversationalRetrievalChain",
    "FAISS", "Chroma", "Pinecone", "Weaviate"
  ]

  /** The provider packages, in the order they are reported, and the import
      that reveals each. */
  const PROVIDER_NAMES: seq<string> := [
    "langchain_openai", "langchain_anthropic", "langchain_google_genai", "langchain_community", "langchain_experimental"
  ]

  const PROVIDER_PATTERNS: seq<string> := [
    @"from\s+langchain_openai\s+import",
    @"from\s+langchain_anthropic\s+import",
    @"from\s+langchain_google_genai\s+import",
    @"from\s+langchain_community\s+import",
    @"from\s+langchain_experimental\s+import"
  ]

  /** How many directories an absolute import is looked up in. */
  const SEARCH_LEVELS: nat := 5

  /** What the detector works with for one file: the regular expressions,
      the file system, the parser (for imported files), the walk of the
      file's own syntax tree, its text and its path. */
  datatype Env = Env(
    re: Engine,
    fs: Paths.FileSystem,
    parse: string -> Parse,
    walk: seq<Node>,
    content: string,
    path: Paths.Path)

  // ---------------------------------------------------------------------
  // `_extract_pydantic_model_fields`

  /** A base class whose name mentions `Model`. */
  predicate IsModelBase(b: Expr) {
    (b.Name? && Contains(b.id, "Model")) || (b.Attribute? && Contains(b.attr, "Model"))
  }

  predicate IsModelClass(n: Node, name: string) {
    n.S? && n.stmt.ClassDef? && n.stmt.name == name
    && exists i :: 0 <= i < |n.stmt.bases| && IsModelBase(n.stmt.bases[i])
  }

  /** Whether a field must be given, and the default shown when it need
      not. */
  datatype FieldDefault = FieldDefault(required: bool, default: Option<string>)

  /** The keywords of `Field(...)`: a later `default=` or `default_factory=`
      overrides an earlier one. */
  function FieldKeywords(kws: seq<Keyword>): FieldDefault {
    if kws == [] then FieldDefault(true, None)
    else
      var k := kws[|kws| - 1];
      if k.arg == Some("default") then FieldDefault(false, Some(ValueString(k.value)))
      else if k.arg == Some("default_factory") then FieldDefault(false, Some("factory"))
      else FieldKeywords(kws[..|kws| - 1])
  }

  predicate IsFieldCall(v: Expr) {
    v.Call? && v.func == Name("Field")
  }

  /** The field's value: none, a `Field(...)` call, or a plain default. */
  function DefaultOf(init: Option<Expr>): FieldDefault {
    match init
    case None => FieldDefault(true, None)
    case Some(v) => if IsFieldCall(v) then FieldKeywords(v.keywords) else FieldDefault(false, Some(ValueString(v)))
  }

  predicate IsOptionalType(t: string) {
    Contains(t, "Optional") || Contains(t, "| None")
  }

  /** The parameter an annotated field `name: annotation [= init]` makes. */
  function FieldParam(annotation: Expr, init: Option<Expr>): ParamInfo {
    var t := TypeString(annotation);
    var d := DefaultOf(init);
    ParamInfo(t, d.required && !IsOptionalType(t), None, d.default)
  }

  /** The annotated fields of a class body added to `d`. */
  function ModelFields(d: Dict<ParamInfo>, body: seq<Stmt>): Dict<ParamInfo> {
    if body == [] then d
    else
      var before := ModelFields(d, body[..|body| - 1]);
      var item := body[|body| - 1];
      if item.AnnAssign? && item.target.Name? then Put(before, item.target.id, FieldParam(item.annotation, item.init)) else before
  }

  /** Every model class of that name in the walk adds its fields in turn. */
  function ModelFieldsIn(walk: seq<Node>, name: string): Dict<ParamInfo> {
    if walk == [] then Empty()
    else
      var before := ModelFieldsIn(walk[..|walk| - 1], name);
      var n := walk[|walk| - 1];
      if IsModelClass(n, name) then ModelFields(before, n.stmt.body) else before
  }

  /** `_extract_pydantic_model_fields(model_name, content)`, `tree` being
      what parsing the content gives; nothing when it does not parse. */
  function PydanticFields(tree: Parse, name: string): (r: Dict<ParamInfo>)
    ensures Valid(r)
  {
    if tree.Parsed? then ModelFieldsValid(tree.walk, name); ModelFieldsIn(tree.walk, name) else Empty()
  }

  predicate HasDefault(kws: seq<Keyword>) {
    exists i :: 0 <= i < |kws| && (kws[i].arg == Some("default") || kws[i].arg == Some("default_factory"))
  }

  lemma {:induction false} FieldKeywordsRule(kws: seq<Keyword>)
    ensures FieldKeywords(kws).required <==> !HasDefault(kws)
    ensures FieldKeywords(kws).default.Some? <==> !FieldKeywords(kws).required
  {
    if kws != [] {
      var init := kws[..|kws| - 1];
      FieldKeywordsRule(init);
      assert forall i :: 0 <= i < |init| ==> init[i] == kws[i];
      if !HasDefault(init) && kws[|kws| - 1].arg != Some("default") && kws[|kws| - 1].arg != Some("default_factory") {
        assert !HasDefault(kws);
      }
    }
  }

  /** A field is optional exactly when it has a plain default, a `Field`
      with `default=` or `default_factory=`, or a type mentioning `Optional`
      or `| None`; it shows a default exactly when its value supplies one. */
  lemma FieldRequiredRule(annotation: Expr, init: Option<Expr>)
    ensures var p := FieldParam(annotation, init);
      (!p.required <==> IsOptionalType(p.typ) || (init.Some? && (!IsFieldCall(init.value) || HasDefault(init.value.keywords))))
      && (p.default.Some? <==> init.Some? && (!IsFieldCall(init.value) || HasDefault(init.value.keywords)))
      && p.description.None?
  {
    if init.Some? && IsFieldCall(init.value) {
      FieldKeywordsRule(init.value.keywords);
    }
  }

  lemma {:induction false} ModelFieldsValid(walk: seq<Node>, name: string)
    ensures Valid(ModelFieldsIn(walk, name))
  {
    if walk != [] {
      ModelFieldsValid(walk[..|walk| - 1], name);
      var n := walk[|walk| - 1];
      if IsModelClass(n, name) {
        BodyFieldsValid(ModelFieldsIn(walk[..|walk| - 1], name), n.stmt.body);
      }
    }
  }

  lemma {:induction false} BodyFieldsValid(d: Dict<ParamInfo>, body: seq<Stmt>)
    requires Valid(d)
    ensures Valid(ModelFields(d, body))
  {
    if body != [] {
      BodyFieldsValid(d, body[..|body| - 1]);
    }
  }

  /** A field of a class body is one of its annotated names, or was there
      before. */
  lemma {:induction false} BodyFieldsDeclared(d: Dict<ParamInfo>, body: seq<Stmt>, k: string)
    requires k in ModelFields(d, body).values
    ensures k in d.values || exists j :: 0 <= j < |body| && body[j].AnnAssign? && body[j].target == Name(k)
  {
    if body != [] {
      var init := body[..|body| - 1];
      var item := body[|body| - 1];
      if !(item.AnnAssign? && item.target == Name(k)) {
        assert k in ModelFields(d, init).values;
        BodyFieldsDeclared(d, init, k);
        if !(k in d.values) {
          var j :| 0 <= j < |init| && init[j].AnnAssign? && init[j].target == Name(k);
          assert body[j] == init[j];
        }
      }
    }
  }

  /** The schema lists only fields annotated in a model class of that name. */
  lemma {:induction false} FieldsAreDeclared(walk: seq<Node>, name: string, k: string)
    requires k in ModelFieldsIn(walk, name).values
    ensures exists i, j :: 0 <= i < |walk| && IsModelClass(walk[i], name)
              && 0 <= j < |walk[i].stmt.body| && walk[i].stmt.body[j].AnnAssign? && walk[i].stmt.body[j].target == Name(k)
  {
    var init := walk[..|walk| - 1];
    var n := walk[|walk| - 1];
    if IsModelClass(n, name) {
      BodyFieldsDeclared(ModelFieldsIn(init, name), n.stmt.body, k);
      if k in ModelFieldsIn(init, name).values {
        FieldsAreDeclared(init, name, k);
        var i, j :| 0 <= i < |init| && IsModelClass(init[i], name)
                    && 0 <= j < |init[i].stmt.body| && init[i].stmt.body[j].AnnAssign? && init[i].stmt.body[j].target == Name(k);
        assert walk[i] == init[i];
      } else {
        var j :| 0 <= j < |n.stmt.body| && n.stmt.body[j].AnnAssign? && n.stmt.body[j].target == Name(k);
        assert walk[|walk| - 1] == n;
      }
    } else {
      FieldsAreDeclared(init, name, k);
      var i, j :| 0 <= i < |init| && IsModelClass(init[i], name)
                  && 0 <= j < |init[i].stmt.body| && init[i].stmt.body[j].AnnAssign? && init[i].stmt.body[j].target == Name(k);
      assert walk[i] == init[i];
    }
  }

  // ---------------------------------------------------------------------
  // `_extract_tool_from_class`

  /** A base class whose name mentions `Tool`. */
  predicate IsToolBase(b: Expr) {
    (b.Name? && Contains(b.id, "Tool")) || (b.Attribute? && Contains(b.attr, "Tool"))
  }

  predicate IsToolClass(n: Node, name: string) {
    n.S? && n.stmt.ClassDef? && n.stmt.name == name
    && exists i :: 0 <= i < |n.stmt.bases| && IsToolBase(n.stmt.bases[i])
  }

  /** The class attributes a tool class is read for. */
  datatype ClassAttrs = ClassAttrs(name: string, description: Option<string>, schema: Option<string>)

  /** `name = "..."` or `description = "..."` through one target. */
  function TargetAttr(a: ClassAttrs, target: Expr, value: Expr): ClassAttrs {
    if target == Name("name") && Given(StringValue(value)) then a.(name := StringValue(value).value)
    else if target == Name("description") && Given(StringValue(value)) then a.(description := StringValue(value))
    else a
  }

  function TargetsAttrs(a: ClassAttrs, targets: seq<Expr>, value: Expr): ClassAttrs {
    if targets == [] then a
    else TargetAttr(TargetsAttrs(a, targets[..|targets| - 1], value), targets[|targets| - 1], value)
  }

  /** What one statement of the class body sets. */
  function AttrStep(a: ClassAttrs, item: Stmt): ClassAttrs {
    if item.Assign? then TargetsAttrs(a, item.targets, item.value)
    else if item.AnnAssign? && item.target == Name("args_schema") && item.init.Some? && item.init.value.Name? then
      a.(schema := Some(item.init.value.id))
    else a
  }

  function ClassAttrsOf(body: seq<Stmt>): ClassAttrs {
    if body == [] then ClassAttrs("", None, None) else AttrStep(ClassAttrsOf(body[..|body| - 1]), body[|body| - 1])
  }

  /** The tool a tool class defines, its schema's fields read from `tree`. */
  function ClassTool(tree: Parse, attrs: ClassAttrs, path: Paths.Path): ToolInfo {
    var params := if attrs.schema.Some? && attrs.schema.value != "" then PydanticFields(tree, attrs.schema.value) else Empty();
    ToolInfo(attrs.name, Paths.ToStr(path), 0, attrs.description, params, None, None)
  }

  /** The first tool class of that name in the walk that sets a name. */
  function ClassToolIn(tree: Parse, walk: seq<Node>, name: string, path: Paths.Path): (r: Option<ToolInfo>)
    ensures r.Some? ==> r.value.name != "" && r.value.filePath == Paths.ToStr(path) && r.value.result.None?
  {
    if walk == [] then None
    else if IsToolClass(walk[0], name) && ClassAttrsOf(walk[0].stmt.body).name != "" then
      Some(ClassTool(tree, ClassAttrsOf(walk[0].stmt.body), path))
    else ClassToolIn(tree, walk[1..], name, path)
  }

  /** `_extract_tool_from_class(class_name, content, file_path)`, `tree`
      being what parsing the content gives. */
  function ToolFromClass(tree: Parse, name: string, path: Paths.Path): (r: Option<ToolInfo>)
    ensures r.Some? ==> r.value.name != "" && r.value.filePath == Paths.ToStr(path)
    ensures !tree.Parsed? ==> r.None?
  {
    if tree.Parsed? then ClassToolIn(tree, tree.walk, name, path) else None
  }

  predicate NamedToolClass(n: Node, name: string) {
    IsToolClass(n, name) && ClassAttrsOf(n.stmt.body).name != ""
  }

  /** The class found is the first tool class of that name whose body sets
      a non-empty name; none is found only when there is no such class. */
  lemma {:induction false} ToolClassIsFirst(tree: Parse, walk: seq<Node>, name: string, path: Paths.Path)
    ensures var r := ClassToolIn(tree, walk, name, path);
      (r.None? <==> forall i :: 0 <= i < |walk| ==> !NamedToolClass(walk[i], name))
      && (r.Some? ==> exists i :: 0 <= i < |walk| && NamedToolClass(walk[i], name)
                        && r.value.name == ClassAttrsOf(walk[i].stmt.body).name
                        && forall j :: 0 <= j < i ==> !NamedToolClass(walk[j], name))
  {
    if walk != [] && !NamedToolClass(walk[0], name) {
      ToolClassIsFirst(tree, walk[1..], name, path);
      assert forall i :: 0 < i < |walk| ==> walk[i] == walk[1..][i - 1];
      var r := ClassToolIn(tree, walk, name, path);
      if r.Some? {
        var i :| 0 <= i < |walk[1..]| && NamedToolClass(walk[1..][i], name)
                  && r.value.name == ClassAttrsOf(walk[1..][i].stmt.body).name
                  && forall j :: 0 <= j < i ==> !NamedToolClass(walk[1..][j], name);
        assert walk[i + 1] == walk[1..][i];
      }
    }
  }

  predicate SetsName(body: seq<Stmt>, v: string) {
    exists j, t :: 0 <= j < |body| && body[j].Assign? && 0 <= t < |body[j].targets|
                   && body[j].targets[t] == Name("name") && StringValue(body[j].value) == Some(v)
  }

  lemma {:induction false} TargetsAttrsName(a: ClassAttrs, targets: seq<Expr>, value: Expr)
    ensures var b := TargetsAttrs(a, targets, value);
      b.name == a.name || (StringValue(value) == Some(b.name) && exists t :: 0 <= t < |targets| && targets[t] == Name("name"))
  {
    if targets != [] {
      var init := targets[..|targets| - 1];
      TargetsAttrsName(a, init, value);
      if TargetsAttrs(a, init, value).name != a.name {
        var t :| 0 <= t < |init| && init[t] == Name("name");
        assert targets[t] == init[t];
      }
    }
  }

  /** A tool class's name is the text of one of its `name = "..."`
      attributes, never made up. */
  lemma {:induction false} ClassNameIsAssigned(body: seq<Stmt>)
    ensures ClassAttrsOf(body).name == "" || SetsName(body, ClassAttrsOf(body).name)
  {
    if body != [] {
      var init := body[..|body| - 1];
      var item := body[|body| - 1];
      ClassNameIsAssigned(init);
      var before := ClassAttrsOf(init);
      var after := ClassAttrsOf(body);
      if item.Assign? {
        TargetsAttrsName(before, item.targets, item.value);
        if after.name != before.name {
          var t :| 0 <= t < |item.targets| && item.targets[t] == Name("name");
          assert body[|body| - 1] == item;
          assert SetsName(body, after.name);
        }
      }
      if after.name == before.name && after.name != "" {
        var j, t :| 0 <= j < |init| && init[j].Assign? && 0 <= t < |init[j].targets|
                    && init[j].targets[t] == Name("name") && StringValue(init[j].value) == Some(before.name);
        assert body[j] == init[j];
      }
    }
  }

  // ---------------------------------------------------------------------
  // `_resolve_python_import`

  /** A file found, none found, or the ValueError `with_suffix` raises for
      the root. */
  datatype Resolution = Resolved(file: Paths.Path) | Unresolved | ResolveError

  /** Trying `<p>.py`, then `<p>/__init__.py`. */
  function Candidates(fs: Paths.FileSystem, p: Paths.Path): (r: Resolution)
    ensures r.Resolved? ==> Paths.Exists(fs, r.file)
    ensures r.ResolveError? <==> p == []
  {
    match Paths.WithSuffix(p, ".py")
    case None => ResolveError
    case Some(py) =>
      if Paths.Exists(fs, py) then Resolved(py)
      else if Paths.Exists(fs, Paths.Child(p, "__init__.py")) then Resolved(Paths.Child(p, "__init__.py"))
      else Unresolved
  }

  /** How many dots a module path starts with. */
  function LeadingDots(s: string): (n: nat)
    ensures n <= |s| && (forall i :: 0 <= i < n ==> s[i] == '.') && (n < |s| ==> s[n] != '.')
  {
    if s == [] || s[0] != '.' then 0 else 1 + LeadingDots(s[1..])
  }

  /** `k` dots. */
  function Dots(k: nat): (r: string)
    ensures |r| == k && forall i :: 0 <= i < k ==> r[i] == '.'
  {
    if k == 0 then "" else "." + Dots(k - 1)
  }

  /** `p.parent` taken `k` times. */
  function Ancestor(p: Paths.Path, k: nat): (r: Paths.Path)
    ensures |r| == if k <= |p| then |p| - k else 0
  {
    if k == 0 then p else Ancestor(Paths.Parent(p), k - 1)
  }

  /** `p / part` for each part in turn. */
  function Descend(p: Paths.Path, parts: seq<string>): Paths.Path {
    if parts == [] then p else Paths.Child(Descend(p, parts[..|parts| - 1]), parts[|parts| - 1])
  }

  /** What trying a module path gives. */
  type Finder = Paths.Path -> Resolution

  function TryIn(fs: Paths.FileSystem): Finder {
    p => Candidates(fs, p)
  }

  /** The loop over at most `tries` directories from `dir` upwards, which
      stops before the root. */
  function SearchUp(find: Finder, dir: Paths.Path, parts: seq<string>, tries: nat): Resolution
    decreases tries
  {
    if tries == 0 then Unresolved
    else
      match find(Descend(dir, parts))
      case Unresolved =>
        var up := Paths.Parent(dir);
        if up == Paths.Parent(up) then Unresolved else SearchUp(find, up, parts, tries - 1)
      case r => r
  }

  /** The directory a relative module path names from `dir`: up one
      directory for each leading dot after the first, then down through the
      dotted parts. */
  function RelativeTarget(dir: Paths.Path, modulePath: string): Paths.Path
    requires StartsWith(modulePath, ".")
  {
    var level := LeadingDots(modulePath);
    var rest := modulePath[level..];
    var target := Ancestor(dir, level - 1);
    if rest != "" then Descend(target, Split(rest, '.')) else target
  }

  /** An absolute module path, looked up from `dir` upwards. */
  function ResolveAbsolute(fs: Paths.FileSystem, modulePath: string, dir: Paths.Path): Resolution {
    SearchUp(TryIn(fs), dir, Split(modulePath, '.'), SEARCH_LEVELS)
  }

  /** `_resolve_python_import(module_path, current_file)` */
  function ResolveImport(fs: Paths.FileSystem, modulePath: string, current: Paths.Path): Resolution {
    var dir := Paths.Parent(current);
    if StartsWith(modulePath, ".") then Candidates(fs, RelativeTarget(dir, modulePath))
    else ResolveAbsolute(fs, modulePath, dir)
  }

  lemma {:induction false} LeadingDotsOf(k: nat, m: string)
    requires m == [] || m[0] != '.'
    ensures LeadingDots(Dots(k) + m) == k
    ensures (Dots(k) + m)[k..] == m
  {
    if k > 0 {
      assert (Dots(k) + m)[1..] == Dots(k - 1) + m;
      LeadingDotsOf(k - 1, m);
    }
  }

  /** `k` leading dots name the directory `k - 1` levels up, then the
      module's parts below it. */
  lemma RelativeTargetOf(dir: Paths.Path, k: nat, m: string)
    requires k >= 1 && (m == [] || m[0] != '.')
    ensures RelativeTarget(dir, Dots(k) + m) == if m == "" then Ancestor(dir, k - 1) else Descend(Ancestor(dir, k - 1), Split(m, '.'))
  {
    LeadingDotsOf(k, m);
  }

  /** A relative import with `k` leading dots goes up `k - 1` directories
      from the importing file's, descends through the module's parts and
      tries `<p>.py`, then `<p>/__init__.py`. */
  lemma RelativeResolution(fs: Paths.FileSystem, k: nat, m: string, text: string, current: Paths.Path)
    requires k >= 1 && (m == [] || m[0] != '.') && text == Dots(k) + m
    ensures ResolveImport(fs, text, current) ==
              Candidates(fs, if m == "" then Ancestor(Paths.Parent(current), k - 1) else Descend(Ancestor(Paths.Parent(current), k - 1), Split(m, '.')))
  {
    RelativeTargetOf(Paths.Parent(current), k, m);
    assert (Dots(k) + m)[0] == '.';
  }

  /** The ancestor `dir[..n]` is searched: it is one of the five nearest
      directories, and not the root unless the search starts there. */
  predicate Searched(dir: Paths.Path, n: nat) {
    |dir| - SEARCH_LEVELS < n <= |dir| && (n > 0 || dir == [])
  }

  /** `r` is what the ancestor `dir[..n]` gives, and no nearer one has a
      candidate. */
  predicate FirstAt(find: Finder, dir: Paths.Path, parts: seq<string>, n: nat, r: Resolution)
    requires n <= |dir|
  {
    find(Descend(dir[..n], parts)) == r
    && forall m :: n < m <= |dir| ==> find(Descend(dir[..m], parts)).Unresolved?
  }

  lemma {:induction false} SearchUpFirst(find: Finder, dir: Paths.Path, parts: seq<string>, tries: nat)
    ensures var r := SearchUp(find, dir, parts, tries);
      !r.Unresolved? ==> exists n: nat :: |dir| - tries < n <= |dir| && (n > 0 || dir == []) && FirstAt(find, dir, parts, n, r)
    decreases tries
  {
    if tries > 0 {
      var r := SearchUp(find, dir, parts, tries);
      assert dir[..|dir|] == dir;
      var up := Paths.Parent(dir);
      if !find(Descend(dir, parts)).Unresolved? {
        assert FirstAt(find, dir, parts, |dir|, r);
      } else if up != Paths.Parent(up) {
        SearchUpFirst(find, up, parts, tries - 1);
        if !r.Unresolved? {
          var n: nat :| |up| - (tries - 1) < n <= |up| && (n > 0 || up == []) && FirstAt(find, up, parts, n, r);
          assert up == dir[..|dir| - 1];
          assert dir[..n] == up[..n];
          forall m | n < m <= |dir|
            ensures find(Descend(dir[..m], parts)).Unresolved?
          {
            if m < |dir| {
              assert dir[..m] == up[..m];
            }
          }
          assert FirstAt(find, dir, parts, n, r);
        }
      }
    }
  }

  /** An absolute import resolves to the candidate of the nearest searched
      directory that has one. */
  lemma AbsoluteResolution(fs: Paths.FileSystem, modulePath: string, current: Paths.Path)
    requires !StartsWith(modulePath, ".")
    ensures var r := ResolveImport(fs, modulePath, current);
      var dir := Paths.Parent(current);
      !r.Unresolved? ==> exists n: nat :: Searched(dir, n) && FirstAt(TryIn(fs), dir, Split(modulePath, '.'), n, r)
  {
    SearchUpFirst(TryIn(fs), Paths.Parent(current), Split(modulePath, '.'), SEARCH_LEVELS);
  }

  // ---------------------------------------------------------------------
  // `_find_tool_class_from_import`

  /** The outcome of following imports: a tool found, none, or an
      exception that ends the search. */
  datatype Lookup = Hit(tool: ToolInfo) | Miss | Abort

  /** The module text the code hands to `_resolve_python_import`:
      `node.module`, which the parser gives without the leading dots of a
      relative import (it keeps them apart as `level`). */
  function ImportSource(st: Stmt): string
    requires st.ImportFrom? && st.source.Some?
  {
    st.source.value
  }

  /** The module text with the leading dots restored, as the resolver's
      relative branch expects. */
  function ImportSourceCorrected(st: Stmt): string
    requires st.ImportFrom? && st.source.Some?
  {
    Dots(st.level) + st.source.value
  }

  /** The aliases of one import from `module`, looking for `name`. */
  function AliasLookup(env: Env, modulePath: string, names: seq<Alias>, name: string): Lookup {
    if names == [] then Miss
    else if names[0].name != name then AliasLookup(env, modulePath, names[1..], name)
    else
      match ResolveImport(env.fs, modulePath, env.path)
      case ResolveError => Abort
      case Unresolved => AliasLookup(env, modulePath, names[1..], name)
      case Resolved(p) =>
        if p in env.fs.files then
          match ToolFromClass(env.parse(env.fs.files[p]), name, p)
          case Some(t) => Hit(t)
          case None => AliasLookup(env, modulePath, names[1..], name)
        else AliasLookup(env, modulePath, names[1..], name)
  }

  predicate IsModuleImport(n: Node) {
    n.S? && n.stmt.ImportFrom? && n.stmt.source.Some? && n.stmt.source.value != ""
  }

  function ImportLookup(env: Env, walk: seq<Node>, name: string): Lookup {
    if walk == [] then Miss
    else if IsModuleImport(walk[0]) then
      match AliasLookup(env, ImportSourceCorrected(walk[0].stmt), walk[0].stmt.names, name)
      case Miss => ImportLookup(env, walk[1..], name)
      case r => r
    else ImportLookup(env, walk[1..], name)
  }

  /** `_find_tool_class_from_import(class_name, content, file_path)` */
  function ToolClassFromImport(env: Env, name: string): (r: Option<ToolInfo>)
    ensures r.Some? ==> r.value.name != ""
  {
    match ImportLookup(env, env.walk, name)
    case Hit(t) => ToolsFromImportsNamed(env, env.walk, name); Some(t)
    case _ => None
  }

  lemma {:induction false} AliasToolsNamed(env: Env, modulePath: string, names: seq<Alias>, name: string)
    ensures AliasLookup(env, modulePath, names, name).Hit? ==> AliasLookup(env, modulePath, names, name).tool.name != ""
  {
    if names != [] {
      AliasToolsNamed(env, modulePath, names[1..], name);
    }
  }

  lemma {:induction false} ToolsFromImportsNamed(env: Env, walk: seq<Node>, name: string)
    ensures ImportLookup(env, walk, name).Hit? ==> ImportLookup(env, walk, name).tool.name != ""
  {
    if walk != [] {
      ToolsFromImportsNamed(env, walk[1..], name);
      if IsModuleImport(walk[0]) {
        AliasToolsNamed(env, ImportSourceCorrected(walk[0].stmt), walk[0].stmt.names, name);
      }
    }
  }

  /** As written, `from ..tools import FetchTool` in `/pkg/sub/agent.py` is
      looked up as the absolute module `tools`: when `/pkg/sub/tools.py`
      exists as well as `/pkg/tools.py`, the class is read from the first,
      not from the module the import names.  Here `pkg` is any directory,
      `sub` any subdirectory, and `name` any plain module name. */
  lemma RelativeImportAsWritten(fs: Paths.FileSystem, pkg: Paths.Path, sub: string, file: string, name: string, names: seq<Alias>)
    requires sub != "" && file != "" && name != "" && '.' !in name && name[0] != '.'
    requires (pkg + [sub] + [name + ".py"]) in fs.files && (pkg + [name + ".py"]) in fs.files
    ensures var st := ImportFrom(Some(name), names, 2);
      var current := pkg + [sub] + [file];
      ResolveImport(fs, ImportSource(st), current) == Resolved(pkg + [sub] + [name + ".py"])
      && ResolveImport(fs, ImportSourceCorrected(st), current) == Resolved(pkg + [name + ".py"])
  {
    var st := ImportFrom(Some(name), names, 2);
    var current := pkg + [sub] + [file];
    assert Paths.Parent(current) == pkg + [sub];
    assert !StartsWith(name, ".");
    NearestModuleFile(fs, pkg + [sub], name);
    RelativeImportCorrected(fs, st, current);
    assert Ancestor(pkg + [sub], 1) == pkg;
    SplitPlain(name);
    ModuleFile(fs, pkg, name);
  }

  lemma SplitPlain(name: string)
    requires '.' !in name
    ensures Split(name, '.') == [name]
  {
  }

  /** An absolute import of a plain module name finds `<dir>/<name>.py`
      first when it exists. */
  lemma NearestModuleFile(fs: Paths.FileSystem, dir: Paths.Path, name: string)
    requires name != "" && '.' !in name && (dir + [name + ".py"]) in fs.files
    ensures ResolveAbsolute(fs, name, dir) == Resolved(dir + [name + ".py"])
  {
    SplitPlain(name);
    ModuleFile(fs, dir, name);
  }

  /** A module file `<dir>/<name>.py` that exists is what trying
      `<dir>/<name>` gives. */
  lemma ModuleFile(fs: Paths.FileSystem, dir: Paths.Path, name: string)
    requires name != "" && '.' !in name && (dir + [name + ".py"]) in fs.files
    ensures Candidates(fs, Descend(dir, [name])) == Resolved(dir + [name + ".py"])
  {
    assert Descend(dir, [name]) == dir + [name];
    assert Paths.LastIndexOf(name, '.').None?;
    assert Paths.Name(dir + [name]) == name && Paths.Parent(dir + [name]) == dir;
    assert name[..|name| - 0] == name;
  }

  /** With the dots restored, an import `from <k dots><m> import ...` is
      looked up where it names: `k - 1` directories up, through `m`'s parts. */
  lemma RelativeImportCorrected(fs: Paths.FileSystem, st: Stmt, current: Paths.Path)
    requires st.ImportFrom? && st.source.Some? && st.level >= 1
    requires st.source.value != "" && st.source.value[0] != '.'
    ensures ResolveImport(fs, ImportSourceCorrected(st), current) ==
              Candidates(fs, Descend(Ancestor(Paths.Parent(current), st.level - 1), Split(st.source.value, '.')))
  {
    RelativeResolution(fs, st.level, st.source.value, ImportSourceCorrected(st), current);
  }

  // ---------------------------------------------------------------------
  // `_extract_function_info`

  /** The first function definition of that name in the walk. */
  function FirstFunction(walk: seq<Node>, name: string): (f: Option<Stmt>)
    ensures f.Some? ==> f.value.FunctionDef? && f.value.name == name
  {
    if walk == [] then None
    else if walk[0].S? && walk[0].stmt.FunctionDef? && walk[0].stmt.name == name then Some(walk[0].stmt)
    else FirstFunction(walk[1..], name)
  }

  /** `_extract_function_info(func_name, content)`: the merged signature of
      the first function of that name. */
  function FunctionInfo(re: Engine, walk: seq<Node>, name: string): Option<Signature> {
    match FirstFunction(walk, name)
    case Some(f) => Some(MergedSignature(re, SignatureOf(f.params, f.result), f.docstring))
    case None => None
  }

  // ---------------------------------------------------------------------
  // `_extract_tool_from_call`

  /** The signature of a function and the fields of a model, by name. */
  type SignatureReader = string -> Option<Signature>
  type FieldReader = string -> Dict<ParamInfo>

  function SignaturesIn(re: Engine, walk: seq<Node>): SignatureReader {
    f => FunctionInfo(re, walk, f)
  }

  function FieldsIn(walk: seq<Node>): FieldReader {
    m => PydanticFields(Parsed(walk), m)
  }

  /** What `Tool(...)` or `StructuredTool(...)` is read for so far. */
  datatype CallTool = CallTool(name: string, description: Option<string>, parameters: Dict<ParamInfo>, returned: Option<ReturnInfo>)

  /** The keywords a tool construction is read for; `args_schema=` counts
      only for `StructuredTool`. */
  datatype CallField = ToolName | ToolDescription | ArgsSchema | Func | OtherCallField

  function CallFieldOf(arg: Option<string>, cls: string): (f: CallField)
    ensures f == ToolName ==> arg == Some("name")
    ensures f == ToolDescription ==> arg == Some("description")
    ensures f == ArgsSchema ==> arg == Some("args_schema") && cls == "StructuredTool"
    ensures f == Func ==> arg == Some("func")
  {
    if arg == Some("name") then ToolName
    else if arg == Some("description") then ToolDescription
    else if arg == Some("args_schema") && cls == "StructuredTool" then ArgsSchema
    else if arg == Some("func") then Func
    else OtherCallField
  }

  /** A lambda's positional parameters, each of any type and required. */
  function LambdaParams(d: Dict<ParamInfo>, args: seq<Arg>): Dict<ParamInfo> {
    if args == [] then d
    else Put(LambdaParams(d, args[..|args| - 1]), args[|args| - 1].name, ParamInfo("Any", true, None, None))
  }

  function CallStep(sigs: SignatureReader, fields: FieldReader, t: CallTool, f: CallField, v: Expr): CallTool {
    match f
    case ToolName => if Given(StringValue(v)) then t.(name := StringValue(v).value) else t
    case ToolDescription => if Given(StringValue(v)) then t.(description := StringValue(v)) else t
    case ArgsSchema => if v.Name? then t.(parameters := fields(v.id)) else t
    case Func =>
      if v.Lambda? then t.(parameters := LambdaParams(t.parameters, v.params.args))
      else if v.Name? then
        (match sigs(v.id)
         case Some(sig) => t.(parameters := sig.parameters, returned := Some(sig.returned))
         case None => t)
      else t
    case OtherCallField => t
  }

  function CallToolOf(sigs: SignatureReader, fields: FieldReader, cls: string, kws: seq<Keyword>): CallTool {
    if kws == [] then CallTool("unknown", None, Empty(), None)
    else
      var k := kws[|kws| - 1];
      CallStep(sigs, fields, CallToolOf(sigs, fields, cls, kws[..|kws| - 1]), CallFieldOf(k.arg, cls), k.value)
  }

  predicate NamesTool(kws: seq<Keyword>, v: string) {
    exists i :: 0 <= i < |kws| && kws[i].arg == Some("name") && StringValue(kws[i].value) == Some(v)
  }

  /** A constructed tool is called `"unknown"` unless a `name=` keyword
      gives it a non-empty name; then it has the last such name. */
  lemma {:induction false} CallToolName(sigs: SignatureReader, fields: FieldReader, cls: string, kws: seq<Keyword>)
    ensures var n := CallToolOf(sigs, fields, cls, kws).name;
      n == "unknown" || (n != "" && NamesTool(kws, n))
  {
    if kws != [] {
      var init := kws[..|kws| - 1];
      CallToolName(sigs, fields, cls, init);
      assert forall i :: 0 <= i < |init| ==> init[i] == kws[i];
    }
  }

  /** The tool `Tool(...)` or `StructuredTool(...)` constructs. */
  function StandardTool(sigs: SignatureReader, fields: FieldReader, cls: string, kws: seq<Keyword>): ToolInfo {
    var t := CallToolOf(sigs, fields, cls, kws);
    ToolInfo(t.name, "", 0, t.description, t.parameters, t.returned, None)
  }

  /** `_extract_tool_from_call(node, content, file_path)`: a construction of
      a standard tool, else a tool class of the file, else one imported,
      else a bare record under the class's name. */
  function ToolFromCall(env: Env, e: Expr): (r: Option<ToolInfo>)
    requires e.Call?
    ensures r.Some? <==> e.func.Name?
  {
    if !e.func.Name? then None
    else
      var cls := e.func.id;
      if cls == "Tool" || cls == "StructuredTool" then
        Some(StandardTool(SignaturesIn(env.re, env.walk), FieldsIn(env.walk), cls, e.keywords))
      else
        match ToolFromClass(Parsed(env.walk), cls, env.path)
        case Some(t) => Some(t)
        case None =>
          match ToolClassFromImport(env, cls)
          case Some(t) => Some(t)
          case None => Some(BasicTool(cls, Paths.ToStr(env.path), None))
  }

  /** A call of a custom tool class is never dropped: with no class found in
      the file or through its imports, it is recorded under the class's
      name with the file's path. */
  lemma CustomClassFallback(env: Env, e: Expr)
    requires e.Call? && e.func.Name? && e.func.id != "" && e.func.id != "Tool" && e.func.id != "StructuredTool"
    ensures var r := ToolFromCall(env, e);
      r.Some? && r.value.name != ""
      && (ToolFromClass(Parsed(env.walk), e.func.id, env.path).None? && ToolClassFromImport(env, e.func.id).None? ==>
            r.value.name == e.func.id && r.value.filePath == Paths.ToStr(env.path))
  {
  }

  // ---------------------------------------------------------------------
  // `_find_tool_definition`

  /** The first assignment of a call to a name target `name` whose call
      makes a tool. */
  function AssignedTool(env: Env, walk: seq<Node>, name: string): Option<ToolInfo> {
    if walk == [] then None
    else
      var n := walk[0];
      if n.S? && n.stmt.Assign? && TargetsName(n.stmt.targets, name) && n.stmt.value.Call? && n.stmt.value.func.Name? then
        ToolFromCall(env, n.stmt.value)
      else AssignedTool(env, walk[1..], name)
  }

  /** What follows the escaped name in the construction patterns. */
  const CONSTRUCT_TAIL: string := @"\s*=\s*(?:Tool|StructuredTool)\s*\("
  const CONSTRUCT_NAME_TAIL: string := @"\s*=\s*(?:Tool|StructuredTool)\s*\([^)]*name\s*=\s*[""\']([^""\']+)[""\']"
  const CONSTRUCT_DESCRIPTION_TAIL: string :=
    @"\s*=\s*(?:Tool|StructuredTool)\s*\([^)]*description\s*=\s*[""\']([^""\']+)[""\']"

  /** `name = Tool(` or `name = StructuredTool(` in the text. */
  function ConstructPattern(name: string): string {
    Escape(name) + CONSTRUCT_TAIL
  }

  function ConstructNamePattern(name: string): string {
    Escape(name) + CONSTRUCT_NAME_TAIL
  }

  function ConstructDescriptionPattern(name: string): string {
    Escape(name) + CONSTRUCT_DESCRIPTION_TAIL
  }

  /** The text-level reading of a construction the syntax tree missed. */
  function ConstructedTool(re: Engine, name: string, content: string): (r: Option<ToolInfo>)
    ensures r.Some? <==> Found(re, ConstructPattern(name), {}, content)
    ensures r.Some? ==> r.value.filePath == "" && r.value.parameters.keys == []
  {
    if !Found(re, ConstructPattern(name), {}, content) then None
    else
      var nm := Search(re, ConstructNamePattern(name), {}, content);
      var dm := Search(re, ConstructDescriptionPattern(name), {}, content);
      Some(BasicTool(if nm.Some? then GroupText(nm.value, 1) else name, "", if dm.Some? then Some(GroupText(dm.value, 1)) else None))
  }

  /** `_find_tool_definition(name, content, file_path)`: a tool assigned to
      the name, else a decorated function of that name, else a construction
      found in the text. */
  function ToolDefinition(env: Env, name: string): (r: Option<ToolInfo>)
    ensures r.None? ==> !Found(env.re, ConstructPattern(name), {}, env.content)
  {
    match AssignedTool(env, env.walk, name)
    case Some(t) => Some(t)
    case None =>
      var f := if Found(env.re, ToolPattern(name), {DotAll, Multiline}, env.content) then FirstToolFunction(env.walk, name) else None;
      if f.Some? then Some(ToolFromFunction(env.re, f.value)) else ConstructedTool(env.re, name, env.content)
  }

  // ---------------------------------------------------------------------
  // `_extract_tools_from_node`

  /** The tool of one list item, if it resolves. */
  type ItemReader = Expr -> Option<ToolInfo>

  /** A name is looked up, a call read as a construction; nothing else is a
      tool. */
  function ItemTool(env: Env, item: Expr): Option<ToolInfo> {
    if item.Name? then ToolDefinition(env, item.id)
    else if item.Call? then ToolFromCall(env, item)
    else None
  }

  function ItemsFor(env: Env): ItemReader {
    item => ItemTool(env, item)
  }

  /** The items that resolve, in order. */
  function ItemTools(items: ItemReader, elts: seq<Expr>): seq<ToolInfo> {
    if elts == [] then []
    else
      var t := items(elts[|elts| - 1]);
      ItemTools(items, elts[..|elts| - 1]) + (if t.Some? then [t.value] else [])
  }

  /** How many items resolve. */
  function Resolvable(items: ItemReader, elts: seq<Expr>): nat {
    if elts == [] then 0 else Resolvable(items, elts[..|elts| - 1]) + (if items(elts[|elts| - 1]).Some? then 1 else 0)
  }

  /** The tools of an assignment `... = [...]`, once for each of its
      targets that is the variable. */
  function AssignTools(items: ItemReader, targets: seq<Expr>, value: Expr, variable: string): seq<ToolInfo> {
    if targets == [] then []
    else
      AssignTools(items, targets[..|targets| - 1], value, variable)
      + (if targets[|targets| - 1] == Name(variable) && (value.ListExpr? || value.TupleExpr?) then ItemTools(items, value.elts) else [])
  }

  /** One more target adds the tools of the value exactly when it is the
      variable and the value is a list or tuple. */
  lemma AssignToolsStep(items: ItemReader, targets: seq<Expr>, value: Expr, variable: string, i: nat)
    requires i < |targets|
    ensures AssignTools(items, targets[..i + 1], value, variable)
      == AssignTools(items, targets[..i], value, variable)
         + (if targets[i] == Name(variable) && (value.ListExpr? || value.TupleExpr?) then ItemTools(items, value.elts) else [])
  {
    assert targets[..i + 1][..i] == targets[..i];
  }

  /** Every assignment of a list or tuple to the variable, in walk order. */
  function VariableTools(items: ItemReader, walk: seq<Node>, variable: string): seq<ToolInfo> {
    if walk == [] then []
    else
      var n := walk[|walk| - 1];
      VariableTools(items, walk[..|walk| - 1], variable)
      + (if n.S? && n.stmt.Assign? then AssignTools(items, n.stmt.targets, n.stmt.value, variable) else [])
  }

  /** `_extract_tools_from_node(node, content, file_path)` */
  function ToolsFromNode(items: ItemReader, walk: seq<Node>, node: Expr): seq<ToolInfo> {
    if node.Name? then VariableTools(items, walk, node.id)
    else if node.ListExpr? || node.TupleExpr? then ItemTools(items, node.elts)
    else []
  }

  /** One tool per item that resolves, each the tool of some item: an item
      that resolves to nothing is dropped rather than recorded by name. */
  lemma {:induction false} ItemToolsResolved(items: ItemReader, elts: seq<Expr>)
    ensures |ItemTools(items, elts)| == Resolvable(items, elts)
    ensures forall t :: t in ItemTools(items, elts) ==> exists i :: 0 <= i < |elts| && items(elts[i]) == Some(t)
  {
    if elts != [] {
      var init := elts[..|elts| - 1];
      ItemToolsResolved(items, init);
      forall t | t in ItemTools(items, elts)
        ensures exists i :: 0 <= i < |elts| && items(elts[i]) == Some(t)
      {
        if t in ItemTools(items, init) {
          var i :| 0 <= i < |init| && items(init[i]) == Some(t);
          assert elts[i] == init[i];
        } else {
          assert items(elts[|elts| - 1]) == Some(t);
        }
      }
    }
  }

  /** Only items that resolve count: no tool at all when none does. */
  lemma {:induction false} NothingResolves(items: ItemReader, elts: seq<Expr>)
    requires forall i :: 0 <= i < |elts| ==> items(elts[i]).None?
    ensures ItemTools(items, elts) == []
  {
    if elts != [] {
      NothingResolves(items, elts[..|elts| - 1]);
    }
  }

  /** A tool call with a plain class name always resolves; a bare name
      resolves to nothing when the file holds no definition of it, not
      even a textual `name = Tool(`. */
  lemma ItemResolution(env: Env, item: Expr)
    ensures item.Call? && item.func.Name? ==> ItemTool(env, item).Some?
    ensures item.Name? && ItemTool(env, item).None? ==> !Found(env.re, ConstructPattern(item.id), {}, env.content)
  {
  }

  // ---------------------------------------------------------------------
  // `_extract_agent_info`

  /** The tools a `tools=` value gives. */
  type ToolReader = Expr -> seq<ToolInfo>

  function ToolsFor(env: Env): ToolReader {
    e => ToolsFromNode(ItemsFor(env), env.walk, e)
  }

  /** `_extract_agent_info`'s result. */
  datatype AgentInfo = AgentInfo(name: Option<string>, tools: seq<ToolInfo>, architecture: Architecture)

  /** The keywords an agent construction is read for; `agent=` counts only
      for `initialize_agent`. */
  datatype AgentField = ToolsArg | AgentArg | AgentNameArg | OtherAgentArg

  function AgentFieldOf(arg: Option<string>, callee: string): (f: AgentField)
    ensures f == ToolsArg <==> arg == Some("tools")
    ensures f == AgentArg <==> arg == Some("agent") && callee == "initialize_agent"
    ensures f == AgentNameArg <==> arg == Some("agent_name")
  {
    if arg == Some("tools") then ToolsArg
    else if arg == Some("agent") && callee == "initialize_agent" then AgentArg
    else if arg == Some("agent_name") then AgentNameArg
    else OtherAgentArg
  }

  predicate IsReActType(v: Expr) {
    v.Attribute? && v.attr == REACT
  }

  function InfoStep(toolsOf: ToolReader, info: AgentInfo, f: AgentField, v: Expr): AgentInfo {
    match f
    case ToolsArg => info.(tools := toolsOf(v))
    case AgentArg => if IsReActType(v) then info.(architecture := ReAct) else info
    case AgentNameArg => if Given(StringValue(v)) then info.(name := StringValue(v)) else info
    case OtherAgentArg => info
  }

  function KeywordInfo(toolsOf: ToolReader, callee: string, kws: seq<Keyword>): AgentInfo {
    if kws == [] then AgentInfo(None, [], Other)
    else
      var k := kws[|kws| - 1];
      InfoStep(toolsOf, KeywordInfo(toolsOf, callee, kws[..|kws| - 1]), AgentFieldOf(k.arg, callee), k.value)
  }

  /** The first name target. */
  function FirstNamed(targets: seq<Expr>): (r: Option<string>)
    ensures r.Some? ==> TargetsName(targets, r.value)
  {
    if targets == [] then None
    else if targets[0].Name? then Some(targets[0].id)
    else
      var r := FirstNamed(targets[1..]);
      assert r.Some? ==> exists i :: 0 <= i < |targets[1..]| && targets[1..][i] == Name(r.value) && targets[i + 1] == targets[1..][i];
      r
  }

  /** The assignment search that ends `_extract_agent_info`: the first
      assignment of a call `callee(...)` decides, its first name target
      naming the agent.  (The re-parsed tree's nodes are never the call
      being read, so only the callee's name is compared.) */
  function AssignedName(walk: seq<Node>, callee: string, name: Option<string>): Option<string> {
    if walk == [] then name
    else
      var n := walk[0];
      if n.S? && n.stmt.Assign? && n.stmt.value.Call? && n.stmt.value.func == Name(callee) then
        (match FirstNamed(n.stmt.targets) case Some(v) => Some(v) case None => name)
      else AssignedName(walk[1..], callee, name)
  }

  predicate IsAgentCall(e: Expr) {
    e.Call? && CalleeName(e.func).Some? && CalleeName(e.func).value in AGENT_CALLS
  }

  /** `_extract_agent_info(node, content, file_path)` */
  function AgentInfoOf(toolsOf: ToolReader, walk: seq<Node>, call: Expr): (r: Option<AgentInfo>)
    requires call.Call?
    ensures r.Some? ==> IsAgentCall(call) && r.value.tools != []
  {
    if !IsAgentCall(call) then None
    else
      var callee := CalleeName(call.func).value;
      var info := KeywordInfo(toolsOf, callee, call.keywords);
      var named := info.(name := AssignedName(walk, callee, info.name));
      if named.tools != [] then Some(named) else None
  }

  predicate AsksReAct(callee: string, kws: seq<Keyword>) {
    callee == "initialize_agent"
    && exists i :: 0 <= i < |kws| && kws[i].arg == Some("agent") && IsReActType(kws[i].value)
  }

  /** ReAct exactly when `initialize_agent` is given
      `agent=<...>.ZERO_SHOT_REACT_DESCRIPTION`; otherwise `"Other"`. */
  lemma {:induction false} ReActRule(toolsOf: ToolReader, callee: string, kws: seq<Keyword>)
    ensures KeywordInfo(toolsOf, callee, kws).architecture == if AsksReAct(callee, kws) then ReAct else Other
  {
    if kws != [] {
      var init := kws[..|kws| - 1];
      ReActRule(toolsOf, callee, init);
      assert forall i :: 0 <= i < |init| ==> init[i] == kws[i];
      var k := kws[|kws| - 1];
      if AsksReAct(callee, kws) && !AsksReAct(callee, init) {
        assert k.arg == Some("agent") && IsReActType(k.value);
      }
    }
  }

  /** The tools are those of the last `tools=` keyword, none without one. */
  lemma {:induction false} ToolsRule(toolsOf: ToolReader, callee: string, kws: seq<Keyword>)
    ensures var t := KeywordInfo(toolsOf, callee, kws).tools;
      t == [] || exists i :: 0 <= i < |kws| && kws[i].arg == Some("tools") && t == toolsOf(kws[i].value)
    ensures (forall i :: 0 <= i < |kws| ==> kws[i].arg != Some("tools")) ==> KeywordInfo(toolsOf, callee, kws).tools == []
  {
    if kws != [] {
      var init := kws[..|kws| - 1];
      ToolsRule(toolsOf, callee, init);
      assert forall i :: 0 <= i < |init| ==> init[i] == kws[i];
    }
  }

  /** An agent is reported only for one of the three constructions, only
      with tools, and with the architecture its `agent=` asks for. */
  lemma AgentInfoRules(toolsOf: ToolReader, walk: seq<Node>, call: Expr)
    requires call.Call?
    ensures var r := AgentInfoOf(toolsOf, walk, call);
      r.Some? ==>
        IsAgentCall(call) && r.value.tools != []
        && r.value.architecture == (if AsksReAct(CalleeName(call.func).value, call.keywords) then ReAct else Other)
        && exists i :: 0 <= i < |call.keywords| && call.keywords[i].arg == Some("tools")
  {
    if IsAgentCall(call) {
      ReActRule(toolsOf, CalleeName(call.func).value, call.keywords);
      ToolsRule(toolsOf, CalleeName(call.func).value, call.keywords);
    }
  }

  // ---------------------------------------------------------------------
  // `_has_sql_tools`, `_has_retrieval_tools`, `_detect_provider_frameworks`

  /** `_has_sql_tools(tools, content)` */
  predicate HasSqlTools(tools: seq<ToolInfo>, content: string) {
    MentionsAny(content, SQL_INDICATORS) || exists i :: 0 <= i < |tools| && SqlTool(tools[i])
  }

  /** `_has_retrieval_tools(tools, content)` */
  predicate HasRetrievalTools(tools: seq<ToolInfo>, content: string) {
    MentionsAny(content, RETRIEVAL_INDICATORS) || exists i :: 0 <= i < |tools| && RetrievalTool(tools[i])
  }

  /** `_detect_provider_frameworks(content)` */
  function Providers(re: Engine, content: string): seq<string> {
    ProvidersAmong(re, PROVIDER_NAMES, PROVIDER_PATTERNS, content, |PROVIDER_NAMES|)
  }

  /** A provider package is reported exactly when its import occurs, each
      at most once and in table order. */
  lemma ProvidersReported(re: Engine, content: string)
    ensures forall i :: 0 <= i < |PROVIDER_NAMES| ==>
              (PROVIDER_NAMES[i] in Providers(re, content) <==> Found(re, PROVIDER_PATTERNS[i], {}, content))
    ensures forall p :: p in Providers(re, content) ==> p in PROVIDER_NAMES
  {
    assert Distinct(PROVIDER_NAMES);
    ProvidersExactly(re, PROVIDER_NAMES, PROVIDER_PATTERNS, content);
  }

  // ---------------------------------------------------------------------
  // `detect`

  /** The first call in the walk, from `nodes` on, that constructs an agent
      with tools. */
  function FirstAgent(toolsOf: ToolReader, walk: seq<Node>, nodes: seq<Node>): Option<AgentInfo> {
    if nodes == [] then None
    else if nodes[0].E? && nodes[0].expr.Call? && AgentInfoOf(toolsOf, walk, nodes[0].expr).Some? then
      AgentInfoOf(toolsOf, walk, nodes[0].expr)
    else FirstAgent(toolsOf, walk, nodes[1..])
  }

  /** The result once the gates have passed: always found, filled in from
      the first agent when there is one. */
  function AgentResult(toolsOf: ToolReader, re: Engine, walk: seq<Node>, content: string, path: Paths.Path): (r: DetectorResult)
    ensures r.found && r.language == Python && |r.frameworks| >= 1 && r.frameworks[0] == "LangChain"
    ensures r.constructorFile == Some(Paths.ToStr(path)) && r.architecture != MAS
  {
    var base := FoundResult(Paths.ToStr(path), Python, ["LangChain"], Other);
    match FirstAgent(toolsOf, walk, walk)
    case None => base
    case Some(info) =>
      FirstAgentRules(toolsOf, walk, walk);
      base.(agentName := info.name, tools := info.tools, architecture := info.architecture,
            agentType := AgentTypeFor(HasSqlTools(info.tools, content), HasRetrievalTools(info.tools, content)),
            frameworks := ["LangChain"] + Providers(re, content))
  }

  lemma {:induction false} FirstAgentRules(toolsOf: ToolReader, walk: seq<Node>, nodes: seq<Node>)
    ensures var r := FirstAgent(toolsOf, walk, nodes);
      r.Some? ==> r.value.tools != [] && r.value.architecture != MAS
  {
    if nodes != [] {
      FirstAgentRules(toolsOf, walk, nodes[1..]);
      if nodes[0].E? && nodes[0].expr.Call? && AgentInfoOf(toolsOf, walk, nodes[0].expr).Some? {
        AgentInfoRules(toolsOf, walk, nodes[0].expr);
      }
    }
  }

  /** The agent reported is the first one found: no earlier call of the walk
      constructs an agent with tools. */
  lemma {:induction false} FirstAgentIsFirst(toolsOf: ToolReader, walk: seq<Node>, nodes: seq<Node>)
    ensures var r := FirstAgent(toolsOf, walk, nodes);
      (r.None? <==> forall i :: 0 <= i < |nodes| && nodes[i].E? && nodes[i].expr.Call? ==> AgentInfoOf(toolsOf, walk, nodes[i].expr).None?)
      && (r.Some? ==> exists i :: 0 <= i < |nodes| && nodes[i].E? && nodes[i].expr.Call? && r == AgentInfoOf(toolsOf, walk, nodes[i].expr)
                        && forall j :: 0 <= j < i && nodes[j].E? && nodes[j].expr.Call? ==> AgentInfoOf(toolsOf, walk, nodes[j].expr).None?)
  {
    if nodes != [] && !(nodes[0].E? && nodes[0].expr.Call? && AgentInfoOf(toolsOf, walk, nodes[0].expr).Some?) {
      FirstAgentIsFirst(toolsOf, walk, nodes[1..]);
      assert forall i :: 0 < i < |nodes| ==> nodes[i] == nodes[1..][i - 1];
      var r := FirstAgent(toolsOf, walk, nodes);
      if r.Some? {
        var i :| 0 <= i < |nodes[1..]| && nodes[1..][i].E? && nodes[1..][i].expr.Call? && r == AgentInfoOf(toolsOf, walk, nodes[1..][i].expr)
                  && forall j :: 0 <= j < i && nodes[1..][j].E? && nodes[1..][j].expr.Call? ==> AgentInfoOf(toolsOf, walk, nodes[1..][j].expr).None?;
        assert nodes[i + 1] == nodes[1..][i];
      }
    }
  }

  /** SQL is tried first, retrieval only when SQL fails. */
  lemma AgentTypeRule(toolsOf: ToolReader, re: Engine, walk: seq<Node>, content: string, path: Paths.Path)
    ensures var r := AgentResult(toolsOf, re, walk, content, path);
      var info := FirstAgent(toolsOf, walk, walk);
      (info.None? ==> r.agentType == LLMAgent && r.tools == [] && r.frameworks == ["LangChain"] && r.architecture == Other)
      && (info.Some? ==>
            r.tools == info.value.tools
            && (r.agentType == SQLAgent <==> HasSqlTools(r.tools, content))
            && (r.agentType == RetrievalAgent <==> !HasSqlTools(r.tools, content) && HasRetrievalTools(r.tools, content))
            && r.frameworks == ["LangChain"] + Providers(re, content))
  {
  }

  predicate Present(re: Engine, content: string) {
    exists i :: 0 <= i < |PRESENCE| && Found(re, PRESENCE[i], {Multiline}, content)
  }

  predicate Constructed(re: Engine, content: string) {
    exists i :: 0 <= i < |CONSTRUCTION| && Found(re, CONSTRUCTION[i], {Multiline, DotAll}, content)
  }

  /** `detect(file_path, content)`, `parse` giving what `ast.parse` does for
      any text (the file's own and those of imported modules). */
  function Detect(re: Engine, fs: Paths.FileSystem, parse: string -> Parse, path: Paths.Path, content: string): Outcome {
    if !Present(re, content) || !Constructed(re, content) then NotDetected
    else
      match parse(content)
      case Parsed(walk) => Detected(AgentResult(ToolsFor(Env(re, fs, parse, walk, content, path)), re, walk, content, path))
      case SyntaxError => NotDetected
      case Crashed => Raised
  }

  /** No result without a presence signature, a construction and a parse;
      past those gates the result is always found, agent or not. */
  lemma DetectGates(re: Engine, fs: Paths.FileSystem, parse: string -> Parse, path: Paths.Path, content: string)
    ensures Detect(re, fs, parse, path, content).Detected? <==> Present(re, content) && Constructed(re, content) && parse(content).Parsed?
    ensures Detect(re, fs, parse, path, content).Raised? <==> Present(re, content) && Constructed(re, content) && parse(content).Crashed?
    ensures Detect(re, fs, parse, path, content).Detected? ==>
              var r := Detect(re, fs, parse, path, content).result;
              r.found && r.language == Python && r.frameworks[0] == "LangChain"
  {
  }
}
