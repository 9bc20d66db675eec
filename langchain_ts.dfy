/** `LangChainTypeScriptDetector` (agentbom/detectors/langchain_ts.py): the
    text patterns it reads a TypeScript file with, and what it reports, as
    functions.  Every search goes through the regex engine `w.re`; files
    are read from `w.fs`; the schema extractors are the list `xs` held by
    the detector's `SchemaExtractorFactory`. */
module LangChainTs {
  import opened Wrappers
  import opened Strs
  import opened Regex
  import opened Dicts
  import Paths
  import opened Detection
  import opened Schemas

  /** What the detector reads the world through: the regex engine, the
      file system, and the registered extractors' behaviour. */
  datatype World = World(re: Engine, fs: Paths.FileSystem, accepts: CustomAccepts, extract: CustomExtract)

  const PRESENCE: seq<string> := [
    @"import\s*\{[^}]*AgentExecutor[^}]*\}\s*from\s*[""\']langchain/agents[""\']",
    @"import\s*\{[^}]*AgentExecutor[^}]*\}\s*from\s*[""\']@langchain/[^""\']+[""\']",
    @"import\s*\{[^}]*createReactAgent[^}]*\}\s*from\s*[""\']@langchain/langgraph/prebuilt[""\']",
    @"from\s+[""\']@langchain/langgraph/prebuilt[""\']"
  ]

  const CONSTRUCTION: seq<string> := [
    @"new\s+AgentExecutor\s*\(\s*\{[^}]*tools\s*:\s*\[",
    @"new\s+AgentExecutor\s*\(\s*\{[^}]*tools\s*:\s*\w+",
    @"AgentExecutor\.fromAgentAndTools\s*\(",
    @"createReactAgent\s*\(\s*\{[^}]*tools\s*:\s*\[",
    @"createReactAgent\s*\(\s*\{[^}]*tools\s*:\s*\w+",
    @"(?:export\s+)?(?:async\s+)?function\s+create\w*Agent\s*\("
  ]

  /** `_has_tool_imports`' patterns. */
  const TOOL_IMPORTS: seq<string> := [
    @"import\s*\{[^}]*tool[^}]*\}\s*from\s*[""\']@langchain/core/tools[""\']",
    @"import\s*\{[^}]*DynamicStructuredTool[^}]*\}\s*from",
    @"import\s*\{[^}]*Tool[^}]*\}\s*from\s*[""\']langchain/tools[""\']",
    @"import\s*\{[^}]*StructuredToolInterface[^}]*\}\s*from\s*[""\']@langchain/core/tools[""\']",
    @"import\s*\{[^}]*create\w+Tool[^}]*\}\s*from",
    @"tools\s*:\s*\["
  ]

  /** The three agent shapes, tried in this order. */
  const EXECUTOR := @"(?:const|let|var)\s+(\w+)\s*=\s*new\s+AgentExecutor\s*\(\s*\{([^}]+)\}"
  const REACT_AGENT := @"(?:const|let|var)\s+(\w+)\s*=\s*createReactAgent\s*\(\s*\{([^}]+)\}"
  const FACTORY_AGENT := @"(?:export\s+)?(?:async\s+)?function\s+(create\w*Agent)\s*\("

  const TOOLS_INLINE := @"tools\s*:\s*\[([^\]]*)\]"
  const TOOLS_REF := @"tools\s*:\s*(\w+)"
  const FACTORY_REACT := @"createReactAgent\s*\(\s*\{[^}]*tools\s*:\s*\[([^\]]+)\]"
  const TOOL_FACTORY_CALL := @"(?:const|let|var)\s+(\w+)\s*=\s*(create\w+Tool)\s*\("

  const NAME_FIELD := @"name\s*:\s*[""\']([^""\']+)[""\']"
  const DESCRIPTION_FIELD := @"description\s*:\s*[""\']([^""\']+)[""\']"
  const DESCRIPTION_TEMPLATE := @"description\s*:\s*`([^`]+)`"
  /** `schema: z.object({...})`, without and with the closing parenthesis. */
  const ZOD_SCHEMA := @"schema\s*:\s*z\.object\s*\(\s*\{([^}]+)\}"
  const ZOD_SCHEMA_CLOSED := @"schema\s*:\s*z\.object\s*\(\s*\{([^}]+)\}\s*\)"
  const SCHEMA_REF := @"schema\s*:\s*(\w+)"

  /** How much text after `const name = tool(` is read for its fields. */
  const CHUNK_SIZE := 2000

  const SQL_INDICATORS: seq<string> := [
    "SqlToolkit", "SqlDatabase", "QuerySqlTool", "InfoSqlDatabaseTool", "ListSqlDatabaseTool", "sql-toolkit"
  ]

  const RETRIEVAL_INDICATORS: seq<string> := [
    "VectorStoreRetriever", "vectorStore", "retriever", "RetrievalQA", "ConversationalRetrievalChain",
    "FAISS", "Chroma", "Pinecone", "Weaviate", "MemoryVectorStore"
  ]

  const PROVIDER_NAMES: seq<string> := [
    "@langchain/openai", "@langchain/anthropic", "@langchain/google-genai", "@langchain/community",
    "@langchain/experimental", "@langchain/langgraph", "@langchain/core"
  ]

  const PROVIDER_PATTERNS: seq<string> := [
    @"from\s*[""\']@langchain/openai[""\']",
    @"from\s*[""\']@langchain/anthropic[""\']",
    @"from\s*[""\']@langchain/google-genai[""\']",
    @"from\s*[""\']@langchain/community[""\']",
    @"from\s*[""\']@langchain/experimental[""\']",
    @"from\s*[""\']@langchain/langgraph[^""\']*[""\']",
    @"from\s*[""\']@langchain/core[^""\']*[""\']"
  ]

  /** The suffixes a relative import is tried with; `""` stands for the
      path itself and then its `index.ts`. */
  const IMPORT_EXTENSIONS: seq<string> := [".ts", ".tsx", ".js", ".jsx", ""]

  // ---------------------------------------------------------------------
  // Patterns built from a name

  /** The fixed parts of the patterns built from a name. */
  const DECLARATION: string := @"(?:const|let|var)\s+"
  const EXPORTED_FUNCTION: string := @"export\s+function\s+"
  const TOOL_CALL_TAIL: string := @"\s*=\s*tool\s*\("
  const DYNAMIC_TOOL_TAIL: string := @"\s*=\s*new\s+DynamicStructuredTool\s*\(\s*\{([^}]+)\}"
  const TOOLS_VARIABLE_TAIL: string := @"\s*=\s*\[([^\]]*)\]"
  const TOOL_CREATION_TAIL: string := @"\s*=\s*(create\w+Tool)\s*\("
  const IMPORT_HEAD: string := @"import\s*\{[^}]*"
  const FACTORY_IMPORT_TAIL: string := @"[^}]*\}\s*from\s*[""\']([^""\']+)[""\']"
  const FACTORY_DEFINITION_TAIL: string := @"\s*\([^)]*\)\s*:\s*\w+\s*\{"
  const FACTORY_BODY_TAIL: string := @"\s*\([^)]*\)[^{]*\{(.{0,5000})\}"
  const SCHEMA_VARIABLE_TAIL: string := @"\s*=\s*z\.object\s*\(\s*\{([^}]+)\}\s*\)"

  function ToolCallPattern(name: string): string {
    DECLARATION + Escape(name) + TOOL_CALL_TAIL
  }

  function DynamicToolPattern(name: string): string {
    DECLARATION + Escape(name) + DYNAMIC_TOOL_TAIL
  }

  function ToolsVariablePattern(name: string): string {
    DECLARATION + Escape(name) + TOOLS_VARIABLE_TAIL
  }

  function ToolCreationPattern(name: string): string {
    DECLARATION + Escape(name) + TOOL_CREATION_TAIL
  }

  function FactoryImportPattern(factory: string): string {
    IMPORT_HEAD + Escape(factory) + FACTORY_IMPORT_TAIL
  }

  function FactoryDefinitionPattern(factory: string): string {
    EXPORTED_FUNCTION + Escape(factory) + FACTORY_DEFINITION_TAIL
  }

  function FactoryBodyPattern(factory: string): string {
    EXPORTED_FUNCTION + Escape(factory) + FACTORY_BODY_TAIL
  }

  function SchemaVariablePattern(name: string): string {
    DECLARATION + Escape(name) + SCHEMA_VARIABLE_TAIL
  }

  // ---------------------------------------------------------------------
  // Small readers

  /** The first group of the first match, if there is a match. */
  function Field(re: Engine, pattern: string, flags: set<Flag>, text: string): (r: Option<string>)
    ensures r.Some? <==> Found(re, pattern, flags, text)
  {
    match Search(re, pattern, flags, text)
    case Some(m) => Some(GroupText(m, 1))
    case None => None
  }

  /** A `name: '...'` field, or `default` when there is none. */
  function NameOr(re: Engine, text: string, default: string): (r: string)
    ensures !Found(re, NAME_FIELD, {}, text) ==> r == default
  {
    match Field(re, NAME_FIELD, {}, text)
    case Some(n) => n
    case None => default
  }

  /** `content[start:min(start + size, len(content))]` */
  function Window(s: string, start: nat, size: nat): (r: string)
    ensures |r| <= size
    ensures start <= |s| ==> start + |r| <= |s| && r == s[start..start + |r|]
  {
    if start >= |s| then "" else s[start..if start + size <= |s| then start + size else |s|]
  }

  const ZOD_HEAD: string := "import { z } from 'zod'\nz.object({"

  /** The text a schema body is examined in when only the body is known. */
  function ZodContent(body: string): string {
    ZOD_HEAD + body + "})"
  }

  // ---------------------------------------------------------------------
  // `_extract_schema_params`, `_extract_zod_schema_params`

  /** The parameters the first extractor accepting the content reads from
      the body; none when no extractor accepts it or the one chosen raises. */
  function SchemaParams(w: World, xs: seq<Extractor>, content: string, body: string): Dict<ParamInfo> {
    match Chosen(w.re, w.accepts, xs, content)
    case None => Empty()
    case Some(e) =>
      var extracted := if e.BuiltIn? then Some(ExtractParams(w.re, e.dialect, body)) else w.extract(e.library, content, body);
      if extracted.Some? then extracted.value else Empty()
  }

  /** The parameters of a schema found in the text, relative to `content`;
      none without a schema. */
  function SchemaIn(w: World, xs: seq<Extractor>, pattern: string, text: string, content: string): Dict<ParamInfo> {
    match Field(w.re, pattern, {DotAll}, text)
    case Some(body) => SchemaParams(w, xs, content, body)
    case None => Empty()
  }

  /** When no extractor accepts the content there are no parameters; with
      the built-in list the Zod extractor reads any content with a Zod
      import. */
  lemma SchemaParamsRules(w: World, xs: seq<Extractor>, content: string, body: string)
    ensures (forall i :: 0 <= i < |xs| ==> !CanExtract(w.re, w.accepts, xs[i], content)) ==> SchemaParams(w, xs, content, body) == Empty()
    ensures xs == DEFAULT_EXTRACTORS && CanExtract(w.re, w.accepts, BuiltIn(Zod), content) ==>
              SchemaParams(w, xs, content, body) == ExtractParams(w.re, Zod, body)
  {
    DefaultOrder(w.re, w.accepts, content);
  }

  // ---------------------------------------------------------------------
  // `_find_tool_definition`

  /** A tool read from a piece of text: the name and description fields
      replace the defaults where present. */
  function ToolIn(re: Engine, text: string, name: string, params: Dict<ParamInfo>): ToolInfo {
    ToolInfo(NameOr(re, text, name), "", 0, Field(re, DESCRIPTION_FIELD, {}, text), params, None, None)
  }

  /** `_find_tool_definition(name, content)`: `const name = tool(` read
      from the text that follows it, else `const name = new
      DynamicStructuredTool({...})` read from its braces. */
  function LocalToolDefinition(w: World, xs: seq<Extractor>, name: string, content: string): (r: Option<ToolInfo>)
    ensures r.Some? <==> Found(w.re, ToolCallPattern(name), {}, content) || Found(w.re, DynamicToolPattern(name), {DotAll}, content)
    ensures r.Some? ==> r.value.filePath == ""
  {
    match Search(w.re, ToolCallPattern(name), {}, content)
    case Some(m) =>
      var chunk := Window(content, m.start, CHUNK_SIZE);
      Some(ToolIn(w.re, chunk, name, SchemaIn(w, xs, ZOD_SCHEMA_CLOSED, chunk, content)))
    case None =>
      match Field(w.re, DynamicToolPattern(name), {DotAll}, content)
      case Some(body) => Some(ToolIn(w.re, body, name, SchemaIn(w, xs, ZOD_SCHEMA, body, content)))
      case None => None
  }

  // ---------------------------------------------------------------------
  // `_resolve_import_path`

  /** One component of a relative path, as `resolve` applies it. */
  function Step(p: Paths.Path, part: string): Paths.Path {
    if part == "" || part == "." then p
    else if part == ".." then Paths.Parent(p)
    else p + [part]
  }

  /** `(dir / relative).resolve()`, component by component. */
  function Walk(dir: Paths.Path, parts: seq<string>): Paths.Path {
    if parts == [] then dir else Step(Walk(dir, parts[..|parts| - 1]), parts[|parts| - 1])
  }

  /** The candidates from `exts` on, the first that exists. */
  function TryExtensions(fs: Paths.FileSystem, resolved: Paths.Path, exts: seq<string>): (r: Option<Paths.Path>)
    ensures r.Some? ==> Paths.Exists(fs, r.value)
  {
    if exts == [] then None
    else if exts[0] == "" then
      if Paths.IsFile(fs, resolved) then Some(resolved)
      else if Paths.Exists(fs, Paths.Child(resolved, "index.ts")) then Some(Paths.Child(resolved, "index.ts"))
      else TryExtensions(fs, resolved, exts[1..])
    else if Paths.Exists(fs, Paths.AppendText(resolved, exts[0])) then Some(Paths.AppendText(resolved, exts[0]))
    else TryExtensions(fs, resolved, exts[1..])
  }

  /** `_resolve_import_path(import_path, current_file)` */
  function ResolveImportPath(fs: Paths.FileSystem, importPath: string, current: Paths.Path): (r: Option<Paths.Path>)
    ensures r.Some? ==> Paths.Exists(fs, r.value)
  {
    if !StartsWith(importPath, ".") then None
    else TryExtensions(fs, Walk(Paths.Parent(current), Split(importPath, '/')), IMPORT_EXTENSIONS)
  }

  /** Only a relative import resolves; it becomes the first of `<p>.ts`,
      `<p>.tsx`, `<p>.js`, `<p>.jsx`, the file `<p>` itself and
      `<p>/index.ts` that exists. */
  lemma ResolveImportOrder(fs: Paths.FileSystem, importPath: string, current: Paths.Path)
    ensures !StartsWith(importPath, ".") ==> ResolveImportPath(fs, importPath, current).None?
    ensures StartsWith(importPath, ".") ==>
      var p := Walk(Paths.Parent(current), Split(importPath, '/'));
      ResolveImportPath(fs, importPath, current) ==
        if Paths.Exists(fs, Paths.AppendText(p, ".ts")) then Some(Paths.AppendText(p, ".ts"))
        else if Paths.Exists(fs, Paths.AppendText(p, ".tsx")) then Some(Paths.AppendText(p, ".tsx"))
        else if Paths.Exists(fs, Paths.AppendText(p, ".js")) then Some(Paths.AppendText(p, ".js"))
        else if Paths.Exists(fs, Paths.AppendText(p, ".jsx")) then Some(Paths.AppendText(p, ".jsx"))
        else if Paths.IsFile(fs, p) then Some(p)
        else if Paths.Exists(fs, Paths.Child(p, "index.ts")) then Some(Paths.Child(p, "index.ts"))
        else None
  {
    if StartsWith(importPath, ".") {
      var p := Walk(Paths.Parent(current), Split(importPath, '/'));
      assert TryExtensions(fs, p, [""]) ==
        if Paths.IsFile(fs, p) then Some(p)
        else if Paths.Exists(fs, Paths.Child(p, "index.ts")) then Some(Paths.Child(p, "index.ts"))
        else None;
      assert [".jsx", ""][1..] == [""];
      var r4 := TryExtensions(fs, p, [".jsx", ""]);
      assert r4 == if Paths.Exists(fs, Paths.AppendText(p, ".jsx")) then Some(Paths.AppendText(p, ".jsx")) else TryExtensions(fs, p, [""]);
      assert [".js", ".jsx", ""][1..] == [".jsx", ""];
      var r3 := TryExtensions(fs, p, [".js", ".jsx", ""]);
      assert r3 == if Paths.Exists(fs, Paths.AppendText(p, ".js")) then Some(Paths.AppendText(p, ".js")) else r4;
      assert [".tsx", ".js", ".jsx", ""][1..] == [".js", ".jsx", ""];
      var r2 := TryExtensions(fs, p, [".tsx", ".js", ".jsx", ""]);
      assert r2 == if Paths.Exists(fs, Paths.AppendText(p, ".tsx")) then Some(Paths.AppendText(p, ".tsx")) else r3;
      assert IMPORT_EXTENSIONS[1..] == [".tsx", ".js", ".jsx", ""];
    }
  }

  /** A path of plain components descends from the directory. */
  lemma {:induction false} WalkPlain(dir: Paths.Path, parts: seq<string>)
    requires forall i :: 0 <= i < |parts| ==> parts[i] != "" && parts[i] != "." && parts[i] != ".."
    ensures Walk(dir, parts) == dir + parts
  {
    if parts != [] {
      WalkPlain(dir, parts[..|parts| - 1]);
      assert dir + parts[..|parts| - 1] + [parts[|parts| - 1]] == dir + parts;
    }
  }

  // ---------------------------------------------------------------------
  // `_parse_tool_from_file`, `_load_tool_from_import`, `_find_tool_from_import`

  /** A backtick description, else a quoted one, stripped. */
  function FileDescription(re: Engine, content: string): Option<string> {
    match Field(re, DESCRIPTION_TEMPLATE, {DotAll}, content)
    case Some(d) => Some(Strip(d))
    case None =>
      match Field(re, DESCRIPTION_FIELD, {}, content)
      case Some(d) => Some(Strip(d))
      case None => None
  }

  /** An inline `schema: z.object({...})`, else `schema: v` with `v`
      defined in the file as a `z.object`. */
  function FileSchema(w: World, xs: seq<Extractor>, content: string): Dict<ParamInfo> {
    if Found(w.re, ZOD_SCHEMA_CLOSED, {DotAll}, content) then SchemaIn(w, xs, ZOD_SCHEMA_CLOSED, content, content)
    else
      match Field(w.re, SCHEMA_REF, {}, content)
      case Some(v) => SchemaIn(w, xs, SchemaVariablePattern(v), content, content)
      case None => Empty()
  }

  /** `_parse_tool_from_file(factory_name, content, file_path)` */
  function ParseToolFromFile(w: World, xs: seq<Extractor>, content: string, path: Paths.Path): (r: Option<ToolInfo>) {
    var name := NameOr(w.re, content, "");
    if name == "" then None
    else Some(ToolInfo(name, Paths.ToStr(path), 0, FileDescription(w.re, content), FileSchema(w, xs, content), None, None))
  }

  /** A tool file yields a tool only through a non-empty `name:` field,
      and the tool records the file it came from; a backtick description
      wins over a quoted one. */
  lemma ParseToolRules(w: World, xs: seq<Extractor>, content: string, path: Paths.Path)
    ensures !Found(w.re, NAME_FIELD, {}, content) ==> ParseToolFromFile(w, xs, content, path).None?
    ensures var r := ParseToolFromFile(w, xs, content, path);
      r.Some? ==> r.value.name != "" && r.value.name == Field(w.re, NAME_FIELD, {}, content).value
                  && r.value.filePath == Paths.ToStr(path)
    ensures var r := ParseToolFromFile(w, xs, content, path);
      r.Some? && Found(w.re, DESCRIPTION_TEMPLATE, {DotAll}, content) ==>
        r.value.description == Some(Strip(Field(w.re, DESCRIPTION_TEMPLATE, {DotAll}, content).value))
  {
  }

  /** `_load_tool_from_import(factory_name, import_path, current_file)`: a
      path that resolves to something unreadable gives nothing. */
  function LoadToolFromImport(w: World, xs: seq<Extractor>, importPath: string, current: Paths.Path): Option<ToolInfo> {
    match ResolveImportPath(w.fs, importPath, current)
    case None => None
    case Some(p) => if p in w.fs.files then ParseToolFromFile(w, xs, w.fs.files[p], p) else None
  }

  /** `_find_tool_from_import(tool_var_name, content, file_path)`: the
      factory the variable is created with, and the file that factory is
      imported from. */
  function ToolFromImport(w: World, xs: seq<Extractor>, variable: string, content: string, path: Paths.Path): Option<ToolInfo> {
    match Field(w.re, ToolCreationPattern(variable), {}, content)
    case None => None
    case Some(factory) =>
      match Field(w.re, FactoryImportPattern(factory), {}, content)
      case None => None
      case Some(importPath) => LoadToolFromImport(w, xs, importPath, path)
  }

  // ---------------------------------------------------------------------
  // `_extract_tools`

  /** The non-empty comma-separated segments, stripped. */
  function SegmentNames(segments: seq<string>): (r: seq<string>)
    ensures |r| <= |segments|
    ensures forall i :: 0 <= i < |r| ==> r[i] != "" && Strip(r[i]) == r[i]
  {
    if segments == [] then []
    else
      var last := Strip(segments[|segments| - 1]);
      StripIdempotent(segments[|segments| - 1]);
      SegmentNames(segments[..|segments| - 1]) + (if last != "" then [last] else [])
  }

  /** The tool of one segment: its local definition, else the one its
      factory import leads to, else just its name. */
  function SegmentTool(w: World, xs: seq<Extractor>, segment: string, content: string, path: Paths.Path): ToolInfo {
    var name := Strip(segment);
    match LocalToolDefinition(w, xs, name, content)
    case Some(t) => t
    case None =>
      match ToolFromImport(w, xs, name, content, path)
      case Some(t) => t
      case None => BasicTool(name, "", None)
  }

  function SegmentTools(w: World, xs: seq<Extractor>, names: seq<string>, content: string, path: Paths.Path): (r: seq<ToolInfo>)
    ensures |r| == |names|
  {
    seq(|names|, i requires 0 <= i < |names| => SegmentTool(w, xs, names[i], content, path))
  }

  /** `_extract_tools(tools_array, content, file_path)` */
  function ExtractTools(w: World, xs: seq<Extractor>, list: string, content: string, path: Paths.Path): seq<ToolInfo> {
    SegmentTools(w, xs, SegmentNames(Split(list, ',')), content, path)
  }

  /** One tool per non-empty segment, in order: nothing is dropped, and a
      segment with neither a local definition nor a factory import is kept
      under its own name. */
  lemma ExtractToolsRules(w: World, xs: seq<Extractor>, list: string, content: string, path: Paths.Path)
    ensures var names := SegmentNames(Split(list, ','));
      var tools := ExtractTools(w, xs, list, content, path);
      |tools| == |names|
      && forall i :: 0 <= i < |names| ==>
           tools[i] == SegmentTool(w, xs, names[i], content, path)
           && (LocalToolDefinition(w, xs, names[i], content).None? && ToolFromImport(w, xs, names[i], content, path).None? ==>
                 tools[i] == BasicTool(names[i], "", None))
  {
  }

  // ---------------------------------------------------------------------
  // `_extract_tools_from_constructor`

  /** `_extract_tools_from_constructor(constructor_body, content, file_path)` */
  function ConstructorTools(w: World, xs: seq<Extractor>, body: string, content: string, path: Paths.Path): seq<ToolInfo> {
    match Field(w.re, TOOLS_INLINE, {DotAll}, body)
    case Some(list) => ExtractTools(w, xs, list, content, path)
    case None =>
      match Field(w.re, TOOLS_REF, {}, body)
      case None => []
      case Some(v) =>
        match Field(w.re, ToolsVariablePattern(v), {DotAll}, content)
        case Some(list) => ExtractTools(w, xs, list, content, path)
        case None => []
  }

  /** An inline `tools: [...]` wins over `tools: v`; with neither there are
      no tools. */
  lemma ConstructorRules(w: World, xs: seq<Extractor>, body: string, content: string, path: Paths.Path)
    ensures Found(w.re, TOOLS_INLINE, {DotAll}, body) ==>
      ConstructorTools(w, xs, body, content, path) == ExtractTools(w, xs, Field(w.re, TOOLS_INLINE, {DotAll}, body).value, content, path)
    ensures !Found(w.re, TOOLS_INLINE, {DotAll}, body) && !Found(w.re, TOOLS_REF, {}, body) ==>
      ConstructorTools(w, xs, body, content, path) == []
  {
  }

  // ---------------------------------------------------------------------
  // `_extract_tools_from_factory`

  /** `_extract_tool_from_factory_impl(factory_name, content)` */
  function FactoryImpl(w: World, xs: seq<Extractor>, factory: string, content: string): ToolInfo {
    match Field(w.re, FactoryBodyPattern(factory), {DotAll}, content)
    case None => BasicTool(factory, "", None)
    case Some(body) =>
      if Contains(body, "tool(") then
        var params := match Field(w.re, ZOD_SCHEMA, {DotAll}, body)
          case Some(schema) => SchemaParams(w, xs, ZodContent(schema), schema)
          case None => Empty();
        ToolIn(w.re, body, factory, params)
      else if Contains(body, "DynamicStructuredTool") then ToolIn(w.re, body, factory, Empty())
      else BasicTool(factory, "", None)
  }

  /** `_find_tool_factory_definition(factory_name, content, file_path)`:
      the imported tool file, else the local factory, else the bare name;
      it always gives a tool. */
  function FactoryDefinition(w: World, xs: seq<Extractor>, factory: string, content: string, path: Paths.Path): ToolInfo {
    var imported := match Field(w.re, FactoryImportPattern(factory), {}, content)
      case Some(importPath) => LoadToolFromImport(w, xs, importPath, path)
      case None => None;
    if imported.Some? then imported.value
    else if Found(w.re, FactoryDefinitionPattern(factory), {}, content) then FactoryImpl(w, xs, factory, content)
    else BasicTool(factory, "", None)
  }

  /** A factory body is read only when it builds a tool: a `tool(` body
      takes its name and description from the body and its parameters from
      its Zod schema, a `DynamicStructuredTool` body has no parameters, and
      any other body, or no body, gives the bare factory name. */
  lemma FactoryImplRules(w: World, xs: seq<Extractor>, factory: string, content: string)
    ensures var t := FactoryImpl(w, xs, factory, content);
      t.filePath == "" && t.lineNumber == 0 && t.result.None? && t.rawDefinition.None?
    ensures Field(w.re, FactoryBodyPattern(factory), {DotAll}, content).None? ==>
      FactoryImpl(w, xs, factory, content) == BasicTool(factory, "", None)
    ensures forall body :: Field(w.re, FactoryBodyPattern(factory), {DotAll}, content) == Some(body) ==>
      var t := FactoryImpl(w, xs, factory, content);
      if Contains(body, "tool(") || Contains(body, "DynamicStructuredTool") then
        t.name == NameOr(w.re, body, factory) && t.description == Field(w.re, DESCRIPTION_FIELD, {}, body)
        && (!Contains(body, "tool(") ==> t.parameters == Empty())
      else t == BasicTool(factory, "", None)
  {
  }

  /** The imported tool file wins over a local factory, which wins over
      the bare factory name. */
  lemma FactoryPrecedence(w: World, xs: seq<Extractor>, factory: string, content: string, path: Paths.Path)
    ensures forall importPath, t ::
      (Field(w.re, FactoryImportPattern(factory), {}, content) == Some(importPath)
       && LoadToolFromImport(w, xs, importPath, path) == Some(t))
      ==> FactoryDefinition(w, xs, factory, content, path) == t
    ensures (Field(w.re, FactoryImportPattern(factory), {}, content).None?
        || LoadToolFromImport(w, xs, Field(w.re, FactoryImportPattern(factory), {}, content).value, path).None?) ==>
      FactoryDefinition(w, xs, factory, content, path) ==
        if Found(w.re, FactoryDefinitionPattern(factory), {}, content) then FactoryImpl(w, xs, factory, content)
        else BasicTool(factory, "", None)
  {
  }

  /** The tool of one `const v = createXxxTool(` match, named after `v`. */
  function FactoryCallTool(w: World, xs: seq<Extractor>, m: Match, content: string, path: Paths.Path): (t: ToolInfo)
    ensures t.name == if GroupText(m, 1) != "" then GroupText(m, 1) else GroupText(m, 2)
  {
    var variable := GroupText(m, 1);
    var factory := GroupText(m, 2);
    FactoryDefinition(w, xs, factory, content, path).(name := if variable != "" then variable else factory)
  }

  /** One tool per tool-factory call, in order, each named after the
      variable it is assigned to. */
  function FactoryCallTools(w: World, xs: seq<Extractor>, ms: seq<Match>, content: string, path: Paths.Path): (r: seq<ToolInfo>)
    ensures |r| == |ms|
    ensures forall i :: 0 <= i < |ms| && GroupText(ms[i], 1) != "" ==> r[i].name == GroupText(ms[i], 1)
  {
    seq(|ms|, i requires 0 <= i < |ms| => FactoryCallTool(w, xs, ms[i], content, path))
  }

  /** `_extract_tools_from_factory(content, file_path)`: the tools of a
      `createReactAgent({... tools: [...]})`, then one per tool-factory
      call. */
  function FactoryTools(w: World, xs: seq<Extractor>, content: string, path: Paths.Path): seq<ToolInfo> {
    var listed := match Field(w.re, FACTORY_REACT, {DotAll}, content)
      case Some(list) => ExtractTools(w, xs, list, content, path)
      case None => [];
    listed + FactoryCallTools(w, xs, w.re(TOOL_FACTORY_CALL, {}, content), content, path)
  }

  // ---------------------------------------------------------------------
  // `_extract_agent_info`

  datatype TsAgent = TsAgent(name: string, tools: seq<ToolInfo>)

  /** The first agent shape that matches, with its tools. */
  function AgentCandidate(w: World, xs: seq<Extractor>, content: string, path: Paths.Path): Option<TsAgent> {
    match Search(w.re, EXECUTOR, {DotAll}, content)
    case Some(m) => Some(TsAgent(GroupText(m, 1), ConstructorTools(w, xs, GroupText(m, 2), content, path)))
    case None =>
      match Search(w.re, REACT_AGENT, {DotAll}, content)
      case Some(m) => Some(TsAgent(GroupText(m, 1), ConstructorTools(w, xs, GroupText(m, 2), content, path)))
      case None =>
        match Search(w.re, FACTORY_AGENT, {}, content)
        case Some(m) => Some(TsAgent(GroupText(m, 1), FactoryTools(w, xs, content, path)))
        case None => None
  }

  /** `_extract_agent_info(content, file_path)` */
  function AgentInfoOf(w: World, xs: seq<Extractor>, content: string, path: Paths.Path): (r: Option<TsAgent>)
    ensures r.Some? ==> r.value.tools != []
  {
    var c := AgentCandidate(w, xs, content, path);
    if c.Some? && c.value.tools != [] then c else None
  }

  /** `new AgentExecutor` first, then `createReactAgent`, then a
      `create*Agent` factory: the first shape found decides the name and
      the tools, and the result is none when it has no tools. */
  lemma AgentPrecedence(w: World, xs: seq<Extractor>, content: string, path: Paths.Path)
    ensures var r := AgentInfoOf(w, xs, content, path);
      match Search(w.re, EXECUTOR, {DotAll}, content)
      case Some(m) =>
        var tools := ConstructorTools(w, xs, GroupText(m, 2), content, path);
        r == if tools == [] then None else Some(TsAgent(GroupText(m, 1), tools))
      case None =>
        match Search(w.re, REACT_AGENT, {DotAll}, content)
        case Some(m) =>
          var tools := ConstructorTools(w, xs, GroupText(m, 2), content, path);
          r == if tools == [] then None else Some(TsAgent(GroupText(m, 1), tools))
        case None =>
          match Search(w.re, FACTORY_AGENT, {}, content)
          case Some(m) =>
            var tools := FactoryTools(w, xs, content, path);
            r == if tools == [] then None else Some(TsAgent(GroupText(m, 1), tools))
          case None => r.None?
  {
  }

  // ---------------------------------------------------------------------
  // `_has_sql_tools`, `_has_retrieval_tools`, `_detect_provider_frameworks`

  /** `indicator in content or indicator.lower() in content.lower()` */
  predicate SqlIndicated(content: string, indicator: string) {
    Contains(content, indicator) || Contains(Lower(content), Lower(indicator))
  }

  /** The indicator check ignores case: it is `indicator.lower() in
      content.lower()`. */
  lemma SqlIndicatedIgnoresCase(content: string, indicator: string)
    ensures SqlIndicated(content, indicator) <==> Contains(Lower(content), Lower(indicator))
  {
    if Contains(content, indicator) {
      LowerKeepsContains(content, indicator);
    }
  }

  /** `_has_sql_tools(tools, content)` */
  predicate HasSqlTools(tools: seq<ToolInfo>, content: string) {
    (exists i :: 0 <= i < |SQL_INDICATORS| && SqlIndicated(content, SQL_INDICATORS[i]))
    || exists i :: 0 <= i < |tools| && SqlTool(tools[i])
  }

  /** `_has_retrieval_tools(tools, content)` */
  predicate HasRetrievalTools(tools: seq<ToolInfo>, content: string) {
    MentionsAny(content, RETRIEVAL_INDICATORS) || exists i :: 0 <= i < |tools| && RetrievalTool(tools[i])
  }

  /** `_detect_provider_frameworks(content)` */
  function Providers(re: Engine, content: string): seq<string> {
    ProvidersAmong(re, PROVIDER_NAMES, PROVIDER_PATTERNS, content, |PROVIDER_NAMES|)
  }

  /** A provider package is reported exactly when its import occurs, each
      at most once. */
  lemma ProvidersReported(re: Engine, content: string)
    ensures forall i :: 0 <= i < |PROVIDER_NAMES| ==>
              (PROVIDER_NAMES[i] in Providers(re, content) <==> Found(re, PROVIDER_PATTERNS[i], {}, content))
    ensures forall p :: p in Providers(re, content) ==> p in PROVIDER_NAMES
  {
    assert Distinct(PROVIDER_NAMES);
    ProvidersExactly(re, PROVIDER_NAMES, PROVIDER_PATTERNS, content);
  }

  // ---------------------------------------------------------------------
  // `detect`

  predicate Present(re: Engine, content: string) {
    exists i :: 0 <= i < |PRESENCE| && Found(re, PRESENCE[i], {Multiline}, content)
  }

  /** `_has_tool_imports(content)` */
  predicate HasToolImports(re: Engine, content: string) {
    exists i :: 0 <= i < |TOOL_IMPORTS| && Found(re, TOOL_IMPORTS[i], {}, content)
  }

  predicate Constructed(re: Engine, content: string) {
    exists i :: 0 <= i < |CONSTRUCTION| && Found(re, CONSTRUCTION[i], {Multiline, DotAll}, content)
  }

  /** The result once the gates are passed. */
  function AgentResult(w: World, xs: seq<Extractor>, path: Paths.Path, content: string): (r: DetectorResult)
    ensures r.found && r.language == TypeScript && r.constructorFile == Some(Paths.ToStr(path))
    ensures |r.frameworks| >= 1 && r.frameworks[0] == "LangChain" && r.architecture == Other
  {
    var result := FoundResult(Paths.ToStr(path), TypeScript, ["LangChain"], Other);
    match AgentInfoOf(w, xs, content, path)
    case None => result
    case Some(info) =>
      result.(agentName := Some(info.name), tools := info.tools,
              agentType := AgentTypeFor(HasSqlTools(info.tools, content), HasRetrievalTools(info.tools, content)),
              frameworks := ["LangChain"] + Providers(w.re, content))
  }

  /** `detect(file_path, content)` */
  function Detect(w: World, xs: seq<Extractor>, path: Paths.Path, content: string): Outcome {
    if Present(w.re, content) && HasToolImports(w.re, content) && Constructed(w.re, content) then
      Detected(AgentResult(w, xs, path, content))
    else NotDetected
  }

  /** A result exactly when a presence signature, a tool import and a
      construction signature all match; it reports TypeScript and
      LangChain first; an agent found fills the name and tools, and SQL
      tools win over retrieval tools. */
  lemma DetectGates(w: World, xs: seq<Extractor>, path: Paths.Path, content: string)
    ensures Detect(w, xs, path, content).Detected? <==> Present(w.re, content) && HasToolImports(w.re, content) && Constructed(w.re, content)
    ensures !Detect(w, xs, path, content).Raised?
    ensures var o := Detect(w, xs, path, content);
      o.Detected? && AgentInfoOf(w, xs, content, path).Some? ==>
        var info := AgentInfoOf(w, xs, content, path).value;
        o.result.agentName == Some(info.name) && o.result.tools == info.tools && info.tools != []
        && (o.result.agentType == SQLAgent <==> HasSqlTools(info.tools, content))
        && (o.result.agentType == RetrievalAgent <==> !HasSqlTools(info.tools, content) && HasRetrievalTools(info.tools, content))
  {
  }
}
