/** `LangChainTypeScriptDetector`: the detector object and its loops, each
    proved to compute its specification in `LangChainTs` with the
    extractors its schema factory holds. */
module LangChainTsDetector {
  import opened Wrappers
  import opened Strs
  import opened Regex
  import opened Dicts
  import Paths
  import opened Detection
  import opened Schemas
  import opened SchemaRegistry
  import opened LangChainTs

  class LangChainTypeScriptDetector {
    /** The factory every schema body is handed to. */
    const schemaFactory: SchemaExtractorFactory

    constructor()
      ensures fresh(schemaFactory) && schemaFactory.extractors == DEFAULT_EXTRACTORS
    {
      schemaFactory := new SchemaExtractorFactory();
    }

    /** `_extract_schema_params(content, schema_body)`: an extractor that
        raises gives no parameters. */
    method ExtractSchemaParams(w: World, content: string, body: string) returns (params: Dict<ParamInfo>)
      ensures params == SchemaParams(w, schemaFactory.extractors, content, body)
    {
      var e := schemaFactory.GetExtractor(w.re, w.accepts, content);
      if e.None? {
        return Empty();
      }
      var extracted := Extract(w.re, w.extract, e.value, content, body);
      if extracted.Some? {
        params := extracted.value;
      } else {
        params := Empty();
      }
    }

    /** `_extract_zod_schema_params(schema_body)` */
    method ExtractZodSchemaParams(w: World, body: string) returns (params: Dict<ParamInfo>)
      ensures params == SchemaParams(w, schemaFactory.extractors, ZodContent(body), body)
    {
      params := ExtractSchemaParams(w, ZodContent(body), body);
    }

    /** The schema a pattern finds in `text`, read against `content`. */
    method SchemaFound(w: World, pattern: string, text: string, content: string) returns (params: Dict<ParamInfo>)
      ensures params == SchemaIn(w, schemaFactory.extractors, pattern, text, content)
    {
      var m := Search(w.re, pattern, {DotAll}, text);
      if m.Some? {
        params := ExtractSchemaParams(w, content, GroupText(m.value, 1));
      } else {
        params := Empty();
      }
    }

    /** `_find_tool_definition(name, content)` */
    method FindToolDefinition(w: World, name: string, content: string) returns (t: Option<ToolInfo>)
      ensures t == LocalToolDefinition(w, schemaFactory.extractors, name, content)
    {
      var m := Search(w.re, ToolCallPattern(name), {}, content);
      if m.Some? {
        var chunk := Window(content, m.value.start, CHUNK_SIZE);
        var params := SchemaFound(w, ZOD_SCHEMA_CLOSED, chunk, content);
        return Some(ToolIn(w.re, chunk, name, params));
      }
      var dyn := Search(w.re, DynamicToolPattern(name), {DotAll}, content);
      if dyn.Some? {
        var body := GroupText(dyn.value, 1);
        var params := SchemaFound(w, ZOD_SCHEMA, body, content);
        return Some(ToolIn(w.re, body, name, params));
      }
      return None;
    }

    /** `_resolve_import_path(import_path, current_file)`: the loop over
        the extensions. */
    method ResolveImportPath(fs: Paths.FileSystem, importPath: string, current: Paths.Path) returns (r: Option<Paths.Path>)
      ensures r == LangChainTs.ResolveImportPath(fs, importPath, current)
    {
      if !StartsWith(importPath, ".") {
        return None;
      }
      var resolved := Walk(Paths.Parent(current), Split(importPath, '/'));
      var exts := IMPORT_EXTENSIONS;
      var i := 0;
      while i < |exts|
        invariant 0 <= i <= |exts|
        invariant TryExtensions(fs, resolved, exts[i..]) == TryExtensions(fs, resolved, exts)
      {
        assert exts[i..][1..] == exts[i + 1..];
        var ext := exts[i];
        if ext == "" {
          if Paths.IsFile(fs, resolved) {
            return Some(resolved);
          }
          var index := Paths.Child(resolved, "index.ts");
          if Paths.Exists(fs, index) {
            return Some(index);
          }
        } else {
          var withExt := Paths.AppendText(resolved, ext);
          if Paths.Exists(fs, withExt) {
            return Some(withExt);
          }
        }
        i := i + 1;
      }
      return None;
    }

    /** `_parse_tool_from_file(factory_name, content, file_path)` */
    method ParseToolFromFile(w: World, content: string, path: Paths.Path) returns (t: Option<ToolInfo>)
      ensures t == LangChainTs.ParseToolFromFile(w, schemaFactory.extractors, content, path)
    {
      var name := NameOr(w.re, content, "");
      var description := FileDescription(w.re, content);
      var params := Empty();
      if Found(w.re, ZOD_SCHEMA_CLOSED, {DotAll}, content) {
        params := SchemaFound(w, ZOD_SCHEMA_CLOSED, content, content);
      } else {
        var ref := Search(w.re, SCHEMA_REF, {}, content);
        if ref.Some? {
          params := SchemaFound(w, SchemaVariablePattern(GroupText(ref.value, 1)), content, content);
        }
      }
      if name == "" {
        return None;
      }
      return Some(ToolInfo(name, Paths.ToStr(path), 0, description, params, None, None));
    }

    /** `_load_tool_from_import(factory_name, import_path, current_file)` */
    method LoadToolFromImport(w: World, importPath: string, current: Paths.Path) returns (t: Option<ToolInfo>)
      ensures t == LangChainTs.LoadToolFromImport(w, schemaFactory.extractors, importPath, current)
    {
      var resolved := ResolveImportPath(w.fs, importPath, current);
      if resolved.None? || resolved.value !in w.fs.files {
        return None;
      }
      t := ParseToolFromFile(w, w.fs.files[resolved.value], resolved.value);
    }

    /** `_find_tool_from_import(tool_var_name, content, file_path)` */
    method FindToolFromImport(w: World, variable: string, content: string, path: Paths.Path) returns (t: Option<ToolInfo>)
      ensures t == ToolFromImport(w, schemaFactory.extractors, variable, content, path)
    {
      var creation := Search(w.re, ToolCreationPattern(variable), {}, content);
      if creation.None? {
        return None;
      }
      var factory := GroupText(creation.value, 1);
      var imported := Search(w.re, FactoryImportPattern(factory), {}, content);
      if imported.None? {
        return None;
      }
      t := LoadToolFromImport(w, GroupText(imported.value, 1), path);
    }

    /** The body of the loop in `_extract_tools`. */
    method ToolOfSegment(w: World, name: string, content: string, path: Paths.Path) returns (t: ToolInfo)
      ensures t == SegmentTool(w, schemaFactory.extractors, name, content, path)
    {
      var clean := Strip(name);
      var local := FindToolDefinition(w, clean, content);
      if local.Some? {
        return local.value;
      }
      var imported := FindToolFromImport(w, clean, content, path);
      if imported.Some? {
        return imported.value;
      }
      return BasicTool(clean, "", None);
    }

    /** The loop in `_extract_tools`; `toolOf` is what one name gives. */
    method SegmentLoop(w: World, names: seq<string>, content: string, path: Paths.Path, ghost toolOf: string -> ToolInfo)
      returns (tools: seq<ToolInfo>)
      requires forall n {:trigger SegmentTool(w, schemaFactory.extractors, n, content, path)} ::
                 toolOf(n) == SegmentTool(w, schemaFactory.extractors, n, content, path)
      ensures tools == SegmentTools(w, schemaFactory.extractors, names, content, path)
    {
      tools := [];
      for i := 0 to |names|
        invariant |tools| == i
        invariant forall k :: 0 <= k < i ==> tools[k] == toolOf(names[k])
      {
        var t := ToolOfSegment(w, names[i], content, path);
        tools := tools + [t];
      }
    }

    /** `_extract_tools(tools_array, content, file_path)` */
    method ExtractTools(w: World, list: string, content: string, path: Paths.Path) returns (tools: seq<ToolInfo>)
      ensures tools == LangChainTs.ExtractTools(w, schemaFactory.extractors, list, content, path)
    {
      ghost var xs := schemaFactory.extractors;
      tools := SegmentLoop(w, SegmentNames(Split(list, ',')), content, path, n => SegmentTool(w, xs, n, content, path));
    }

    /** `_extract_tools_from_constructor(constructor_body, content, file_path)` */
    method ExtractToolsFromConstructor(w: World, body: string, content: string, path: Paths.Path) returns (tools: seq<ToolInfo>)
      ensures tools == ConstructorTools(w, schemaFactory.extractors, body, content, path)
    {
      var inline := Search(w.re, TOOLS_INLINE, {DotAll}, body);
      if inline.Some? {
        tools := ExtractTools(w, GroupText(inline.value, 1), content, path);
        return;
      }
      var ref := Search(w.re, TOOLS_REF, {}, body);
      if ref.Some? {
        var definition := Search(w.re, ToolsVariablePattern(GroupText(ref.value, 1)), {DotAll}, content);
        if definition.Some? {
          tools := ExtractTools(w, GroupText(definition.value, 1), content, path);
          return;
        }
      }
      return [];
    }

    /** `_extract_tool_from_factory_impl(factory_name, content)` */
    method ExtractToolFromFactoryImpl(w: World, factory: string, content: string) returns (t: ToolInfo)
      ensures t == FactoryImpl(w, schemaFactory.extractors, factory, content)
    {
      var m := Search(w.re, FactoryBodyPattern(factory), {DotAll}, content);
      if m.None? {
        return BasicTool(factory, "", None);
      }
      var body := GroupText(m.value, 1);
      if Contains(body, "tool(") {
        var params := Empty();
        var schema := Search(w.re, ZOD_SCHEMA, {DotAll}, body);
        if schema.Some? {
          params := ExtractZodSchemaParams(w, GroupText(schema.value, 1));
        }
        t := ToolIn(w.re, body, factory, params);
      } else if Contains(body, "DynamicStructuredTool") {
        t := ToolIn(w.re, body, factory, Empty());
      } else {
        t := BasicTool(factory, "", None);
      }
    }

    /** `_find_tool_factory_definition(factory_name, content, file_path)` */
    method FindToolFactoryDefinition(w: World, factory: string, content: string, path: Paths.Path) returns (t: ToolInfo)
      ensures t == FactoryDefinition(w, schemaFactory.extractors, factory, content, path)
    {
      var imported := Search(w.re, FactoryImportPattern(factory), {}, content);
      if imported.Some? {
        var loaded := LoadToolFromImport(w, GroupText(imported.value, 1), path);
        if loaded.Some? {
          return loaded.value;
        }
      }
      if Found(w.re, FactoryDefinitionPattern(factory), {}, content) {
        t := ExtractToolFromFactoryImpl(w, factory, content);
        return;
      }
      return BasicTool(factory, "", None);
    }

    /** One tool-factory call, named after its variable. */
    method FactoryCallToolOf(w: World, m: Match, content: string, path: Paths.Path) returns (t: ToolInfo)
      ensures t == FactoryCallTool(w, schemaFactory.extractors, m, content, path)
    {
      var variable := GroupText(m, 1);
      var factory := GroupText(m, 2);
      t := FindToolFactoryDefinition(w, factory, content, path);
      t := t.(name := if variable != "" then variable else factory);
    }

    /** The loop over the tool-factory calls in `_extract_tools_from_factory`;
        `toolOf` is what one call gives. */
    method FactoryCallLoop(w: World, ms: seq<Match>, content: string, path: Paths.Path, ghost toolOf: Match -> ToolInfo)
      returns (tools: seq<ToolInfo>)
      requires forall m {:trigger FactoryCallTool(w, schemaFactory.extractors, m, content, path)} ::
                 toolOf(m) == FactoryCallTool(w, schemaFactory.extractors, m, content, path)
      ensures tools == FactoryCallTools(w, schemaFactory.extractors, ms, content, path)
    {
      tools := [];
      for i := 0 to |ms|
        invariant |tools| == i
        invariant forall k :: 0 <= k < i ==> tools[k] == toolOf(ms[k])
      {
        var t := FactoryCallToolOf(w, ms[i], content, path);
        tools := tools + [t];
      }
    }

    /** `_extract_tools_from_factory(content, file_path)` */
    method ExtractToolsFromFactory(w: World, content: string, path: Paths.Path) returns (tools: seq<ToolInfo>)
      ensures tools == FactoryTools(w, schemaFactory.extractors, content, path)
    {
      tools := [];
      var react := Search(w.re, FACTORY_REACT, {DotAll}, content);
      if react.Some? {
        tools := ExtractTools(w, GroupText(react.value, 1), content, path);
      }
      ghost var xs := schemaFactory.extractors;
      var calls := FactoryCallLoop(w, w.re(TOOL_FACTORY_CALL, {}, content), content, path,
                                   m => FactoryCallTool(w, xs, m, content, path));
      tools := tools + calls;
    }

    /** `_extract_agent_info(content, file_path)` */
    method ExtractAgentInfo(w: World, content: string, path: Paths.Path) returns (info: Option<TsAgent>)
      ensures info == AgentInfoOf(w, schemaFactory.extractors, content, path)
    {
      var candidate: Option<TsAgent> := None;
      var executor := Search(w.re, EXECUTOR, {DotAll}, content);
      if executor.Some? {
        var tools := ExtractToolsFromConstructor(w, GroupText(executor.value, 2), content, path);
        candidate := Some(TsAgent(GroupText(executor.value, 1), tools));
      } else {
        var react := Search(w.re, REACT_AGENT, {DotAll}, content);
        if react.Some? {
          var tools := ExtractToolsFromConstructor(w, GroupText(react.value, 2), content, path);
          candidate := Some(TsAgent(GroupText(react.value, 1), tools));
        } else {
          var factory := Search(w.re, FACTORY_AGENT, {}, content);
          if factory.Some? {
            var tools := ExtractToolsFromFactory(w, content, path);
            candidate := Some(TsAgent(GroupText(factory.value, 1), tools));
          }
        }
      }
      assert candidate == AgentCandidate(w, schemaFactory.extractors, content, path);
      if candidate.Some? && candidate.value.tools != [] {
        return candidate;
      }
      return None;
    }

    /** `_has_tool_imports(content)` */
    method HasToolImports(re: Engine, content: string) returns (b: bool)
      ensures b <==> LangChainTs.HasToolImports(re, content)
    {
      for i := 0 to |TOOL_IMPORTS|
        invariant forall j :: 0 <= j < i ==> !Found(re, TOOL_IMPORTS[j], {}, content)
      {
        if Found(re, TOOL_IMPORTS[i], {}, content) {
          return true;
        }
      }
      return false;
    }

    /** One indicator of `_has_sql_tools`: found as written or once both
        texts are lower-cased. */
    method IndicatorIn(content: string, indicator: string) returns (b: bool)
      ensures b <==> Contains(Lower(content), Lower(indicator))
    {
      b := Contains(content, indicator) || Contains(Lower(content), Lower(indicator));
      SqlIndicatedIgnoresCase(content, indicator);
    }

    /** The indicator loop of `_has_sql_tools`, which stops at the first
        indicator found. */
    method AnyIndicated(content: string, indicators: seq<string>) returns (b: bool)
      ensures b <==> exists i :: 0 <= i < |indicators| && SqlIndicated(content, indicators[i])
    {
      for i := 0 to |indicators|
        invariant forall j :: 0 <= j < i ==> !SqlIndicated(content, indicators[j])
      {
        var found := IndicatorIn(content, indicators[i]);
        if found {
          SqlIndicatedIgnoresCase(content, indicators[i]);
          return true;
        }
        SqlIndicatedIgnoresCase(content, indicators[i]);
      }
      return false;
    }

    /** `_has_sql_tools(tools, content)` */
    method HasSqlTools(tools: seq<ToolInfo>, content: string) returns (b: bool)
      ensures b <==> LangChainTs.HasSqlTools(tools, content)
    {
      b := AnyIndicated(content, SQL_INDICATORS);
      if b {
        return;
      }
      b := AnySqlTool(tools);
    }

    /** `_has_retrieval_tools(tools, content)` */
    method HasRetrievalTools(tools: seq<ToolInfo>, content: string) returns (b: bool)
      ensures b <==> LangChainTs.HasRetrievalTools(tools, content)
    {
      b := FindsAny(content, RETRIEVAL_INDICATORS);
      if !b {
        b := AnyRetrievalTool(tools);
      }
    }

    /** `_detect_provider_frameworks(content)` */
    method DetectProviderFrameworks(re: Engine, content: string) returns (providers: seq<string>)
      ensures providers == Providers(re, content)
    {
      providers := DetectProviders(re, PROVIDER_NAMES, PROVIDER_PATTERNS, content);
    }

    /** The result once the three gates are passed. */
    method BuildResult(w: World, path: Paths.Path, content: string) returns (r: DetectorResult)
      ensures r == AgentResult(w, schemaFactory.extractors, path, content)
    {
      r := FoundResult(Paths.ToStr(path), TypeScript, ["LangChain"], Other);
      var info := ExtractAgentInfo(w, content, path);
      if info.Some? {
        var sql := HasSqlTools(info.value.tools, content);
        var retrieval := false;
        if !sql {
          retrieval := HasRetrievalTools(info.value.tools, content);
        }
        var providers := DetectProviderFrameworks(w.re, content);
        r := r.(agentName := Some(info.value.name), tools := info.value.tools,
                agentType := AgentTypeFor(sql, retrieval), frameworks := ["LangChain"] + providers);
      }
    }

    /** `detect(file_path, content)` */
    method Detect(w: World, path: Paths.Path, content: string) returns (o: Outcome)
      ensures o == LangChainTs.Detect(w, schemaFactory.extractors, path, content)
    {
      var present := CheckPresence(w.re, PRESENCE, content);
      if !present {
        return NotDetected;
      }
      var imports := HasToolImports(w.re, content);
      if !imports {
        return NotDetected;
      }
      var construction := CheckConstruction(w.re, CONSTRUCTION, content);
      if construction.None? {
        return NotDetected;
      }
      var r := BuildResult(w, path, content);
      return Detected(r);
    }
  }
}
