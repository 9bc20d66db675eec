/** The per-file part of `Scanner` (agentbom/scanner.py) as functions:
    which detectors a list of framework names selects, the first detector
    that finds an agent in a file, and the conversion of a detector result
    into an `Agent` record. */
module Scanning {
  import opened Wrappers
  import opened Strs
  import opened Dicts
  import opened PyAst
  import Paths
  import opened Detection
  import opened Schemas
  import LangChainPy
  import LangChainTs
  import CrewAI
  import AutoGen
  import Git

  // ---------------------------------------------------------------------
  // `__init__`: detector selection

  /** The keys of `FRAMEWORK_DETECTORS`. */
  datatype Framework = LangChainPython | LangChainTypeScript | AutoGenFramework | CrewAIFramework

  function FrameworkOf(name: string): (f: Option<Framework>)
    ensures f == Some(LangChainPython) <==> name == "langchain-py"
    ensures f == Some(LangChainTypeScript) <==> name == "langchain-ts"
    ensures f == Some(AutoGenFramework) <==> name == "autogen"
    ensures f == Some(CrewAIFramework) <==> name == "crewai"
  {
    if name == "langchain-py" then Some(LangChainPython)
    else if name == "langchain-ts" then Some(LangChainTypeScript)
    else if name == "autogen" then Some(AutoGenFramework)
    else if name == "crewai" then Some(CrewAIFramework)
    else None
  }

  const DEFAULT_FRAMEWORKS: seq<string> := ["langchain-py", "langchain-ts"]

  /** `frameworks or ['langchain-py', 'langchain-ts']`: no list and the empty
      list both select the default. */
  function RequestedFrameworks(frameworks: seq<string>): (r: seq<string>)
    ensures frameworks == [] ==> r == DEFAULT_FRAMEWORKS
    ensures frameworks != [] ==> r == frameworks
  {
    if frameworks == [] then DEFAULT_FRAMEWORKS else frameworks
  }

  /** The detectors built for the framework names, in their order; an
      unknown name adds none. */
  function SelectDetectors(names: seq<string>): (r: seq<Framework>)
    ensures |r| <= |names|
  {
    if names == [] then []
    else
      var prev := SelectDetectors(names[..|names| - 1]);
      match FrameworkOf(names[|names| - 1])
      case Some(f) => prev + [f]
      case None => prev
  }

  /** Selection goes name by name: the detectors of a longer list are those
      of its parts, one after the other. */
  lemma {:induction false} SelectDetectorsAppend(a: seq<string>, b: seq<string>)
    ensures SelectDetectors(a + b) == SelectDetectors(a) + SelectDetectors(b)
    decreases |b|
  {
    if b == [] {
      assert a + b == a;
    } else {
      var n := |b| - 1;
      assert (a + b)[..|a + b| - 1] == a + b[..n];
      assert (a + b)[|a + b| - 1] == b[n];
      SelectDetectorsAppend(a, b[..n]);
    }
  }

  /** A known name adds its detector, an unknown one nothing; with the
      default list the Python and TypeScript LangChain detectors run, in
      that order. */
  lemma SelectDetectorsRules(name: string)
    ensures SelectDetectors([name]) == if FrameworkOf(name).Some? then [FrameworkOf(name).value] else []
    ensures SelectDetectors(RequestedFrameworks([])) == [LangChainPython, LangChainTypeScript]
  {
    assert [name][..0] == [];
    var d := DEFAULT_FRAMEWORKS;
    assert d[..1] == ["langchain-py"] && d[..1][..0] == [];
  }

  // ---------------------------------------------------------------------
  // `_process_file`, `_resolve_tool_files`

  /** What a detector reads besides the file: the regex engine, file
      system and schema oracles the TypeScript detector is given, and the
      Python parser. */
  datatype Env = Env(world: LangChainTs.World, parse: string -> Parse)

  /** `detector.detect(file_path, content)` for one detector; `xs` is the
      TypeScript detector's extractor list. */
  function DetectWith(env: Env, xs: seq<Extractor>, f: Framework, file: Paths.Path, content: string): Outcome {
    var re := env.world.re;
    match f
    case LangChainPython => LangChainPy.Detect(re, env.world.fs, env.parse, file, content)
    case LangChainTypeScript => LangChainTs.Detect(env.world, xs, file, content)
    case AutoGenFramework => AutoGen.Detect(re, env.parse(content), Paths.ToStr(file), content)
    case CrewAIFramework => CrewAI.Detect(re, env.parse(content), Paths.ToStr(file), content)
  }

  /** The detectors as one function of the framework, the file and its
      text. */
  type Detectors = (Framework, Paths.Path, string) -> Outcome

  function DetectorsOf(env: Env, xs: seq<Extractor>): Detectors {
    (f, file, content) => DetectWith(env, xs, f, file, content)
  }

  /** The result of detector `f` when it reports a found agent. */
  function FoundBy(detect: Detectors, f: Framework, file: Paths.Path, content: string): Option<DetectorResult> {
    match detect(f, file, content)
    case Detected(r) => if r.found then Some(r) else None
    case _ => None
  }

  /** The first detector, in order, that finds an agent. */
  function FirstFound(detect: Detectors, fs: seq<Framework>, file: Paths.Path, content: string): Option<DetectorResult> {
    if fs == [] then None
    else
      var here := FoundBy(detect, fs[0], file, content);
      if here.Some? then here else FirstFound(detect, fs[1..], file, content)
  }

  /** Detector `i` finds an agent and none before it does. */
  predicate FirstFinder(detect: Detectors, fs: seq<Framework>, file: Paths.Path, content: string, i: int) {
    0 <= i < |fs| && FoundBy(detect, fs[i], file, content).Some?
    && forall j :: 0 <= j < i ==> FoundBy(detect, fs[j], file, content).None?
  }

  /** A detector that raises or finds nothing is passed over: the result
      is that of the first detector that finds an agent, and none only
      when no detector does. */
  lemma {:induction false} FirstFoundRules(detect: Detectors, fs: seq<Framework>, file: Paths.Path, content: string)
    ensures FirstFound(detect, fs, file, content).None? <==> forall i :: 0 <= i < |fs| ==> FoundBy(detect, fs[i], file, content).None?
    ensures FirstFound(detect, fs, file, content).Some? ==>
      exists i :: FirstFinder(detect, fs, file, content, i) && FoundBy(detect, fs[i], file, content) == FirstFound(detect, fs, file, content)
  {
    if fs != [] && FoundBy(detect, fs[0], file, content).None? {
      var rest := fs[1..];
      FirstFoundRules(detect, rest, file, content);
      assert forall i :: 1 <= i < |fs| ==> rest[i - 1] == fs[i];
      if FirstFound(detect, rest, file, content).Some? {
        var i :| FirstFinder(detect, rest, file, content, i) && FoundBy(detect, rest[i], file, content) == FirstFound(detect, rest, file, content);
        assert FirstFinder(detect, fs, file, content, i + 1);
      }
    } else if fs != [] {
      assert FirstFinder(detect, fs, file, content, 0);
    }
  }

  /** `_resolve_tool_files(result, file_path, root_path)`, returning the
      updated result. */
  function ResolveToolFiles(r: DetectorResult, file: Paths.Path, root: Paths.Path): (s: DetectorResult)
    ensures s.constructorFile == Some(Paths.RelativeOrFull(file, root))
    ensures s.toolFiles == if r.toolFiles == [] then [Paths.RelativeOrFull(file, root)] else r.toolFiles
    ensures s.(constructorFile := r.constructorFile, toolFiles := r.toolFiles) == r
  {
    var constructorFile := Paths.RelativeOrFull(file, root);
    r.(constructorFile := Some(constructorFile),
       toolFiles := if r.toolFiles == [] then [constructorFile] else r.toolFiles)
  }

  /** `_process_file(file_path, root_path)`, given what `read_file_safely`
      returned. */
  function ProcessFile(detect: Detectors, fs: seq<Framework>, file: Paths.Path, root: Paths.Path, content: Option<string>): Option<DetectorResult> {
    if content.None? || content.value == "" then None
    else
      match FirstFound(detect, fs, file, content.value)
      case Some(r) => Some(ResolveToolFiles(r, file, root))
      case None => None
  }

  /** A file that cannot be read or is empty gives nothing; otherwise the
      result is the first detector's found result, with the constructor
      file set and at least one tool file. */
  lemma ProcessFileRules(detect: Detectors, fs: seq<Framework>, file: Paths.Path, root: Paths.Path, content: Option<string>)
    ensures content.None? || content == Some("") ==> ProcessFile(detect, fs, file, root, content).None?
    ensures var p := ProcessFile(detect, fs, file, root, content);
      p.Some? ==>
        p.value.found && p.value.constructorFile.Some? && p.value.toolFiles != [] &&
        exists i :: FirstFinder(detect, fs, file, content.value, i) &&
          p == Some(ResolveToolFiles(FoundBy(detect, fs[i], file, content.value).value, file, root))
    ensures content.Some? && content != Some("") ==>
      (ProcessFile(detect, fs, file, root, content).None? <==> forall i :: 0 <= i < |fs| ==> FoundBy(detect, fs[i], file, content.value).None?)
  {
    if content.Some? && content.value != "" {
      FirstFoundRules(detect, fs, file, content.value);
    }
  }

  // ---------------------------------------------------------------------
  // `_create_agent_from_result`

  /** `ToolParameter` */
  datatype ToolParameter = ToolParameter(typ: string, required: bool, description: Option<string>)

  /** `ToolReturns` */
  datatype ToolReturns = ToolReturns(typ: string, description: Option<string>)

  /** `ToolDetail` */
  datatype ToolDetail = ToolDetail(toolName: string, description: string, parameters: Dict<ToolParameter>, ret: Option<ToolReturns>)

  /** `Tools` */
  datatype Tools = Tools(count: nat, details: seq<ToolDetail>)

  /** `Agent`; times are whatever the clock and `git` report. */
  datatype Agent = Agent(
    name: string,
    repository: string,
    agentType: AgentType,
    language: Language,
    frameworks: seq<string>,
    architecture: Architecture,
    description: string,
    files: seq<string>,
    owner: string,
    createdAt: int,
    updatedAt: int,
    lastChangedBy: Option<string>,
    defaultBranch: Option<string>,
    tools: Tools)

  function ParameterOf(p: ParamInfo): ToolParameter {
    ToolParameter(p.typ, p.required, p.description)
  }

  /** The parameters kept: all but those whose names start with `*`. */
  function ConvertParams(keys: seq<string>, values: map<string, ParamInfo>): (r: Dict<ToolParameter>)
    ensures Valid(r)
    ensures forall k :: Get(r, k) == if k in keys && k in values && !StartsWith(k, "*") then Some(ParameterOf(values[k])) else None
  {
    if keys == [] then Empty()
    else
      var n := |keys| - 1;
      var prev := ConvertParams(keys[..n], values);
      assert forall k :: k in keys <==> k in keys[..n] || k == keys[n];
      var k := keys[n];
      if StartsWith(k, "*") || k !in values then prev else Put(prev, k, ParameterOf(values[k]))
  }

  /** The kept names, in their order. */
  function StarFreeNames(keys: seq<string>, values: map<string, ParamInfo>): seq<string> {
    if keys == [] then []
    else
      var n := |keys| - 1;
      var prev := StarFreeNames(keys[..n], values);
      if StartsWith(keys[n], "*") || keys[n] !in values then prev else prev + [keys[n]]
  }

  /** Converting a tool's parameters keeps the order of the names that
      remain. */
  lemma {:induction false} ConvertParamsOrder(keys: seq<string>, values: map<string, ParamInfo>)
    requires Distinct(keys)
    ensures ConvertParams(keys, values).keys == StarFreeNames(keys, values)
  {
    if keys != [] {
      var n := |keys| - 1;
      assert Distinct(keys[..n]);
      ConvertParamsOrder(keys[..n], values);
      var prev := ConvertParams(keys[..n], values);
      var k := keys[n];
      if !(StartsWith(k, "*") || k !in values) {
        assert k !in keys[..n];
        assert Get(prev, k).None?;
      }
    }
  }

  /** One `ToolDetail`: a description that is missing or empty reads
      "unknown". */
  function DetailOf(t: ToolInfo): (d: ToolDetail)
    ensures d.toolName == t.name
    ensures d.description == if t.description.None? || t.description.value == "" then "unknown" else t.description.value
    ensures Valid(d.parameters)
  {
    var ret := match t.result
      case Some(x) => Some(ToolReturns(x.typ, x.description))
      case None => None;
    ToolDetail(t.name, if t.description.None? || t.description.value == "" then "unknown" else t.description.value,
      ConvertParams(t.parameters.keys, t.parameters.values), ret)
  }

  /** The details of all tools, in order. */
  function Details(tools: seq<ToolInfo>): (r: seq<ToolDetail>)
    ensures |r| == |tools| && forall i :: 0 <= i < |tools| ==> r[i] == DetailOf(tools[i])
  {
    seq(|tools|, i requires 0 <= i < |tools| => DetailOf(tools[i]))
  }

  /** The files, each once, in first-occurrence order. */
  function Dedup(files: seq<string>): (r: seq<string>)
    ensures Distinct(r)
    ensures forall f :: f in r <==> f in files
  {
    if files == [] then []
    else
      var n := |files| - 1;
      var prev := Dedup(files[..n]);
      assert files == files[..n] + [files[n]];
      if files[n] in prev then prev else prev + [files[n]]
  }

  /** What `git` adds to a record. */
  datatype GitInfo = GitInfo(owner: string, timestamps: Git.Timestamps, lastChangedBy: Option<string>, defaultBranch: Option<string>)

  /** The git metadata of the files; without a repository the owner is
      "unknown" and both times are `now`. */
  function GitInfoOf(git: Option<Git.Repo>, files: seq<string>, now: int): GitInfo {
    match git
    case Some(repo) => GitInfo(Git.Owner(repo, files), Git.TimestampsOf(repo, files, now), Git.LastChangedBy(repo, files), repo.defaultBranch)
    case None => GitInfo("unknown", Git.Timestamps(now, now), None, None)
  }

  /** `result.metadata.get('description', '')`: no detector records a
      description. */
  function MetadataDescription(m: Metadata): string {
    ""
  }

  /** `_create_agent_from_result(result, root_path, git_extractor)`: `None`
      when the record cannot be built (no constructor file, or a language
      the record does not admit). */
  function CreateAgent(r: DetectorResult, root: Paths.Path, git: Option<Git.Repo>, now: int): Option<Agent> {
    if r.constructorFile.None? || r.language == NoLanguage then None
    else
      var files := Dedup([r.constructorFile.value] + r.toolFiles);
      var info := GitInfoOf(git, files, now);
      var name := if r.agentName.None? || r.agentName.value == "" then Paths.Name(root) else r.agentName.value;
      Some(Agent(name, Paths.ToStr(root), r.agentType, r.language, r.frameworks, r.architecture,
        MetadataDescription(r.metadata), files, info.owner, info.timestamps.createdAt, info.timestamps.updatedAt,
        info.lastChangedBy, info.defaultBranch, Tools(|r.tools|, Details(r.tools))))
  }

  /** The record keeps the detector's findings: one detail per tool in
      order and a count equal to both; the files are the constructor file
      and the tool files, each once; the name falls back to the root's
      name; without git the owner is "unknown" and both times are `now`. */
  lemma CreateAgentRules(r: DetectorResult, root: Paths.Path, git: Option<Git.Repo>, now: int)
    ensures CreateAgent(r, root, git, now).Some? <==> r.constructorFile.Some? && r.language != NoLanguage
    ensures var a := CreateAgent(r, root, git, now);
      a.Some? ==>
        a.value.tools.count == |r.tools| == |a.value.tools.details|
        && (forall i :: 0 <= i < |r.tools| ==> a.value.tools.details[i].toolName == r.tools[i].name)
        && Distinct(a.value.files)
        && (forall f :: f in a.value.files <==> Some(f) == r.constructorFile || f in r.toolFiles)
        && a.value.name == (if r.agentName.None? || r.agentName.value == "" then Paths.Name(root) else r.agentName.value)
        && a.value.description == ""
        && a.value.agentType == r.agentType && a.value.architecture == r.architecture
        && a.value.language == r.language && a.value.frameworks == r.frameworks
    ensures var a := CreateAgent(r, root, None, now);
      a.Some? ==>
        a.value.owner == "unknown" && a.value.createdAt == a.value.updatedAt == now &&
        a.value.lastChangedBy.None? && a.value.defaultBranch.None?
  {
  }
}
