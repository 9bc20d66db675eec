/** `Scanner` (agentbom/scanner.py) as a class: the detectors it builds
    from the framework names, the per-file dispatch over them and the
    conversion of a detection into an `Agent` record.  Each method is
    proved to compute its specification in module `Scanning`. */
module ScannerClass {
  import opened Wrappers
  import opened Strs
  import opened Dicts
  import Paths
  import opened Detection
  import opened Schemas
  import opened Scanning
  import LangChainPyDetector
  import LangChainTsDetector
  import CrewAIDetector
  import AutoGenDetector
  import Git
  import GitExtractorClass

  class Scanner {
    /** The framework names asked for, after the default is applied. */
    const frameworks: seq<string>
    /** The detectors, one per known name, in the order of the names. */
    const detectors: seq<Framework>
    /** The TypeScript detector object and its schema factory. */
    const tsDetector: LangChainTsDetector.LangChainTypeScriptDetector

    /** `Scanner(frameworks)`: the detector list is built name by name,
        skipping names it does not know. */
    constructor(frameworks: seq<string>)
      ensures this.frameworks == RequestedFrameworks(frameworks)
      ensures detectors == SelectDetectors(this.frameworks)
      ensures fresh(tsDetector) && fresh(tsDetector.schemaFactory)
      ensures tsDetector.schemaFactory.extractors == DEFAULT_EXTRACTORS
    {
      var names := if frameworks == [] then DEFAULT_FRAMEWORKS else frameworks;
      var selected: seq<Framework> := [];
      var i := 0;
      while i < |names|
        invariant 0 <= i <= |names|
        invariant selected == SelectDetectors(names[..i])
      {
        assert names[..i + 1][..i] == names[..i];
        var f := FrameworkOf(names[i]);
        if f.Some? {
          selected := selected + [f.value];
        }
        i := i + 1;
      }
      assert names[..|names|] == names;
      this.frameworks := names;
      detectors := selected;
      tsDetector := new LangChainTsDetector.LangChainTypeScriptDetector();
    }

    /** `detector.detect(file_path, content)` for detector `f`. */
    method RunDetector(env: Env, f: Framework, file: Paths.Path, content: string) returns (o: Outcome)
      ensures o == DetectWith(env, tsDetector.schemaFactory.extractors, f, file, content)
    {
      match f {
        case LangChainPython =>
          o := LangChainPyDetector.Detect(env.world.re, env.world.fs, env.parse, file, content);
        case LangChainTypeScript =>
          o := tsDetector.Detect(env.world, file, content);
        case AutoGenFramework =>
          o := AutoGenDetector.Detect(env.world.re, env.parse(content), Paths.ToStr(file), content);
        case CrewAIFramework =>
          o := CrewAIDetector.Detect(env.world.re, env.parse(content), Paths.ToStr(file), content);
      }
    }

    /** `_process_file(file_path, root_path)`, given what reading the file
        returned. */
    method ProcessFile(env: Env, file: Paths.Path, root: Paths.Path, content: Option<string>) returns (r: Option<DetectorResult>)
      ensures r == Scanning.ProcessFile(DetectorsOf(env, tsDetector.schemaFactory.extractors), detectors, file, root, content)
    {
      if content.None? || content.value == "" {
        return None;
      }
      ghost var xs := tsDetector.schemaFactory.extractors;
      var found := FirstDetection(env, file, content.value, DetectorsOf(env, xs));
      if found.Some? {
        r := Some(ResolveToolFiles(found.value, file, root));
      } else {
        r := None;
      }
    }

    /** The loop of `_process_file`: the detectors in order, passing over
        one that raises or finds nothing; `detect` is what the detectors
        compute. */
    method FirstDetection(env: Env, file: Paths.Path, content: string, ghost detect: Detectors) returns (found: Option<DetectorResult>)
      requires forall f {:trigger DetectWith(env, tsDetector.schemaFactory.extractors, f, file, content)} ::
        detect(f, file, content) == DetectWith(env, tsDetector.schemaFactory.extractors, f, file, content)
      ensures found == FirstFound(detect, detectors, file, content)
    {
      var i := 0;
      while i < |detectors|
        invariant 0 <= i <= |detectors|
        invariant FirstFound(detect, detectors[i..], file, content) == FirstFound(detect, detectors, file, content)
      {
        var o := RunDetector(env, detectors[i], file, content);
        assert detectors[i..][1..] == detectors[i + 1..];
        if o.Detected? && o.result.found {
          return Some(o.result);
        }
        i := i + 1;
      }
      return None;
    }

    /** The record's files: the constructor file and the tool files, each
        once. */
    method AgentFiles(files: seq<string>) returns (r: seq<string>)
      ensures r == Dedup(files)
    {
      r := [];
      var i := 0;
      while i < |files|
        invariant 0 <= i <= |files|
        invariant r == Dedup(files[..i])
      {
        assert files[..i + 1][..i] == files[..i];
        if files[i] !in r {
          r := r + [files[i]];
        }
        i := i + 1;
      }
      assert files[..|files|] == files;
    }

    /** The parameter loop of `_create_agent_from_result` for one tool. */
    method ConvertParameters(params: Dict<ParamInfo>) returns (r: Dict<ToolParameter>)
      ensures r == ConvertParams(params.keys, params.values)
    {
      r := Empty();
      var i := 0;
      while i < |params.keys|
        invariant 0 <= i <= |params.keys|
        invariant r == ConvertParams(params.keys[..i], params.values)
      {
        assert params.keys[..i + 1][..i] == params.keys[..i];
        var name := params.keys[i];
        if !StartsWith(name, "*") && name in params.values {
          r := Put(r, name, ParameterOf(params.values[name]));
        }
        i := i + 1;
      }
      assert params.keys[..|params.keys|] == params.keys;
    }

    /** The tool loop of `_create_agent_from_result`. */
    method ConvertTools(tools: seq<ToolInfo>) returns (details: seq<ToolDetail>)
      ensures details == Details(tools)
    {
      details := [];
      var i := 0;
      while i < |tools|
        invariant 0 <= i <= |tools|
        invariant |details| == i && forall k :: 0 <= k < i ==> details[k] == DetailOf(tools[k])
      {
        var t := tools[i];
        var params := ConvertParameters(t.parameters);
        var ret: Option<ToolReturns> := None;
        if t.result.Some? {
          ret := Some(ToolReturns(t.result.value.typ, t.result.value.description));
        }
        var description := if t.description.None? || t.description.value == "" then "unknown" else t.description.value;
        details := details + [ToolDetail(t.name, description, params, ret)];
        i := i + 1;
      }
    }

    /** `_create_agent_from_result(result, root_path, git_extractor)`; the
        git extractor's only change is its CODEOWNERS cache. */
    method CreateAgentFromResult(result: DetectorResult, root: Paths.Path, git: GitExtractorClass.GitExtractor?, now: int)
      returns (agent: Option<Agent>)
      requires git != null ==> git.Valid()
      modifies git
      ensures git != null ==> git.Valid()
      ensures git != null && agent.Some? ==> git.codeownersCache == Some(Git.LoadedCodeowners(git.repo))
      ensures agent == CreateAgent(result, root, if git == null then None else Some(git.repo), now)
    {
      if result.constructorFile.None? || result.language == NoLanguage {
        return None;
      }
      var files := AgentFiles([result.constructorFile.value] + result.toolFiles);
      var info: GitInfo;
      if git != null {
        var owner := git.GetOwner(files);
        var timestamps := git.GetTimestamps(files, now);
        var lastChangedBy := git.GetLastChangedBy(files);
        info := GitInfo(owner, timestamps, lastChangedBy, git.repo.defaultBranch);
      } else {
        info := GitInfo("unknown", Git.Timestamps(now, now), None, None);
      }
      var details := ConvertTools(result.tools);
      var name := if result.agentName.None? || result.agentName.value == "" then Paths.Name(root) else result.agentName.value;
      agent := Some(Agent(name, Paths.ToStr(root), result.agentType, result.language, result.frameworks,
        result.architecture, MetadataDescription(result.metadata), files, info.owner, info.timestamps.createdAt,
        info.timestamps.updatedAt, info.lastChangedBy, info.defaultBranch, Tools(|result.tools|, details)));
    }
  }
}
