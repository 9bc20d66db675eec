/** The search both Python detectors make for a function decorated with
    `@tool`, and the tool such a function defines. */
module ToolDefs {
  import opened Wrappers
  import opened Strs
  import opened Regex
  import opened Dicts
  import opened PyAst
  import opened Detection
  import opened Signatures
  import opened SignatureExtractor

  /** A `@tool`-decorated definition of `name` somewhere in the text. */
  function ToolPattern(name: string): string {
    @"@tool.*?\ndef\s+" + Escape(name) + @"\s*\([^)]*\)"
  }

  /** The first triple-quoted docstring after the definition of `name`. */
  const DOC_TAIL: string := @"\s*\([^)]*\)\s*:\s*""""""([^""]*?)"""""""

  function DocPattern(name: string): string {
    @"def\s+" + Escape(name) + DOC_TAIL
  }

  /** `@tool` or `@<something>.tool` */
  predicate IsToolDecorator(d: Expr) {
    d == Name("tool") || (d.Attribute? && d.attr == "tool")
  }

  predicate IsToolFunction(n: Node, name: string) {
    n.S? && n.stmt.FunctionDef? && n.stmt.name == name
    && exists i :: 0 <= i < |n.stmt.decorators| && IsToolDecorator(n.stmt.decorators[i])
  }

  /** The first function definition in the walk called `name` and
      decorated as a tool. */
  function FirstToolFunction(walk: seq<Node>, name: string): (f: Option<Stmt>)
    ensures f.Some? ==> f.value.FunctionDef? && f.value.name == name
  {
    if walk == [] then None
    else if IsToolFunction(walk[0], name) then Some(walk[0].stmt)
    else FirstToolFunction(walk[1..], name)
  }

  /** The definition found is a decorated function of that name that no
      earlier node of the walk is; none is found only when there is none. */
  lemma {:induction false} FirstToolFunctionIsFirst(walk: seq<Node>, name: string)
    ensures var f := FirstToolFunction(walk, name);
      (f.None? <==> forall i :: 0 <= i < |walk| ==> !IsToolFunction(walk[i], name))
      && (f.Some? ==>
            exists i :: 0 <= i < |walk| && walk[i] == S(f.value) && IsToolFunction(walk[i], name)
                        && forall j :: 0 <= j < i ==> !IsToolFunction(walk[j], name))
  {
    if walk != [] && !IsToolFunction(walk[0], name) {
      FirstToolFunctionIsFirst(walk[1..], name);
      assert forall i :: 0 < i < |walk| ==> walk[i] == walk[1..][i - 1];
      var f := FirstToolFunction(walk, name);
      if f.Some? {
        var i :| 0 <= i < |walk[1..]| && walk[1..][i] == S(f.value) && IsToolFunction(walk[1..][i], name)
                  && forall j :: 0 <= j < i ==> !IsToolFunction(walk[1..][j], name);
        assert walk[i + 1] == S(f.value);
        assert forall j :: 0 < j < i + 1 ==> walk[j] == walk[1..][j - 1];
      }
    }
  }

  /** The first line of a docstring. */
  function FirstLine(doc: string): string {
    Split(doc, '\n')[0]
  }

  /** The tool a decorated function defines: its merged signature, and for
      a description the merged one, else the docstring's first line. */
  function ToolFromFunction(re: Engine, f: Stmt): (t: ToolInfo)
    requires f.FunctionDef?
  {
    var sig := MergedSignature(re, SignatureOf(f.params, f.result), f.docstring);
    var description :=
      if sig.description.Some? then sig.description
      else if Given(f.docstring) then Some(FirstLine(f.docstring.value))
      else None;
    ToolInfo(f.name, "", 0, description, sig.parameters, Some(sig.returned), None)
  }

  /** The description the fallback reads when the text does not parse. */
  function FallbackDescription(re: Engine, name: string, content: string): Option<string> {
    var m := Search(re, DocPattern(name), {DotAll}, content);
    if m.Some? then Some(Strip(GroupText(m.value, 1))) else None
  }

  /** The walk's search for the decorated definition of `name`. */
  method FindToolFunction(walk: seq<Node>, name: string) returns (f: Option<Stmt>)
    ensures f == FirstToolFunction(walk, name)
  {
    var i := 0;
    while i < |walk|
      invariant 0 <= i <= |walk|
      invariant FirstToolFunction(walk[i..], name) == FirstToolFunction(walk, name)
    {
      assert walk[i..][1..] == walk[i + 1..];
      if IsToolFunction(walk[i], name) {
        return Some(walk[i].stmt);
      }
      i := i + 1;
    }
    return None;
  }

  /** The tool record built from a decorated function. */
  method FunctionTool(re: Engine, fn: Stmt) returns (t: ToolInfo)
    requires fn.FunctionDef?
    ensures t == ToolFromFunction(re, fn)
  {
    var signature := ExtractSignature(fn.params, fn.result);
    var full := MergeDocstringInfo(re, signature, fn.docstring);
    assert full == MergedSignature(re, SignatureOf(fn.params, fn.result), fn.docstring);
    var description := full.description;
    if description.None? && fn.docstring.Some? && fn.docstring.value != "" {
      description := Some(FirstLine(fn.docstring.value));
    }
    t := ToolInfo(fn.name, "", 0, description, full.parameters, Some(full.returned), None);
  }
}
