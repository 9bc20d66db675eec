/** The schema extractors: how Zod, Yup and TypeScript-interface field
    declarations become parameter records, and which extractor a file
    gets. */
module Schemas {
  import opened Wrappers
  import opened Strs
  import opened Regex
  import opened Dicts
  import opened Detection

  datatype Dialect = Zod | Yup | TsInterface

  /** A built-in extractor, or one registered later, known by its library
      name; what the latter accepts and extracts is given from outside. */
  datatype Extractor = BuiltIn(dialect: Dialect) | Custom(library: string)

  /** `can_extract` of the registered extractors, by library name; it is
      taken to answer without raising. */
  type CustomAccepts = (string, string) -> bool

  /** `extract_params(content, schema_body)` of a registered extractor, by
      library name; `None` when it raises. */
  type CustomExtract = (string, string, string) -> Option<Dict<ParamInfo>>

  // The patterns of the three dialects.
  const ZOD_INDICATORS: seq<string> := [
    @"import\s*\{[^}]*z[^}]*\}\s*from\s*[""\']zod[""\']",
    @"from\s+[""\']zod[""\']",
    @"z\.object\s*\(",
    @"z\.string\s*\(",
    @"z\.number\s*\("
  ]
  const YUP_INDICATORS: seq<string> := [
    @"import\s*\{[^}]*yup[^}]*\}",
    @"from\s+[""\']yup[""\']",
    @"yup\.object\s*\(",
    @"yup\.string\s*\("
  ]
  const ZOD_FIELD := @"(\w+)\s*:\s*z\.(\w+)\s*\(([^)]*)\)([^,\n]*?)(?=,|\n|$|\})"
  const ZOD_DESCRIBE_QUOTED := @"\.describe\s*\(\s*[""\']([^""\']+)[""\']"
  const ZOD_DESCRIBE_TEMPLATE := @"\.describe\s*\(\s*`([^`]+)`"
  const TS_FIELD := @"(\w+)\??:\s*([^;,\n]+)"
  const YUP_FIELD := @"(\w+)\s*:\s*yup\.(\w+)\s*\(\)([^,\n]*?)(?=,|\n|$|\})"
  const YUP_LABEL := @"\.label\s*\(\s*[""\']([^""\']+)[""\']"

  // The type vocabularies.
  const ZOD_TYPES: map<string, string> := map[
    "string" := "str", "number" := "number", "boolean" := "bool", "object" := "object", "array" := "array",
    "date" := "date", "any" := "any", "literal" := "literal", "enum" := "enum"]
  const TS_TYPES: map<string, string> := map[
    "string" := "str", "number" := "number", "boolean" := "bool", "object" := "object", "any" := "any",
    "Array" := "array"]
  const YUP_TYPES: map<string, string> := map[
    "string" := "str", "number" := "number", "boolean" := "bool", "object" := "object", "array" := "array",
    "date" := "date"]

  /** `type_map.get(t, t)`: a token outside the table passes through. */
  function MapType(table: map<string, string>, t: string): (r: string)
    ensures t !in table ==> r == t
  {
    if t in table then table[t] else t
  }

  /** Only `string` and `boolean` are renamed: in every table every other
      token maps to itself. */
  lemma TypeTablesRename(t: string)
    ensures MapType(ZOD_TYPES, t) == (if t == "string" then "str" else if t == "boolean" then "bool" else t)
    ensures MapType(YUP_TYPES, t) == (if t == "string" then "str" else if t == "boolean" then "bool" else t)
    ensures MapType(TS_TYPES, t) == (if t == "string" then "str" else if t == "boolean" then "bool" else if t == "Array" then "array" else t)
  {
  }

  /** `can_extract`: Zod and Yup look for their indicators (Yup ignoring
      case), a TypeScript interface needs `interface` and a brace. */
  predicate CanExtract(re: Engine, accepts: CustomAccepts, e: Extractor, content: string) {
    match e
    case BuiltIn(Zod) => exists i :: 0 <= i < |ZOD_INDICATORS| && Found(re, ZOD_INDICATORS[i], {}, content)
    case BuiltIn(Yup) => exists i :: 0 <= i < |YUP_INDICATORS| && Found(re, YUP_INDICATORS[i], {IgnoreCase}, content)
    case BuiltIn(TsInterface) => Contains(content, "interface") && '{' in content
    case Custom(name) => accepts(name, content)
  }

  /** The type a Zod field is given: literals and enums with arguments
      show them, arrays name their element kind, other tokens go through
      the table. */
  function ZodType(token: string, args: string): string {
    if token == "literal" && args != "" then "literal<" + args + ">"
    else if token == "enum" && args != "" then "enum<" + args + ">"
    else if token == "array" && args != "" then
      (if Contains(args, "z.object") then "array<object>" else if Contains(args, "z.string") then "array<str>" else "array")
    else MapType(ZOD_TYPES, token)
  }

  /** A `.describe(...)` with a quoted argument, else one with a template
      string (stripped). */
  function ZodDescription(re: Engine, modifiers: string): Option<string> {
    match Search(re, ZOD_DESCRIBE_QUOTED, {}, modifiers)
    case Some(d) => Some(GroupText(d, 1))
    case None =>
      match Search(re, ZOD_DESCRIBE_TEMPLATE, {}, modifiers)
      case Some(d) => Some(Strip(GroupText(d, 1)))
      case None => None
  }

  /** The type of a TypeScript field: quoted is a literal, a union an
      enum, `T[]` an array of `T`'s type. */
  function TsType(raw: string): string {
    if StartsWith(raw, "'") || StartsWith(raw, "\"") then "literal<" + raw + ">"
    else if '|' in raw then "enum<" + raw + ">"
    else if EndsWith(raw, "[]") then "array<" + MapType(TS_TYPES, raw[..|raw| - 2]) + ">"
    else MapType(TS_TYPES, raw)
  }

  /** A TypeScript field is optional when a `?` comes before the first
      colon of the declaration. */
  predicate TsOptional(declaration: string) {
    '?' in Split(declaration, ':')[0]
  }

  /** The record of one field match in a dialect. */
  function FieldInfo(re: Engine, d: Dialect, m: Match): ParamInfo {
    match d
    case Zod => ZodField(re, m)
    case Yup => YupField(re, m)
    case TsInterface => ParamInfo(TsType(Strip(GroupText(m, 2))), !TsOptional(GroupText(m, 0)), None, None)
  }

  function ZodField(re: Engine, m: Match): ParamInfo {
    var modifiers := Strip(GroupText(m, 4));
    ParamInfo(ZodType(GroupText(m, 2), Strip(GroupText(m, 3))), !Contains(modifiers, ".optional()"),
              ZodDescription(re, modifiers), None)
  }

  function YupField(re: Engine, m: Match): ParamInfo {
    var modifiers := Strip(GroupText(m, 3));
    var labelled := Search(re, YUP_LABEL, {}, modifiers);
    ParamInfo(MapType(YUP_TYPES, GroupText(m, 2)),
              !(Contains(modifiers, ".optional()") || Contains(modifiers, ".notRequired()")),
              if labelled.Some? then Some(GroupText(labelled.value, 1)) else None, None)
  }

  function FieldPattern(d: Dialect): string {
    match d
    case Zod => ZOD_FIELD
    case Yup => YUP_FIELD
    case TsInterface => TS_FIELD
  }

  function FieldFlags(d: Dialect): set<Flag> {
    if d == TsInterface then {} else {DotAll}
  }

  function FieldMatches(re: Engine, d: Dialect, body: string): seq<Match> {
    re(FieldPattern(d), FieldFlags(d), body)
  }

  /** One entry per field match: the field's name and its record. */
  function FieldEntries(re: Engine, d: Dialect, ms: seq<Match>): (es: seq<Entry<ParamInfo>>)
    ensures |es| == |ms|
    ensures forall j :: 0 <= j < |ms| ==> es[j] == Entry(GroupText(ms[j], 1), FieldInfo(re, d, ms[j]))
  {
    seq(|ms|, j requires 0 <= j < |ms| => Entry(GroupText(ms[j], 1), FieldInfo(re, d, ms[j])))
  }

  /** `extract_params` of a built-in extractor: the fields in order, a
      field declared twice keeping its place and its last record. */
  function ExtractParams(re: Engine, d: Dialect, body: string): Dict<ParamInfo> {
    FromEntries(FieldEntries(re, d, FieldMatches(re, d, body)))
  }

  /** Every field of the schema body is a parameter, with the record of
      its last declaration, and nothing else is. */
  lemma ExtractParamsMeaning(re: Engine, d: Dialect, body: string, k: string)
    ensures var ms := FieldMatches(re, d, body); var ps := ExtractParams(re, d, body);
      (Get(ps, k).Some? <==> exists j :: 0 <= j < |ms| && GroupText(ms[j], 1) == k)
      && (Get(ps, k).Some? ==>
            (exists j :: 0 <= j < |ms| && GroupText(ms[j], 1) == k
               && Get(ps, k) == Some(FieldInfo(re, d, ms[j]))
               && forall j' :: j < j' < |ms| ==> GroupText(ms[j'], 1) != k))
  {
    var ms := FieldMatches(re, d, body);
    var es := FieldEntries(re, d, ms);
    FromEntriesGet(es, k);
    LastValueWitness(es, k);
  }

  /** Zod fields: required unless `.optional()` is among the modifiers;
      the quoted description is preferred to the template one. */
  lemma ZodFieldRules(re: Engine, m: Match)
    ensures var p := FieldInfo(re, Zod, m); var modifiers := Strip(GroupText(m, 4));
      (p.required <==> !Contains(modifiers, ".optional()"))
      && (Found(re, ZOD_DESCRIBE_QUOTED, {}, modifiers) ==>
            p.description == Some(GroupText(Search(re, ZOD_DESCRIBE_QUOTED, {}, modifiers).value, 1)))
      && (!Found(re, ZOD_DESCRIBE_QUOTED, {}, modifiers) && !Found(re, ZOD_DESCRIBE_TEMPLATE, {}, modifiers) ==> p.description.None?)
      && p.default.None?
  {
  }

  /** Yup fields: `.optional()` or `.notRequired()` makes one optional, a
      `.label(...)` describes it. */
  lemma YupFieldRules(re: Engine, m: Match)
    ensures var p := FieldInfo(re, Yup, m); var modifiers := Strip(GroupText(m, 3));
      (p.required <==> !Contains(modifiers, ".optional()") && !Contains(modifiers, ".notRequired()"))
      && (p.description.Some? <==> Found(re, YUP_LABEL, {}, modifiers))
      && p.typ == MapType(YUP_TYPES, GroupText(m, 2))
  {
  }

  /** A Zod literal or enum with arguments shows them, an array names
      what it holds, any other field takes the token's table entry. */
  lemma ZodTypeCases(token: string, args: string)
    ensures token == "literal" && args != "" ==> ZodType(token, args) == "literal<" + args + ">"
    ensures token == "enum" && args != "" ==> ZodType(token, args) == "enum<" + args + ">"
    ensures token == "array" && args != "" ==> ZodType(token, args) in {"array<object>", "array<str>", "array"}
    ensures token == "array" && Contains(args, "z.object") ==> ZodType(token, args) == "array<object>"
    ensures (token !in {"literal", "enum", "array"} || args == "") ==> ZodType(token, args) == MapType(ZOD_TYPES, token)
  {
  }

  /** For a declaration `name?: T` or `name: T` as the TypeScript field
      pattern matches it, the field is optional exactly when the `?` is
      there. */
  lemma TsOptionalMarker(name: string, marker: string, rest: string)
    requires ':' !in name && '?' !in name
    requires marker == "" || marker == "?"
    ensures TsOptional(name + marker + ":" + rest) <==> marker == "?"
  {
    var s := name + marker + ":" + rest;
    var nm := name + marker;
    assert ':' !in nm;
    assert s[..|nm|] == nm && s[|nm|] == ':';
    assert Split(s, ':')[0] == s[..IndexOf(s, ':')];
    assert s[..IndexOf(s, ':')] == nm;
  }

  /** TypeScript field types: quoted text is a literal, a union an enum,
      `T[]` an array of `T`'s entry in the table. */
  lemma TsTypeCases(raw: string)
    ensures StartsWith(raw, "'") ==> TsType(raw) == "literal<" + raw + ">"
    ensures !StartsWith(raw, "'") && !StartsWith(raw, "\"") && '|' in raw ==> TsType(raw) == "enum<" + raw + ">"
    ensures !StartsWith(raw, "'") && !StartsWith(raw, "\"") && '|' !in raw && EndsWith(raw, "[]") ==>
              TsType(raw) == "array<" + MapType(TS_TYPES, raw[..|raw| - 2]) + ">"
    ensures !StartsWith(raw, "'") && !StartsWith(raw, "\"") && '|' !in raw && !EndsWith(raw, "[]") ==>
              TsType(raw) == MapType(TS_TYPES, raw)
  {
  }

  // ---------------------------------------------------------------------
  // The registry

  const DEFAULT_EXTRACTORS: seq<Extractor> := [BuiltIn(Zod), BuiltIn(Yup), BuiltIn(TsInterface)]

  /** The first extractor in the list that accepts the content. */
  function Chosen(re: Engine, accepts: CustomAccepts, xs: seq<Extractor>, content: string): (r: Option<Extractor>)
    ensures r.None? <==> forall i :: 0 <= i < |xs| ==> !CanExtract(re, accepts, xs[i], content)
  {
    if xs == [] then None
    else if CanExtract(re, accepts, xs[0], content) then Some(xs[0])
    else
      var rest := Chosen(re, accepts, xs[1..], content);
      assert forall i :: 1 <= i < |xs| ==> xs[i] == xs[1..][i - 1];
      rest
  }

  /** The extractor chosen is in the list, accepts the content, and every
      extractor before it refuses. */
  lemma {:induction false} ChosenIsFirst(re: Engine, accepts: CustomAccepts, xs: seq<Extractor>, content: string) returns (i: nat)
    requires Chosen(re, accepts, xs, content).Some?
    ensures i < |xs| && Chosen(re, accepts, xs, content) == Some(xs[i]) && CanExtract(re, accepts, xs[i], content)
    ensures forall j :: 0 <= j < i ==> !CanExtract(re, accepts, xs[j], content)
  {
    if CanExtract(re, accepts, xs[0], content) {
      i := 0;
    } else {
      var k := ChosenIsFirst(re, accepts, xs[1..], content);
      i := k + 1;
      forall j | 0 <= j < i ensures !CanExtract(re, accepts, xs[j], content) {
        if j > 0 {
          assert xs[j] == xs[1..][j - 1];
        }
      }
    }
  }

  /** A newly registered extractor wins whenever it accepts the content;
      otherwise the choice is the one made before. */
  lemma RegisterPriority(re: Engine, accepts: CustomAccepts, e: Extractor, xs: seq<Extractor>, content: string)
    ensures CanExtract(re, accepts, e, content) ==> Chosen(re, accepts, [e] + xs, content) == Some(e)
    ensures !CanExtract(re, accepts, e, content) ==> Chosen(re, accepts, [e] + xs, content) == Chosen(re, accepts, xs, content)
  {
    assert ([e] + xs)[1..] == xs;
  }

  /** With the built-in list, Zod is tried first, then Yup, then the
      TypeScript interface. */
  lemma DefaultOrder(re: Engine, accepts: CustomAccepts, content: string)
    ensures var c := Chosen(re, accepts, DEFAULT_EXTRACTORS, content);
      (CanExtract(re, accepts, BuiltIn(Zod), content) ==> c == Some(BuiltIn(Zod)))
      && (!CanExtract(re, accepts, BuiltIn(Zod), content) && CanExtract(re, accepts, BuiltIn(Yup), content) ==> c == Some(BuiltIn(Yup)))
      && (!CanExtract(re, accepts, BuiltIn(Zod), content) && !CanExtract(re, accepts, BuiltIn(Yup), content) ==>
            c == (if CanExtract(re, accepts, BuiltIn(TsInterface), content) then Some(BuiltIn(TsInterface)) else None))
  {
    var xs := DEFAULT_EXTRACTORS;
    assert xs[1..] == [BuiltIn(Yup), BuiltIn(TsInterface)];
    assert xs[1..][1..] == [BuiltIn(TsInterface)];
    assert xs[1..][1..][1..] == [];
    var tail := [BuiltIn(TsInterface)];
    assert Chosen(re, accepts, tail, content) == if CanExtract(re, accepts, BuiltIn(TsInterface), content) then Some(BuiltIn(TsInterface)) else None;
  }
}
