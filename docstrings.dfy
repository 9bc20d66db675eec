/** Parsing of Python docstrings in the Google, NumPy and Sphinx styles into
    per-parameter documentation, the documented return value and a one-line
    description. */
module Docstrings {
  import opened Wrappers
  import opened Strs
  import opened Regex
  import opened Dicts

  /** What a docstring says about one parameter. */
  datatype ParameterDoc = ParameterDoc(
    name: string,
    typ: Option<string>,
    description: Option<string>,
    default: Option<string>,
    required: bool)

  /** The documented return value: `{"type": ..., "description": ...}`. */
  datatype ReturnDoc = ReturnDoc(typ: string, description: string)

  datatype DocstringInfo = DocstringInfo(
    description: Option<string>,
    parameters: seq<ParameterDoc>,
    result: Option<ReturnDoc>)

  const NoInfo := DocstringInfo(None, [], None)

  // The patterns of the three styles.
  const GOOGLE_DESCRIPTION := @"^(.*?)(?=\n\s*(?:Args?|Parameters?|Returns?|Yields?|Raises?|Note|Notes|Example|Examples|See Also|Attributes?|References?):|$)"
  const GOOGLE_ARGS := @"Args?:\s*\n((?:\s+.*\n?)*)"
  const GOOGLE_PARAM := @"^\s+(\w+)\s*(?:\((.*?)\))?\s*:\s*(.*)$"
  const GOOGLE_RETURNS_LINE := @"^\s*Returns?:"
  const GOOGLE_DEFAULT := @"[Dd]efaults?\s+to\s+(.+?)(?:\.|$)"
  const GOOGLE_RETURNS := @"Returns?:\s*\n\s+(.*?)(?:\n\s*\n|\n\s*\w+:|\Z)"
  const GOOGLE_RETURNS_TYPE := @"^(\S+?):\s*(.*)$"
  const NUMPY_PARAMS := @"Parameters?\s*\n\s*-+\s*\n((?:.*\n?)*?)(?=\n\s*\w+\s*\n\s*-+|\Z)"
  const NUMPY_PARAM := @"^(\w+)\s*:\s*(.*?)(?:\n|$)((?:\s+.*\n?)*)"
  const NUMPY_RETURNS := @"Returns?\s*\n\s*-+\s*\n((?:.*\n?)*?)(?=\n\s*\w+\s*\n\s*-+|\Z)"
  const DEFAULT_VALUE := @"[Dd]efault(?:s)?\s*[:=]\s*(.+?)(?:\.|$)"
  const SPHINX_PARAM := @":param\s+(\w+):\s*(.*?)(?=:|\Z)"
  const SPHINX_TYPE := @":type\s+(\w+):\s*(.*?)(?=:|\Z)"
  const SPHINX_RETURN := @":return(?:s)?:\s*(.*?)(?=:|\Z)"
  const SPHINX_RTYPE := @":rtype:\s*(.*?)(?=:|\Z)"

  /** The markers that end the free-text description. */
  const SECTION_MARKERS: seq<string> := [
    @"\n\s*Args?:", @"\n\s*Parameters?:", @"\n\s*Returns?:", @"\n\s*Yields?:",
    @"\n\s*Raises?:", @"\n\s*Note:", @"\n\s*Example:", @"\n\s*Examples:",
    @"\n\s*See Also:", @"\n\s*Attributes?:", @"\n\s*References?:", @"\n\s*-{3,}",
    @":param\s+\w+:", @":type\s+\w+:", @":return:", @":rtype:"]

  // ---------------------------------------------------------------------
  // The `,?\s*optional` substitution and the shared per-parameter rules

  function SpaceRun(s: string): (n: nat)
    ensures n <= |s|
  {
    if s != [] && IsSpace(s[0]) then 1 + SpaceRun(s[1..]) else 0
  }

  /** The length of a match of `,?\s*optional` (letters in either case) at
      the start of `s`, or 0 when there is none. */
  function OptionalAt(s: string): (n: nat)
    ensures n <= |s|
    ensures n > 0 ==> n >= 8 && AsciiLower(s[n - 8..n]) == "optional"
  {
    var k := if s != [] && s[0] == ',' then 1 else 0;
    var m := k + SpaceRun(s[k..]);
    if m + 8 <= |s| && AsciiLower(s[m..m + 8]) == "optional" then m + 8 else 0
  }

  /** `re.sub(r",?\s*optional", "", s, flags=re.IGNORECASE)` */
  function StripOptional(s: string): (r: string)
    ensures |r| <= |s|
    decreases |s|
  {
    if s == [] then []
    else
      var n := OptionalAt(s);
      if n > 0 then StripOptional(s[n..]) else [s[0]] + StripOptional(s[1..])
  }

  /** A type hint that never mentions "optional" comes through the
      substitution unchanged. */
  lemma {:induction false} StripOptionalAbsent(s: string)
    requires !Contains(Lower(s), "optional")
    ensures StripOptional(s) == s
    decreases |s|
  {
    if s != [] {
      var n := OptionalAt(s);
      if n > 0 {
        OptionalWordLowered(s[n - 8..n]);
        ContainsLowered(s, n - 8, n, "optional");
        assert false;
      }
      assert s == [s[0]] + s[1..];
      LowerConcat([s[0]], s[1..]);
      if Contains(Lower(s[1..]), "optional") {
        ContainsInSuffix(Lower([s[0]]), Lower(s[1..]), "optional");
      }
      StripOptionalAbsent(s[1..]);
    }
  }

  /** A word that matches `optional` letter by letter, ignoring the case
      of ASCII letters, is `optional` once lower-cased. */
  lemma OptionalWordLowered(w: string)
    requires AsciiLower(w) == "optional"
    ensures Lower(w) == "optional"
  {
    forall i | 0 <= i < |w| ensures w[i] != KELVIN_SIGN && w[i] != CAPITAL_I_DOT {
      assert AsciiLower(w)[i] == AsciiLowerChar(w[i]);
    }
    LowerPlain(w);
  }

  /** `"optional" in t.lower()` */
  predicate OptionalHint(t: string) {
    Contains(Lower(t), "optional")
  }

  /** The type hint with "optional" and its comma removed, then stripped. */
  function CleanType(t: string): (r: string)
    ensures r != [] ==> !IsSpace(r[0]) && !IsSpace(r[|r| - 1])
  {
    StripShape(StripOptional(t));
    Strip(StripOptional(t))
  }

  lemma CleanTypeOfPlainHint(t: string)
    requires !OptionalHint(t)
    ensures CleanType(t) == Strip(t)
  {
    StripOptionalAbsent(t);
  }

  /** The default value a description announces through `pattern`. */
  function DefaultIn(re: Engine, pattern: string, desc: string): (r: Option<string>)
    ensures r.Some? <==> Found(re, pattern, {}, desc)
  {
    match Search(re, pattern, {}, desc)
    case Some(m) => Some(Strip(GroupText(m, 1)))
    case None => None
  }

  // ---------------------------------------------------------------------
  // Google style

  /** The parameter documented by one `name (type): description` line,
      before any continuation lines. */
  function GoogleParam(re: Engine, m: Match): ParameterDoc
  {
    var typeInfo := match Group(m, 2) case Some(t) => if t != "" then Some(t) else None case None => None;
    var optional := typeInfo.Some? && OptionalHint(typeInfo.value);
    var typ := match typeInfo case Some(t) => (var c := CleanType(t); if c != "" then Some(c) else None) case None => None;
    var desc := Strip(GroupText(m, 3));
    var default := DefaultIn(re, GOOGLE_DEFAULT, desc);
    ParameterDoc(GroupText(m, 1), typ, Some(desc), default, !optional && default.None?)
  }

  /** A Google parameter is optional when its type hint mentions "optional" or its description announces a default; the hint loses "optional" and an empty remainder leaves no type. */
  lemma GoogleParamRules(re: Engine, m: Match)
    ensures GoogleParam(re, m).name == GroupText(m, 1)
    ensures GoogleParam(re, m).description == Some(Strip(GroupText(m, 3)))
    ensures GoogleParam(re, m).default == DefaultIn(re, GOOGLE_DEFAULT, Strip(GroupText(m, 3)))
    ensures !GoogleParam(re, m).required <==> (Group(m, 2).Some? && OptionalHint(Group(m, 2).value)) || GoogleParam(re, m).default.Some?
    ensures GoogleParam(re, m).typ.Some? ==> Group(m, 2).Some? && GoogleParam(re, m).typ.value != "" && GoogleParam(re, m).typ.value == CleanType(Group(m, 2).value)
    ensures Group(m, 2).Some? && Group(m, 2).value != "" && CleanType(Group(m, 2).value) != "" ==> GoogleParam(re, m).typ.Some?
  {
  }


  predicate IsReturnsLine(re: Engine, line: string) {
    MatchAtStart(re, GOOGLE_RETURNS_LINE, {}, line).Some?
  }

  function ParamLine(re: Engine, line: string): Option<Match> {
    MatchAtStart(re, GOOGLE_PARAM, {}, line)
  }

  /** The lines of an Args section that come before its first `Returns:`
      line. */
  function UntilReturns(re: Engine, lines: seq<string>): (r: seq<string>)
    ensures |r| <= |lines| && r == lines[..|r|]
    ensures forall k :: 0 <= k < |r| ==> !IsReturnsLine(re, r[k])
    ensures |r| < |lines| ==> IsReturnsLine(re, lines[|r|])
  {
    if lines == [] || IsReturnsLine(re, lines[0]) then []
    else [lines[0]] + UntilReturns(re, lines[1..])
  }

  /** The parameter-line matches among `lines`, in order. */
  function ParamLineMatches(re: Engine, lines: seq<string>): seq<Match> {
    if lines == [] then []
    else
      ParamLineMatches(re, lines[..|lines| - 1])
      + match ParamLine(re, lines[|lines| - 1]) case Some(m) => [m] case None => []
  }

  /** The lines of the Args section, if the docstring has one. */
  function GoogleArgLines(re: Engine, doc: string): seq<string> {
    match Search(re, GOOGLE_ARGS, {}, doc)
    case Some(a) => Split(GroupText(a, 1), '\n')
    case None => []
  }

  /** The matches of the parameter lines the Google parser reads. */
  function GoogleParamMatches(re: Engine, doc: string): seq<Match> {
    ParamLineMatches(re, UntilReturns(re, GoogleArgLines(re, doc)))
  }

  /** The parameter each match documents, in order. */
  function GoogleBases(re: Engine, ms: seq<Match>): (r: seq<ParameterDoc>)
    ensures |r| == |ms|
  {
    if ms == [] then [] else GoogleBases(re, ms[..|ms| - 1]) + [GoogleParam(re, ms[|ms| - 1])]
  }

  lemma {:induction false} GoogleBasesAt(re: Engine, ms: seq<Match>, j: nat)
    requires j < |ms|
    ensures GoogleBases(re, ms)[j] == GoogleParam(re, ms[j])
  {
    if j < |ms| - 1 {
      GoogleBasesAt(re, ms[..|ms| - 1], j);
    }
  }

  /** `p` is the parameter `base` with its description extended by
      continuation text. */
  predicate Extends(p: ParameterDoc, base: ParameterDoc) {
    p.name == base.name && p.typ == base.typ && p.default == base.default && p.required == base.required
    && p.description.Some? && base.description.Some? && StartsWith(p.description.value, base.description.value)
  }

  /** Each of `ps` is the matching one of `bs`, extended. */
  predicate AllExtend(ps: seq<ParameterDoc>, bs: seq<ParameterDoc>) {
    |ps| == |bs| && forall j :: 0 <= j < |ps| ==> Extends(ps[j], bs[j])
  }

  /** The Google parser's state part-way through the Args lines: the
      parameters finished so far and the one still being read. */
  datatype ArgsState = ArgsState(done: seq<ParameterDoc>, current: Option<ParameterDoc>)

  /** What one line of the Args section does to the state: a parameter line
      finishes the current parameter and starts a new one; any other line
      that is not blank and does not start with "Returns" continues the
      current description after one space. */
  function ArgsStep(re: Engine, st: ArgsState, line: string): ArgsState {
    match ParamLine(re, line)
    case Some(m) =>
      ArgsState(st.done + (match st.current case Some(p) => [p] case None => []), Some(GoogleParam(re, m)))
    case None =>
      var text := Strip(line);
      match st.current
      case Some(p) =>
        if text != "" && !StartsWith(text, "Returns")
        then ArgsState(st.done, Some(p.(description := Some(p.description.GetOr("") + " " + text))))
        else st
      case None => st
  }

  /** The state after the given lines, read in order. */
  function ArgsFold(re: Engine, lines: seq<string>): ArgsState {
    if lines == [] then ArgsState([], None)
    else ArgsStep(re, ArgsFold(re, lines[..|lines| - 1]), lines[|lines| - 1])
  }

  /** The finished parameters followed by the current one. */
  function Flush(st: ArgsState): seq<ParameterDoc> {
    st.done + match st.current case Some(p) => [p] case None => []
  }

  /** Continuation text only lengthens a description. */
  lemma ExtendsContinued(p: ParameterDoc, b: ParameterDoc, text: string)
    requires Extends(p, b)
    ensures Extends(p.(description := Some(p.description.GetOr("") + " " + text)), b)
  {
    var d := p.description.value;
    assert (d + " " + text)[..|b.description.value|] == d[..|b.description.value|];
  }

  /** A line that is not a parameter line keeps the finished parameters
      and keeps the current one, possibly extended. */
  lemma ArgsStepOther(re: Engine, st: ArgsState, line: string, b: ParameterDoc)
    requires ParamLine(re, line).None?
    requires st.current.Some? ==> Extends(st.current.value, b)
    ensures ArgsStep(re, st, line).done == st.done
    ensures ArgsStep(re, st, line).current.Some? <==> st.current.Some?
    ensures st.current.Some? ==> Extends(ArgsStep(re, st, line).current.value, b)
  {
    if st.current.Some? && Strip(line) != "" && !StartsWith(Strip(line), "Returns") {
      ExtendsContinued(st.current.value, b, Strip(line));
    }
  }

  /** A parameter line finishes the current parameter and starts its own. */
  lemma ArgsStepParam(re: Engine, st: ArgsState, line: string, m: Match)
    requires ParamLine(re, line) == Some(m)
    ensures ArgsStep(re, st, line) == ArgsState(Flush(st), Some(GoogleParam(re, m)))
  {
  }

  /** The shape of a fold state against the parameter lines read so far:
      a current parameter exactly when some parameter line was read, and
      each parameter extends the one its line documents. */
  predicate FoldShape(st: ArgsState, bs: seq<ParameterDoc>) {
    (st.current.None? <==> bs == [])
    && (st.current.None? ==> st.done == [])
    && (st.current.Some? ==> AllExtend(st.done, bs[..|bs| - 1]) && Extends(st.current.value, bs[|bs| - 1]))
  }

  /** Every parameter the fold holds is the one its line documents, with
      its description extended; there is a current parameter exactly when
      some parameter line has been read. */
  lemma {:induction false} ArgsFoldExtends(re: Engine, lines: seq<string>)
    ensures FoldShape(ArgsFold(re, lines), GoogleBases(re, ParamLineMatches(re, lines)))
  {
    if lines != [] {
      var init := lines[..|lines| - 1];
      var line := lines[|lines| - 1];
      ArgsFoldExtends(re, init);
      var st0 := ArgsFold(re, init);
      var ms0 := ParamLineMatches(re, init);
      assert ArgsFold(re, lines) == ArgsStep(re, st0, line);
      match ParamLine(re, line)
      case Some(m) =>
        assert ParamLineMatches(re, lines) == ms0 + [m];
        assert (ms0 + [m])[..|ms0|] == ms0;
        assert GoogleBases(re, ms0 + [m]) == GoogleBases(re, ms0) + [GoogleParam(re, m)];
        StepParamShape(re, st0, line, m, GoogleBases(re, ms0));
      case None =>
        assert ParamLineMatches(re, lines) == ms0;
        StepOtherShape(re, st0, line, GoogleBases(re, ms0));
    }
  }

  /** A parameter line keeps the shape, with its parameter as the newest. */
  lemma StepParamShape(re: Engine, st: ArgsState, line: string, m: Match, bs: seq<ParameterDoc>)
    requires ParamLine(re, line) == Some(m) && FoldShape(st, bs)
    ensures FoldShape(ArgsStep(re, st, line), bs + [GoogleParam(re, m)])
  {
    var g := GoogleParam(re, m);
    ArgsStepParam(re, st, line, m);
    GoogleParamRules(re, m);
    assert g.description.value[..|g.description.value|] == g.description.value;
    assert Extends(g, g);
    var bs' := bs + [g];
    assert bs'[..|bs'| - 1] == bs && bs'[|bs'| - 1] == g;
    if st.current.Some? {
      assert bs == bs[..|bs| - 1] + [bs[|bs| - 1]];
      AllExtendSnoc(st.done, bs[..|bs| - 1], st.current.value, bs[|bs| - 1]);
    }
    assert AllExtend(Flush(st), bs);
  }

  /** Any other line keeps the shape. */
  lemma StepOtherShape(re: Engine, st: ArgsState, line: string, bs: seq<ParameterDoc>)
    requires ParamLine(re, line).None? && FoldShape(st, bs)
    ensures FoldShape(ArgsStep(re, st, line), bs)
  {
    if st.current.Some? {
      ArgsStepOther(re, st, line, bs[|bs| - 1]);
    } else {
      ArgsStepOther(re, st, line, GoogleParam(re, Match(0, [])));
    }
  }

  lemma AllExtendSnoc(ps: seq<ParameterDoc>, bs: seq<ParameterDoc>, p: ParameterDoc, b: ParameterDoc)
    requires AllExtend(ps, bs) && Extends(p, b)
    ensures AllExtend(ps + [p], bs + [b])
  {
  }

  lemma FlushExtends(re: Engine, lines: seq<string>)
    ensures AllExtend(Flush(ArgsFold(re, lines)), GoogleBases(re, ParamLineMatches(re, lines)))
  {
    ArgsFoldExtends(re, lines);
    var st := ArgsFold(re, lines);
    var bs := GoogleBases(re, ParamLineMatches(re, lines));
    if st.current.Some? {
      assert bs == bs[..|bs| - 1] + [bs[|bs| - 1]];
    }
  }

  /** The Google parser's parameters: one per parameter line before the
      first `Returns:` line, in order, each as its own line documents it
      with continuation text appended to the description. */
  predicate GoogleParams(re: Engine, doc: string, ps: seq<ParameterDoc>) {
    AllExtend(ps, GoogleBases(re, GoogleParamMatches(re, doc)))
  }

  /** The parameters the Google parser returns. */
  function GoogleParamList(re: Engine, doc: string): seq<ParameterDoc> {
    Flush(ArgsFold(re, UntilReturns(re, GoogleArgLines(re, doc))))
  }

  /** They are the ones `GoogleParams` describes. */
  lemma GoogleParamListMeaning(re: Engine, doc: string)
    ensures GoogleParams(re, doc, GoogleParamList(re, doc))
  {
    FlushExtends(re, UntilReturns(re, GoogleArgLines(re, doc)));
  }

  function GoogleDescription(re: Engine, doc: string): Option<string> {
    match MatchAtStart(re, GOOGLE_DESCRIPTION, {DotAll}, doc)
    case Some(d) => Some(Strip(GroupText(d, 1)))
    case None => None
  }

  /** The Google Returns section: `T: d` gives the type `T`, any other text
      is all description with type "Any". */
  function GoogleReturns(re: Engine, doc: string): (r: Option<ReturnDoc>)
    ensures r.Some? <==> Found(re, GOOGLE_RETURNS, {DotAll}, doc)
    ensures r.Some? && MatchAtStart(re, GOOGLE_RETURNS_TYPE, {DotAll}, Strip(GroupText(Search(re, GOOGLE_RETURNS, {DotAll}, doc).value, 1))).None?
            ==> r.value == ReturnDoc("Any", Strip(GroupText(Search(re, GOOGLE_RETURNS, {DotAll}, doc).value, 1)))
  {
    match Search(re, GOOGLE_RETURNS, {DotAll}, doc)
    case None => None
    case Some(rm) =>
      var text := Strip(GroupText(rm, 1));
      match MatchAtStart(re, GOOGLE_RETURNS_TYPE, {DotAll}, text)
      case Some(td) => Some(ReturnDoc(GroupText(td, 1), Strip(GroupText(td, 2))))
      case None => Some(ReturnDoc("Any", text))
  }

  lemma {:induction false} UntilReturnsIsPrefix(re: Engine, lines: seq<string>, i: nat)
    requires i <= |lines|
    requires forall k :: 0 <= k < i ==> !IsReturnsLine(re, lines[k])
    requires i == |lines| || IsReturnsLine(re, lines[i])
    ensures UntilReturns(re, lines) == lines[..i]
  {
    if i > 0 {
      UntilReturnsIsPrefix(re, lines[1..], i - 1);
      assert lines[..i] == [lines[0]] + lines[1..][..i - 1];
    }
  }

  // ---------------------------------------------------------------------
  // NumPy style

  /** The parameter documented by one `name : type` entry and its indented
      description. */
  function NumpyParam(re: Engine, m: Match): ParameterDoc
  {
    var t0 := Strip(GroupText(m, 2));
    var optional := OptionalHint(t0);
    var t := if optional then CleanType(t0) else t0;
    var desc := Strip(GroupText(m, 3));
    var default := DefaultIn(re, DEFAULT_VALUE, desc);
    ParameterDoc(GroupText(m, 1), if t != "" then Some(t) else None, Some(desc), default, !optional && default.None?)
  }

  /** A NumPy parameter is optional when its type mentions "optional" or its description announces a default; a type without "optional" is kept as written, and an empty type is none. */
  lemma NumpyParamRules(re: Engine, m: Match)
    ensures NumpyParam(re, m).name == GroupText(m, 1)
    ensures NumpyParam(re, m).description == Some(Strip(GroupText(m, 3)))
    ensures NumpyParam(re, m).default == DefaultIn(re, DEFAULT_VALUE, Strip(GroupText(m, 3)))
    ensures !NumpyParam(re, m).required <==> OptionalHint(Strip(GroupText(m, 2))) || NumpyParam(re, m).default.Some?
    ensures NumpyParam(re, m).typ.Some? ==> NumpyParam(re, m).typ.value != ""
    ensures !OptionalHint(Strip(GroupText(m, 2))) ==> NumpyParam(re, m).typ == (var t := Strip(GroupText(m, 2)); if t != "" then Some(t) else None)
  {
  }


  /** The matches of the entries of the Parameters section. */
  function NumpyParamMatches(re: Engine, doc: string): seq<Match> {
    match Search(re, NUMPY_PARAMS, {}, doc)
    case Some(pm) => re(NUMPY_PARAM, {Multiline}, GroupText(pm, 1))
    case None => []
  }

  /** The NumPy Returns section: the first line is the type ("Any" when
      blank), the stripped remaining lines the description. */
  function NumpyReturns(re: Engine, doc: string): (r: Option<ReturnDoc>)
    ensures r.Some? <==> Found(re, NUMPY_RETURNS, {}, doc)
    ensures r.Some? ==> r.value.typ != ""
  {
    match Search(re, NUMPY_RETURNS, {}, doc)
    case None => None
    case Some(rm) =>
      var lines := Split(Strip(GroupText(rm, 1)), '\n');
      var typeLine := Strip(lines[0]);
      var rest := seq(|lines| - 1, k requires 0 <= k < |lines| - 1 => Strip(lines[k + 1]));
      Some(ReturnDoc(if typeLine != "" then typeLine else "Any", Strip(Join("\n", rest))))
  }

  /** The documentation of each entry, in order. */
  function NumpyParams(re: Engine, ms: seq<Match>): seq<ParameterDoc> {
    if ms == [] then [] else NumpyParams(re, ms[..|ms| - 1]) + [NumpyParam(re, ms[|ms| - 1])]
  }

  /** One parameter per entry of the section, in the entries' order. */
  lemma {:induction false} NumpyParamsAt(re: Engine, ms: seq<Match>, j: nat)
    requires j < |ms|
    ensures |NumpyParams(re, ms)| == |ms| && NumpyParams(re, ms)[j] == NumpyParam(re, ms[j])
  {
    if j < |ms| - 1 {
      NumpyParamsAt(re, ms[..|ms| - 1], j);
    } else if |ms| > 1 {
      NumpyParamsAt(re, ms[..|ms| - 1], 0);
    }
  }

  // ---------------------------------------------------------------------
  // Sphinx style

  /** `name` -> stripped text, for every match of `pattern`. */
  function NamedTexts(ms: seq<Match>): (es: seq<Entry<string>>)
    ensures |es| == |ms|
  {
    seq(|ms|, j requires 0 <= j < |ms| => Entry(GroupText(ms[j], 1), Strip(GroupText(ms[j], 2))))
  }

  /** The `:param name:` descriptions; a later entry for a name wins. */
  function SphinxDescs(re: Engine, doc: string): Dict<string> {
    FromEntries(NamedTexts(re(SPHINX_PARAM, {DotAll}, doc)))
  }

  /** The `:type name:` hints; a later entry for a name wins. */
  function SphinxTypes(re: Engine, doc: string): Dict<string> {
    FromEntries(NamedTexts(re(SPHINX_TYPE, {DotAll}, doc)))
  }

  /** The parameter `name` with its Sphinx description and type hint. */
  function SphinxParam(re: Engine, name: string, desc: Option<string>, typ: Option<string>): ParameterDoc
  {
    var d := desc.GetOr("");
    var optional := typ.Some? && OptionalHint(typ.value);
    var t := if optional then Some(CleanType(typ.value)) else typ;
    var default := if d != "" then DefaultIn(re, DEFAULT_VALUE, d) else None;
    ParameterDoc(name, t, Some(d), default, !optional && default.None?)
  }

  /** A Sphinx parameter is optional when its `:type` mentions "optional" or its non-empty description announces a default; it has a type exactly when it has a `:type` entry. */
  lemma SphinxParamRules(re: Engine, name: string, desc: Option<string>, typ: Option<string>)
    ensures SphinxParam(re, name, desc, typ).name == name && SphinxParam(re, name, desc, typ).description == Some(desc.GetOr(""))
    ensures SphinxParam(re, name, desc, typ).default.Some? ==> desc.GetOr("") != "" && Found(re, DEFAULT_VALUE, {}, desc.GetOr(""))
    ensures !SphinxParam(re, name, desc, typ).required <==> (typ.Some? && OptionalHint(typ.value)) || SphinxParam(re, name, desc, typ).default.Some?
    ensures SphinxParam(re, name, desc, typ).typ.None? <==> typ.None?
  {
  }


  /** The keys of `b` that `a` lacks, in order. */
  function Missing(a: seq<string>, b: seq<string>): (r: seq<string>)
    ensures forall x :: x in r <==> x in b && x !in a
  {
    if b == [] then []
    else Missing(a, b[..|b| - 1]) + if b[|b| - 1] in a then [] else [b[|b| - 1]]
  }

  function SphinxReturns(re: Engine, doc: string): (r: Option<ReturnDoc>)
    ensures r.Some? ==> r.value.typ != ""
  {
    var rdesc := match Search(re, SPHINX_RETURN, {DotAll}, doc) case Some(m) => Strip(GroupText(m, 1)) case None => "";
    var rtype := match Search(re, SPHINX_RTYPE, {DotAll}, doc) case Some(m) => Strip(GroupText(m, 1)) case None => "";
    if rdesc != "" || rtype != "" then Some(ReturnDoc(if rtype != "" then rtype else "Any", rdesc)) else None
  }

  function Names(ps: seq<ParameterDoc>): (r: seq<string>)
    ensures |r| == |ps| && forall j :: 0 <= j < |ps| ==> r[j] == ps[j].name
  {
    seq(|ps|, j requires 0 <= j < |ps| => ps[j].name)
  }

  /** `set(descs) | set(types)` in a fixed order standing in for the
      iteration order of a Python set: the `:param` names, then the `:type`
      names without a `:param` entry. */
  function NameUnion(descs: Dict<string>, types: Dict<string>): seq<string> {
    descs.keys + Missing(descs.keys, types.keys)
  }

  /** The parameter documented under each of `names`, in order. */
  function SphinxParamsOf(re: Engine, names: seq<string>, descs: Dict<string>, types: Dict<string>): seq<ParameterDoc> {
    if names == [] then []
    else
      var n := names[|names| - 1];
      SphinxParamsOf(re, names[..|names| - 1], descs, types) + [SphinxParam(re, n, Get(descs, n), Get(types, n))]
  }

  lemma {:induction false} SphinxParamsOfAt(re: Engine, names: seq<string>, descs: Dict<string>, types: Dict<string>, j: nat)
    requires j < |names|
    ensures |SphinxParamsOf(re, names, descs, types)| == |names|
    ensures SphinxParamsOf(re, names, descs, types)[j] == SphinxParam(re, names[j], Get(descs, names[j]), Get(types, names[j]))
  {
    if j < |names| - 1 {
      SphinxParamsOfAt(re, names[..|names| - 1], descs, types, j);
    } else if |names| > 1 {
      SphinxParamsOfAt(re, names[..|names| - 1], descs, types, 0);
    }
  }

  /** The Sphinx parser's parameters for `doc`. */
  function SphinxParamList(re: Engine, doc: string): seq<ParameterDoc> {
    var descs := SphinxDescs(re, doc);
    var types := SphinxTypes(re, doc);
    SphinxParamsOf(re, NameUnion(descs, types), descs, types)
  }

  lemma {:induction false} MissingDistinct(a: seq<string>, b: seq<string>)
    requires Distinct(b)
    ensures Distinct(Missing(a, b))
  {
    if b != [] {
      MissingDistinct(a, b[..|b| - 1]);
    }
  }

  /** The Sphinx parser's parameters: one per name that has a `:param` or a
      `:type` entry, each name once, each with the text of the last
      `:param` entry and the last `:type` entry for its name. */
  lemma SphinxParamListMeaning(re: Engine, doc: string)
    ensures var ps := SphinxParamList(re, doc);
      var descs := NamedTexts(re(SPHINX_PARAM, {DotAll}, doc));
      var types := NamedTexts(re(SPHINX_TYPE, {DotAll}, doc));
      Distinct(Names(ps))
      && (forall n :: n in Names(ps) <==> LastValue(descs, n).Some? || LastValue(types, n).Some?)
      && (forall j :: 0 <= j < |ps| ==>
            ps[j] == SphinxParam(re, ps[j].name, LastValue(descs, ps[j].name), LastValue(types, ps[j].name)))
  {
    var de := NamedTexts(re(SPHINX_PARAM, {DotAll}, doc));
    var te := NamedTexts(re(SPHINX_TYPE, {DotAll}, doc));
    var descs := SphinxDescs(re, doc);
    var types := SphinxTypes(re, doc);
    var names := NameUnion(descs, types);
    assert SphinxParamList(re, doc) == SphinxParamsOf(re, names, descs, types);
    NameUnionExact(descs, types);
    SphinxParamsOfNames(re, names, descs, types);
    forall n ensures Get(descs, n) == LastValue(de, n) && Get(types, n) == LastValue(te, n) {
      FromEntriesGet(de, n);
      FromEntriesGet(te, n);
    }
  }

  /** The names of either dictionary, each once. */
  lemma NameUnionExact(descs: Dict<string>, types: Dict<string>)
    requires Valid(descs) && Valid(types)
    ensures Distinct(NameUnion(descs, types))
    ensures forall n :: n in NameUnion(descs, types) <==> Get(descs, n).Some? || Get(types, n).Some?
  {
    MissingDistinct(descs.keys, types.keys);
    var names := NameUnion(descs, types);
    var m := Missing(descs.keys, types.keys);
    assert names == descs.keys + m;
    forall i, j | 0 <= i < j < |names| ensures names[i] != names[j] {
      if j >= |descs.keys| && i < |descs.keys| {
        assert names[j] in m && names[i] in descs.keys;
      }
    }
  }

  /** The list built for `names` has one parameter per name, in order. */
  lemma SphinxParamsOfNames(re: Engine, names: seq<string>, descs: Dict<string>, types: Dict<string>)
    ensures Names(SphinxParamsOf(re, names, descs, types)) == names
    ensures forall j :: 0 <= j < |names| ==>
      SphinxParamsOf(re, names, descs, types)[j] == SphinxParam(re, names[j], Get(descs, names[j]), Get(types, names[j]))
  {
    var ps := SphinxParamsOf(re, names, descs, types);
    if names == [] {
      assert ps == [];
    }
    forall j | 0 <= j < |names| ensures |ps| == |names| && ps[j] == SphinxParam(re, names[j], Get(descs, names[j]), Get(types, names[j])) {
      SphinxParamsOfAt(re, names, descs, types, j);
    }
    assert Names(ps) == names;
  }

  predicate SphinxHasParams(re: Engine, doc: string) {
    SphinxDescs(re, doc).keys != [] || SphinxTypes(re, doc).keys != []
  }

  /** The Sphinx parser finds parameters exactly when some `:param` or
      `:type` entry exists. */
  lemma SphinxParamsNonEmpty(re: Engine, doc: string)
    ensures SphinxParamList(re, doc) != [] <==> SphinxHasParams(re, doc)
  {
    var descs := SphinxDescs(re, doc);
    var types := SphinxTypes(re, doc);
    var names := NameUnion(descs, types);
    if names != [] {
      SphinxParamsOfAt(re, names, descs, types, 0);
    }
    if types.keys != [] {
      assert types.keys[0] in names;
    }
  }

  // ---------------------------------------------------------------------
  // The free-text description

  /** Non-empty, with no whitespace at either end and no newline. */
  predicate Tidy(s: string) {
    s != [] && !IsSpace(s[0]) && !IsSpace(s[|s| - 1]) && '\n' !in s
  }

  /** The stripped lines that are not blank, in order. */
  function Cleaned(lines: seq<string>): seq<string> {
    if lines == [] then []
    else
      var line := Strip(lines[|lines| - 1]);
      Cleaned(lines[..|lines| - 1]) + if line != "" then [line] else []
  }

  /** Dropping blank lines leaves nothing exactly when every line is blank,
      and every line kept is tidy. */
  lemma CleanedShape(lines: seq<string>)
    ensures Cleaned(lines) == [] <==> forall k :: 0 <= k < |lines| ==> AllSpace(lines[k])
    ensures (forall k :: 0 <= k < |lines| ==> '\n' !in lines[k]) ==> forall k :: 0 <= k < |Cleaned(lines)| ==> Tidy(Cleaned(lines)[k])
  {
    CleanedEmpty(lines);
    if forall k :: 0 <= k < |lines| ==> '\n' !in lines[k] {
      CleanedTidy(lines);
    }
  }

  lemma {:induction false} CleanedEmpty(lines: seq<string>)
    ensures Cleaned(lines) == [] <==> forall k :: 0 <= k < |lines| ==> AllSpace(lines[k])
  {
    if lines != [] {
      var init := lines[..|lines| - 1];
      var last := lines[|lines| - 1];
      CleanedEmpty(init);
      StripShape(last);
      assert Cleaned(lines) == Cleaned(init) + if Strip(last) != "" then [Strip(last)] else [];
      assert forall k :: 0 <= k < |init| ==> init[k] == lines[k];
    }
  }

  lemma {:induction false} CleanedTidy(lines: seq<string>)
    requires forall k :: 0 <= k < |lines| ==> '\n' !in lines[k]
    ensures forall k :: 0 <= k < |Cleaned(lines)| ==> Tidy(Cleaned(lines)[k])
  {
    if lines != [] {
      var init := lines[..|lines| - 1];
      var last := lines[|lines| - 1];
      assert forall k :: 0 <= k < |init| ==> init[k] == lines[k];
      CleanedTidy(init);
      StripShape(last);
      var r := Strip(last);
      assert '\n' !in r by {
        assert '\n' !in last;
      }
      assert Cleaned(lines) == Cleaned(init) + if r != "" then [r] else [];
    }
  }

  /** Joining tidy pieces with single spaces gives a tidy text. */
  lemma {:induction false} JoinTidy(parts: seq<string>)
    requires forall k :: 0 <= k < |parts| ==> Tidy(parts[k])
    ensures parts != [] ==> Tidy(Join(" ", parts))
    ensures parts == [] ==> Join(" ", parts) == ""
  {
    if |parts| > 1 {
      JoinTidy(parts[1..]);
      var j := Join(" ", parts);
      assert j == parts[0] + " " + Join(" ", parts[1..]);
      assert j[0] == parts[0][0];
      assert '\n' !in j by {
        forall c | c in j ensures c != '\n' {
          assert c in parts[0] || c == ' ' || c in Join(" ", parts[1..]);
        }
      }
    }
  }

  /** The text before the first section marker. */
  function DescriptionText(re: Engine, doc: string): string {
    match Search(re, Join("|", SECTION_MARKERS), {}, doc)
    case Some(m) => Take(doc, m.start)
    case None => doc
  }

  /** That text, stripped and split into lines. */
  function DescriptionLines(re: Engine, doc: string): seq<string> {
    Split(Strip(DescriptionText(re, doc)), '\n')
  }

  /** `_extract_description`: the lines before the first section, stripped,
      blank ones dropped and the rest joined with single spaces; None when
      every line is blank. */
  function ExtractDescription(re: Engine, doc: string): (r: Option<string>)
    ensures r.None? <==> forall k :: 0 <= k < |DescriptionLines(re, doc)| ==> AllSpace(DescriptionLines(re, doc)[k])
    ensures r.Some? ==> Tidy(r.value)
  {
    var lines := DescriptionLines(re, doc);
    SplitJoin(Strip(DescriptionText(re, doc)), '\n');
    CleanedShape(lines);
    var parts := Cleaned(lines);
    JoinTidy(parts);
    var desc := Join(" ", parts);
    if desc != "" then Some(desc) else None
  }

  // ---------------------------------------------------------------------
  // Choosing among the styles

  /** What `DocstringParser.parse` returns for a docstring: the first style
      that finds parameters (Google, then NumPy, then Sphinx), Google when
      none does, with the free-text description when the chosen style
      gives none. */
  function ParsedInfo(re: Engine, docstring: string): DocstringInfo {
    if docstring == "" then NoInfo
    else
      var d := Strip(docstring);
      var google := DocstringInfo(GoogleDescription(re, d), GoogleParamList(re, d), GoogleReturns(re, d));
      var numpy := NumpyParams(re, NumpyParamMatches(re, d));
      var sphinx := SphinxParamList(re, d);
      var chosen :=
        if google.parameters != [] then google
        else if numpy != [] then DocstringInfo(None, numpy, NumpyReturns(re, d))
        else if sphinx != [] then DocstringInfo(None, sphinx, SphinxReturns(re, d))
        else google;
      if chosen.description.None? || chosen.description.value == "" then chosen.(description := ExtractDescription(re, d))
      else chosen
  }
}
