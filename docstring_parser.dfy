/** `DocstringParser`: the three style parsers and the choice among them,
    each proved against the specification in `Docstrings`. */
module DocstringParser {
  import opened Wrappers
  import opened Strs
  import opened Regex
  import opened Dicts
  import opened Docstrings

  /** The body of that loop for one line that is not a `Returns:` line. */
  method ReadArgLine(re: Engine, done: seq<ParameterDoc>, current: Option<ParameterDoc>, line: string)
    returns (done': seq<ParameterDoc>, current': Option<ParameterDoc>)
    ensures ArgsState(done', current') == ArgsStep(re, ArgsState(done, current), line)
  {
    done', current' := done, current;
    var pm := ParamLine(re, line);
    if pm.Some? {
      if current.Some? {
        done' := done + [current.value];
      }
      current' := Some(GoogleParam(re, pm.value));
    } else if current.Some? && Strip(line) != "" && !StartsWith(Strip(line), "Returns") {
      var p := current.value;
      current' := Some(p.(description := Some(p.description.GetOr("") + " " + Strip(line))));
    }
  }

  /** The loop of `_parse_google_style` over the lines of the Args
      section. */
  method ParseArgLines(re: Engine, lines: seq<string>) returns (params: seq<ParameterDoc>)
    ensures params == Flush(ArgsFold(re, UntilReturns(re, lines)))
  {
    params := [];
    var current: Option<ParameterDoc> := None;
    var i := 0;
    while i < |lines| && !IsReturnsLine(re, lines[i])
      invariant 0 <= i <= |lines|
      invariant forall k :: 0 <= k < i ==> !IsReturnsLine(re, lines[k])
      invariant ArgsState(params, current) == ArgsFold(re, lines[..i])
    {
      assert lines[..i + 1][..i] == lines[..i];
      params, current := ReadArgLine(re, params, current, lines[i]);
      i := i + 1;
    }
    UntilReturnsIsPrefix(re, lines, i);
    if current.Some? {
      params := params + [current.value];
    }
  }

  /** `_parse_google_style` */
  method ParseGoogle(re: Engine, doc: string) returns (info: DocstringInfo)
    ensures info.description == GoogleDescription(re, doc)
    ensures info.parameters == GoogleParamList(re, doc)
    ensures GoogleParams(re, doc, info.parameters)
    ensures info.result == GoogleReturns(re, doc)
  {
    var lines := GoogleArgLines(re, doc);
    var params := ParseArgLines(re, lines);
    FlushExtends(re, UntilReturns(re, lines));
    info := DocstringInfo(GoogleDescription(re, doc), params, GoogleReturns(re, doc));
  }

  /** The loop of `_parse_numpy_style` over the entries. */
  method NumpyParamLoop(re: Engine, ms: seq<Match>) returns (params: seq<ParameterDoc>)
    ensures params == NumpyParams(re, ms)
  {
    params := [];
    for i := 0 to |ms|
      invariant params == NumpyParams(re, ms[..i])
    {
      assert ms[..i + 1][..i] == ms[..i];
      params := params + [NumpyParam(re, ms[i])];
    }
    assert ms[..|ms|] == ms;
  }

  /** `_parse_numpy_style` */
  method ParseNumpy(re: Engine, doc: string) returns (info: DocstringInfo)
    ensures info.description.None?
    ensures info.parameters == NumpyParams(re, NumpyParamMatches(re, doc))
    ensures info.result == NumpyReturns(re, doc)
  {
    var params := NumpyParamLoop(re, NumpyParamMatches(re, doc));
    info := DocstringInfo(None, params, NumpyReturns(re, doc));
  }

  /** One of the dictionary-building loops of `_parse_sphinx_style`:
      `name -> text` for each match, a later match for a name replacing
      the earlier text. */
  method CollectTexts(ms: seq<Match>) returns (texts: Dict<string>)
    ensures texts == FromEntries(NamedTexts(ms))
  {
    texts := Empty();
    for i := 0 to |ms|
      invariant texts == FromEntries(NamedTexts(ms)[..i])
    {
      assert NamedTexts(ms)[..i + 1][..i] == NamedTexts(ms)[..i];
      texts := Put(texts, GroupText(ms[i], 1), Strip(GroupText(ms[i], 2)));
    }
    assert NamedTexts(ms)[..|ms|] == NamedTexts(ms);
  }

  /** The loop of `_parse_sphinx_style` that documents each name. */
  method SphinxParamLoop(re: Engine, names: seq<string>, descs: Dict<string>, types: Dict<string>)
    returns (params: seq<ParameterDoc>)
    ensures params == SphinxParamsOf(re, names, descs, types)
  {
    params := [];
    for i := 0 to |names|
      invariant params == SphinxParamsOf(re, names[..i], descs, types)
    {
      assert names[..i + 1][..i] == names[..i];
      params := params + [SphinxParam(re, names[i], Get(descs, names[i]), Get(types, names[i]))];
    }
    assert names[..|names|] == names;
  }

  /** `_parse_sphinx_style` */
  method ParseSphinx(re: Engine, doc: string) returns (info: DocstringInfo)
    ensures info.description.None?
    ensures info.parameters == SphinxParamList(re, doc)
    ensures info.result == SphinxReturns(re, doc)
  {
    var descs := CollectTexts(re(SPHINX_PARAM, {DotAll}, doc));
    var types := CollectTexts(re(SPHINX_TYPE, {DotAll}, doc));
    var params := SphinxParamLoop(re, NameUnion(descs, types), descs, types);
    info := DocstringInfo(None, params, SphinxReturns(re, doc));
  }

  /** `DocstringParser.parse`: Google first; NumPy when Google found no
      parameters and NumPy did; then Sphinx on the same terms; the
      description falls back to the free text when the chosen style left
      none. */
  method Parse(re: Engine, docstring: string) returns (info: DocstringInfo)
    ensures info == ParsedInfo(re, docstring)
    ensures docstring == "" ==> info == NoInfo
    ensures docstring != "" ==>
      var d := Strip(docstring);
      var google := |GoogleParamMatches(re, d)| > 0;
      var numpy := NumpyParamMatches(re, d);
      var sphinx := SphinxHasParams(re, d);
      var googleChosen := google || (numpy == [] && !sphinx);
      (google ==> GoogleParams(re, d, info.parameters) && info.result == GoogleReturns(re, d))
      && (!google && numpy != [] ==> info.parameters == NumpyParams(re, numpy) && info.result == NumpyReturns(re, d))
      && (!google && numpy == [] && sphinx ==> info.parameters == SphinxParamList(re, d) && info.result == SphinxReturns(re, d))
      && (googleChosen && !google ==> info.parameters == [] && info.result == GoogleReturns(re, d))
      && info.description ==
           (var g := GoogleDescription(re, d);
            if googleChosen && g.Some? && g.value != "" then g else ExtractDescription(re, d))
  {
    if docstring == "" {
      return NoInfo;
    }
    var d := Strip(docstring);
    info := ParseGoogle(re, d);
    if info.parameters == [] {
      var numpyInfo := ParseNumpy(re, d);
      if numpyInfo.parameters != [] {
        info := numpyInfo;
      }
    }
    if info.parameters == [] {
      var sphinxInfo := ParseSphinx(re, d);
      SphinxParamsNonEmpty(re, d);
      if sphinxInfo.parameters != [] {
        info := sphinxInfo;
      }
    }
    if info.description.None? || info.description.value == "" {
      info := info.(description := ExtractDescription(re, d));
    }
  }
}
