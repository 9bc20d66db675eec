/** `BaseDetector.extract_function_signature` and `merge_docstring_info`,
    each proved against its specification in `Signatures`. */
module SignatureExtractor {
  import opened Wrappers
  import opened Dicts
  import opened PyAst
  import opened Annotations
  import opened Docstrings
  import opened DocstringParser
  import opened Detection
  import opened Signatures

  /** The information of the `i`-th positional parameter. */
  method PositionalInfo(a: Arguments, i: nat) returns (info: ParamInfo)
    requires i < |a.args|
    ensures info == PositionalParam(a, i)
  {
    var offset := |a.args| - |a.defaults|;
    var arg := a.args[i];
    info := ParamInfo("Any", i < offset, None, None);
    if arg.annotation.Some? {
      info := info.(typ := TypeString(arg.annotation.value));
    }
    if i >= offset {
      var index := i - offset;
      if index < |a.defaults| {
        info := info.(default := Some(ValueString(a.defaults[index])), required := false);
      }
    }
  }

  /** The loop over the positional parameters. */
  method PositionalLoop(a: Arguments) returns (params: Dict<ParamInfo>)
    ensures params == FromEntries(PositionalEntries(a))
  {
    var es := PositionalEntries(a);
    params := Empty();
    for i := 0 to |a.args|
      invariant params == FromEntries(es[..i])
    {
      var info := PositionalInfo(a, i);
      assert es[..i + 1][..i] == es[..i];
      assert es[i] == Entry(a.args[i].name, info);
      params := Put(params, a.args[i].name, info);
    }
    assert es[..|a.args|] == es;
  }

  /** The information of the `i`-th keyword-only parameter. */
  method KeywordOnlyInfo(a: Arguments, i: nat) returns (info: ParamInfo)
    requires i < |a.kwonlyargs|
    ensures info == KeywordOnlyParam(a, i)
  {
    var offset := |a.kwonlyargs| - |a.kwDefaults|;
    var arg := a.kwonlyargs[i];
    info := ParamInfo("Any", true, None, None);
    if i >= offset {
      var index := i - offset;
      if index < |a.kwDefaults| && a.kwDefaults[index].Some? {
        info := info.(default := Some(ValueString(a.kwDefaults[index].value)), required := false);
      }
    }
    if arg.annotation.Some? {
      info := info.(typ := TypeString(arg.annotation.value));
    }
  }

  /** The loop over the keyword-only parameters, continuing `params`. */
  method KeywordOnlyLoop(a: Arguments, start: Dict<ParamInfo>) returns (params: Dict<ParamInfo>)
    ensures params == PutAll(start, KeywordOnlyEntries(a))
  {
    var es := KeywordOnlyEntries(a);
    params := start;
    for i := 0 to |a.kwonlyargs|
      invariant params == PutAll(start, es[..i])
    {
      var info := KeywordOnlyInfo(a, i);
      assert es[..i + 1][..i] == es[..i];
      assert es[i] == Entry(a.kwonlyargs[i].name, info);
      params := Put(params, a.kwonlyargs[i].name, info);
    }
    assert es[..|a.kwonlyargs|] == es;
  }

  /** `extract_function_signature` for a function with parameters `a` and
      return annotation `result`. */
  method ExtractSignature(a: Arguments, result: Option<Expr>) returns (sig: Signature)
    ensures sig == SignatureOf(a, result)
  {
    var params := PositionalLoop(a);
    if a.vararg.Some? {
      var v := a.vararg.value;
      params := Put(params, "*" + v.name,
        ParamInfo(if v.annotation.Some? then TypeString(v.annotation.value) else "Any", false, Some(VARARG_DESCRIPTION), None));
    }
    FromEntriesConcat(PositionalEntries(a), VarargEntries(a));
    params := KeywordOnlyLoop(a, params);
    FromEntriesConcat(PositionalEntries(a) + VarargEntries(a), KeywordOnlyEntries(a));
    if a.kwarg.Some? {
      var v := a.kwarg.value;
      params := Put(params, "**" + v.name,
        ParamInfo(if v.annotation.Some? then TypeString(v.annotation.value) else "Any", false, Some(KWARG_DESCRIPTION), None));
    }
    FromEntriesConcat(PositionalEntries(a) + VarargEntries(a) + KeywordOnlyEntries(a), KwargEntries(a));
    var returnType: Option<string> := None;
    if result.Some? {
      returnType := Some(TypeString(result.value));
    }
    var typ := if returnType.Some? && returnType.value != "" then returnType.value else "Any";
    sig := Signature(params, ReturnInfo(typ, None), None);
  }

  /** The merge of an already parsed docstring into the signature. */
  method MergeParsed(sig: Signature, info: DocstringInfo) returns (r: Signature)
    ensures r == MergeWith(sig, info)
  {
    var docs := info.parameters;
    var params := sig.parameters;
    for i := 0 to |docs|
      invariant params == MergeParams(sig.parameters, docs[..i])
    {
      assert docs[..i + 1][..i] == docs[..i];
      var d := docs[i];
      if d.name in params.values {
        var p := params.values[d.name];
        if Given(d.description) {
          p := p.(description := d.description);
        }
        if Given(d.typ) && p.typ == "Any" {
          p := p.(typ := d.typ.value);
        }
        if d.default.Some? {
          p := p.(default := d.default, required := false);
        }
        params := Put(params, d.name, p);
      }
    }
    assert docs[..|docs|] == docs;
    var returned := sig.returned;
    if info.result.Some? {
      var rd := info.result.value;
      if rd.description != "" {
        returned := returned.(description := Some(rd.description));
      }
      if rd.typ != "" && returned.typ == "Any" {
        returned := returned.(typ := rd.typ);
      }
    }
    r := Signature(params, returned, sig.description);
    if Given(info.description) {
      r := r.(description := info.description);
    }
  }

  /** `merge_docstring_info`: an absent or empty docstring leaves the
      signature as it is; otherwise the parsed docstring is merged in. */
  method MergeDocstringInfo(re: Regex.Engine, sig: Signature, docstring: Option<string>) returns (r: Signature)
    ensures !Given(docstring) ==> r == sig
    ensures Given(docstring) ==> r == MergeWith(sig, ParsedInfo(re, docstring.value))
  {
    if docstring.None? || docstring.value == "" {
      return sig;
    }
    var info := DocstringParser.Parse(re, docstring.value);
    r := MergeParsed(sig, info);
  }
}
