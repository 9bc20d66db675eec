/** What `BaseDetector.extract_function_signature` reads off a function
    definition and how `merge_docstring_info` combines it with the parsed
    docstring: the specification functions and their properties. */
module Signatures {
  import opened Wrappers
  import opened Strs
  import opened Dicts
  import opened PyAst
  import opened Annotations
  import opened Docstrings
  import opened Detection
  import Regex

  /** The dictionary `extract_function_signature` returns, with the
      `"description"` key `merge_docstring_info` may add. */
  datatype Signature = Signature(parameters: Dict<ParamInfo>, returned: ReturnInfo, description: Option<string>)

  const VARARG_DESCRIPTION := "Variable positional arguments"
  const KWARG_DESCRIPTION := "Variable keyword arguments"

  /** A parameter that has a default is never required. */
  predicate Consistent(p: ParamInfo) {
    p.default.Some? ==> !p.required
  }

  /** The `i`-th positional parameter: the defaults belong to the last
      parameters. */
  function PositionalParam(a: Arguments, i: nat): ParamInfo
    requires i < |a.args|
  {
    var offset := |a.args| - |a.defaults|;
    if i >= offset then ParamInfo(TypeOf(a.args[i].annotation), false, None, Some(ValueString(a.defaults[i - offset])))
    else ParamInfo(TypeOf(a.args[i].annotation), true, None, None)
  }

  /** The `i`-th keyword-only parameter: `kw_defaults` belongs to the last
      parameters, `None` marking one without a default. */
  function KeywordOnlyParam(a: Arguments, i: nat): ParamInfo
    requires i < |a.kwonlyargs|
  {
    var offset := |a.kwonlyargs| - |a.kwDefaults|;
    if i >= offset && a.kwDefaults[i - offset].Some? then
      ParamInfo(TypeOf(a.kwonlyargs[i].annotation), false, None, Some(ValueString(a.kwDefaults[i - offset].value)))
    else ParamInfo(TypeOf(a.kwonlyargs[i].annotation), true, None, None)
  }

  /** `*args` or `**kwargs`: never required, described by `description`. */
  function StarParam(v: Arg, description: string): ParamInfo {
    ParamInfo(TypeOf(v.annotation), false, Some(description), None)
  }

  function PositionalEntries(a: Arguments): seq<Entry<ParamInfo>> {
    seq(|a.args|, i requires 0 <= i < |a.args| => Entry(a.args[i].name, PositionalParam(a, i)))
  }

  function VarargEntries(a: Arguments): seq<Entry<ParamInfo>> {
    match a.vararg
    case Some(v) => [Entry("*" + v.name, StarParam(v, VARARG_DESCRIPTION))]
    case None => []
  }

  function KeywordOnlyEntries(a: Arguments): seq<Entry<ParamInfo>> {
    seq(|a.kwonlyargs|, i requires 0 <= i < |a.kwonlyargs| => Entry(a.kwonlyargs[i].name, KeywordOnlyParam(a, i)))
  }

  function KwargEntries(a: Arguments): seq<Entry<ParamInfo>> {
    match a.kwarg
    case Some(v) => [Entry("**" + v.name, StarParam(v, KWARG_DESCRIPTION))]
    case None => []
  }

  /** The parameters in the order the function declares them: positional,
      `*args` as `*name`, keyword-only, `**kwargs` as `**name`. */
  function SignatureEntries(a: Arguments): seq<Entry<ParamInfo>> {
    PositionalEntries(a) + VarargEntries(a) + KeywordOnlyEntries(a) + KwargEntries(a)
  }

  /** The return type, `"Any"` when the function declares none. */
  function ReturnType(result: Option<Expr>): string {
    var t := TypeOf(result);
    if t == "" then "Any" else t
  }

  /** The signature `extract_function_signature` builds. */
  function SignatureOf(a: Arguments, result: Option<Expr>): Signature {
    Signature(FromEntries(SignatureEntries(a)), ReturnInfo(ReturnType(result), None), None)
  }

  /** Positional parameters: the last `|defaults|` carry their default text
      and are optional, the others are required; the type is the
      annotation's, `"Any"` without one. */
  lemma PositionalParamRules(a: Arguments, i: nat)
    requires i < |a.args|
    ensures var p := PositionalParam(a, i); var offset := |a.args| - |a.defaults|;
      (p.required <==> i < offset)
      && (p.default.Some? <==> i >= offset)
      && (p.default.Some? ==> p.default.value == ValueString(a.defaults[|a.defaults| - (|a.args| - i)]))
      && p.typ == TypeOf(a.args[i].annotation) && p.description.None? && Consistent(p)
  {
  }

  /** Keyword-only parameters are required exactly when they have no
      default. */
  lemma KeywordOnlyParamRules(a: Arguments, i: nat)
    requires i < |a.kwonlyargs| && |a.kwDefaults| == |a.kwonlyargs|
    ensures var p := KeywordOnlyParam(a, i);
      (p.required <==> a.kwDefaults[i].None?)
      && (p.default.Some? <==> a.kwDefaults[i].Some?)
      && (p.default.Some? ==> p.default.value == ValueString(a.kwDefaults[i].value))
      && p.typ == TypeOf(a.kwonlyargs[i].annotation) && Consistent(p)
  {
  }

  /** Python refuses a function two of whose parameters share a name (a
      SyntaxError), so the keys of the entries are distinct. */
  predicate DistinctNames(a: Arguments) {
    Distinct(Keys(SignatureEntries(a)))
  }

  /** For a well-formed function, the parameters dictionary lists every
      parameter under its name, in declaration order, with the information
      of its kind. */
  lemma SignatureParameters(a: Arguments, result: Option<Expr>)
    requires DistinctNames(a)
    ensures var ps := SignatureOf(a, result).parameters;
      ps.keys == Keys(SignatureEntries(a))
      && (forall i :: 0 <= i < |a.args| ==> Get(ps, a.args[i].name) == Some(PositionalParam(a, i)))
      && (forall i :: 0 <= i < |a.kwonlyargs| ==> Get(ps, a.kwonlyargs[i].name) == Some(KeywordOnlyParam(a, i)))
      && (a.vararg.Some? ==> Get(ps, "*" + a.vararg.value.name) == Some(StarParam(a.vararg.value, VARARG_DESCRIPTION)))
      && (a.kwarg.Some? ==> Get(ps, "**" + a.kwarg.value.name) == Some(StarParam(a.kwarg.value, KWARG_DESCRIPTION)))
  {
    var es := SignatureEntries(a);
    var ps := FromEntries(es);
    assert SignatureOf(a, result).parameters == ps;
    FromEntriesDistinct(es);
    FromEntriesDistinctGet(es);
    EntriesAt(a);
    var p, v := |a.args|, |VarargEntries(a)|;
    forall i | 0 <= i < |a.args| ensures Get(ps, a.args[i].name) == Some(PositionalParam(a, i)) {
      assert Get(ps, es[i].key) == Some(es[i].value);
    }
    forall i | 0 <= i < |a.kwonlyargs| ensures Get(ps, a.kwonlyargs[i].name) == Some(KeywordOnlyParam(a, i)) {
      assert Get(ps, es[p + v + i].key) == Some(es[p + v + i].value);
    }
    if a.vararg.Some? {
      assert Get(ps, es[p].key) == Some(es[p].value);
    }
    if a.kwarg.Some? {
      assert Get(ps, es[|es| - 1].key) == Some(es[|es| - 1].value);
    }
  }

  /** In every parameter of a well-formed function a default means
      optional. */
  lemma SignatureConsistent(a: Arguments, result: Option<Expr>)
    requires DistinctNames(a)
    ensures var ps := SignatureOf(a, result).parameters;
      forall k :: k in ps.values ==> Consistent(ps.values[k])
  {
    var es := SignatureEntries(a);
    FromEntriesDistinct(es);
    FromEntriesDistinctGet(es);
    EntriesConsistent(a);
    var ps := FromEntries(es);
    forall key | key in ps.values ensures Consistent(ps.values[key]) {
      var j :| 0 <= j < |ps.keys| && ps.keys[j] == key;
      assert Get(ps, es[j].key) == Some(es[j].value);
    }
  }

  /** Where each kind of parameter sits among the entries. */
  lemma EntriesAt(a: Arguments)
    ensures var es := SignatureEntries(a); var p := |a.args|; var v := |VarargEntries(a)|;
      |es| == p + v + |a.kwonlyargs| + |KwargEntries(a)|
      && v == (if a.vararg.Some? then 1 else 0) && |KwargEntries(a)| == (if a.kwarg.Some? then 1 else 0)
      && (forall i :: 0 <= i < |a.args| ==> es[i] == Entry(a.args[i].name, PositionalParam(a, i)))
      && (forall i :: 0 <= i < |a.kwonlyargs| ==> es[p + v + i] == Entry(a.kwonlyargs[i].name, KeywordOnlyParam(a, i)))
      && (a.vararg.Some? ==> es[p] == Entry("*" + a.vararg.value.name, StarParam(a.vararg.value, VARARG_DESCRIPTION)))
      && (a.kwarg.Some? ==> es[|es| - 1] == Entry("**" + a.kwarg.value.name, StarParam(a.kwarg.value, KWARG_DESCRIPTION)))
  {
    var es := SignatureEntries(a);
    var ps, vs, ks, ws := PositionalEntries(a), VarargEntries(a), KeywordOnlyEntries(a), KwargEntries(a);
    var p, v := |a.args|, |vs|;
    assert es == ps + vs + ks + ws;
    forall i | 0 <= i < |a.args| ensures es[i] == Entry(a.args[i].name, PositionalParam(a, i)) {
      assert es[i] == ps[i];
    }
    forall i | 0 <= i < |a.kwonlyargs| ensures es[p + v + i] == Entry(a.kwonlyargs[i].name, KeywordOnlyParam(a, i)) {
      assert es[p + v + i] == ks[i];
    }
    if a.vararg.Some? {
      assert es[p] == vs[0];
    }
    if a.kwarg.Some? {
      assert es[|es| - 1] == ws[0];
    }
  }

  predicate AllConsistent(es: seq<Entry<ParamInfo>>) {
    forall j :: 0 <= j < |es| ==> Consistent(es[j].value)
  }

  lemma EntriesConsistent(a: Arguments)
    ensures AllConsistent(SignatureEntries(a))
  {
    assert AllConsistent(PositionalEntries(a));
    assert AllConsistent(KeywordOnlyEntries(a));
    ConsistentConcat(PositionalEntries(a), VarargEntries(a));
    ConsistentConcat(PositionalEntries(a) + VarargEntries(a), KeywordOnlyEntries(a));
    ConsistentConcat(PositionalEntries(a) + VarargEntries(a) + KeywordOnlyEntries(a), KwargEntries(a));
  }

  lemma ConsistentConcat(xs: seq<Entry<ParamInfo>>, ys: seq<Entry<ParamInfo>>)
    requires AllConsistent(xs) && AllConsistent(ys)
    ensures AllConsistent(xs + ys)
  {
    forall j | 0 <= j < |xs + ys| ensures Consistent((xs + ys)[j].value) {
      if j >= |xs| {
        assert (xs + ys)[j] == ys[j - |xs|];
      }
    }
  }

  // ---------------------------------------------------------------------
  // Merging the docstring

  /** A non-empty text. */
  predicate Given(s: Option<string>) {
    s.Some? && s.value != ""
  }

  /** What one documented parameter does to the parameter it names. */
  function MergeParam(p: ParamInfo, d: ParameterDoc): ParamInfo {
    var described := if Given(d.description) then p.(description := d.description) else p;
    var typed := if Given(d.typ) && described.typ == "Any" then described.(typ := d.typ.value) else described;
    if d.default.Some? then typed.(default := d.default, required := false) else typed
  }

  /** The documented parameters applied in order, each to the parameter of
      its name when there is one. */
  function MergeParams(ps: Dict<ParamInfo>, docs: seq<ParameterDoc>): Dict<ParamInfo> {
    if docs == [] then ps
    else
      var before := MergeParams(ps, docs[..|docs| - 1]);
      var d := docs[|docs| - 1];
      if d.name in before.values then Put(before, d.name, MergeParam(before.values[d.name], d)) else before
  }

  function MergeReturns(r: ReturnInfo, doc: Option<ReturnDoc>): ReturnInfo {
    match doc
    case None => r
    case Some(rd) =>
      var described := if rd.description != "" then r.(description := Some(rd.description)) else r;
      if rd.typ != "" && described.typ == "Any" then described.(typ := rd.typ) else described
  }

  /** The signature combined with what the docstring says. */
  function MergeWith(sig: Signature, info: DocstringInfo): Signature {
    Signature(
      MergeParams(sig.parameters, info.parameters),
      MergeReturns(sig.returned, info.result),
      if Given(info.description) then info.description else sig.description)
  }

  /** `merge_docstring_info(signature, docstring)`: an absent or empty
      docstring changes nothing. */
  function MergedSignature(re: Regex.Engine, sig: Signature, docstring: Option<string>): Signature {
    if Given(docstring) then MergeWith(sig, ParsedInfo(re, docstring.value)) else sig
  }

  /** One documented parameter: its description wins when it has one, its
      type is used only where the code declared none, and a documented
      default makes the parameter optional; a parameter with a default
      stays optional. */
  lemma MergeParamRules(p: ParamInfo, d: ParameterDoc)
    ensures var r := MergeParam(p, d);
      (r.description == if Given(d.description) then d.description else p.description)
      && (p.typ != "Any" ==> r.typ == p.typ)
      && (p.typ == "Any" && Given(d.typ) ==> r.typ == d.typ.value)
      && (d.default.Some? ==> r.default == d.default && !r.required)
      && (d.default.None? ==> r.default == p.default && r.required == p.required)
      && (Consistent(p) ==> Consistent(r))
  {
  }

  /** The documented parameters applied to one parameter in order. */
  function MergeAll(p: ParamInfo, ds: seq<ParameterDoc>): ParamInfo {
    if ds == [] then p else MergeParam(MergeAll(p, ds[..|ds| - 1]), ds[|ds| - 1])
  }

  /** The documented parameters of one name. */
  function DocsNamed(docs: seq<ParameterDoc>, k: string): (r: seq<ParameterDoc>)
    ensures forall j :: 0 <= j < |r| ==> r[j].name == k
  {
    if docs == [] then []
    else DocsNamed(docs[..|docs| - 1], k) + (if docs[|docs| - 1].name == k then [docs[|docs| - 1]] else [])
  }

  /** Merging changes no key and adds none, and each parameter ends up as
      the documentation of its own name, applied in order, makes it. */
  lemma {:induction false} MergeParamsGet(ps: Dict<ParamInfo>, docs: seq<ParameterDoc>, k: string)
    requires Valid(ps)
    ensures Valid(MergeParams(ps, docs)) && MergeParams(ps, docs).keys == ps.keys
    ensures Get(MergeParams(ps, docs), k) == match Get(ps, k) case None => None case Some(p) => Some(MergeAll(p, DocsNamed(docs, k)))
  {
    if docs != [] {
      var init := docs[..|docs| - 1];
      MergeParamsGet(ps, init, k);
      var d := docs[|docs| - 1];
      var ds := DocsNamed(docs, k);
      if d.name == k {
        assert ds == DocsNamed(init, k) + [d];
        assert ds[..|ds| - 1] == DocsNamed(init, k);
      } else {
        assert ds == DocsNamed(init, k);
      }
    }
  }

  /** A docstring that documents no parameter of the function leaves the
      parameters as they are. */
  lemma {:induction false} MergeUnknownNames(ps: Dict<ParamInfo>, docs: seq<ParameterDoc>)
    requires Valid(ps)
    requires forall j :: 0 <= j < |docs| ==> docs[j].name !in ps.keys
    ensures MergeParams(ps, docs) == ps
  {
    if docs != [] {
      MergeUnknownNames(ps, docs[..|docs| - 1]);
    }
  }

  /** Merging keeps every parameter's default-means-optional rule. */
  lemma MergeKeepsConsistent(ps: Dict<ParamInfo>, docs: seq<ParameterDoc>)
    requires Valid(ps) && forall k :: k in ps.values ==> Consistent(ps.values[k])
    ensures var r := MergeParams(ps, docs); forall k :: k in r.values ==> Consistent(r.values[k])
  {
    var r := MergeParams(ps, docs);
    forall k | k in r.values ensures Consistent(r.values[k]) {
      MergeParamsGet(ps, docs, k);
      MergeAllConsistent(ps.values[k], DocsNamed(docs, k));
    }
  }

  lemma {:induction false} MergeAllConsistent(p: ParamInfo, ds: seq<ParameterDoc>)
    requires Consistent(p)
    ensures Consistent(MergeAll(p, ds))
  {
    if ds != [] {
      MergeAllConsistent(p, ds[..|ds| - 1]);
      MergeParamRules(MergeAll(p, ds[..|ds| - 1]), ds[|ds| - 1]);
    }
  }

  /** The returned type is kept when the code declares one, and the
      documented description wins when it is not empty. */
  lemma MergeReturnsRules(r: ReturnInfo, doc: Option<ReturnDoc>)
    ensures var m := MergeReturns(r, doc);
      (r.typ != "Any" ==> m.typ == r.typ)
      && (m.description == if doc.Some? && doc.value.description != "" then Some(doc.value.description) else r.description)
      && (doc.Some? && r.typ == "Any" && doc.value.typ != "" ==> m.typ == doc.value.typ)
  {
  }
}
