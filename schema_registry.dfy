/** The extractors' `extract_params` loops and `SchemaExtractorFactory`, the
    ordered and growing list of extractors. */
module SchemaRegistry {
  import opened Wrappers
  import opened Regex
  import opened Dicts
  import opened Detection
  import opened Schemas

  /** The loop of a built-in `extract_params` over the field matches. */
  method ExtractFields(re: Engine, d: Dialect, body: string) returns (params: Dict<ParamInfo>)
    ensures params == ExtractParams(re, d, body)
  {
    var ms := FieldMatches(re, d, body);
    var es := FieldEntries(re, d, ms);
    params := Empty();
    for i := 0 to |ms|
      invariant params == FromEntries(es[..i])
    {
      assert es[..i + 1][..i] == es[..i];
      params := Put(params, GroupText(ms[i], 1), FieldInfo(re, d, ms[i]));
    }
    assert es[..|ms|] == es;
  }

  /** `extractor.extract_params(content, schema_body)`; `None` when a
      registered extractor raises. */
  method Extract(re: Engine, extract: CustomExtract, e: Extractor, content: string, body: string)
    returns (params: Option<Dict<ParamInfo>>)
    ensures e.BuiltIn? ==> params == Some(ExtractParams(re, e.dialect, body))
    ensures e.Custom? ==> params == extract(e.library, content, body)
  {
    match e
    case BuiltIn(d) =>
      var ps := ExtractFields(re, d, body);
      params := Some(ps);
    case Custom(name) =>
      params := extract(name, content, body);
  }

  /** `SchemaExtractorFactory` */
  class SchemaExtractorFactory {
    var extractors: seq<Extractor>

    /** Starts with Zod, Yup and the TypeScript interface, in that order. */
    constructor()
      ensures extractors == DEFAULT_EXTRACTORS
    {
      extractors := [BuiltIn(Zod), BuiltIn(Yup), BuiltIn(TsInterface)];
    }

    /** `get_extractor`: the first extractor that accepts the content. */
    method GetExtractor(re: Engine, accepts: CustomAccepts, content: string) returns (e: Option<Extractor>)
      ensures e == Chosen(re, accepts, extractors, content)
      ensures e.None? <==> forall i :: 0 <= i < |extractors| ==> !CanExtract(re, accepts, extractors[i], content)
    {
      var i := 0;
      while i < |extractors|
        invariant 0 <= i <= |extractors|
        invariant Chosen(re, accepts, extractors[i..], content) == Chosen(re, accepts, extractors, content)
      {
        var x := extractors[i];
        assert extractors[i..][1..] == extractors[i + 1..];
        if CanExtract(re, accepts, x, content) {
          return Some(x);
        }
        i := i + 1;
      }
      return None;
    }

    /** `register_extractor`: the new extractor goes first. */
    method RegisterExtractor(e: Extractor)
      modifies this
      ensures extractors == [e] + old(extractors)
    {
      extractors := [e] + extractors;
    }
  }
}
