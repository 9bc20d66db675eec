/** How the detectors print type annotations and default values
    (`_ast_to_type_string` and `_ast_to_value_string`). */
module Annotations {
  import opened Wrappers
  import opened Strs
  import opened PyAst

  /** One character of a string literal's `repr`. */
  function EscapeChar(c: char, quote: char): string {
    if c == '\\' then "\\\\"
    else if c == quote then ['\\', quote]
    else if c == '\n' then "\\n"
    else if c == '\r' then "\\r"
    else if c == '\t' then "\\t"
    else [c]
  }

  function EscapeAll(s: string, quote: char): string {
    if s == [] then "" else EscapeChar(s[0], quote) + EscapeAll(s[1..], quote)
  }

  /** `repr(value)` of a constant.  A string is quoted with `'`, or with `"`
      when it holds a `'` and no `"`. */
  function Repr(c: Const): string {
    match c
    case CStr(s) =>
      var q := if '\'' in s && '"' !in s then '"' else '\'';
      [q] + EscapeAll(s, q) + [q]
    case CNone => "None"
    case CBool(b) => if b then "True" else "False"
    case CLiteral(r) => r
  }

  /** `_ast_to_type_string(node)` where the node may be absent. */
  function TypeOf(a: Option<Expr>): string {
    match a
    case Some(e) => TypeString(e)
    case None => "Any"
  }

  /** The type text of an annotation, each subscript rendered in full.
      This is the rendering the detectors use (see `TypeStringAsWritten`
      for the one the code computes on Python 3.9 and later). */
  function TypeString(e: Expr): string
    decreases e
  {
    match e
    case Name(id) => id
    case Constant(c) => Repr(c)
    case Subscript(base, slice) =>
      var inner :=
        if slice.TupleExpr? then
          Join(", ", seq(|slice.elts|, i requires 0 <= i < |slice.elts| => TypeString(slice.elts[i])))
        else TypeString(slice);
      TypeString(base) + "[" + inner + "]"
    case BinOp(l, op, r) => if op == BitOr then TypeString(l) + " | " + TypeString(r) else "Any"
    case TupleExpr(elts) =>
      "Tuple[" + Join(", ", seq(|elts|, i requires 0 <= i < |elts| => TypeString(elts[i]))) + "]"
    case Attribute(v, attr) => TypeString(v) + "." + attr
    case _ => "Any"
  }

  /** The rendering as the code computes it on Python 3.9 and later, where
      a subscript's slice is the expression itself: the first branch asks
      whether the slice has a `value` attribute, which a constant, an
      attribute access, a subscript and a starred expression all have, and
      renders that attribute instead of the slice.  For a constant the
      attribute is a plain Python value, which renders as "Any". */
  function TypeStringAsWritten(e: Expr): string
    decreases e
  {
    match e
    case Name(id) => id
    case Constant(c) => Repr(c)
    case Subscript(base, slice) =>
      var inner :=
        if slice.Constant? then "Any"
        else if slice.Attribute? || slice.Subscript? || slice.Starred? then TypeStringAsWritten(slice.value)
        else if slice.TupleExpr? then
          Join(", ", seq(|slice.elts|, i requires 0 <= i < |slice.elts| => TypeStringAsWritten(slice.elts[i])))
        else TypeStringAsWritten(slice);
      TypeStringAsWritten(base) + "[" + inner + "]"
    case BinOp(l, op, r) => if op == BitOr then TypeStringAsWritten(l) + " | " + TypeStringAsWritten(r) else "Any"
    case TupleExpr(elts) =>
      "Tuple[" + Join(", ", seq(|elts|, i requires 0 <= i < |elts| => TypeStringAsWritten(elts[i]))) + "]"
    case Attribute(v, attr) => TypeStringAsWritten(v) + "." + attr
    case _ => "Any"
  }

  /** No subscript in the annotation has a slice with a `value` attribute. */
  predicate PlainSlices(e: Expr)
    decreases e
  {
    match e
    case Subscript(base, slice) =>
      !(slice.Constant? || slice.Attribute? || slice.Subscript? || slice.Starred?)
      && PlainSlices(base)
      && (if slice.TupleExpr? then forall i :: 0 <= i < |slice.elts| ==> PlainSlices(slice.elts[i])
          else PlainSlices(slice))
    case BinOp(l, _, r) => PlainSlices(l) && PlainSlices(r)
    case TupleExpr(elts) => forall i :: 0 <= i < |elts| ==> PlainSlices(elts[i])
    case Attribute(v, _) => PlainSlices(v)
    case _ => true
  }

  /** The two renderings differ only at subscripts whose slice has a
      `value` attribute: `List[str]`, `Dict[str, int]`, `str | None`,
      `typing.Any` and tuples come out the same. */
  lemma {:induction false} AsWrittenAgreesOnPlainSlices(e: Expr)
    requires PlainSlices(e)
    ensures TypeStringAsWritten(e) == TypeString(e)
    decreases e
  {
    match e
    case Subscript(base, slice) =>
      AsWrittenAgreesOnPlainSlices(base);
      if slice.TupleExpr? {
        forall i | 0 <= i < |slice.elts| ensures TypeStringAsWritten(slice.elts[i]) == TypeString(slice.elts[i]) {
          AsWrittenAgreesOnPlainSlices(slice.elts[i]);
        }
        assert seq(|slice.elts|, i requires 0 <= i < |slice.elts| => TypeStringAsWritten(slice.elts[i]))
            == seq(|slice.elts|, i requires 0 <= i < |slice.elts| => TypeString(slice.elts[i]));
      } else {
        AsWrittenAgreesOnPlainSlices(slice);
      }
    case BinOp(l, _, r) =>
      AsWrittenAgreesOnPlainSlices(l);
      AsWrittenAgreesOnPlainSlices(r);
    case TupleExpr(elts) =>
      forall i | 0 <= i < |elts| ensures TypeStringAsWritten(elts[i]) == TypeString(elts[i]) {
        AsWrittenAgreesOnPlainSlices(elts[i]);
      }
      assert seq(|elts|, i requires 0 <= i < |elts| => TypeStringAsWritten(elts[i]))
          == seq(|elts|, i requires 0 <= i < |elts| => TypeString(elts[i]));
    case Attribute(v, _) =>
      AsWrittenAgreesOnPlainSlices(v);
    case _ =>
  }

  /** `List[Dict[str, int]]`: the code prints `List[Dict]`; the full
      rendering keeps the inner arguments. */
  lemma NestedGenericLosesArguments()
    ensures TypeStringAsWritten(Subscript(Name("List"), Subscript(Name("Dict"), TupleExpr([Name("str"), Name("int")]))))
         == "List[Dict]"
    ensures TypeString(Subscript(Name("List"), Subscript(Name("Dict"), TupleExpr([Name("str"), Name("int")]))))
         == "List[Dict[str, int]]"
  {
    var dict := Subscript(Name("Dict"), TupleExpr([Name("str"), Name("int")]));
    assert TypeStringAsWritten(Subscript(Name("List"), dict)) == TypeStringAsWritten(Name("List")) + "[" + TypeStringAsWritten(dict.value) + "]";
    DictOfPairRendered();
  }

  lemma DictOfPairRendered()
    ensures TypeString(Subscript(Name("Dict"), TupleExpr([Name("str"), Name("int")]))) == "Dict[str, int]"
  {
    var pair := [Name("str"), Name("int")];
    var texts := seq(|pair|, i requires 0 <= i < |pair| => TypeString(pair[i]));
    assert texts[0] == "str" && texts[1] == "int";
    assert texts == ["str", "int"];
    assert texts[1..] == ["int"];
    assert Join(", ", texts) == "str, int";
    assert TypeString(Subscript(Name("Dict"), TupleExpr(pair))) == "Dict" + "[" + Join(", ", texts) + "]";
  }

  /** `Optional[pd.DataFrame]`: the code prints `Optional[pd]`. */
  lemma AttributeArgumentLosesAttribute()
    ensures TypeStringAsWritten(Subscript(Name("Optional"), Attribute(Name("pd"), "DataFrame"))) == "Optional[pd]"
    ensures TypeString(Subscript(Name("Optional"), Attribute(Name("pd"), "DataFrame"))) == "Optional[pd.DataFrame]"
  {
    var arg := Attribute(Name("pd"), "DataFrame");
    assert TypeStringAsWritten(Subscript(Name("Optional"), arg)) == "Optional" + "[" + "pd" + "]";
    assert TypeString(arg) == "pd" + "." + "DataFrame";
    assert TypeString(Subscript(Name("Optional"), arg)) == "Optional" + "[" + TypeString(arg) + "]";
  }

  /** `_ast_to_value_string(node)`: how a default value is printed. */
  function ValueString(e: Expr): string
    decreases e
  {
    match e
    case Constant(c) => Repr(c)
    case Name(id) => id
    case UnaryOp(op, operand) => if op == USub then "-" + ValueString(operand) else "..."
    case ListExpr(elts) =>
      "[" + Join(", ", seq(|elts|, i requires 0 <= i < |elts| => ValueString(elts[i]))) + "]"
    case TupleExpr(elts) =>
      "(" + Join(", ", seq(|elts|, i requires 0 <= i < |elts| => ValueString(elts[i]))) + ")"
    case DictExpr(keys, values) =>
      var n := if |keys| <= |values| then |keys| else |values|;
      "{" + Join(", ", seq(n, i requires 0 <= i < n =>
              (match keys[i] case Some(k) => ValueString(k) case None => "None") + ": " + ValueString(values[i]))) + "}"
    case _ => "..."
  }

  /** Reads a string literal's body back, undoing `EscapeChar`: a backslash
      and the character after it stand for one character. */
  function Unescape(t: string): Option<string>
    decreases |t|
  {
    if t == [] then Some([])
    else if t[0] != '\\' then
      match Unescape(t[1..])
      case Some(u) => Some([t[0]] + u)
      case None => None
    else if |t| < 2 then None
    else
      var c := if t[1] == 'n' then '\n' else if t[1] == 'r' then '\r' else if t[1] == 't' then '\t' else t[1];
      match Unescape(t[2..])
      case Some(u) => Some([c] + u)
      case None => None
  }

  /** One escaped character reads back as itself, ahead of the rest. */
  lemma UnescapeStep(c: char, q: char, rest: string)
    requires q == '\'' || q == '"'
    ensures Unescape(EscapeChar(c, q) + rest)
         == (match Unescape(rest) case Some(u) => Some([c] + u) case None => None)
  {
    var t := EscapeChar(c, q) + rest;
    if c == '\\' || c == q || c == '\n' || c == '\r' || c == '\t' {
      assert |EscapeChar(c, q)| == 2 && t[0] == '\\' && t[2..] == rest;
    } else {
      assert EscapeChar(c, q) == [c] && t[1..] == rest;
    }
  }

  lemma {:induction false} UnescapeEscapeAll(s: string, q: char)
    requires q == '\'' || q == '"'
    ensures Unescape(EscapeAll(s, q)) == Some(s)
    decreases |s|
  {
    if s != [] {
      UnescapeEscapeAll(s[1..], q);
      UnescapeStep(s[0], q, EscapeAll(s[1..], q));
      assert s == [s[0]] + s[1..];
    }
  }

  /** A string default is printed as a quoted literal that reads back as
      the same text: the quotes match, and the body unescapes to `s`. */
  lemma StringDefaultRoundTrip(s: string)
    ensures var t := ValueString(Constant(CStr(s)));
      && |t| >= 2 && t[0] == t[|t| - 1] && (t[0] == '\'' || t[0] == '"')
      && Unescape(t[1..|t| - 1]) == Some(s)
  {
    var q := if '\'' in s && '"' !in s then '"' else '\'';
    var t := ValueString(Constant(CStr(s)));
    assert t == [q] + EscapeAll(s, q) + [q];
    assert t[1..|t| - 1] == EscapeAll(s, q);
    UnescapeEscapeAll(s, q);
  }

  /** `extract_string_value`: the text of a string constant. */
  function StringValue(e: Expr): (r: Option<string>)
    ensures r.Some? <==> e.Constant? && e.c.CStr?
    ensures r.Some? ==> r.value == e.c.s
  {
    if e.Constant? && e.c.CStr? then Some(e.c.s) else None
  }

  /** A non-empty `extract_string_value` cut to its first `limit`
      characters, as the detectors keep long texts short. */
  function Truncated(e: Expr, limit: nat): (r: Option<string>)
    ensures r.Some? <==> StringValue(e).Some? && StringValue(e).value != ""
    ensures r.Some? ==> r.value == Take(StringValue(e).value, limit)
    ensures r.Some? ==> |r.value| <= limit && (limit > 0 ==> r.value != "")
  {
    var s := StringValue(e);
    if s.Some? && s.value != "" then Some(Take(s.value, limit)) else None
  }

  /** A text that is non-empty and at most `limit` long, if there is one. */
  predicate Short(s: Option<string>, limit: nat) {
    s.Some? ==> s.value != "" && |s.value| <= limit
  }

  /** `extract_list_items`: for a list or tuple, the names it lists and the
      names of the callables it calls, in order; nothing for other nodes. */
  function ListItems(e: Expr): (r: seq<string>)
    ensures !(e.ListExpr? || e.TupleExpr?) ==> r == []
    ensures (e.ListExpr? || e.TupleExpr?) ==> |r| == CountNamedItems(e.elts)
  {
    if e.ListExpr? || e.TupleExpr? then NamedItems(e.elts) else []
  }

  /** A list item that `extract_list_items` reports. */
  predicate IsNamedItem(item: Expr) {
    item.Name? || (item.Call? && item.func.Name?)
  }

  function ItemName(item: Expr): string
    requires IsNamedItem(item)
  {
    if item.Name? then item.id else item.func.id
  }

  function CountNamedItems(elts: seq<Expr>): nat {
    if elts == [] then 0 else CountNamedItems(elts[..|elts| - 1]) + (if IsNamedItem(elts[|elts| - 1]) then 1 else 0)
  }

  function NamedItems(elts: seq<Expr>): (r: seq<string>)
    ensures |r| == CountNamedItems(elts)
    ensures (forall i :: 0 <= i < |elts| ==> IsNamedItem(elts[i]))
            ==> r == seq(|elts|, i requires 0 <= i < |elts| && IsNamedItem(elts[i]) => ItemName(elts[i]))
  {
    if elts == [] then []
    else
      var last := elts[|elts| - 1];
      NamedItems(elts[..|elts| - 1]) + (if IsNamedItem(last) then [ItemName(last)] else [])
  }
}
