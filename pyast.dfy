/** The part of Python's `ast` the detectors look at.  A parsed module is
    given as the list of nodes `ast.walk` yields (breadth first, the module
    first); each node carries its whole subtree. */
module PyAst {
  import opened Wrappers

  /** The value of an `ast.Constant`: a string, `None`, a boolean, or any
      other literal together with its `repr` text. */
  datatype Const = CStr(s: string) | CNone | CBool(b: bool) | CLiteral(repr: string)

  datatype BinOperator = BitOr | OtherBinOp
  datatype UnaryOperator = USub | OtherUnaryOp

  datatype Expr =
    | Name(id: string)
    | Attribute(value: Expr, attr: string)
    | Constant(c: Const)
    | Call(func: Expr, args: seq<Expr>, keywords: seq<Keyword>)
    | ListExpr(elts: seq<Expr>)
    | TupleExpr(elts: seq<Expr>)
    | Subscript(value: Expr, slice: Expr)
    | BinOp(left: Expr, op: BinOperator, right: Expr)
    | UnaryOp(uop: UnaryOperator, operand: Expr)
    | DictExpr(keys: seq<Option<Expr>>, values: seq<Expr>)
    | Lambda(params: Arguments, body: Expr)
    | Starred(value: Expr)
    | OtherExpr

  /** `name=value` in a call; `arg` is `None` for `**kwargs`. */
  datatype Keyword = Keyword(arg: Option<string>, value: Expr)

  datatype Arg = Arg(name: string, annotation: Option<Expr>)

  /** `ast.arguments`.  Positional-only parameters are not listed: no
      detector reads them.  `kwDefaults` has one entry per keyword-only
      parameter, `None` where it has no default. */
  datatype Arguments = Arguments(
    args: seq<Arg>,
    defaults: seq<Expr>,
    vararg: Option<Arg>,
    kwonlyargs: seq<Arg>,
    kwDefaults: seq<Option<Expr>>,
    kwarg: Option<Arg>)

  datatype Alias = Alias(name: string, asname: Option<string>)

  /** Statements.  `docstring` is what `ast.get_docstring` returns for the
      function, `result` its return annotation; `source` is the module
      named by a `from ... import`, without the leading dots, which Python
      keeps apart in `level`. */
  datatype Stmt =
    | Assign(targets: seq<Expr>, value: Expr)
    | AnnAssign(target: Expr, annotation: Expr, init: Option<Expr>)
    | FunctionDef(name: string, params: Arguments, decorators: seq<Expr>, result: Option<Expr>,
                  docstring: Option<string>, body: seq<Stmt>)
    | ClassDef(name: string, bases: seq<Expr>, body: seq<Stmt>)
    | ImportFrom(source: Option<string>, names: seq<Alias>, level: nat)
    | ExprStmt(e: Expr)
    | OtherStmt

  /** A node of `ast.walk`. */
  datatype Node = S(stmt: Stmt) | E(expr: Expr) | OtherNode

  /** The result of `ast.parse`: the walk of the module, a SyntaxError, or
      any other exception (a ValueError for a null byte, a RecursionError). */
  datatype Parse = Parsed(walk: seq<Node>) | SyntaxError | Crashed

  /** The name a call is made through: `f(...)` or `obj.f(...)`. */
  function CalleeName(func: Expr): Option<string> {
    match func
    case Name(id) => Some(id)
    case Attribute(_, attr) => Some(attr)
    case _ => None
  }

  /** `isinstance(target, ast.Name) and target.id == name` for some target. */
  predicate TargetsName(targets: seq<Expr>, name: string) {
    exists i :: 0 <= i < |targets| && targets[i] == Name(name)
  }

  /** The variable of an assignment's last name target, or `name` when it
      has none: what `for target in targets: if isinstance(target, Name):
      v = target.id` leaves in `v`. */
  function LastNamed(name: Option<string>, targets: seq<Expr>): (r: Option<string>)
    ensures r.Some? && r != name ==> exists i :: 0 <= i < |targets| && targets[i] == Name(r.value)
  {
    if targets == [] then name
    else
      var t := targets[|targets| - 1];
      if t.Name? then Some(t.id)
      else
        var r := LastNamed(name, targets[..|targets| - 1]);
        assert forall i :: 0 <= i < |targets| - 1 ==> targets[..|targets| - 1][i] == targets[i];
        r
  }

  /** The variables named in a list: `[a, b, make()]` lists `a` and `b`. */
  function ListedNames(elts: seq<Expr>): (r: seq<string>)
    ensures |r| <= |elts|
  {
    if elts == [] then []
    else
      var last := elts[|elts| - 1];
      ListedNames(elts[..|elts| - 1]) + (if last.Name? then [last.id] else [])
  }

  /** The variables the keywords called `arg` list, when their value is a
      list literal; each such keyword adds to the end. */
  function KeywordListNames(kws: seq<Keyword>, arg: string): seq<string> {
    if kws == [] then []
    else
      var k := kws[|kws| - 1];
      KeywordListNames(kws[..|kws| - 1], arg) + (if k.arg == Some(arg) && k.value.ListExpr? then ListedNames(k.value.elts) else [])
  }
}
