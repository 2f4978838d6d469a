/** `printDeclRecursive`: the recursive printer. Its output is the sequence
    of lines it writes to standard output, in order. `level` is the nesting
    depth and `composite` asks for the current node to be printed as a list
    item. */
module Printer {
  import opened Emit
  import opened Ast

  /** Go's "%+#v" of a string: the text between double quotes. Identifiers
      and token names never hold a character that Go would escape. */
  function Quote(s: string): (q: string)
  {
    "\"" + s + "\""
  }

  /** A selector `x.sel` collapses to one line when both sides are
      identifiers that the parser did not resolve to a binding. */
  predicate SelectorCollapses(x: Node, sel: Ident)
  {
    x.Id? && x.ident.obj.None? && sel.obj.None?
  }

  /** A key-value pair collapses to one line when the key is an identifier
      (resolved or not) and the value a basic literal. */
  predicate KeyValueCollapses(key: Node, value: Node)
  {
    key.Id? && value.BasicLit?
  }

  /** Dispatch on the dynamic type of the argument: the three slice types,
      a node, or a binding, which is printed as its "%+#v" dump. */
  function Render(input: Input, level: nat, composite: bool): (r: seq<Line>)
    requires composite ==> level >= 1
    decreases InputSize(input), 2
  {
    match input
    case DeclList(decls) => RenderDecls(decls, level)
    case ExprList(exprs) => RenderEach(exprs, level, level > 0)
    case AnyList(values) => RenderEach(values, level, level > 0)
    case Single(n) => RenderNode(n, level, composite)
    case Binding(obj) => [Fprint(composite, level, obj.dump)]
  }

  /** A `[]ast.Decl`: a separator line before each declaration, the
      declaration itself at the same level, as a list item unless at the
      root. */
  function RenderDecls(decls: seq<Node>, level: nat): (r: seq<Line>)
    decreases ListSize(decls), 0
  {
    if decls == [] then []
    else [Rule] + Render(Single(decls[0]), level, level > 0) + RenderDecls(decls[1..], level)
  }

  /** The elements of a list, in order, each at the given level and flag. */
  function RenderEach(s: seq<Node>, level: nat, composite: bool): (r: seq<Line>)
    requires composite ==> level >= 1
    decreases ListSize(s), 0
  {
    if s == [] then []
    else Render(Single(s[0]), level, composite) + RenderEach(s[1..], level, composite)
  }

  /** A `*ast.BlockStmt`: its header ignores the caller's list flag; each
      statement is a list item one level deeper. */
  function RenderBlock(list: seq<Node>, level: nat): (r: seq<Line>)
    decreases ListSize(list), 1
  {
    [Text(2 * level, false, "*ast.BlockStmt[]:")] + RenderEach(list, level + 1, true)
  }

  /** One node, dispatched on its kind. The four leaf kinds print a single
      line: a basic literal its token name and literal text, any other
      statement its "%+#v" dump, any other value its "%T" and "%+#v", and a
      nil interface what Go's fmt prints for it. */
  function RenderNode(n: Node, level: nat, composite: bool): (r: seq<Line>)
    requires composite ==> level >= 1
    decreases Size(n), 1
  {
    match n
    case ArrayType(elt) =>
      RenderArrayType(elt, level, composite)
    case FuncDecl(name, body) =>
      RenderFuncDecl(name, body, level, composite)
    case Block(list) =>
      RenderBlock(list, level)
    case Return(results) =>
      RenderReturn(results, level, composite)
    case ExprStmt(dump, x) =>
      RenderExprStmt(dump, x, level, composite)
    case Call(fun, args) =>
      RenderCall(fun, args, level, composite)
    case Selector(x, sel) =>
      RenderSelector(x, sel, level, composite)
    case KeyValue(key, value) =>
      RenderKeyValue(key, value, level, composite)
    case CompositeLit(typ, elts) =>
      RenderCompositeLit(typ, elts, level, composite)
    case BasicLit(kind, lit) =>
      [Fprint(composite, level, "ast.BasicLit kind=" + Quote(kind) + " value=" + lit)]
    case Id(ident) =>
      RenderIdent(ident, level, composite)
    case OtherStmt(dump) =>
      [Fprint(composite, level, dump)]
    case Other(tag, dump) =>
      [Fprint(composite, level, tag + " " + dump)]
    case Nil =>
      [Fprint(composite, level, "<nil> <nil>")]
  }

  /** An `*ast.ArrayType`: its element type two levels deeper, keeping the
      caller's list flag instead of resetting it. */
  function RenderArrayType(elt: Node, level: nat, composite: bool): (r: seq<Line>)
    requires composite ==> level >= 1
    decreases Size(ArrayType(elt)), 0
  {
    [Fprint(composite, level, "*ast.ArrayType"),
     Fprint(composite, level + 1, "*ast.ArrayType Elt")]
    + Render(Single(elt), level + 2, composite)
  }

  /** An `*ast.FuncDecl`: its name, then its body block two levels deeper. */
  function RenderFuncDecl(name: string, body: seq<Node>, level: nat, composite: bool): (r: seq<Line>)
    requires composite ==> level >= 1
    decreases Size(FuncDecl(name, body)), 0
  {
    [Fprint(composite, level, "*ast.FuncDecl name=" + name),
     Fprint(composite, level + 1, "*ast.FuncDecl Body:")]
    + RenderBlock(body, level + 2)
  }

  /** An `*ast.ReturnStmt`: each result is a list item two levels deeper. */
  function RenderReturn(results: seq<Node>, level: nat, composite: bool): (r: seq<Line>)
    requires composite ==> level >= 1
    decreases Size(Return(results)), 0
  {
    [Fprint(composite, level, "*ast.ReturnStmt"),
     Fprint(false, level + 1, "*ast.ReturnStmt Results[]:")]
    + RenderEach(results, level + 2, true)
  }

  /** An `*ast.ExprStmt`: its "%+#v" dump, then its expression. */
  function RenderExprStmt(dump: string, x: Node, level: nat, composite: bool): (r: seq<Line>)
    requires composite ==> level >= 1
    decreases Size(ExprStmt(dump, x)), 0
  {
    [Fprint(composite, level, dump),
     Fprint(false, level + 1, "ast.ExprStmt X")]
    + Render(Single(x), level + 2, false)
  }

  /** An `*ast.Ident`: its "%+#v" dump when unresolved; otherwise its name
      and then its binding, one level deeper and never as a list item. */
  function RenderIdent(ident: Ident, level: nat, composite: bool): (r: seq<Line>)
    requires composite ==> level >= 1
    decreases IdentSize(ident), 0
  {
    if ident.obj.Some? then
      [Fprint(composite, level, "*ast.Ident name=" + ident.name)]
      + Render(Binding(ident.obj.value), level + 1, false)
    else
      [Fprint(composite, level, ident.dump)]
  }

  /** A `*ast.CallExpr`: the callee and then the arguments, each under a
      sub-header; the arguments are passed on as a `[]ast.Expr`. */
  function RenderCall(fun: Node, args: seq<Node>, level: nat, composite: bool): (r: seq<Line>)
    requires composite ==> level >= 1
    decreases Size(Call(fun, args)), 0
  {
    [Fprint(composite, level, "*ast.CallExpr"),
     Fprint(false, level + 1, "*ast.CallExpr Fun:")]
    + Render(Single(fun), level + 2, false)
    + [Fprint(false, level + 1, "*ast.CallExpr Args[]:")]
    + Render(ExprList(args), level + 2, true)
  }

  /** A `*ast.SelectorExpr`: one line `x.sel` when it collapses, otherwise
      both sides under sub-headers that keep the caller's list flag. */
  function RenderSelector(x: Node, sel: Ident, level: nat, composite: bool): (r: seq<Line>)
    requires composite ==> level >= 1
    decreases Size(Selector(x, sel)), 0
  {
    if SelectorCollapses(x, sel) then
      [Fprint(composite, level, "*ast.SelectorExpr " + x.ident.name + "." + sel.name)]
    else
      [Fprint(composite, level, "*ast.SelectorExpr"),
       Fprint(composite, level + 1, "*ast.SelectorExpr X:")]
      + Render(Single(x), level + 2, false)
      + [Fprint(composite, level + 1, "*ast.SelectorExpr Sel:")]
      + Render(Single(Id(sel)), level + 2, false)
  }

  /** A `*ast.KeyValueExpr`: one line `key=.. value=..` when it collapses,
      otherwise key and value under plain sub-headers. */
  function RenderKeyValue(key: Node, value: Node, level: nat, composite: bool): (r: seq<Line>)
    requires composite ==> level >= 1
    decreases Size(KeyValue(key, value)), 0
  {
    if KeyValueCollapses(key, value) then
      [Fprint(composite, level, "ast.KeyValueExpr key=" + Quote(key.ident.name) + " value=" + value.lit)]
    else
      [Fprint(composite, level, "*ast.KeyValueExpr"),
       Fprint(false, level + 1, "*ast.KeyValueExpr Key:")]
      + Render(Single(key), level + 2, false)
      + [Fprint(false, level + 1, "*ast.KeyValueExpr Value:")]
      + Render(Single(value), level + 2, false)
  }

  /** An `*ast.CompositeLit`: its type (Nil when elided) and its elements,
      passed on as a `[]ast.Expr`. */
  function RenderCompositeLit(typ: Node, elts: seq<Node>, level: nat, composite: bool): (r: seq<Line>)
    requires composite ==> level >= 1
    decreases Size(CompositeLit(typ, elts)), 0
  {
    [Fprint(composite, level, "ast.CompositeLit"),
     Fprint(false, level + 1, "ast.CompositeLit Type:")]
    + Render(Single(typ), level + 2, false)
    + [Fprint(false, level + 1, "ast.CompositeLit Elts[]:")]
    + Render(ExprList(elts), level + 2, true)
  }

  /** What `main` does with a parsed file: print its declarations at the
      root, not as list items. */
  function PrintFile(decls: seq<Node>): (r: seq<Line>)
  {
    Render(DeclList(decls), 0, false)
  }
}
