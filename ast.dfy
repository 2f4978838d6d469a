/** The part of Go's syntax tree that the printer inspects: only the node
    kinds it dispatches on and only the fields it reads. The text that Go's
    reflection produces for "%+#v" is kept as an opaque `dump` string. */
module Ast {

  datatype Option<+T> = None | Some(value: T)

  /** `*ast.Object`: the binding an identifier may refer to. It is only ever
      printed as its "%+#v" dump, never descended into. */
  datatype Object = Object(dump: string)

  /** `*ast.Ident`: a name, the binding it resolves to (if the parser found
      one), and its "%+#v" dump. */
  datatype Ident = Ident(name: string, obj: Option<Object>, dump: string)

  /** One node as the printer sees it. */
  datatype Node =
    | ArrayType(elt: Node)                        // *ast.ArrayType (only Elt is read)
    | FuncDecl(name: string, body: seq<Node>)     // *ast.FuncDecl with the statements of its body
    | Block(list: seq<Node>)                      // *ast.BlockStmt
    | Return(results: seq<Node>)                  // *ast.ReturnStmt
    | ExprStmt(dump: string, x: Node)             // *ast.ExprStmt
    | Call(fun: Node, args: seq<Node>)            // *ast.CallExpr
    | Selector(x: Node, sel: Ident)               // *ast.SelectorExpr
    | KeyValue(key: Node, value: Node)            // *ast.KeyValueExpr
    | CompositeLit(typ: Node, elts: seq<Node>)    // *ast.CompositeLit; typ is Nil when elided
    | BasicLit(kind: string, lit: string)         // *ast.BasicLit; kind is the token's name
    | Id(ident: Ident)                            // *ast.Ident
    | OtherStmt(dump: string)                     // any other ast.Stmt
    | Other(tag: string, dump: string)            // any other ast.Expr or ast.Decl, or any other value; tag is its "%T"
    | Nil                                         // a nil interface value

  /** What `printDeclRecursive` is handed: one of the three slice types it
      recognises, a single node, or a binding. */
  datatype Input =
    | DeclList(decls: seq<Node>)     // []ast.Decl
    | ExprList(exprs: seq<Node>)     // []ast.Expr
    | AnyList(values: seq<Node>)     // []interface{}
    | Single(node: Node)
    | Binding(obj: Object)           // *ast.Object

  predicate IsList(input: Input)
  {
    input.DeclList? || input.ExprList? || input.AnyList?
  }

  /** Number of nodes and bindings in a tree; every node counts at least one. */
  function Size(n: Node): (k: nat)
    ensures k >= 1
  {
    match n
    case ArrayType(elt) => 1 + Size(elt)
    case FuncDecl(_, body) => 1 + ListSize(body)
    case Block(list) => 1 + ListSize(list)
    case Return(results) => 1 + ListSize(results)
    case ExprStmt(_, x) => 1 + Size(x)
    case Call(fun, args) => 1 + Size(fun) + ListSize(args)
    case Selector(x, sel) => 1 + Size(x) + IdentSize(sel)
    case KeyValue(key, value) => 1 + Size(key) + Size(value)
    case CompositeLit(typ, elts) => 1 + Size(typ) + ListSize(elts)
    case Id(ident) => IdentSize(ident)
    case _ => 1
  }

  function IdentSize(ident: Ident): (k: nat)
    ensures 1 <= k <= 2
  {
    if ident.obj.Some? then 2 else 1
  }

  /** Size of a list of nodes; the list itself counts one per element, so an
      element is always strictly smaller than any list holding it. */
  function ListSize(s: seq<Node>): (k: nat)
    ensures s != [] ==> k > Size(s[0])
  {
    if s == [] then 0 else 1 + Size(s[0]) + ListSize(s[1..])
  }

  function InputSize(input: Input): (k: nat)
  {
    match input
    case DeclList(s) => ListSize(s)
    case ExprList(s) => ListSize(s)
    case AnyList(s) => ListSize(s)
    case Single(n) => Size(n)
    case Binding(_) => 1
  }
}
