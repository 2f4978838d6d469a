# promdocgen AST printer, modelled in Dafny

promdocgen's `main.go` parses a Go source file and prints its syntax tree.
The printer is `printDeclRecursive`. It dispatches on the dynamic type of
its argument, and makes one print call per node header, per sub-header
and per leaf: `fprint`, which indents its message, or, for a block's
header, a direct `Printf`. A `level` argument
gives the nesting depth. A `composite` flag asks for a line to be printed
as a list item, marked with `"- "`. Separator lines `--------` come before
the root declarations. Two shapes collapse to a single line:

- a selector `x.sel` whose two sides are unresolved identifiers;
- a key-value pair whose key is an identifier and whose value is a literal.

The model has five modules:

- `Emit` (`emit.dfy`): a `Line`, which is what one print call (`fprint`,
  the block header's `Printf`, or the separator's `Println`) writes, and `fprint` as `Fprint`. `Layout` gives a
  line's characters.
- `Ast` (`ast.dfy`): the node kinds the printer dispatches on, holding only
  the fields it reads. There is also `Input`, for what the printer can be
  handed: the three slice types, one node, or an identifier's binding
  (`*ast.Object`).
- `Printer` (`printer.dfy`): `printDeclRecursive` as the mutually recursive
  functions `Render`, `RenderNode` and one function per node kind. They
  return the printed lines in order, in place of writing them to standard
  output. `PrintFile` is the call `main` makes on the parsed file.
- `PrinterDepth` (`depth.dfy`) and `PrinterBound` (`bound.dfy`): indentation
  and size facts, proved by induction over the tree.
- `PrinterFacts` (`printer_facts.dfy`): separators, element order, the
  collapse rules, the one-line kinds, the unconditional sub-headers, the
  shift property, and worked examples.

Every printer function that takes `composite` requires `composite ==> level >= 1`.
Dafny checks this precondition at every recursive call. Verifying the
printer therefore proves the source's invariant: no call ever asks for a
list item at the root, so the padding `2*level-2` is never negative.

## Model

| member | source | states |
|---|---|---|
| Printer.PrintFile | main.go:26 | the root call on a file's declarations; its output is stated by FileSeparators and EmptyMainLines |
| Printer.Render | main.go:39-56 | the dispatch on the argument's dynamic type (a binding prints as in lines 138-140); its output is stated by RenderDepth, RenderBound and RenderShift |
| Printer.RenderDecls | main.go:41-46 | a separator before each declaration; stated by SeparatorCount and DeclElementAt |
| Printer.RenderEach | main.go:47-56 | the elements in order; stated by EachElementAt and ListElementAt |
| Printer.RenderNode | main.go:57-151 | the dispatch on a node's kind, with the leaf kinds of lines 127-151; the leaf texts are stated by LeafLines, the header, depth and line count by NodeHeader, NodeDepth and OneLineExactly |
| Printer.RenderArrayType | main.go:57-61 | stated by ArrayTypeKeepsFlag |
| Printer.RenderFuncDecl | main.go:62-66 | stated by FuncDeclBody and EmptyMainLines |
| Printer.RenderBlock | main.go:67-72 | stated by BlockLayout, BlockIgnoresFlag and EmptyReturnAndBlock |
| Printer.RenderReturn | main.go:73-79 | stated by ReturnLayout, with each result placed by ListElementAt |
| Printer.RenderExprStmt | main.go:80-84 | stated by ExprStmtChild |
| Printer.RenderCall | main.go:85-91 | stated by CallLayout, with each argument placed by ListElementAt |
| Printer.RenderSelector | main.go:92-105 | stated by SelectorCollapse and ExampleSelector |
| Printer.RenderKeyValue | main.go:106-119 | stated by KeyValueCollapse and ExampleKeyValue |
| Printer.RenderCompositeLit | main.go:120-126 | stated by CompositeLitLayout, with each element placed by ListElementAt |
| Printer.RenderIdent | main.go:130-137 | the resolved branch is stated by BoundIdentifier, the unresolved one (its dump) by LeafLines |
| Printer.Quote | main.go:112-129 | `%+#v` of a string, used for the key's name in the collapsed key-value line (line 112) and the token name in the basic-literal line (line 129); stated by KeyValueCollapse, ExampleKeyValue and LeafLines |
| Emit.Spaces | main.go:31-34 | `%*s` applied to `""` with width n gives exactly n spaces |
| Emit.Fprint | main.go:29-37 | the message is kept unchanged; the line is marked iff `composite`; the message always starts at column `2*level` |
| Emit.FprintLayout | main.go:29-37 | the printed line has length `2*level + |msg|` and ends with the message; a list item is `2*level-2` spaces then `"- "`; any other line is `2*level` spaces |
| Emit.ShiftFprint | main.go:29-37 | `fprint` at one level deeper is the same line with two more columns of padding |
| PrinterDepth.NodeHeader | main.go:57-151 | every node prints at least one line; the first is its header at column `2*level` exactly; it is marked iff a list item was asked for, except a block's header, which is never marked |
| PrinterDepth.RenderDepth | main.go:39-153 | every `Line` printed (one print call) is either a separator or starts its message on a level boundary at least `level` deep |
| PrinterDepth.NodeDepth | main.go:57-151 | all lines of a node, its subtrees included, lie at least `level` deep |
| PrinterBound.RenderBound | main.go:39-153 | the recursion ends, and it prints at most three lines per node or list element of its argument |
| PrinterFacts.SeparatorCount | main.go:41-46 | a `[]ast.Decl` of length N prints exactly N separators, the first before the first declaration |
| PrinterFacts.FileSeparators | main.go:41-46 | the file as printed from the root has one separator per top-level declaration |
| PrinterFacts.DeclElementAt | main.go:41-46 | declaration i is printed in order: after the lines of those before it and a separator, at the list's level, marked iff that level is not the root |
| PrinterFacts.EachElementAt | main.go:47-56 | the elements of a list print in order, each at the list's level and flag |
| PrinterFacts.ListElementAt | main.go:47-56 | in a `[]ast.Expr`, element i prints in place, at the list's level, marked iff the level is not the root; a `[]interface{}` prints the same |
| PrinterFacts.SelectorCollapse | main.go:92-105 | one line iff both sides are unresolved identifiers, and then that line is `*ast.SelectorExpr x.sel`; otherwise header, `X:`, X's subtree two levels deeper, `Sel:`, Sel's subtree, with both sub-headers keeping the caller's flag |
| PrinterFacts.KeyValueCollapse | main.go:106-119 | one line iff the key is an identifier (resolved or not) and the value a basic literal, and then the line holds the quoted key name and the literal text; otherwise header, `Key:`, key subtree, `Value:`, value subtree, with plain sub-headers |
| PrinterFacts.OneLineExactly | main.go:57-151 | a node prints exactly one `Line` (one print call) iff it is a basic literal, an unresolved identifier, a fallback kind, nil, an empty block, or a selector or key-value pair that collapses |
| PrinterFacts.LeafLines | main.go:127-151 | each leaf prints exactly one line with its text: a basic literal `ast.BasicLit kind="<kind>" value=<literal>`, an unresolved identifier its dump, any other statement its dump, any other value its type name and dump, nil `<nil> <nil>` |
| PrinterFacts.BoundIdentifier | main.go:130-140 | an identifier with a binding prints its name line, then exactly one plain line for the binding one level deeper, and nothing else |
| PrinterFacts.CallLayout | main.go:85-91 | for any arguments: the header, a plain `Fun:` sub-header, the callee unmarked two levels deeper, a plain `Args[]:` sub-header, then the arguments as a `[]ast.Expr` two levels deeper, that is as list items |
| PrinterFacts.CallHeaders | main.go:85-91 | a call with no arguments still prints its `Fun:` and `Args[]:` sub-headers, and nothing after them |
| PrinterFacts.CompositeLitLayout | main.go:120-126 | for any elements: the header, a plain `Type:` sub-header, the type unmarked two levels deeper, a plain `Elts[]:` sub-header, then the elements as a `[]ast.Expr` two levels deeper, that is as list items |
| PrinterFacts.CompositeLitHeaders | main.go:120-126 | a composite literal with no elements still prints its `Type:` and `Elts[]:` sub-headers, and nothing after them |
| PrinterFacts.ReturnLayout | main.go:73-79 | for any results: the header, a plain `Results[]:` sub-header, then the results as list items two levels deeper |
| PrinterFacts.EmptyReturnAndBlock | main.go:67-79 | a bare `return` still prints `Results[]:`; an empty block prints only its unmarked header |
| PrinterFacts.BlockLayout | main.go:67-72 | at every level, a block prints its plain header, then its statements as list items one level deeper |
| PrinterFacts.BlockIgnoresFlag | main.go:67-72 | from level 1 on, where a list item can be asked for, a block prints the same whatever the caller's flag |
| PrinterFacts.ArrayTypeKeepsFlag | main.go:57-61 | an array type passes the caller's list flag on: its header, its `Elt` sub-header and its element's header are marked iff the array type is a list item (a block element's header aside), at columns `2*level`, `2*level+2` and `2*level+4` |
| PrinterFacts.FuncDeclBody | main.go:62-72 | a function declaration prints its name line, its `Body:` sub-header, the body's unmarked block header two levels deeper, then each body statement as a list item three levels deeper |
| PrinterFacts.ExprStmtChild | main.go:80-84 | an expression statement prints its dump, a plain `X` sub-header, then its expression two levels deeper with an unmarked header at column `2*level+4` |
| PrinterFacts.RenderShift | main.go:39-153 | for a single node or binding, or a list from level 1 on, printing at level+1 gives the lines printed at level, each text line moved two columns right, with nothing else changed (a list at level 0 differs: its elements are not list items there) |
| PrinterFacts.RenderShiftLayout | main.go:29-153 | under the same conditions, each text line printed at level+1 is, as characters, two spaces followed by the same line printed at level |
| PrinterFacts.EmptyMainLines | main.go:41-72 | `func main() {}` prints a separator, `*ast.FuncDecl name=main`, its `Body:` sub-header one level deeper, and the empty block two levels deeper |
| PrinterFacts.ExampleEmptyMain | main.go:29-72 | the same output as characters, with 0, 2 and 4 columns of indentation |
| PrinterFacts.ExampleKeyValue | main.go:106-112 | `X: 5` as a list item at level 2 prints the single line `  - ast.KeyValueExpr key="X" value=5` |
| PrinterFacts.ExampleSelector | main.go:92-98 | `fmt.Println` at level 1 prints the single line `  *ast.SelectorExpr fmt.Println` |

## Left out

- `main` (main.go:11-27): opening the file named on the command line, `parser.ParseFile`, and printing their errors. These are I/O and a foreign parser. `PrintFile` takes the parsed declarations as its argument.
- The write to standard output: the printer returns its lines in order instead. A line does not hold its trailing newline.
- Go's reflection-driven `%T` and `%+#v` output. A `%T` of a node kind the printer names is written out as the Go type name, e.g. `*ast.CallExpr`. A `%+#v` dump is an opaque `dump` string held by the node. Any other kind carries its `%T` as an opaque `tag`.
- `token.Token.String()`: a basic literal holds its token kind as an already-printed name.
- Printer.Quote: `%+#v` of a string is modelled as the text between double quotes, without Go's escaping of special characters. The identifiers and token names it is applied to never contain such characters.
- Emit.Fprint: Go's `%*s` with a negative width is not modelled. Fprint requires `composite ==> level >= 1`, and every call in the printer meets that requirement (Dafny checks each call).
- The nil-pointer panic for a function declaration without a body (main.go:66, 70): a body is a sequence of statements, so it is always present.
- Typed nil pointers of the other handled kinds, which would also panic: a node value is never nil, except the untyped `Nil`.
- Fields the printer never reads (positions, `ArrayType.Len`, the rest of `go/ast`'s types). Also, `[]interface{}` elements are limited to nodes.
- A `Line` is one print call (`fprint`, the block header's `Printf`, or the separator's `Println`), not one physical line of output. A basic literal's text is printed verbatim with `%v` (main.go:112, 129), so a raw string literal that spans several source lines is kept whole in one message: it is neither split at its newlines nor indented after them. "One line" and "at least `level` deep" in the table are facts about `Line`s.
- Behaviour of the printer that is easy to misread; the model follows main.go:
  - a separator precedes every root declaration, the first included;
  - the `Args[]:`, `Elts[]:` and `Results[]:` sub-headers are printed unconditionally;
  - a block's header is unmarked, and its statements are list items one level deeper;
  - the selector's `X:` and `Sel:` sub-headers keep the caller's flag;
  - the collapsed key-value line reads `ast.KeyValueExpr key="<name>" value=<literal>`.
