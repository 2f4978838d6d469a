/** Indentation of the printer's output: a node's first line is its header,
    exactly at the level it was called with and marked as a list item iff
    one was asked for (a block excepted); every line a call writes lies on a
    level boundary at least that deep, so a child's lines always sit to the
    right of its parent's header. */
module PrinterDepth {
  import opened Emit
  import opened Ast
  import opened Printer

  /** Every line is a text line starting at or beyond column 2*level. */
  predicate AllNested(r: seq<Line>, level: nat)
  {
    forall l :: l in r ==> Nested(l, level)
  }

  lemma Deeper(r: seq<Line>, level: nat, k: nat)
    requires AllNested(r, level + k)
    ensures AllNested(r, level)
  {
  }

  /** A header, a sub-header one level deeper, and a block of lines. */
  lemma HeadedNested(c1: bool, c2: bool, level: nat, m1: string, m2: string, a: seq<Line>)
    requires c1 ==> level >= 1
    requires AllNested(a, level)
    ensures AllNested([Fprint(c1, level, m1), Fprint(c2, level + 1, m2)] + a, level)
  {
  }

  /** As `HeadedNested`, with a second sub-header and block. */
  lemma HeadedPairNested(c1: bool, c2: bool, c3: bool, level: nat, m1: string, m2: string, m3: string,
                         a: seq<Line>, b: seq<Line>)
    requires c1 ==> level >= 1
    requires AllNested(a, level) && AllNested(b, level)
    ensures AllNested([Fprint(c1, level, m1), Fprint(c2, level + 1, m2)] + a + [Fprint(c3, level + 1, m3)] + b, level)
  {
    HeadedNested(c1, c2, level, m1, m2, a);
  }

  /** Every node prints at least one line, and the first is its header: at
      column 2*level exactly, marked iff a list item was asked for, except
      that a block's header is never marked. */
  lemma NodeHeader(n: Node, level: nat, composite: bool)
    requires composite ==> level >= 1
    ensures var r := Render(Single(n), level, composite);
      && |r| >= 1 && r[0].Text? && Width(r[0]) == 2 * level
      && r[0].marker == (composite && !n.Block?)
  {
    assert Render(Single(n), level, composite) == RenderNode(n, level, composite);
    if n.ArrayType? || n.FuncDecl? || n.Return? || n.ExprStmt? || n.Call? || n.CompositeLit? {
      ExpandedHeader(n, level, composite);
    } else {
      ShortHeader(n, level, composite);
    }
  }

  lemma ExpandedHeader(n: Node, level: nat, composite: bool)
    requires composite ==> level >= 1
    requires n.ArrayType? || n.FuncDecl? || n.Return? || n.ExprStmt? || n.Call? || n.CompositeLit?
    ensures var r := RenderNode(n, level, composite);
      |r| >= 2 && r[0].Text? && Width(r[0]) == 2 * level && r[0].marker == composite
  {
  }

  lemma ShortHeader(n: Node, level: nat, composite: bool)
    requires composite ==> level >= 1
    requires !(n.ArrayType? || n.FuncDecl? || n.Return? || n.ExprStmt? || n.Call? || n.CompositeLit?)
    ensures var r := RenderNode(n, level, composite);
      && |r| >= 1 && r[0].Text? && Width(r[0]) == 2 * level
      && r[0].marker == (composite && !n.Block?)
  {
  }

  /** Whatever it is handed, the printer writes only separators and lines
      at least `level` deep. */
  lemma {:induction false} RenderDepth(input: Input, level: nat, composite: bool)
    requires composite ==> level >= 1
    ensures forall l :: l in Render(input, level, composite) ==> l.Rule? || Nested(l, level)
    decreases InputSize(input), 2
  {
    match input
    case DeclList(decls) => DeclsDepth(decls, level);
    case ExprList(exprs) => EachDepth(exprs, level, level > 0);
    case AnyList(values) => EachDepth(values, level, level > 0);
    case Single(n) => NodeDepth(n, level, composite);
    case Binding(obj) =>
  }

  lemma {:induction false} DeclsDepth(decls: seq<Node>, level: nat)
    ensures forall l :: l in RenderDecls(decls, level) ==> l.Rule? || Nested(l, level)
    decreases ListSize(decls), 0
  {
    if decls != [] {
      NodeDepth(decls[0], level, level > 0);
      assert Render(Single(decls[0]), level, level > 0) == RenderNode(decls[0], level, level > 0);
      DeclsDepth(decls[1..], level);
    }
  }

  lemma {:induction false} EachDepth(s: seq<Node>, level: nat, composite: bool)
    requires composite ==> level >= 1
    ensures AllNested(RenderEach(s, level, composite), level)
    decreases ListSize(s), 0
  {
    if s != [] {
      NodeDepth(s[0], level, composite);
      assert Render(Single(s[0]), level, composite) == RenderNode(s[0], level, composite);
      EachDepth(s[1..], level, composite);
    }
  }

  lemma {:induction false} BlockDepth(list: seq<Node>, level: nat)
    ensures AllNested(RenderBlock(list, level), level)
    decreases ListSize(list), 1
  {
    EachDepth(list, level + 1, true);
    Deeper(RenderEach(list, level + 1, true), level, 1);
  }

  /** A child printed k levels deeper than its parent, without separators. */
  lemma {:induction false} ChildDepth(n: Node, level: nat, k: nat, composite: bool)
    requires composite ==> level + k >= 1
    ensures AllNested(Render(Single(n), level + k, composite), level)
    decreases Size(n), 4
  {
    NodeDepth(n, level + k, composite);
    Deeper(Render(Single(n), level + k, composite), level, k);
  }

  lemma {:induction false} ChildListDepth(s: seq<Node>, level: nat, k: nat)
    requires level + k >= 1
    ensures AllNested(Render(ExprList(s), level + k, true), level)
    decreases ListSize(s), 1
  {
    EachDepth(s, level + k, true);
    assert Render(ExprList(s), level + k, true) == RenderEach(s, level + k, true);
    Deeper(RenderEach(s, level + k, true), level, k);
  }

  /** One node: every line, header included, is at least `level` deep. */
  lemma {:induction false} NodeDepth(n: Node, level: nat, composite: bool)
    requires composite ==> level >= 1
    ensures AllNested(Render(Single(n), level, composite), level)
    decreases Size(n), 3
  {
    assert Render(Single(n), level, composite) == RenderNode(n, level, composite);
    if n.BasicLit? || n.Id? || n.OtherStmt? || n.Other? || n.Nil? {
      LeafDepth(n, level, composite);
    } else if n.FuncDecl? || n.Block? || n.Return? || n.ExprStmt? {
      StatementDepth(n, level, composite);
    } else {
      ExpressionDepth(n, level, composite);
    }
  }

  lemma LeafDepth(n: Node, level: nat, composite: bool)
    requires composite ==> level >= 1
    requires n.BasicLit? || n.Id? || n.OtherStmt? || n.Other? || n.Nil?
    ensures AllNested(RenderNode(n, level, composite), level)
  {
    if n.Id? {
      IdentDepth(n.ident, level, composite);
    }
  }

  lemma {:induction false} StatementDepth(n: Node, level: nat, composite: bool)
    requires composite ==> level >= 1
    requires n.FuncDecl? || n.Block? || n.Return? || n.ExprStmt?
    ensures AllNested(RenderNode(n, level, composite), level)
    decreases Size(n), 2
  {
    if n.FuncDecl? {
      FuncDeclDepth(n.name, n.body, level, composite);
    } else if n.Block? {
      BlockDepth(n.list, level);
    } else if n.Return? {
      ReturnDepth(n.results, level, composite);
    } else {
      ExprStmtDepth(n.dump, n.x, level, composite);
    }
  }

  lemma {:induction false} ExpressionDepth(n: Node, level: nat, composite: bool)
    requires composite ==> level >= 1
    requires n.ArrayType? || n.Call? || n.Selector? || n.KeyValue? || n.CompositeLit?
    ensures AllNested(RenderNode(n, level, composite), level)
    decreases Size(n), 2
  {
    if n.ArrayType? {
      ArrayTypeDepth(n.elt, level, composite);
    } else if n.Call? {
      CallDepth(n.fun, n.args, level, composite);
    } else if n.Selector? {
      SelectorDepth(n.x, n.sel, level, composite);
    } else if n.KeyValue? {
      KeyValueDepth(n.key, n.value, level, composite);
    } else {
      CompositeLitDepth(n.typ, n.elts, level, composite);
    }
  }

  lemma {:induction false} ArrayTypeDepth(elt: Node, level: nat, composite: bool)
    requires composite ==> level >= 1
    ensures AllNested(RenderArrayType(elt, level, composite), level)
    decreases Size(ArrayType(elt)), 1
  {
    ChildDepth(elt, level, 2, composite);
    HeadedNested(composite, composite, level, "*ast.ArrayType", "*ast.ArrayType Elt",
                 Render(Single(elt), level + 2, composite));
  }

  lemma {:induction false} FuncDeclDepth(name: string, body: seq<Node>, level: nat, composite: bool)
    requires composite ==> level >= 1
    ensures AllNested(RenderFuncDecl(name, body, level, composite), level)
    decreases Size(FuncDecl(name, body)), 1
  {
    BlockDepth(body, level + 2);
    Deeper(RenderBlock(body, level + 2), level, 2);
    HeadedNested(composite, composite, level, "*ast.FuncDecl name=" + name, "*ast.FuncDecl Body:",
                 RenderBlock(body, level + 2));
  }

  lemma {:induction false} ReturnDepth(results: seq<Node>, level: nat, composite: bool)
    requires composite ==> level >= 1
    ensures AllNested(RenderReturn(results, level, composite), level)
    decreases Size(Return(results)), 1
  {
    EachDepth(results, level + 2, true);
    Deeper(RenderEach(results, level + 2, true), level, 2);
    HeadedNested(composite, false, level, "*ast.ReturnStmt", "*ast.ReturnStmt Results[]:",
                 RenderEach(results, level + 2, true));
  }

  lemma {:induction false} ExprStmtDepth(dump: string, x: Node, level: nat, composite: bool)
    requires composite ==> level >= 1
    ensures AllNested(RenderExprStmt(dump, x, level, composite), level)
    decreases Size(ExprStmt(dump, x)), 1
  {
    ChildDepth(x, level, 2, false);
    HeadedNested(composite, false, level, dump, "ast.ExprStmt X", Render(Single(x), level + 2, false));
  }

  lemma IdentDepth(ident: Ident, level: nat, composite: bool)
    requires composite ==> level >= 1
    ensures AllNested(RenderIdent(ident, level, composite), level)
  {
    if ident.obj.Some? {
      assert Render(Binding(ident.obj.value), level + 1, false) == [Fprint(false, level + 1, ident.obj.value.dump)];
    }
  }

  lemma {:induction false} CallDepth(fun: Node, args: seq<Node>, level: nat, composite: bool)
    requires composite ==> level >= 1
    ensures AllNested(RenderCall(fun, args, level, composite), level)
    decreases Size(Call(fun, args)), 1
  {
    ChildDepth(fun, level, 2, false);
    ChildListDepth(args, level, 2);
    HeadedPairNested(composite, false, false, level, "*ast.CallExpr", "*ast.CallExpr Fun:", "*ast.CallExpr Args[]:",
                     Render(Single(fun), level + 2, false), Render(ExprList(args), level + 2, true));
  }

  lemma {:induction false} SelectorDepth(x: Node, sel: Ident, level: nat, composite: bool)
    requires composite ==> level >= 1
    ensures AllNested(RenderSelector(x, sel, level, composite), level)
    decreases Size(Selector(x, sel)), 1
  {
    if !SelectorCollapses(x, sel) {
      ChildDepth(x, level, 2, false);
      ChildDepth(Id(sel), level, 2, false);
      HeadedPairNested(composite, composite, composite, level,
                       "*ast.SelectorExpr", "*ast.SelectorExpr X:", "*ast.SelectorExpr Sel:",
                       Render(Single(x), level + 2, false), Render(Single(Id(sel)), level + 2, false));
    }
  }

  lemma {:induction false} KeyValueDepth(key: Node, value: Node, level: nat, composite: bool)
    requires composite ==> level >= 1
    ensures AllNested(RenderKeyValue(key, value, level, composite), level)
    decreases Size(KeyValue(key, value)), 1
  {
    if !KeyValueCollapses(key, value) {
      ChildDepth(key, level, 2, false);
      ChildDepth(value, level, 2, false);
      HeadedPairNested(composite, false, false, level,
                       "*ast.KeyValueExpr", "*ast.KeyValueExpr Key:", "*ast.KeyValueExpr Value:",
                       Render(Single(key), level + 2, false), Render(Single(value), level + 2, false));
    }
  }

  lemma {:induction false} CompositeLitDepth(typ: Node, elts: seq<Node>, level: nat, composite: bool)
    requires composite ==> level >= 1
    ensures AllNested(RenderCompositeLit(typ, elts, level, composite), level)
    decreases Size(CompositeLit(typ, elts)), 1
  {
    ChildDepth(typ, level, 2, false);
    ChildListDepth(elts, level, 2);
    HeadedPairNested(composite, false, false, level, "ast.CompositeLit", "ast.CompositeLit Type:", "ast.CompositeLit Elts[]:",
                     Render(Single(typ), level + 2, false), Render(ExprList(elts), level + 2, true));
  }
}
