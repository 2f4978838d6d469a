/** Termination made visible: every recursive call of the printer is on a
    strict part of its argument or on a binding, which prints as a leaf, so
    the output is finite, and at most three lines are written per node or
    list element of the tree. */
module PrinterBound {
  import opened Emit
  import opened Ast
  import opened Printer

  /** The number of lines printed is at most three times the size of the
      argument. */
  lemma {:induction false} RenderBound(input: Input, level: nat, composite: bool)
    requires composite ==> level >= 1
    ensures |Render(input, level, composite)| <= 3 * InputSize(input)
    decreases InputSize(input), 3
  {
    match input
    case DeclList(decls) => DeclsBound(decls, level);
    case ExprList(exprs) => EachBound(exprs, level, level > 0);
    case AnyList(values) => EachBound(values, level, level > 0);
    case Single(n) => NodeBound(n, level, composite);
    case Binding(obj) =>
  }

  lemma {:induction false} DeclsBound(decls: seq<Node>, level: nat)
    ensures |RenderDecls(decls, level)| <= 3 * ListSize(decls)
    decreases ListSize(decls), 0
  {
    if decls != [] {
      RenderBound(Single(decls[0]), level, level > 0);
      DeclsBound(decls[1..], level);
    }
  }

  lemma {:induction false} EachBound(s: seq<Node>, level: nat, composite: bool)
    requires composite ==> level >= 1
    ensures |RenderEach(s, level, composite)| <= 3 * ListSize(s)
    decreases ListSize(s), 0
  {
    if s != [] {
      RenderBound(Single(s[0]), level, composite);
      EachBound(s[1..], level, composite);
    }
  }

  lemma {:induction false} BlockBound(list: seq<Node>, level: nat)
    ensures |RenderBlock(list, level)| <= 1 + 3 * ListSize(list)
    decreases ListSize(list), 1
  {
    EachBound(list, level + 1, true);
  }

  lemma {:induction false} NodeBound(n: Node, level: nat, composite: bool)
    requires composite ==> level >= 1
    ensures |RenderNode(n, level, composite)| <= 3 * Size(n)
    decreases Size(n), 2
  {
    if n.BasicLit? || n.Id? || n.OtherStmt? || n.Other? || n.Nil? {
      LeafBound(n, level, composite);
    } else if n.FuncDecl? || n.Block? || n.Return? || n.ExprStmt? {
      StatementBound(n, level, composite);
    } else {
      ExpressionBound(n, level, composite);
    }
  }

  lemma LeafBound(n: Node, level: nat, composite: bool)
    requires composite ==> level >= 1
    requires n.BasicLit? || n.Id? || n.OtherStmt? || n.Other? || n.Nil?
    ensures |RenderNode(n, level, composite)| <= 3 * Size(n)
  {
    if n.Id? {
      assert RenderNode(n, level, composite) == RenderIdent(n.ident, level, composite);
      if n.ident.obj.Some? {
        assert Render(Binding(n.ident.obj.value), level + 1, false) == [Fprint(false, level + 1, n.ident.obj.value.dump)];
      }
    }
  }

  lemma {:induction false} StatementBound(n: Node, level: nat, composite: bool)
    requires composite ==> level >= 1
    requires n.FuncDecl? || n.Block? || n.Return? || n.ExprStmt?
    ensures |RenderNode(n, level, composite)| <= 3 * Size(n)
    decreases Size(n), 1
  {
    if n.FuncDecl? {
      BlockBound(n.body, level + 2);
    } else if n.Block? {
      BlockBound(n.list, level);
    } else if n.Return? {
      EachBound(n.results, level + 2, true);
    } else {
      RenderBound(Single(n.x), level + 2, false);
    }
  }

  lemma {:induction false} ExpressionBound(n: Node, level: nat, composite: bool)
    requires composite ==> level >= 1
    requires n.ArrayType? || n.Call? || n.Selector? || n.KeyValue? || n.CompositeLit?
    ensures |RenderNode(n, level, composite)| <= 3 * Size(n)
    decreases Size(n), 1
  {
    if n.ArrayType? {
      RenderBound(Single(n.elt), level + 2, composite);
    } else if n.Call? {
      RenderBound(Single(n.fun), level + 2, false);
      RenderBound(ExprList(n.args), level + 2, true);
    } else if n.Selector? {
      if !SelectorCollapses(n.x, n.sel) {
        RenderBound(Single(n.x), level + 2, false);
        RenderBound(Single(Id(n.sel)), level + 2, false);
      }
    } else if n.KeyValue? {
      if !KeyValueCollapses(n.key, n.value) {
        RenderBound(Single(n.key), level + 2, false);
        RenderBound(Single(n.value), level + 2, false);
      }
    } else {
      RenderBound(Single(n.typ), level + 2, false);
      RenderBound(ExprList(n.elts), level + 2, true);
    }
  }
}
