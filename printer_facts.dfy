/** Properties of the printer: separators, order of list elements, the two
    collapse rules, the one-line kinds, unconditional headers, and the fact
    that printing one level deeper only moves every line two columns right. */
module PrinterFacts {
  import opened Emit
  import opened Ast
  import opened Printer
  import PrinterDepth

  /** Number of separator lines. */
  function Separators(lines: seq<Line>): (k: nat)
  {
    if lines == [] then 0 else (if lines[0].Rule? then 1 else 0) + Separators(lines[1..])
  }

  lemma {:induction false} SeparatorsAppend(a: seq<Line>, b: seq<Line>)
    ensures Separators(a + b) == Separators(a) + Separators(b)
  {
    if a == [] {
      assert a + b == b;
    } else {
      assert (a + b)[1..] == a[1..] + b;
      SeparatorsAppend(a[1..], b);
    }
  }

  lemma {:induction false} NoSeparators(lines: seq<Line>)
    requires Rule !in lines
    ensures Separators(lines) == 0
  {
    if lines != [] {
      assert lines[0] in lines;
      assert forall l :: l in lines[1..] ==> l in lines;
      NoSeparators(lines[1..]);
    }
  }

  /** A declaration list of length N prints exactly N separators, the first
      of them before the first declaration. */
  lemma {:induction false} SeparatorCount(decls: seq<Node>, level: nat)
    ensures Separators(RenderDecls(decls, level)) == |decls|
    ensures decls != [] ==> RenderDecls(decls, level)[0] == Rule
  {
    if decls != [] {
      var head := Render(Single(decls[0]), level, level > 0);
      PrinterDepth.NodeDepth(decls[0], level, level > 0);
      assert Rule !in head;
      NoSeparators(head);
      SeparatorsAppend([Rule], head);
      SeparatorsAppend([Rule] + head, RenderDecls(decls[1..], level));
      SeparatorCount(decls[1..], level);
    }
  }

  /** The file as `main` prints it: one separator per top-level declaration. */
  lemma FileSeparators(decls: seq<Node>)
    ensures Separators(PrintFile(decls)) == |decls|
  {
    SeparatorCount(decls, 0);
  }

  lemma {:induction false} DeclsAppend(a: seq<Node>, b: seq<Node>, level: nat)
    ensures RenderDecls(a + b, level) == RenderDecls(a, level) + RenderDecls(b, level)
  {
    if a == [] {
      assert a + b == b;
    } else {
      assert (a + b)[0] == a[0] && (a + b)[1..] == a[1..] + b;
      DeclsAppend(a[1..], b, level);
    }
  }

  lemma {:induction false} EachAppend(a: seq<Node>, b: seq<Node>, level: nat, composite: bool)
    requires composite ==> level >= 1
    ensures RenderEach(a + b, level, composite) == RenderEach(a, level, composite) + RenderEach(b, level, composite)
  {
    if a == [] {
      assert a + b == b;
    } else {
      assert (a + b)[0] == a[0] && (a + b)[1..] == a[1..] + b;
      EachAppend(a[1..], b, level, composite);
    }
  }

  /** In a `[]ast.Decl`, declaration i is printed in place, after the lines
      of the declarations before it and a separator, at the list's own
      level, as a list item exactly when that level is not the root; the
      caller's flag plays no part. */
  lemma DeclElementAt(decls: seq<Node>, i: nat, level: nat, composite: bool)
    requires composite ==> level >= 1
    requires i < |decls|
    ensures Render(DeclList(decls), level, composite)
         == Render(DeclList(decls[..i]), level, composite)
          + [Rule] + Render(Single(decls[i]), level, level > 0)
          + Render(DeclList(decls[i + 1..]), level, composite)
  {
    assert decls == decls[..i] + decls[i..];
    DeclsAppend(decls[..i], decls[i..], level);
    assert decls[i..][0] == decls[i] && decls[i..][1..] == decls[i + 1..];
  }

  lemma EachElementAt(s: seq<Node>, i: nat, level: nat, composite: bool)
    requires composite ==> level >= 1
    requires i < |s|
    ensures RenderEach(s, level, composite)
         == RenderEach(s[..i], level, composite) + Render(Single(s[i]), level, composite)
          + RenderEach(s[i + 1..], level, composite)
  {
    assert s == s[..i] + s[i..];
    EachAppend(s[..i], s[i..], level, composite);
    assert s[i..][0] == s[i] && s[i..][1..] == s[i + 1..];
    assert RenderEach(s[i..], level, composite)
        == Render(Single(s[i]), level, composite) + RenderEach(s[i + 1..], level, composite);
  }

  /** In a `[]ast.Expr` or `[]interface{}`, element i is printed in place, at
      the list's own level, as a list item exactly when that level is not
      the root; the two list types print alike. */
  lemma ListElementAt(s: seq<Node>, i: nat, level: nat, composite: bool)
    requires composite ==> level >= 1
    requires i < |s|
    ensures Render(ExprList(s), level, composite)
         == Render(ExprList(s[..i]), level, composite)
          + Render(Single(s[i]), level, level > 0)
          + Render(ExprList(s[i + 1..]), level, composite)
    ensures Render(AnyList(s), level, composite) == Render(ExprList(s), level, composite)
  {
    EachElementAt(s, i, level, level > 0);
    assert Render(ExprList(s), level, composite) == RenderEach(s, level, level > 0);
    assert Render(ExprList(s[..i]), level, composite) == RenderEach(s[..i], level, level > 0);
    assert Render(ExprList(s[i + 1..]), level, composite) == RenderEach(s[i + 1..], level, level > 0);
  }

  /** Selector collapse: one line exactly when both sides are unresolved
      identifiers, and then that line is `x.sel`; otherwise the expanded
      form, whose X and Sel sub-headers keep the caller's list flag. */
  lemma SelectorCollapse(x: Node, sel: Ident, level: nat, composite: bool)
    requires composite ==> level >= 1
    ensures var r := Render(Single(Selector(x, sel)), level, composite);
      && (|r| == 1 <==> SelectorCollapses(x, sel))
      && (SelectorCollapses(x, sel) ==>
            r == [Fprint(composite, level, "*ast.SelectorExpr " + x.ident.name + "." + sel.name)])
      && (!SelectorCollapses(x, sel) ==>
            var rx := Render(Single(x), level + 2, false);
            && |r| == 3 + |rx| + |Render(Single(Id(sel)), level + 2, false)|
            && r[..2 + |rx|] == [Fprint(composite, level, "*ast.SelectorExpr"),
                                 Fprint(composite, level + 1, "*ast.SelectorExpr X:")] + rx
            && r[2 + |rx|] == Fprint(composite, level + 1, "*ast.SelectorExpr Sel:")
            && r[3 + |rx|..] == Render(Single(Id(sel)), level + 2, false))
  {
    var r := Render(Single(Selector(x, sel)), level, composite);
    assert r == RenderNode(Selector(x, sel), level, composite) == RenderSelector(x, sel, level, composite);
    if !SelectorCollapses(x, sel) {
      var head := [Fprint(composite, level, "*ast.SelectorExpr"), Fprint(composite, level + 1, "*ast.SelectorExpr X:")];
      var rx := Render(Single(x), level + 2, false);
      var rs := Render(Single(Id(sel)), level + 2, false);
      assert r == head + rx + [Fprint(composite, level + 1, "*ast.SelectorExpr Sel:")] + rs;
      assert r[..2 + |rx|] == head + rx;
      assert r[3 + |rx|..] == rs;
    }
  }

  /** Key-value collapse: one line exactly when the key is an identifier
      (resolved or not) and the value a basic literal, and then that line
      holds the quoted key name and the literal text; otherwise key and
      value under plain sub-headers. */
  lemma KeyValueCollapse(key: Node, value: Node, level: nat, composite: bool)
    requires composite ==> level >= 1
    ensures var r := Render(Single(KeyValue(key, value)), level, composite);
      && (|r| == 1 <==> key.Id? && value.BasicLit?)
      && (key.Id? && value.BasicLit? ==>
            r == [Fprint(composite, level, "ast.KeyValueExpr key=\"" + key.ident.name + "\" value=" + value.lit)])
      && (!(key.Id? && value.BasicLit?) ==>
            var rk := Render(Single(key), level + 2, false);
            && |r| == 3 + |rk| + |Render(Single(value), level + 2, false)|
            && r[..2 + |rk|] == [Fprint(composite, level, "*ast.KeyValueExpr"),
                                 Fprint(false, level + 1, "*ast.KeyValueExpr Key:")] + rk
            && r[2 + |rk|] == Fprint(false, level + 1, "*ast.KeyValueExpr Value:")
            && r[3 + |rk|..] == Render(Single(value), level + 2, false))
  {
    var r := Render(Single(KeyValue(key, value)), level, composite);
    assert r == RenderNode(KeyValue(key, value), level, composite) == RenderKeyValue(key, value, level, composite);
    if KeyValueCollapses(key, value) {
      var name, lit := key.ident.name, value.lit;
      assert "ast.KeyValueExpr key=" + Quote(name) + " value=" + lit
          == "ast.KeyValueExpr key=\"" + name + "\" value=" + lit;
    } else {
      var head := [Fprint(composite, level, "*ast.KeyValueExpr"), Fprint(false, level + 1, "*ast.KeyValueExpr Key:")];
      var rk := Render(Single(key), level + 2, false);
      var rv := Render(Single(value), level + 2, false);
      assert r == head + rk + [Fprint(false, level + 1, "*ast.KeyValueExpr Value:")] + rv;
      assert r[..2 + |rk|] == head + rk;
      assert r[3 + |rk|..] == rv;
    }
  }

  /** The node kinds that print as a single line, defined apart from the
      printer. */
  predicate OneLiner(n: Node)
  {
    match n
    case BasicLit(_, _) => true
    case OtherStmt(_) => true
    case Other(_, _) => true
    case Nil => true
    case Id(ident) => ident.obj.None?
    case Block(list) => list == []
    case Selector(x, sel) => x.Id? && x.ident.obj.None? && sel.obj.None?
    case KeyValue(key, value) => key.Id? && value.BasicLit?
    case _ => false
  }

  /** A node prints exactly one line iff it is a leaf (basic literal,
      unresolved identifier, fallback kind, nil), an empty block, or a
      selector or key-value pair that collapses. */
  lemma OneLineExactly(n: Node, level: nat, composite: bool)
    requires composite ==> level >= 1
    ensures |Render(Single(n), level, composite)| == 1 <==> OneLiner(n)
  {
    assert Render(Single(n), level, composite) == RenderNode(n, level, composite);
    if n.ArrayType? || n.FuncDecl? || n.Return? || n.ExprStmt? || n.Call? || n.CompositeLit? {
      PrinterDepth.ExpandedHeader(n, level, composite);
    } else if n.Selector? {
      SelectorCollapse(n.x, n.sel, level, composite);
    } else if n.KeyValue? {
      KeyValueCollapse(n.key, n.value, level, composite);
    } else if n.Block? {
      assert RenderNode(n, level, composite) == RenderBlock(n.list, level);
      if n.list != [] {
        assert RenderEach(n.list, level + 1, true)
            == Render(Single(n.list[0]), level + 1, true) + RenderEach(n.list[1..], level + 1, true);
        PrinterDepth.NodeHeader(n.list[0], level + 1, true);
        assert |RenderBlock(n.list, level)| >= 2;
      } else {
        assert RenderEach(n.list, level + 1, true) == [];
      }
    } else if n.Id? {
      assert RenderNode(n, level, composite) == RenderIdent(n.ident, level, composite);
      if n.ident.obj.Some? {
        assert Render(Binding(n.ident.obj.value), level + 1, false) == [Fprint(false, level + 1, n.ident.obj.value.dump)];
      }
    } else {
      assert |RenderNode(n, level, composite)| == 1;
    }
  }

  /** The text of each leaf line: a basic literal's quoted token name and
      verbatim text, an unresolved identifier's dump, any other statement's
      dump, any other value's type name and dump, and what Go prints for a
      nil interface. */
  lemma LeafLines(n: Node, level: nat, composite: bool)
    requires composite ==> level >= 1
    ensures n.BasicLit? ==>
      Render(Single(n), level, composite) == [Fprint(composite, level, "ast.BasicLit kind=\"" + n.kind + "\" value=" + n.lit)]
    ensures n.Id? && n.ident.obj.None? ==>
      Render(Single(n), level, composite) == [Fprint(composite, level, n.ident.dump)]
    ensures n.OtherStmt? ==> Render(Single(n), level, composite) == [Fprint(composite, level, n.dump)]
    ensures n.Other? ==> Render(Single(n), level, composite) == [Fprint(composite, level, n.tag + " " + n.dump)]
    ensures n.Nil? ==> Render(Single(n), level, composite) == [Fprint(composite, level, "<nil> <nil>")]
  {
    assert Render(Single(n), level, composite) == RenderNode(n, level, composite);
    if n.BasicLit? {
      assert "ast.BasicLit kind=" + Quote(n.kind) + " value=" + n.lit
          == "ast.BasicLit kind=\"" + n.kind + "\" value=" + n.lit;
    } else if n.Id? {
      assert RenderNode(n, level, composite) == RenderIdent(n.ident, level, composite);
    }
  }

  /** An identifier with a binding prints its name and then the binding as
      one plain line one level deeper; nothing below the binding is visited. */
  lemma BoundIdentifier(ident: Ident, level: nat, composite: bool)
    requires composite ==> level >= 1
    requires ident.obj.Some?
    ensures Render(Single(Id(ident)), level, composite)
         == [Fprint(composite, level, "*ast.Ident name=" + ident.name),
             Text(2 * level + 2, false, ident.obj.value.dump)]
  {
    assert Render(Single(Id(ident)), level, composite) == RenderNode(Id(ident), level, composite)
        == RenderIdent(ident, level, composite);
    assert Render(Binding(ident.obj.value), level + 1, false) == [Fprint(false, level + 1, ident.obj.value.dump)];
  }

  /** A call prints its header, its Fun sub-header, the callee two levels
      deeper, its Args[] sub-header, whether or not there are arguments, and
      then the arguments as the list they are. */
  lemma CallLayout(fun: Node, args: seq<Node>, level: nat, composite: bool)
    requires composite ==> level >= 1
    ensures Render(Single(Call(fun, args)), level, composite)
         == [Fprint(composite, level, "*ast.CallExpr"), Fprint(false, level + 1, "*ast.CallExpr Fun:")]
          + Render(Single(fun), level + 2, false)
          + [Fprint(false, level + 1, "*ast.CallExpr Args[]:")]
          + Render(ExprList(args), level + 2, true)
  {
    assert Render(Single(Call(fun, args)), level, composite) == RenderNode(Call(fun, args), level, composite)
        == RenderCall(fun, args, level, composite);
  }

  /** A call with no arguments still ends with its Args[] sub-header. */
  lemma CallHeaders(fun: Node, level: nat, composite: bool)
    requires composite ==> level >= 1
    ensures Render(Single(Call(fun, [])), level, composite)
         == [Fprint(composite, level, "*ast.CallExpr"), Fprint(false, level + 1, "*ast.CallExpr Fun:")]
          + Render(Single(fun), level + 2, false)
          + [Fprint(false, level + 1, "*ast.CallExpr Args[]:")]
  {
    CallLayout(fun, [], level, composite);
    assert Render(ExprList([]), level + 2, true) == RenderEach([], level + 2, true) == [];
  }

  /** A composite literal prints its header, its Type sub-header, the type
      two levels deeper, its Elts[] sub-header, whether or not there are
      elements, and then the elements as the list they are. */
  lemma CompositeLitLayout(typ: Node, elts: seq<Node>, level: nat, composite: bool)
    requires composite ==> level >= 1
    ensures Render(Single(CompositeLit(typ, elts)), level, composite)
         == [Fprint(composite, level, "ast.CompositeLit"), Fprint(false, level + 1, "ast.CompositeLit Type:")]
          + Render(Single(typ), level + 2, false)
          + [Fprint(false, level + 1, "ast.CompositeLit Elts[]:")]
          + Render(ExprList(elts), level + 2, true)
  {
    assert Render(Single(CompositeLit(typ, elts)), level, composite) == RenderNode(CompositeLit(typ, elts), level, composite)
        == RenderCompositeLit(typ, elts, level, composite);
  }

  /** A composite literal with no elements still ends with its Elts[]
      sub-header. */
  lemma CompositeLitHeaders(typ: Node, level: nat, composite: bool)
    requires composite ==> level >= 1
    ensures Render(Single(CompositeLit(typ, [])), level, composite)
         == [Fprint(composite, level, "ast.CompositeLit"), Fprint(false, level + 1, "ast.CompositeLit Type:")]
          + Render(Single(typ), level + 2, false)
          + [Fprint(false, level + 1, "ast.CompositeLit Elts[]:")]
  {
    CompositeLitLayout(typ, [], level, composite);
    assert Render(ExprList([]), level + 2, true) == RenderEach([], level + 2, true) == [];
  }

  /** A return statement prints its header, a plain Results[] sub-header,
      whether or not there are results, and then the results as list items
      two levels deeper. */
  lemma ReturnLayout(results: seq<Node>, level: nat, composite: bool)
    requires composite ==> level >= 1
    ensures Render(Single(Return(results)), level, composite)
         == [Fprint(composite, level, "*ast.ReturnStmt"), Fprint(false, level + 1, "*ast.ReturnStmt Results[]:")]
          + Render(ExprList(results), level + 2, true)
  {
    assert Render(Single(Return(results)), level, composite) == RenderNode(Return(results), level, composite)
        == RenderReturn(results, level, composite);
    assert Render(ExprList(results), level + 2, true) == RenderEach(results, level + 2, true);
  }

  /** A bare `return` still prints its Results[] sub-header, and an empty
      block its header, which never carries the list marker. */
  lemma EmptyReturnAndBlock(level: nat, composite: bool)
    requires composite ==> level >= 1
    ensures Render(Single(Return([])), level, composite)
         == [Fprint(composite, level, "*ast.ReturnStmt"), Fprint(false, level + 1, "*ast.ReturnStmt Results[]:")]
    ensures Render(Single(Block([])), level, composite) == [Text(2 * level, false, "*ast.BlockStmt[]:")]
  {
    ReturnLayout([], level, composite);
    assert Render(ExprList([]), level + 2, true) == RenderEach([], level + 2, true) == [];
    assert Render(Single(Block([])), level, composite) == RenderNode(Block([]), level, composite)
        == RenderBlock([], level);
  }

  /** A block prints a plain header, then each of its statements as a list
      item one level deeper, at every level. */
  lemma BlockLayout(list: seq<Node>, level: nat)
    ensures Render(Single(Block(list)), level, false)
         == [Text(2 * level, false, "*ast.BlockStmt[]:")] + Render(ExprList(list), level + 1, true)
  {
    assert Render(Single(Block(list)), level, false) == RenderNode(Block(list), level, false) == RenderBlock(list, level);
    assert Render(ExprList(list), level + 1, true) == RenderEach(list, level + 1, true);
  }

  /** A block prints the same whatever the caller's list flag. */
  lemma BlockIgnoresFlag(list: seq<Node>, level: nat)
    requires level >= 1
    ensures Render(Single(Block(list)), level, true) == Render(Single(Block(list)), level, false)
  {
    assert Render(Single(Block(list)), level, true) == RenderNode(Block(list), level, true) == RenderBlock(list, level);
    assert Render(Single(Block(list)), level, false) == RenderNode(Block(list), level, false) == RenderBlock(list, level);
  }

  /** An array type passes the caller's list flag on instead of resetting
      it: the header, its `Elt` sub-header and the element's own header are
      all marked iff the array type is a list item (a block element aside,
      whose header is never marked), at columns 2*level, 2*level+2 and
      2*level+4. */
  lemma ArrayTypeKeepsFlag(elt: Node, level: nat, composite: bool)
    requires composite ==> level >= 1
    ensures var r := Render(Single(ArrayType(elt)), level, composite);
      && |r| >= 3
      && r[0] == Fprint(composite, level, "*ast.ArrayType")
      && r[1] == Fprint(composite, level + 1, "*ast.ArrayType Elt")
      && r[2].Text? && Width(r[2]) == 2 * level + 4 && r[2].marker == (composite && !elt.Block?)
      && r[2..] == Render(Single(elt), level + 2, composite)
  {
    assert Render(Single(ArrayType(elt)), level, composite) == RenderNode(ArrayType(elt), level, composite)
        == RenderArrayType(elt, level, composite);
    PrinterDepth.NodeHeader(elt, level + 2, composite);
  }

  /** A function declaration prints its name line, its `Body:` sub-header,
      the body block's unmarked header two levels deeper, and then each body
      statement as a list item three levels deeper. */
  lemma FuncDeclBody(name: string, body: seq<Node>, level: nat, composite: bool)
    requires composite ==> level >= 1
    ensures Render(Single(FuncDecl(name, body)), level, composite)
         == [Fprint(composite, level, "*ast.FuncDecl name=" + name),
             Fprint(composite, level + 1, "*ast.FuncDecl Body:"),
             Text(2 * level + 4, false, "*ast.BlockStmt[]:")]
          + Render(ExprList(body), level + 3, true)
  {
    assert Render(Single(FuncDecl(name, body)), level, composite) == RenderNode(FuncDecl(name, body), level, composite)
        == RenderFuncDecl(name, body, level, composite);
    assert RenderBlock(body, level + 2) == [Text(2 * level + 4, false, "*ast.BlockStmt[]:")] + RenderEach(body, level + 3, true);
    assert Render(ExprList(body), level + 3, true) == RenderEach(body, level + 3, true);
  }

  /** An expression statement prints its dump, a plain `X` sub-header, and
      then its expression two levels deeper, never as a list item: the
      expression's header is unmarked at column 2*level+4. */
  lemma ExprStmtChild(dump: string, x: Node, level: nat, composite: bool)
    requires composite ==> level >= 1
    ensures var r := Render(Single(ExprStmt(dump, x)), level, composite);
      && |r| >= 3
      && r[0] == Fprint(composite, level, dump)
      && r[1] == Fprint(false, level + 1, "ast.ExprStmt X")
      && r[2].Text? && Width(r[2]) == 2 * level + 4 && !r[2].marker
      && r[2..] == Render(Single(x), level + 2, false)
  {
    assert Render(Single(ExprStmt(dump, x)), level, composite) == RenderNode(ExprStmt(dump, x), level, composite)
        == RenderExprStmt(dump, x, level, composite);
    PrinterDepth.NodeHeader(x, level + 2, false);
  }

  /** Printing one level deeper moves every text line two columns right and
      changes nothing else (a list is compared at levels where its elements
      are list items on both sides). */
  lemma {:induction false} RenderShift(input: Input, level: nat, composite: bool)
    requires composite ==> level >= 1
    requires level >= 1 || !IsList(input)
    ensures Render(input, level + 1, composite) == Shift(Render(input, level, composite))
    decreases InputSize(input), 3
  {
    match input
    case DeclList(decls) => DeclsShift(decls, level);
    case ExprList(exprs) => EachShift(exprs, level, true);
    case AnyList(values) => EachShift(values, level, true);
    case Single(n) => NodeShift(n, level, composite);
    case Binding(obj) => ShiftFprint(composite, level, obj.dump);
  }

  /** The same, as characters: at level+1 each text line prints as two
      spaces followed by what the same line prints at level. */
  lemma RenderShiftLayout(input: Input, level: nat, composite: bool, i: nat)
    requires composite ==> level >= 1
    requires level >= 1 || !IsList(input)
    requires i < |Render(input, level, composite)| && Render(input, level, composite)[i].Text?
    ensures |Render(input, level + 1, composite)| == |Render(input, level, composite)|
    ensures Layout(Render(input, level + 1, composite)[i]) == "  " + Layout(Render(input, level, composite)[i])
  {
    RenderShift(input, level, composite);
    ShiftAt(Render(input, level, composite), i);
    ShiftLayout(Render(input, level, composite)[i]);
  }

  lemma {:induction false} DeclsShift(decls: seq<Node>, level: nat)
    requires level >= 1
    ensures RenderDecls(decls, level + 1) == Shift(RenderDecls(decls, level))
    decreases ListSize(decls), 0
  {
    if decls != [] {
      var head := Render(Single(decls[0]), level, true);
      var tail := RenderDecls(decls[1..], level);
      RenderShift(Single(decls[0]), level, true);
      DeclsShift(decls[1..], level);
      ShiftAppend([Rule], head);
      ShiftAppend([Rule] + head, tail);
    }
  }

  lemma {:induction false} EachShift(s: seq<Node>, level: nat, composite: bool)
    requires composite ==> level >= 1
    ensures RenderEach(s, level + 1, composite) == Shift(RenderEach(s, level, composite))
    decreases ListSize(s), 0
  {
    if s != [] {
      assert RenderEach(s, level + 1, composite)
          == Render(Single(s[0]), level + 1, composite) + RenderEach(s[1..], level + 1, composite);
      RenderShift(Single(s[0]), level, composite);
      EachShift(s[1..], level, composite);
      ShiftAppend(Render(Single(s[0]), level, composite), RenderEach(s[1..], level, composite));
    }
  }

  lemma {:induction false} BlockShift(list: seq<Node>, level: nat)
    ensures RenderBlock(list, level + 1) == Shift(RenderBlock(list, level))
    decreases ListSize(list), 1
  {
    EachShift(list, level + 1, true);
    ShiftAppend([Text(2 * level, false, "*ast.BlockStmt[]:")], RenderEach(list, level + 1, true));
  }

  lemma {:induction false} NodeShift(n: Node, level: nat, composite: bool)
    requires composite ==> level >= 1
    ensures RenderNode(n, level + 1, composite) == Shift(RenderNode(n, level, composite))
    decreases Size(n), 2
  {
    if n.BasicLit? || n.Id? || n.OtherStmt? || n.Other? || n.Nil? {
      LeafShift(n, level, composite);
    } else if n.FuncDecl? || n.Block? || n.Return? || n.ExprStmt? {
      StatementShift(n, level, composite);
    } else {
      ExpressionShift(n, level, composite);
    }
  }

  lemma LeafShift(n: Node, level: nat, composite: bool)
    requires composite ==> level >= 1
    requires n.BasicLit? || n.Id? || n.OtherStmt? || n.Other? || n.Nil?
    ensures RenderNode(n, level + 1, composite) == Shift(RenderNode(n, level, composite))
  {
    if n.BasicLit? {
      ShiftFprint(composite, level, "ast.BasicLit kind=" + Quote(n.kind) + " value=" + n.lit);
    } else if n.Id? {
      IdentShift(n.ident, level, composite);
    } else if n.OtherStmt? {
      ShiftFprint(composite, level, n.dump);
    } else if n.Other? {
      ShiftFprint(composite, level, n.tag + " " + n.dump);
    } else {
      ShiftFprint(composite, level, "<nil> <nil>");
    }
  }

  lemma {:induction false} StatementShift(n: Node, level: nat, composite: bool)
    requires composite ==> level >= 1
    requires n.FuncDecl? || n.Block? || n.Return? || n.ExprStmt?
    ensures RenderNode(n, level + 1, composite) == Shift(RenderNode(n, level, composite))
    decreases Size(n), 1
  {
    if n.FuncDecl? {
      FuncDeclShift(n.name, n.body, level, composite);
    } else if n.Block? {
      BlockShift(n.list, level);
    } else if n.Return? {
      ReturnShift(n.results, level, composite);
    } else {
      ExprStmtShift(n.dump, n.x, level, composite);
    }
  }

  lemma {:induction false} ExpressionShift(n: Node, level: nat, composite: bool)
    requires composite ==> level >= 1
    requires n.ArrayType? || n.Call? || n.Selector? || n.KeyValue? || n.CompositeLit?
    ensures RenderNode(n, level + 1, composite) == Shift(RenderNode(n, level, composite))
    decreases Size(n), 1
  {
    if n.ArrayType? {
      ArrayTypeShift(n.elt, level, composite);
    } else if n.Call? {
      CallShift(n.fun, n.args, level, composite);
    } else if n.Selector? {
      SelectorShift(n.x, n.sel, level, composite);
    } else if n.KeyValue? {
      KeyValueShift(n.key, n.value, level, composite);
    } else {
      CompositeLitShift(n.typ, n.elts, level, composite);
    }
  }

  lemma {:induction false} ArrayTypeShift(elt: Node, level: nat, composite: bool)
    requires composite ==> level >= 1
    ensures RenderArrayType(elt, level + 1, composite) == Shift(RenderArrayType(elt, level, composite))
    decreases Size(ArrayType(elt)), 0
  {
    RenderShift(Single(elt), level + 2, composite);
    ShiftHeaded(composite, composite, level, "*ast.ArrayType", "*ast.ArrayType Elt",
                Render(Single(elt), level + 2, composite), Render(Single(elt), level + 3, composite));
  }

  lemma {:induction false} FuncDeclShift(name: string, body: seq<Node>, level: nat, composite: bool)
    requires composite ==> level >= 1
    ensures RenderFuncDecl(name, body, level + 1, composite) == Shift(RenderFuncDecl(name, body, level, composite))
    decreases Size(FuncDecl(name, body)), 0
  {
    BlockShift(body, level + 2);
    ShiftHeaded(composite, composite, level, "*ast.FuncDecl name=" + name, "*ast.FuncDecl Body:",
                RenderBlock(body, level + 2), RenderBlock(body, level + 3));
  }

  lemma {:induction false} ReturnShift(results: seq<Node>, level: nat, composite: bool)
    requires composite ==> level >= 1
    ensures RenderReturn(results, level + 1, composite) == Shift(RenderReturn(results, level, composite))
    decreases Size(Return(results)), 0
  {
    EachShift(results, level + 2, true);
    ShiftHeaded(composite, false, level, "*ast.ReturnStmt", "*ast.ReturnStmt Results[]:",
                RenderEach(results, level + 2, true), RenderEach(results, level + 3, true));
  }

  lemma {:induction false} ExprStmtShift(dump: string, x: Node, level: nat, composite: bool)
    requires composite ==> level >= 1
    ensures RenderExprStmt(dump, x, level + 1, composite) == Shift(RenderExprStmt(dump, x, level, composite))
    decreases Size(ExprStmt(dump, x)), 0
  {
    RenderShift(Single(x), level + 2, false);
    ShiftHeaded(composite, false, level, dump, "ast.ExprStmt X",
                Render(Single(x), level + 2, false), Render(Single(x), level + 3, false));
  }

  lemma {:induction false} CallShift(fun: Node, args: seq<Node>, level: nat, composite: bool)
    requires composite ==> level >= 1
    ensures RenderCall(fun, args, level + 1, composite) == Shift(RenderCall(fun, args, level, composite))
    decreases Size(Call(fun, args)), 0
  {
    RenderShift(Single(fun), level + 2, false);
    RenderShift(ExprList(args), level + 2, true);
    ShiftHeadedPair(composite, false, false, level, "*ast.CallExpr", "*ast.CallExpr Fun:", "*ast.CallExpr Args[]:",
                    Render(Single(fun), level + 2, false), Render(Single(fun), level + 3, false),
                    Render(ExprList(args), level + 2, true), Render(ExprList(args), level + 3, true));
  }

  lemma {:induction false} SelectorShift(x: Node, sel: Ident, level: nat, composite: bool)
    requires composite ==> level >= 1
    ensures RenderSelector(x, sel, level + 1, composite) == Shift(RenderSelector(x, sel, level, composite))
    decreases Size(Selector(x, sel)), 0
  {
    if SelectorCollapses(x, sel) {
      ShiftFprint(composite, level, "*ast.SelectorExpr " + x.ident.name + "." + sel.name);
    } else {
      RenderShift(Single(x), level + 2, false);
      RenderShift(Single(Id(sel)), level + 2, false);
      ShiftHeadedPair(composite, composite, composite, level,
                      "*ast.SelectorExpr", "*ast.SelectorExpr X:", "*ast.SelectorExpr Sel:",
                      Render(Single(x), level + 2, false), Render(Single(x), level + 3, false),
                      Render(Single(Id(sel)), level + 2, false), Render(Single(Id(sel)), level + 3, false));
    }
  }

  lemma {:induction false} KeyValueShift(key: Node, value: Node, level: nat, composite: bool)
    requires composite ==> level >= 1
    ensures RenderKeyValue(key, value, level + 1, composite) == Shift(RenderKeyValue(key, value, level, composite))
    decreases Size(KeyValue(key, value)), 0
  {
    if KeyValueCollapses(key, value) {
      ShiftFprint(composite, level, "ast.KeyValueExpr key=" + Quote(key.ident.name) + " value=" + value.lit);
    } else {
      RenderShift(Single(key), level + 2, false);
      RenderShift(Single(value), level + 2, false);
      ShiftHeadedPair(composite, false, false, level,
                      "*ast.KeyValueExpr", "*ast.KeyValueExpr Key:", "*ast.KeyValueExpr Value:",
                      Render(Single(key), level + 2, false), Render(Single(key), level + 3, false),
                      Render(Single(value), level + 2, false), Render(Single(value), level + 3, false));
    }
  }

  lemma {:induction false} CompositeLitShift(typ: Node, elts: seq<Node>, level: nat, composite: bool)
    requires composite ==> level >= 1
    ensures RenderCompositeLit(typ, elts, level + 1, composite) == Shift(RenderCompositeLit(typ, elts, level, composite))
    decreases Size(CompositeLit(typ, elts)), 0
  {
    RenderShift(Single(typ), level + 2, false);
    RenderShift(ExprList(elts), level + 2, true);
    ShiftHeadedPair(composite, false, false, level, "ast.CompositeLit", "ast.CompositeLit Type:", "ast.CompositeLit Elts[]:",
                    Render(Single(typ), level + 2, false), Render(Single(typ), level + 3, false),
                    Render(ExprList(elts), level + 2, true), Render(ExprList(elts), level + 3, true));
  }

  lemma {:induction false} IdentShift(ident: Ident, level: nat, composite: bool)
    requires composite ==> level >= 1
    ensures RenderIdent(ident, level + 1, composite) == Shift(RenderIdent(ident, level, composite))
    decreases IdentSize(ident), 0
  {
    var name := "*ast.Ident name=" + ident.name;
    if ident.obj.Some? {
      var o := ident.obj.value;
      assert RenderIdent(ident, level, composite) == [Fprint(composite, level, name), Fprint(false, level + 1, o.dump)];
      assert RenderIdent(ident, level + 1, composite) == [Fprint(composite, level + 1, name), Fprint(false, level + 2, o.dump)];
      ShiftFprint(composite, level, name);
      ShiftFprint(false, level + 1, o.dump);
    } else {
      ShiftFprint(composite, level, ident.dump);
    }
  }

  /** `func main() {}` as the whole file: a separator, the function header,
      its Body sub-header and the empty block, each one level deeper. */
  lemma EmptyMainLines()
    ensures PrintFile([FuncDecl("main", [])])
         == [Rule, Text(0, false, "*ast.FuncDecl name=" + "main"), Text(2, false, "*ast.FuncDecl Body:"),
             Text(4, false, "*ast.BlockStmt[]:")]
  {
    var f := FuncDecl("main", []);
    assert [f][1..] == [];
    assert PrintFile([f]) == RenderDecls([f], 0) == [Rule] + Render(Single(f), 0, false) + RenderDecls([], 0);
    assert Render(Single(f), 0, false) == RenderNode(f, 0, false) == RenderFuncDecl("main", [], 0, false);
    assert RenderBlock([], 2) == [Text(4, false, "*ast.BlockStmt[]:")];
  }

  lemma PlainLayout(pad: nat, msg: string)
    ensures Layout(Text(pad, false, msg)) == Spaces(pad) + msg
  {
  }

  /** The same output as characters: each expected line is written as its
      indentation followed by its message. */
  lemma ExampleEmptyMain()
    ensures var out := PrintFile([FuncDecl("main", [])]);
      && |out| == 4
      && Layout(out[0]) == "--------"
      && Layout(out[1]) == Spaces(0) + "*ast.FuncDecl name=" + "main"
      && Layout(out[2]) == Spaces(2) + "*ast.FuncDecl Body:"
      && Layout(out[3]) == Spaces(4) + "*ast.BlockStmt[]:"
  {
    EmptyMainLines();
    PlainLayout(0, "*ast.FuncDecl name=" + "main");
    PlainLayout(2, "*ast.FuncDecl Body:");
    PlainLayout(4, "*ast.BlockStmt[]:");
  }

  /** `X: 5` as an element of a composite literal's Elts at level 2: one
      list-item line, `  - ast.KeyValueExpr key="X" value=5`. */
  lemma ExampleKeyValue()
    ensures var out := Render(Single(KeyValue(Id(Ident("X", None, "")), BasicLit("INT", "5"))), 2, true);
      |out| == 1 && Layout(out[0]) == "  " + "- " + "ast.KeyValueExpr key=\"" + "X" + "\" value=" + "5"
  {
    KeyValueCollapse(Id(Ident("X", None, "")), BasicLit("INT", "5"), 2, true);
    assert Spaces(2) == "  ";
  }

  /** `fmt.Println` at level 1, not as a list item: one line,
      `  *ast.SelectorExpr fmt.Println`. */
  lemma ExampleSelector()
    ensures var out := Render(Single(Selector(Id(Ident("fmt", None, "")), Ident("Println", None, ""))), 1, false);
      |out| == 1 && Layout(out[0]) == "  " + "*ast.SelectorExpr " + "fmt" + "." + "Println"
  {
    SelectorCollapse(Id(Ident("fmt", None, "")), Ident("Println", None, ""), 1, false);
    assert Spaces(2) == "  ";
  }
}
