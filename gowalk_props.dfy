/**
 * Properties of go-walk.go's renderers and of the text its walker writes,
 * stated over the functions GoWalk's methods are proved against.
 */
module GoWalkProps {
  import opened GoStrings
  import opened GoAst
  import opened GoWalk

  /** parseExprList renders every element in its own place: the i-th text is the i-th expression's. */
  lemma {:induction false} ExprTextsAt(es: seq<Expr>)
    ensures forall i :: 0 <= i < |es| ==> ExprTexts(es)[i] == ExprText(es[i])
  {
    if |es| > 0 {
      var init := es[..|es| - 1];
      ExprTextsAt(init);
      forall i | 0 <= i < |es| - 1
        ensures ExprTexts(es)[i] == ExprText(es[i])
      {
        assert init[i] == es[i];
      }
    }
  }

  /**
   * parseExprList joins in order: an empty list gives "", one expression
   * gives its own text, and one more element adds ", " and its text.
   */
  lemma ExprListAppend(es: seq<Expr>, e: Expr)
    ensures ExprListText([]) == ""
    ensures ExprListText([e]) == ExprText(e)
    ensures |es| > 0 ==> ExprListText(es + [e]) == ExprListText(es) + ", " + ExprText(e)
  {
    assert ExprTexts([e]) == [ExprText(e)] by {
      assert [e][..0] == [];
    }
    if |es| > 0 {
      assert (es + [e])[..|es|] == es;
      assert ExprTexts(es + [e]) == ExprTexts(es) + [ExprText(e)];
      JoinSnoc(ExprTexts(es), ExprText(e), ", ");
    }
  }

  /**
   * parseFieldList renders each field in its place as its names, a blank
   * and its type; a field without names still starts with the blank.
   */
  lemma FieldTextsAt(fs: seq<Field>)
    ensures forall i :: 0 <= i < |fs| ==> FieldTexts(fs)[i] == ParseNames(fs[i].names) + " " + ExprText(fs[i].typ)
    ensures forall i :: 0 <= i < |fs| && fs[i].names == [] ==> FieldTexts(fs)[i] == " " + ExprText(fs[i].typ)
  {
    FieldTextsIn(fs);
    forall i | 0 <= i < |fs|
      ensures FieldTexts(fs)[i] == ParseNames(fs[i].names) + " " + ExprText(fs[i].typ)
      ensures fs[i].names == [] ==> FieldTexts(fs)[i] == " " + ExprText(fs[i].typ)
    {
      FieldTextOf(fs[i]);
    }
  }

  /**
   * parseFieldList: a list that is there is always parenthesised, even
   * when empty; a nil list is "()" unless `omitempty`, and only a nil list
   * with `omitempty` gives "".
   */
  lemma FieldListParens(fl: FieldList, omitempty: bool)
    ensures fl.FieldList? ==> var r := FieldListText(fl, omitempty);
      |r| >= 2 && r[0] == '(' && r[|r| - 1] == ')' && r[1..|r| - 1] == Join(FieldTexts(fl.list), ", ")
    ensures fl.NilFields? ==> FieldListText(fl, omitempty) == (if omitempty then "" else "()")
    ensures FieldListText(fl, omitempty) == "" <==> fl.NilFields? && omitempty
  {
    if fl.FieldList? {
      var r := FieldListText(fl, omitempty);
      assert r[1..|r| - 1] == Join(FieldTexts(fl.list), ", ");
    }
  }

  /**
   * A function type wraps its parameter list, which parseFieldList has
   * already parenthesised, in a second pair of parentheses: the text
   * always begins "((", and a function type without parameters or
   * results is "(()) ".
   */
  lemma FuncTypeDoubleParens(params: FieldList, results: FieldList)
    ensures HasPrefix(ExprText(FuncType(params, results)), "((")
    ensures ExprText(FuncType(NilFields, NilFields)) == "(()) "
  {
    var ps := FieldListText(params, false);
    FieldListParens(params, false);
    assert ps[0] == '(';
    assert ExprText(FuncType(params, results)) == "(" + ps + ") " + FieldListText(results, true);
  }

  /** An expression kind parseExpr has no case for comes out as "[[[ " + its dump + " ]]]". */
  lemma ExprPlaceholderShape(e: Expr)
    requires UnhandledExpr(e)
    ensures ExprText(e) == ExprPlaceholder(ExprKind(e))
    ensures HasPrefix(ExprText(e), "[[[ ") && HasSuffix(ExprText(e), " ]]]")
  {
    PlaceholderAffixes(ExprKind(e));
  }

  lemma PlaceholderAffixes(k: string)
    ensures HasPrefix(ExprPlaceholder(k), "[[[ ") && HasSuffix(ExprPlaceholder(k), " ]]]")
  {
    var t := ExprPlaceholder(k);
    assert t[..4] == "[[[ ";
    assert t[|t| - 4..] == " ]]]";
  }

  lemma {:induction false} FieldTextsIn(fs: seq<Field>)
    ensures forall i :: 0 <= i < |fs| ==> FieldTexts(fs)[i] == FieldText(fs[i])
  {
    if |fs| > 0 {
      var init := fs[..|fs| - 1];
      FieldTextsIn(init);
      forall i | 0 <= i < |fs| - 1
        ensures FieldTexts(fs)[i] == FieldText(fs[i])
      {
        assert init[i] == fs[i];
      }
    }
  }

  lemma FieldTextOf(f: Field)
    ensures FieldText(f) == ParseNames(f.names) + " " + ExprText(f.typ)
    ensures f.names == [] ==> FieldText(f) == " " + ExprText(f.typ)
  {
    if f.names == [] {
      assert ParseNames(f.names) == "";
    }
  }

  /** The expression statements of `xs`, in order. */
  function ExprStmts(xs: seq<Expr>): (r: seq<Stmt>)
    ensures |r| == |xs| && forall i :: 0 <= i < |xs| ==> r[i] == ExprStmt(xs[i])
  {
    seq(|xs|, i requires 0 <= i < |xs| => ExprStmt(xs[i]))
  }

  /** The lines of the expressions at level `l`: indentation, the expression, " " and a newline each. */
  function ExprLines(xs: seq<Expr>, l: nat): string
  {
    if |xs| == 0 then "" else ExprLines(xs[..|xs| - 1], l) + (Repeat("  ", l) + (ExprText(xs[|xs| - 1]) + " " + NL))
  }

  /**
   * A block writes "{" where it stands, each of its statements on a line
   * of its own one level deeper than itself, and "} " with a newline at its
   * own level: a block of expression statements at level L is "{", a
   * newline, one line per expression at the indentation of L+1, then the
   * indentation of L and "} " with a newline.
   */
  lemma BlockIndent(xs: seq<Expr>, L: nat)
    ensures StmtText(BlockStmt(ExprStmts(xs)), L)
         == "{" + NL + ExprLines(xs, L + 1) + (Repeat("  ", L) + ("}" + " " + NL))
  {
    ExprStmtLines(xs, L + 1);
    JoinTwo("}", NL, " ");
  }

  lemma {:induction false} ExprStmtLines(xs: seq<Expr>, l: nat)
    ensures StmtsText(ExprStmts(xs), l) == ExprLines(xs, l)
  {
    if |xs| > 0 {
      var init := xs[..|xs| - 1];
      ExprStmtLines(init, l);
      assert ExprStmts(xs)[..|xs| - 1] == ExprStmts(init);
      ExprStmtLine(xs[|xs| - 1], l);
    }
  }

  lemma ExprStmtLine(x: Expr, l: nat)
    ensures StmtText(ExprStmt(x), l) == Repeat("  ", l) + (ExprText(x) + " " + NL)
  {
    JoinTwo(ExprText(x), NL, " ");
  }

  /**
   * printValue leaves out the type and the value when they are empty: a
   * spec "var a, b" is "var a, b\n" at its level, and with a value v it
   * ends " = v\n".
   */
  lemma ValueSpecParts(names: seq<string>, typ: Expr, values: seq<Expr>, tok: string, L: nat)
    requires typ == NilExpr && values == []
    ensures SpecText(ValueSpec(names, typ, values), tok, L) == Repeat("  ", L) + tok + " " + ParseNames(names) + "\n"
    ensures forall v :: |ExprListText([v])| > 0 ==>
      HasSuffix(SpecText(ValueSpec(names, typ, [v]), tok, L), " = " + ExprText(v) + "\n")
  {
    assert ExprText(NilExpr) == "";
    assert ExprListText([]) == "";
    assert Join([tok, ParseNames(names)], " ") == tok + " " + ParseNames(names);
    forall v | |ExprListText([v])| > 0
      ensures HasSuffix(SpecText(ValueSpec(names, typ, [v]), tok, L), " = " + ExprText(v) + "\n")
    {
      ValueSpecWithValue(names, v, tok, L);
    }
  }

  /** A value spec with one value and no type ends with " = " and the value. */
  lemma ValueSpecWithValue(names: seq<string>, v: Expr, tok: string, L: nat)
    requires |ExprListText([v])| > 0
    ensures HasSuffix(SpecText(ValueSpec(names, NilExpr, [v]), tok, L), " = " + ExprText(v) + "\n")
  {
    ExprListAppend([], v);
    assert ExprText(NilExpr) == "";
    var t := SpecText(ValueSpec(names, NilExpr, [v]), tok, L);
    var head := LevelText(L, [tok, ParseNames(names)]);
    assert t == head + (" = " + ExprText(v) + "\n");
    SuffixAfter(head, " = " + ExprText(v) + "\n");
  }
}
