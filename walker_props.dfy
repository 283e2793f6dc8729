/**
 * Properties of the walker's expression renderer and of BufferVisit in
 * walker/walker.go, stated over the text functions the walker's methods
 * are proved against.
 */
module WalkerProps {
  import opened GoStrings
  import opened GoAst
  import opened WalkerText
  import opened Walker
  import Printer

  /** parseExprList renders every element in its own place: the i-th text is the i-th expression's. */
  lemma {:induction false} ExprTextsAt(es: seq<Expr>, L: int, R: Render)
    ensures forall i :: 0 <= i < |es| ==> ExprTexts(es, L, R)[i] == ExprText(es[i], L, R)
  {
    if |es| > 0 {
      var init := es[..|es| - 1];
      ExprTextsAt(init, L, R);
      forall i | 0 <= i < |es| - 1
        ensures ExprTexts(es, L, R)[i] == ExprText(es[i], L, R)
      {
        assert init[i] == es[i];
      }
    }
  }

  /**
   * parseExprList joins in order: an empty list gives "", and one more
   * element adds ", " and its text at the end.
   */
  lemma ExprListAppend(es: seq<Expr>, e: Expr, L: int, R: Render)
    ensures ExprListText([], L, R) == ""
    ensures ExprListText([e], L, R) == ExprText(e, L, R)
    ensures |es| > 0 ==> ExprListText(es + [e], L, R) == ExprListText(es, L, R) + ", " + ExprText(e, L, R)
  {
    assert ExprTexts([e], L, R) == [ExprText(e, L, R)] by {
      assert [e][..0] == [];
    }
    if |es| > 0 {
      assert (es + [e])[..|es|] == es;
      assert ExprTexts(es + [e], L, R) == ExprTexts(es, L, R) + [ExprText(e, L, R)];
      JoinSnoc(ExprTexts(es, L, R), ExprText(e, L, R), ", ");
    }
  }

  /** A field as parseFieldList writes it: "names type" when its names are not empty, else just the type. */
  function FieldShape(names: string, typ: string): string
  {
    if |names| > 0 then names + " " + typ else typ
  }

  /** parseFieldList renders each field in its place: "names type" when its names are not empty, else just the type. */
  lemma {:induction false} FieldTextsAt(fs: seq<Field>, L: int, R: Render)
    ensures forall i :: 0 <= i < |fs| ==>
      FieldTexts(fs, L, R)[i] == FieldShape(Join(fs[i].names, ", "), ExprText(fs[i].typ, L, R))
  {
    if |fs| > 0 {
      var init := fs[..|fs| - 1];
      FieldTextsAt(init, L, R);
      forall i | 0 <= i < |fs|
        ensures FieldTexts(fs, L, R)[i] == FieldShape(Join(fs[i].names, ", "), ExprText(fs[i].typ, L, R))
      {
        if i < |fs| - 1 {
          assert init[i] == fs[i];
        }
      }
    }
  }

  /** A nil field list renders as "", whatever the separator; so does an empty one. */
  lemma FieldListEmpty(sep: string, L: int, R: Render)
    ensures FieldListText(NilFields, sep, L, R) == ""
    ensures FieldListText(FieldList([]), sep, L, R) == ""
  {
  }

  /**
   * A call ends in "...)" exactly when its Ellipsis position is set,
   * provided its arguments' text does not already end in "...".
   */
  lemma CallEllipsis(fun: Expr, args: seq<Expr>, ellipsis: nat, L: int, R: Render)
    requires !HasSuffix(ExprListText(args, L, R), "...")
    ensures HasSuffix(ExprText(CallExpr(fun, args, ellipsis), L, R), "...)") <==> ellipsis > 0
  {
    var f, a := ExprText(fun, L, R), ExprListText(args, L, R);
    assert ExprText(CallExpr(fun, args, ellipsis), L, R) == f + "(" + a + IfTrue("...", ellipsis > 0) + ")" by {
      assert ExprText(CallExpr(fun, args, ellipsis), L, R) == CompoundExprText(CallExpr(fun, args, ellipsis), L, R);
    }
    EllipsisSuffix(f, a, ellipsis > 0);
  }

  /** "f(a...)" ends in "...)", and "f(a)" does not when `a` does not end in "...". */
  lemma EllipsisSuffix(f: string, a: string, dots: bool)
    requires !HasSuffix(a, "...")
    ensures HasSuffix(f + "(" + a + IfTrue("...", dots) + ")", "...)") <==> dots
  {
    var t := f + "(" + a + IfTrue("...", dots) + ")";
    var n := |t|;
    if dots {
      assert t[n - 4..] == "...)";
    } else {
      assert t == f + "(" + a + ")";
      if n >= 4 {
        if |a| >= 3 {
          assert t[n - 4..][..3] == a[|a| - 3..];
        } else {
          var j := n - 2 - |a|;
          assert t[j] == '(' && t[n - 4..][j - (n - 4)] == t[j];
        }
      }
    }
  }

  /**
   * parseExpr closes what it opens last: a call's and a parenthesised
   * expression's text ends with ")", an index's and a slice's with "]",
   * a composite literal's with "}".
   */
  lemma ExprClosers(e: Expr, L: int, R: Render)
    ensures e.CallExpr? || e.ParenExpr? ==> HasSuffix(ExprText(e, L, R), ")")
    ensures e.IndexExpr? || e.SliceExpr? ==> HasSuffix(ExprText(e, L, R), "]")
    ensures e.CompositeLit? ==> HasSuffix(ExprText(e, L, R), "}")
  {
    if e.CallExpr? || e.SliceExpr? || e.CompositeLit? {
      CompoundCloses(e, L, R);
    } else if e.ParenExpr? || e.IndexExpr? {
      OperatorCloses(e, L, R);
    }
  }

  lemma CompoundCloses(e: Expr, L: int, R: Render)
    requires e.CallExpr? || e.SliceExpr? || e.CompositeLit?
    ensures var t := CompoundExprText(e, L, R);
      ExprText(e, L, R) == t && |t| > 0
      && t[|t| - 1] == (if e.CallExpr? then ')' else if e.SliceExpr? then ']' else '}')
  {
  }

  lemma OperatorCloses(e: Expr, L: int, R: Render)
    requires e.ParenExpr? || e.IndexExpr?
    ensures var t := OperatorExprText(e, L, R);
      ExprText(e, L, R) == t && |t| > 0 && t[|t| - 1] == (if e.ParenExpr? then ')' else ']')
  {
  }

  /** parseExpr: nil renders as "", and an expression kind it does not know as the placeholder "/* Expr: &ast.Kind{...} */". */
  lemma NilAndUnknownExpr(kind: string, L: int, R: Render)
    ensures ExprText(NilExpr, L, R) == ""
    ensures var t := ExprText(OtherExpr(kind), L, R);
      HasPrefix(t, "/* Expr: &ast.") && HasSuffix(t, "{...} */") && |t| == |kind| + 22
  {
    var t := ExprText(OtherExpr(kind), L, R);
    assert t == "/* Expr: " + ("&ast." + kind + "{...}") + " */";
    assert t[..14] == "/* Expr: &ast.";
    assert t[|t| - 8..] == "{...} */";
  }

  /**
   * BufferVisit as written, called with flushing off on a buffer that holds
   * the enclosing capture's text "a", for a statement whose text is "b":
   * it returns "ab", which holds the enclosing text as well, and leaves
   * "ab" in the buffer, so the enclosing capture gets "b" a second time
   * when it takes the buffer. BufferVisitStmt returns "b" and leaves the
   * buffer as it was.
   */
  lemma NestedCaptureDuplicates()
    ensures NestedCaptureAsWritten("a", "b") == ("ab", "ab")
  {
    assert "a" + "b" == "ab";
    assert 'a' !in Space && 'b' !in Space;
    TrimSpaceTrimmed("ab");
  }

  // ----- the walk writes only through the printer -----

  /** A printer that writes nothing for any call at any level. */
  ghost predicate Mute(R: Render)
  {
    forall c, l :: R(c, l) == ""
  }

  /**
   * Visit writes a statement only through its printer: with a printer
   * that writes nothing, the walk of any statement writes nothing.
   */
  lemma {:induction false} MuteStmt(s: Stmt, L: int, R: Render)
    requires Mute(R)
    ensures StmtText(s, L, R) == ""
    decreases s, 2
  {
    if s.BlockStmt? || s.CaseClause? || s.DeclStmt? {
      MuteListStmt(s, L, R);
    } else if s.IfStmt? {
      MuteStmt(s.body, L, R);
      if s.els.Some? {
        MuteStmt(s.els.value, L, R);
      }
      assert StmtText(s, L, R) == R(PrintIf(OptCaptureText(s.init, L, R), ExprText(s.cond, L, R)), L)
        + StmtText(s.body, L, R)
        + (if s.els.Some? then R(SameLine, L) + R(PrintElse, L) + StmtText(s.els.value, L, R) else "")
        + R(Print("\n"), L);
    } else if s.ForStmt? || s.SwitchStmt? || s.TypeSwitchStmt? || s.RangeStmt? {
      MuteStmt(s.body, L, R);
    }
  }

  /** The statements that hold a list of statements or a declaration. */
  lemma {:induction false} MuteListStmt(s: Stmt, L: int, R: Render)
    requires Mute(R) && (s.BlockStmt? || s.CaseClause? || s.DeclStmt?)
    ensures StmtText(s, L, R) == ""
    decreases s, 1
  {
    match s
    case BlockStmt(list) => MuteStmts(list, L + UP, R);
    case CaseClause(_, stmts) => MuteStmts(stmts, L + UP, R);
    case DeclStmt(decl) => MuteDecl(decl, L, R);
  }

  lemma {:induction false} MuteStmts(ss: seq<Stmt>, L: int, R: Render)
    requires Mute(R)
    ensures StmtsText(ss, L, R) == ""
    decreases ss, 0
  {
    if |ss| > 0 {
      MuteStmts(ss[..|ss| - 1], L, R);
      MuteStmt(ss[|ss| - 1], L, R);
    }
  }

  /** The same holds of a declaration: its specs, or its function header and body. */
  lemma {:induction false} MuteDecl(d: Decl, L: int, R: Render)
    requires Mute(R)
    ensures DeclText(d, L, R) == ""
    decreases d, 0
  {
    match d
    case GenDecl(tok, specs) => MuteSpecs(specs, tok, L, R);
    case FuncDecl(_, _, _, _, body) => MuteStmt(body, L, R);
    case BadDecl =>
  }

  lemma {:induction false} MuteSpecs(sps: seq<Spec>, tok: string, L: int, R: Render)
    requires Mute(R)
    ensures SpecsText(sps, tok, L, R) == ""
  {
    if |sps| > 0 {
      MuteSpecs(sps[..|sps| - 1], tok, L, R);
    }
  }

  /** ... and of a whole file: everything the walk of a file writes comes from its printer. */
  lemma MuteFile(f: File, L: int, R: Render)
    requires Mute(R)
    ensures FileText(f, L, R) == ""
  {
    MuteDecls(f.decls, L, R);
  }

  lemma {:induction false} MuteDecls(ds: seq<Decl>, L: int, R: Render)
    requires Mute(R)
    ensures DeclsText(ds, L, R) == ""
  {
    if |ds| > 0 {
      MuteDecls(ds[..|ds| - 1], L, R);
      MuteDecl(ds[|ds| - 1], L, R);
    }
  }
}
